# OSBot Manager run configurations in Dafny

This project models the run configurations of OSBot Manager. A run
configuration is the object a user sets up in the manager's dialogs and then
starts. It holds:

- a RuneScape account and the scripts to run;
- an optional plain or secured (authenticated) proxy;
- memory, debug and low-usage settings;
- the worlds to pick from;
- a dozen client switches;
- the name of the log file that a run writes to.

The model covers what the configuration does with that state:

- **`toParameter`** turns the configuration into the client's command-line
  arguments.
- **`getCommands`** builds one `java -jar <client> -autologin …` command per
  script.
- **`writeObject` / `readObject`** save and load the configuration field by
  field. This includes the streams older versions wrote, and the options
  read one `try` at a time.
- **`createCopy`** duplicates a configuration.
- **`run`** launches the commands one after the other and reads each
  client's output. While reading, it tracks the Java process that appeared
  when the client reported it had loaded, and kills that process
  afterwards. A fatal line ends the whole run, unless an exit
  line, when closing the client, stopped the reading before it.
- **`stop`** kills the tracked client.
- **Scripts, plain proxies and secured proxies** are modelled with the same
  operations: their command-line arguments, their `toString`, their own
  `writeObject` / `readObject`, and `createCopy`.

Modules:

- `Wrappers`: `Option`.
- `Text`: the Java string operations the code relies on, such as
  `String.valueOf(int)`, `trim`, `toLowerCase`, `contains`, `endsWith`,
  `String.join` and `split`.
- `Collaborators`: the account, world and world-type values, reduced to the
  tokens their own `toParameter` yields.
- `Serialization`: a Java object stream as a sequence of items, with a
  cursor, and the `readBoolean` / `readInt` / `readObject` reads, each of
  which fails unless an item of its own kind stands at the cursor.
- `Proxies` and `Scripts`: the value of each object, and a class whose
  methods update its fields.
- `ConfigurationEncoding`: the persisted value `ConfigValue`, `toParameter`
  and the commands of `getCommands`. The options are also described a second
  way, as an independent vocabulary of flags, and the two are proved to
  agree.
- `ConfigurationPersistence`: the item stream `writeObject` produces, and
  what `readObject` rebuilds from any stream.
- `ConfigurationRun`: the command loop and the output-reading loop of `run`,
  as functions of what the operating system provides.
- `Configurations`: the `Configuration` class, with its fields, setters and
  copy. It also holds the imperative `readObject`, `getCommands`, `run` and
  `stop`, each proved against the functions above.

Everything the code takes from its environment is a parameter:

- **`worldIndex`, `draws`**: the index `new Random().nextInt(worlds.size())`
  returned.
- **`probe`, `probes`**: what `getAvailablePort` returned.
- **`clientPath`**: the path of the installed client jar.
- **`catalog`**: the list `World.getWorlds()` returns.
- **`existing`**: the set of files that exist.
- **`freshName`**: the log-file name a new random UUID yields.
- **`Session`**: one per launched client. It holds the Java PIDs listed
  right after the client started, and its output lines, each paired with
  the PID list a lookup at that line would return.

A few points where the code decides and this model follows it:

- The debug port is probed whenever `debugMode && debugPort != -1` does not
  hold. A configuration with debug mode off still gets a `-debug` argument
  when a free port is found.
- `createCopy` does not copy the log-file name. The copy gets a fresh one.
  The copy shares the original's script list and proxy object rather than
  copying them.
- A configuration that was constructed or loaded has PID field 0 until a run
  sets it, because the field is never initialised.
- After a fatal line, `run` marks the configuration as not running. It does
  not kill the tracked client and does not reset the PID field.
- When the second of `reflection` and `noRandoms` cannot be read, both
  default to `false`, and the first boolean stays consumed.
- A legacy `WorldType` in place of the world list is followed by a world
  number and a randomise flag. Those two are read outside any `try`, so a
  stream whose type is followed by an object, or by the end of the data,
  fails to load.

## Model

| member | source | states |
|---|---|---|
| Scripts.GetNickname | src/main/java/bot_parameters/script/Script.java:38-40 | the nickname held, or the empty string when the holder holds null |
| Scripts.ToParameter | src/main/java/bot_parameters/script/Script.java:70-77 | two tokens, `-script` then `identifier:parameters`; the parameters are always wrapped in escaped quotes, and the identifier is wrapped only for a local script |
| Scripts.ArgumentRoundTrip | src/main/java/bot_parameters/script/Script.java:70-77 | the script argument can be parsed back: splitting at the first colon and unquoting gives the identifier, the parameters and the local flag, when the identifier has no colon |
| Scripts.ToString | src/main/java/bot_parameters/script/Script.java:97-100 | the nickname as `getNickname` reports it, then ` (`, the identifier and `)`, and nothing else: it starts with the nickname, ends with the parenthesised identifier, and its length is the sum of the two plus three |
| Scripts.Write | src/main/java/bot_parameters/script/Script.java:79-84 | four items: the identifier and the parameters as strings, the local flag as a boolean, and then the held nickname as a string or `null` |
| Scripts.Decode | src/main/java/bot_parameters/script/Script.java:86-95 | a script is read exactly when the identifier and parameters are strings and the local flag is a boolean; the nickname holder of a read script always exists |
| Scripts.RoundTrip | src/main/java/bot_parameters/script/Script.java:79-95 | reading what `writeObject` wrote gives back the same script |
| Scripts.DecodeWithoutNickname | src/main/java/bot_parameters/script/Script.java:86-95 | a stream from before nicknames existed loads with the empty nickname |
| Scripts.Script.constructor | src/main/java/bot_parameters/script/Script.java:25-29 | a script with the given fields and no nickname holder |
| Scripts.Script.WithNickname | src/main/java/bot_parameters/script/Script.java:31-36 | a script with the given fields and nickname |
| Scripts.Script.SetNickname | src/main/java/bot_parameters/script/Script.java:42-44 | the holder now holds the new nickname; nothing else changes |
| Scripts.Script.SetScriptIdentifier | src/main/java/bot_parameters/script/Script.java:50-52 | only the identifier changes |
| Scripts.Script.SetParameters | src/main/java/bot_parameters/script/Script.java:58-60 | only the parameters change |
| Scripts.Script.SetIsLocal | src/main/java/bot_parameters/script/Script.java:66-68 | only the local flag changes |
| Scripts.Script.ReadObject | src/main/java/bot_parameters/script/Script.java:86-95 | succeeds exactly when `Scripts.Decode` does, and the object then holds the decoded script |
| Scripts.Script.CreateCopy | src/main/java/bot_parameters/script/Script.java:102-105 | a new script with the same identifier, parameters and local flag, and the original's nickname as `getNickname` reports it |
| Proxies.GetNickname | src/main/java/bot_parameters/proxy/Proxy.java:28-33 | the nickname, or the empty string when there is none |
| Proxies.ToParameter | src/main/java/bot_parameters/proxy/Proxy.java:67-70 | two tokens: `-proxy`, then the proxy's fields joined with `:` (address and port, and for a secured proxy also the user name and the password), which starts with `ip:port` |
| Proxies.ArgumentRoundTrip | src/main/java/bot_parameters/proxy/SecuredProxy.java:65-68 | split at colons, the proxy argument gives back the address, the port (as a number), and for a secured proxy the user name and the password |
| Proxies.ToString | src/main/java/bot_parameters/proxy/Proxy.java:72-78 | a plain proxy shows `nickname (ip:port)`, or just `ip:port` when the nickname is missing or empty; a secured proxy shows `ip:port:username` |
| Proxies.ToStringHidesSecrets | src/main/java/bot_parameters/proxy/SecuredProxy.java:70-73 | the text shown for a secured proxy depends neither on its password nor on its nickname |
| Proxies.Decode | src/main/java/bot_parameters/proxy/SecuredProxy.java:53-63 | a read proxy has the class the stream named, and its address and port are the first two items |
| Proxies.Write | src/main/java/bot_parameters/proxy/Proxy.java:51-55 | the address as a string and the port as an int; for a secured proxy the user name and the password as strings; last, `getNickname()` as a string; three items for a plain proxy and five for a secured one |
| Proxies.RoundTrip | src/main/java/bot_parameters/proxy/Proxy.java:51-65 | reading what `writeObject` wrote gives back the proxy, with the nickname `getNickname` reported |
| Proxies.DecodeWithoutNickname | src/main/java/bot_parameters/proxy/Proxy.java:57-65 | a plain proxy stream that ends before the nickname loads with no nickname, which reads as empty |
| Proxies.SecuredNicknameNeverFails | src/main/java/bot_parameters/proxy/SecuredProxy.java:53-63 | once the secured fields are read, any failure to read the nickname leaves it empty, and the load succeeds |
| Proxies.Proxy.constructor | src/main/java/bot_parameters/proxy/Proxy.java:18-21 | a plain proxy with the given address and port and no nickname |
| Proxies.Proxy.WithNickname | src/main/java/bot_parameters/proxy/Proxy.java:22-26 | a plain proxy with the given address, port and nickname |
| Proxies.Proxy.Secured | src/main/java/bot_parameters/proxy/SecuredProxy.java:17-21 | a secured proxy with the given address, port and credentials, and no nickname |
| Proxies.Proxy.SecuredWithNickname | src/main/java/bot_parameters/proxy/SecuredProxy.java:23-27 | a secured proxy with the given address, port, credentials and nickname |
| Proxies.Proxy.SetNickname | src/main/java/bot_parameters/proxy/Proxy.java:43 | only the nickname changes |
| Proxies.Proxy.SetIP | src/main/java/bot_parameters/proxy/Proxy.java:45-47 | only the address changes |
| Proxies.Proxy.SetPort | src/main/java/bot_parameters/proxy/Proxy.java:49 | only the port changes |
| Proxies.Proxy.SetUsername | src/main/java/bot_parameters/proxy/SecuredProxy.java:33-35 | only the user name of a secured proxy changes |
| Proxies.Proxy.SetPassword | src/main/java/bot_parameters/proxy/SecuredProxy.java:41-43 | only the password of a secured proxy changes |
| Proxies.Proxy.ReadObject | src/main/java/bot_parameters/proxy/Proxy.java:57-65 | succeeds exactly when `Proxies.Decode` does for the object's class, and the object then holds the decoded proxy |
| Proxies.Proxy.CreateCopy | src/main/java/bot_parameters/proxy/Proxy.java:80-86 | a new proxy of the same class with the same address, port and reported nickname; a plain copy has a nickname holder exactly when the original has one; a secured copy keeps the credentials and always has one |
| ConfigurationEncoding.OptionsFlags | src/main/java/bot_parameters/configuration/Configuration.java:206-260 | the flag tokens of the options are exactly the enabled flags, in the fixed order: breaks, memory, data, debug, allow, dismiss randoms, new mouse, mirror, launch game |
| ConfigurationEncoding.FlagCount | src/main/java/bot_parameters/configuration/Configuration.java:206-260 | each flag occurs once in the options when enabled and not at all otherwise |
| ConfigurationEncoding.OptionArguments | src/main/java/bot_parameters/configuration/Configuration.java:206-247 | the token after each valued flag is its argument, and the flag has exactly that one argument when enabled and none otherwise |
| ConfigurationEncoding.SegmentShape | src/main/java/bot_parameters/configuration/Configuration.java:206-247 | each valued flag contributes the flag and its argument when enabled and nothing otherwise; no argument looks like a flag |
| ConfigurationEncoding.BreakArgument | src/main/java/bot_parameters/configuration/Configuration.java:206-208 | with breaks enabled, the break settings are `-breaksettings true:<stopAfterBreak>` |
| ConfigurationEncoding.DebugPort | src/main/java/bot_parameters/configuration/Configuration.java:218-222 | a configured debug port wins; otherwise the probed free port is used; with no port found there is no `-debug` |
| ConfigurationEncoding.AllowListIsSelection | src/main/java/bot_parameters/configuration/Configuration.java:224-243 | the allow list holds the names of the set flags, in the order lowresource, lowcpu, reflection, norandoms, nointerface, norender |
| ConfigurationEncoding.AllowListNonEmpty | src/main/java/bot_parameters/configuration/Configuration.java:224-247 | the allow list is non-empty exactly when one of the six low-usage or allow flags is set |
| ConfigurationEncoding.AllowArgument | src/main/java/bot_parameters/configuration/Configuration.java:245-247 | the comma-joined allow argument splits back into the selected names and is not itself a flag |
| ConfigurationEncoding.AllowRoundTrip | src/main/java/bot_parameters/configuration/Configuration.java:224-247 | whenever `-allow` is emitted, its argument splits back into exactly the selected names |
| ConfigurationEncoding.TokenInjective | src/main/java/bot_parameters/configuration/Configuration.java:206-260 | distinct flags have distinct tokens |
| ConfigurationEncoding.Options | src/main/java/bot_parameters/configuration/Configuration.java:206-260 | at most fourteen tokens: a flag and its argument for each of the five valued options, and one token for each of the four switches |
| ConfigurationEncoding.ToParameter | src/main/java/bot_parameters/configuration/Configuration.java:195-266 | the arguments are the account's tokens, then the proxy's (if any), then the options, then the drawn world's tokens |
| ConfigurationEncoding.Command | src/main/java/bot_parameters/configuration/Configuration.java:394-402 | `java -jar <client> -autologin`, then the configuration's arguments for the drawn world and probed port, then the script's two arguments, each part found at its place |
| ConfigurationEncoding.GetCommands | src/main/java/bot_parameters/configuration/Configuration.java:389-406 | one command per script, the k-th built from the k-th script with the k-th drawn world and probed port |
| ConfigurationEncoding.CommandStart | src/main/java/bot_parameters/configuration/Configuration.java:389-406 | every command starts with `java -jar <client> -autologin` followed by the account's tokens |
| ConfigurationEncoding.CommandEnd | src/main/java/bot_parameters/configuration/Configuration.java:389-406 | every command ends with the drawn world's tokens and then that command's own script's arguments |
| Configurations.BuildCommands | src/main/java/bot_parameters/configuration/Configuration.java:389-406 | the loop builds exactly `GetCommands`: one command per script, in script order |
| Configurations.Configuration.GetCommands | src/main/java/bot_parameters/configuration/Configuration.java:389-406 | fails exactly when there are scripts but no worlds to draw from; otherwise yields the commands of the configuration's value |
| ConfigurationPersistence.Write | src/main/java/bot_parameters/configuration/Configuration.java:65-88 | twenty-two items, the fields in declaration order with the scripts and worlds as lists; `Decode` undoes it (see `RoundTrip`) |
| ConfigurationPersistence.WriteItems | src/main/java/bot_parameters/configuration/Configuration.java:65-88 | where each field stands in the written stream |
| ConfigurationPersistence.Decode | src/main/java/bot_parameters/configuration/Configuration.java:90-193 | loading fails exactly when a field read outside a `try` fails; a loaded configuration can be saved again, and its log-file name exists or is the fresh one |
| ConfigurationPersistence.TryPair | src/main/java/bot_parameters/configuration/Configuration.java:120-127 | both options are `false` unless both booleans are read; the cursor moves by zero, one or two items |
| ConfigurationPersistence.DecodeHead | src/main/java/bot_parameters/configuration/Configuration.java:91-118 | on success, the account is the first item, the six settings are the ints and booleans at positions 3 to 8, the worlds are read as `DecodeWorlds` says from position 9, and reading goes on at item 10 or 12, inside the stream |
| ConfigurationPersistence.TryBools | src/main/java/bot_parameters/configuration/Configuration.java:128-181 | one value per option, and the cursor advances by at most one item per option |
| ConfigurationPersistence.TryBoolsPresent | src/main/java/bot_parameters/configuration/Configuration.java:128-181 | booleans that are all present are read as written |
| ConfigurationPersistence.TryBoolsAbsent | src/main/java/bot_parameters/configuration/Configuration.java:128-181 | once a read fails, every later option defaults to `false` and the cursor stays |
| ConfigurationPersistence.TryBoolsPartial | src/main/java/bot_parameters/configuration/Configuration.java:128-181 | the booleans present are read up to the first item that is not one, and the rest default to `false` |
| ConfigurationPersistence.TryBoolsSplit | src/main/java/bot_parameters/configuration/Configuration.java:128-181 | reading `m + n` options is reading `m`, then `n` from where the first `m` stopped |
| ConfigurationPersistence.LogFileName | src/main/java/bot_parameters/configuration/Configuration.java:183-191 | the name read is kept exactly when a string stands at the position and names an existing file; in every other case (no object, `null`, not a string, missing file) the result is the fresh name |
| ConfigurationPersistence.DecodeTail | src/main/java/bot_parameters/configuration/Configuration.java:120-191 | nine single options; the log-file name exists or is the fresh one; `reflection` or `noRandoms` is set only when both booleans were read, and then as written |
| ConfigurationPersistence.DecodeWorlds | src/main/java/bot_parameters/configuration/Configuration.java:108-118 | a world list takes one item and yields as many worlds as the list has elements, succeeding exactly when every element is a world; a legacy world type takes three items, succeeds exactly when a number and a boolean follow it, and yields the whole catalogue; any other item fails |
| ConfigurationPersistence.ScriptListRoundTrip | src/main/java/bot_parameters/configuration/Configuration.java:67 | the saved script list reads back as the same scripts |
| ConfigurationPersistence.WorldListRoundTrip | src/main/java/bot_parameters/configuration/Configuration.java:75 | the saved world list reads back as the same worlds |
| ConfigurationPersistence.ProxyRoundTrip | src/main/java/bot_parameters/configuration/Configuration.java:68 | the saved proxy (or null) reads back, with its nickname as `getNickname` reported |
| ConfigurationPersistence.RoundTrip | src/main/java/bot_parameters/configuration/Configuration.java:65-193 | saving and loading gives the same configuration, except that the proxy's nickname is filled in and a log file that no longer exists gets a fresh name |
| ConfigurationPersistence.ReloadIsStable | src/main/java/bot_parameters/configuration/Configuration.java:65-193 | a loaded configuration whose log file exists survives another save and load unchanged |
| ConfigurationPersistence.LegacyScript | src/main/java/bot_parameters/configuration/Configuration.java:92-99 | a stream with a single script in place of the list loads with that one script, everything else as written |
| ConfigurationPersistence.LegacyWorldType | src/main/java/bot_parameters/configuration/Configuration.java:108-118 | a stream with a legacy world type, number and randomise flag loads with the whole world catalogue; everything after is read as usual |
| ConfigurationPersistence.LegacyWorldTypeWithoutNumber | src/main/java/bot_parameters/configuration/Configuration.java:111-113 | a legacy world type followed directly by an object, or by the end of the data, fails the load, because the world number is read outside any `try` |
| ConfigurationPersistence.Truncated | src/main/java/bot_parameters/configuration/Configuration.java:120-191 | a stream that stops anywhere after the worlds still loads: the options present are read as written, `reflection`/`noRandoms` only as a pair, the rest are `false`, and the log-file name is kept only when it follows and exists |
| ConfigurationPersistence.TailShift | src/main/java/bot_parameters/configuration/Configuration.java:120-191 | the options after the worlds depend only on the items from where they start |
| Configurations.ReadOption | src/main/java/bot_parameters/configuration/Configuration.java:128-133 | a boolean read in its own `try`: the value, or `false` with nothing consumed |
| Configurations.ReadThreeOptions | src/main/java/bot_parameters/configuration/Configuration.java:128-145 | three guarded reads, as `TryBools` describes |
| Configurations.ReadPair | src/main/java/bot_parameters/configuration/Configuration.java:120-127 | the paired read, as `TryPair` describes |
| Configurations.ReadNineOptions | src/main/java/bot_parameters/configuration/Configuration.java:128-181 | the nine guarded reads, as `TryBools` describes |
| Configurations.ReadLogFileName | src/main/java/bot_parameters/configuration/Configuration.java:183-191 | the log-file name, as `LogFileName` describes |
| Configurations.ReadLaterOptions | src/main/java/bot_parameters/configuration/Configuration.java:120-191 | every read after the worlds, as `DecodeTail` describes |
| Configurations.LoadScript | src/main/java/bot_parameters/script/Script.java:86-95 | a new script object exactly when its block decodes, holding the decoded script |
| Configurations.LoadScripts | src/main/java/bot_parameters/configuration/Configuration.java:92-99 | the scripts field, a single script or a list, as `DecodeScripts` describes, as new objects |
| Configurations.LoadScriptList | src/main/java/bot_parameters/configuration/Configuration.java:97-98 | the list loads exactly when every element is a script that decodes, and holds their values in order |
| Configurations.LoadProxy | src/main/java/bot_parameters/configuration/Configuration.java:100 | null, or a new plain or secured proxy object, as `DecodeProxy` describes |
| Configurations.ReadReferences | src/main/java/bot_parameters/configuration/Configuration.java:91-100 | account, scripts and proxy are read, as the first three fields of `DecodeHead` |
| Configurations.ReadScripts | src/main/java/bot_parameters/configuration/Configuration.java:92-99 | one item is read, as `DecodeScripts` describes |
| Configurations.ReadProxy | src/main/java/bot_parameters/configuration/Configuration.java:100 | one item is read, as `DecodeProxy` describes |
| Configurations.ReadSettings | src/main/java/bot_parameters/configuration/Configuration.java:101-106 | the six settings are read without a guard; the first read that fails fails them all |
| Configurations.ReadWorlds | src/main/java/bot_parameters/configuration/Configuration.java:108-118 | the worlds, as `DecodeWorlds` describes, leaving the cursor where it says |
| Configurations.ReadHead | src/main/java/bot_parameters/configuration/Configuration.java:91-118 | succeeds exactly when `DecodeHead` does, with its fields held by new script and proxy objects |
| Configurations.ReadObject | src/main/java/bot_parameters/configuration/Configuration.java:90-193 | yields an object exactly when `Decode` succeeds; the object holds the decoded value, is not running, and its PID field is 0 |
| Configurations.Configuration.Decoded | src/main/java/bot_parameters/configuration/Configuration.java:90-193 | the loaded object's value is assembled from the fields read, and it is not running |
| Configurations.Configuration.constructor | src/main/java/bot_parameters/configuration/Configuration.java:58-63 | no proxy, memory and debug port -1, every option off, no worlds, the given log-file name, not running |
| Configurations.Configuration.CreateCopy | src/main/java/bot_parameters/configuration/Configuration.java:277-303 | a new configuration sharing the script list and proxy object, with the same value except a fresh log-file name, and not running |
| Configurations.Configuration.CopyOf | src/main/java/bot_parameters/configuration/Configuration.java:279-301 | the copy's value is the original's except the log-file name |
| Configurations.Configuration.SetRunescapeAccount | src/main/java/bot_parameters/configuration/Configuration.java:486-488 | only the account changes |
| Configurations.Configuration.SetScripts | src/main/java/bot_parameters/configuration/Configuration.java:494-496 | only the script list changes |
| Configurations.Configuration.SetProxy | src/main/java/bot_parameters/configuration/Configuration.java:502-504 | only the proxy changes |
| Configurations.Configuration.SetMemoryAllocation | src/main/java/bot_parameters/configuration/Configuration.java:510-512 | only the memory allocation changes |
| Configurations.Configuration.SetCollectData | src/main/java/bot_parameters/configuration/Configuration.java:518-520 | only the collect-data flag changes |
| Configurations.Configuration.SetDebugMode | src/main/java/bot_parameters/configuration/Configuration.java:526-528 | only the debug-mode flag changes |
| Configurations.Configuration.SetDebugPort | src/main/java/bot_parameters/configuration/Configuration.java:534-536 | only the debug port changes |
| Configurations.Configuration.SetLowResourceMode | src/main/java/bot_parameters/configuration/Configuration.java:542-544 | only the low-resource flag changes |
| Configurations.Configuration.SetLowCpuMode | src/main/java/bot_parameters/configuration/Configuration.java:550-552 | only the low-CPU flag changes |
| Configurations.Configuration.SetReflection | src/main/java/bot_parameters/configuration/Configuration.java:558-560 | only the reflection flag changes |
| Configurations.Configuration.SetNoRandoms | src/main/java/bot_parameters/configuration/Configuration.java:566-568 | only the no-randoms flag changes |
| Configurations.Configuration.SetNoInterface | src/main/java/bot_parameters/configuration/Configuration.java:574-576 | only the no-interface flag changes |
| Configurations.Configuration.SetNoRender | src/main/java/bot_parameters/configuration/Configuration.java:582-584 | only the no-render flag changes |
| Configurations.Configuration.SetWorlds | src/main/java/bot_parameters/configuration/Configuration.java:590-592 | only the worlds change, to exactly the given list |
| Configurations.Configuration.SetRunning | src/main/java/bot_parameters/configuration/Configuration.java:598-600 | only the running flag changes |
| Configurations.Configuration.SetDismissRandoms | src/main/java/bot_parameters/configuration/Configuration.java:614-616 | only the dismiss-randoms flag changes |
| Configurations.Configuration.SetNewMouse | src/main/java/bot_parameters/configuration/Configuration.java:622-624 | only the new-mouse flag changes |
| Configurations.Configuration.SetEnableBreaks | src/main/java/bot_parameters/configuration/Configuration.java:630-632 | only the breaks flag changes |
| Configurations.Configuration.SetStopAfterBreak | src/main/java/bot_parameters/configuration/Configuration.java:638-640 | only the stop-after-break flag changes |
| Configurations.Configuration.SetMirrorMode | src/main/java/bot_parameters/configuration/Configuration.java:646-648 | only the mirror-mode flag changes |
| Configurations.Configuration.SetLaunchGame | src/main/java/bot_parameters/configuration/Configuration.java:654-656 | only the launch-game flag changes |
| Configurations.Configuration.SetCloseClient | src/main/java/bot_parameters/configuration/Configuration.java:662-664 | only the close-client flag changes |
| Configurations.Configuration.Stop | src/main/java/bot_parameters/configuration/Configuration.java:408-416 | a kill is sent exactly when the configuration is running and tracks a PID, and it goes to that PID |
| Configurations.Configuration.Watch | src/main/java/bot_parameters/configuration/Configuration.java:337-369 | reads the output as `Scan` does: stops at a fatal line, or at an exit line when closing, or at the end; logs exactly the lines read; tracks the PID of the load line |
| Configurations.Configuration.LaunchCommand | src/main/java/bot_parameters/configuration/Configuration.java:323-378 | one pass of the command loop, as `Launch` describes; the running flag and PID field end as that state says |
| Configurations.Configuration.RunCommands | src/main/java/bot_parameters/configuration/Configuration.java:321-379 | the command loop, as `RunFrom` describes, abandoning the rest after a fatal line |
| Configurations.Configuration.Run | src/main/java/bot_parameters/configuration/Configuration.java:317-386 | what the run thread launches, kills and logs, and the state it leaves, as `RunSpec` describes |
| ConfigurationRun.NewPids | src/main/java/bot_parameters/configuration/Configuration.java:360-361 | a PID is new exactly when the later list has it and the earlier one does not; each PID the earlier list lacks keeps its count in the later list, and each PID it has is dropped altogether |
| ConfigurationRun.NewPidsInOrder | src/main/java/bot_parameters/configuration/Configuration.java:360-361 | the new PIDs keep the order the later list has them in |
| ConfigurationRun.NewPidsExample | src/main/java/bot_parameters/configuration/Configuration.java:360-364 | with 10 and 11 listed before and 10, 11 and 42 after, the only new PID is 42 and it becomes the tracked one |
| ConfigurationRun.Classify | src/main/java/bot_parameters/configuration/Configuration.java:347-368 | a line is fatal exactly when one of the three error markers occurs in it whatever the case; it is a load line exactly when it is not fatal and holds the load marker; it ends the reading as an exit line only when the client is to be closed and an exit marker occurs |
| ConfigurationRun.Resolve | src/main/java/bot_parameters/configuration/Configuration.java:359-365 | the tracked PID stays, or becomes a PID of the later listing that the earlier one lacks; when exactly one new PID appeared, it becomes that one |
| ConfigurationRun.Scan | src/main/java/bot_parameters/configuration/Configuration.java:337-369 | the reading ends at or after where it starts and within the output; where it stops is stated by `ScanStopsFirst` and `ScanNoStop` |
| ConfigurationRun.ScanStopsFirst | src/main/java/bot_parameters/configuration/Configuration.java:338-368 | when the lines before line `m` are load or ordinary lines and line `m` is fatal (or an exit line when closing), the reading stops just after `m`, and it is fatal exactly when line `m` is fatal |
| ConfigurationRun.ScanNoStop | src/main/java/bot_parameters/configuration/Configuration.java:338-369 | output with no fatal line, and no exit line when closing, is read to its end and the reading is not fatal |
| ConfigurationRun.ScanStopsFatal | src/main/java/bot_parameters/configuration/Configuration.java:347-358 | a reading that reports a fatal line stops right after a line that classifies as fatal |
| ConfigurationRun.ScanStopsExit | src/main/java/bot_parameters/configuration/Configuration.java:366-368 | a reading that ends early without a fatal line stops right after an exit line |
| ConfigurationRun.Launch | src/main/java/bot_parameters/configuration/Configuration.java:323-378 | one pass launches its command and ends not running; it aborts exactly when the reading of its client's output ends on a fatal line, which is the first fatal line when no exit line comes before it, and otherwise it ends with no PID tracked |
| ConfigurationRun.ExitLineCloses | src/main/java/bot_parameters/configuration/Configuration.java:366-378 | when closing, an exit line with no fatal or exit line before it ends the pass without aborting, with the output logged up to and including that line and no PID tracked |
| ConfigurationRun.NoStopLineReadsAll | src/main/java/bot_parameters/configuration/Configuration.java:338-378 | output with no fatal line, and no exit line when closing, is logged in full and the pass ends without aborting, with no PID tracked |
| ConfigurationRun.RunFrom | src/main/java/bot_parameters/configuration/Configuration.java:321-379 | every pass ends not running; the loop launches at least one and at most the remaining commands, or leaves the state as it is when none remain |
| ConfigurationRun.FatalIgnoresCase | src/main/java/bot_parameters/configuration/Configuration.java:347-357 | the three error markers are found whatever the case of the line |
| ConfigurationRun.ExitNeedsCloseClient | src/main/java/bot_parameters/configuration/Configuration.java:366-368 | an exit marker ends the reading only when the client is to be closed, and then always does unless an earlier branch applies |
| ConfigurationRun.ReadsToEnd | src/main/java/bot_parameters/configuration/Configuration.java:338-369 | without close-client, a client's output is read to its end unless a fatal line comes first |
| ConfigurationRun.ScanTracks | src/main/java/bot_parameters/configuration/Configuration.java:359-365 | the tracked PID is the starting one, or the single new PID of a load line that was read |
| ConfigurationRun.ScanKeeps | src/main/java/bot_parameters/configuration/Configuration.java:359-365 | a reading in which no line is a load line with exactly one new Java process keeps the PID it started with |
| ConfigurationRun.ScanResolves | src/main/java/bot_parameters/configuration/Configuration.java:359-365 | the PID a reading ends with is the single new Java process of the last such load line it read |
| ConfigurationRun.LaunchKeeps | src/main/java/bot_parameters/configuration/Configuration.java:321-378 | one pass launches its command and only appends to what was killed and logged, killing at most one process |
| ConfigurationRun.LaunchKills | src/main/java/bot_parameters/configuration/Configuration.java:372-376 | what one pass kills is a PID resolved by a load line of its own client |
| ConfigurationRun.LaunchKillsResolved | src/main/java/bot_parameters/configuration/Configuration.java:359-378 | a pass without a fatal line kills the single new Java process of the last such load line its client printed (unless that PID is -1), and ends idle with no PID tracked |
| ConfigurationRun.LaunchKillsNothing | src/main/java/bot_parameters/configuration/Configuration.java:371-376 | a pass whose client printed no such load line kills nothing and ends with no PID tracked |
| ConfigurationRun.RunFromKeeps | src/main/java/bot_parameters/configuration/Configuration.java:321-379 | the command loop launches commands in order and only appends to what was killed and logged |
| ConfigurationRun.KilledWereResolved | src/main/java/bot_parameters/configuration/Configuration.java:359-376 | every PID the launcher kills appeared as the single new Java process when some client reported it had loaded |
| ConfigurationRun.QuietRunLaunchesAll | src/main/java/bot_parameters/configuration/Configuration.java:321-379 | with no fatal line, every command is launched and the launcher ends idle with no PID tracked |
| ConfigurationRun.FatalAbandons | src/main/java/bot_parameters/configuration/Configuration.java:347-358 | a pass whose reading ends on a fatal line ends the run at once: nothing later is launched or killed, and the PID field keeps the client's PID |
| ConfigurationRun.FatalLineAborts | src/main/java/bot_parameters/configuration/Configuration.java:338-358 | a fatal line with only load or ordinary lines before it aborts the run: this command is the last launched, nothing is killed, and the output is logged up to and including that line |
| Configurations.QuietRunLaunchesCommands | src/main/java/bot_parameters/configuration/Configuration.java:305-406 | with no fatal line, `run` launches exactly the commands of `getCommands` in order, ends idle, and kills only PIDs it identified from load lines |
| Configurations.NoWorldsNoLaunch | src/main/java/bot_parameters/configuration/Configuration.java:262-263 | with scripts but no worlds, the run thread launches and kills nothing and leaves the state as it was |

## Left out

- Threads: `run` starts a thread, and `stop` can race with it. The model runs the thread body to its end, and `Stop` sees one state of the object.
- Starting processes, reading their output, and the `IOException`s either can throw. The output is the `Session` parameter. Each line's PID snapshot stands for the OS process listing (`getJavaPIDs`), which is not part of this model.
- `killProcess` and the one-second sleep after a kill: a kill is recorded as the PID it was sent to.
- Deleting and re-creating the log file at the start of `run`, and the exception when it cannot be created: the log is the list of lines written to it.
- The error dialogs and console printing.
- JavaFX properties, observable lists and their listeners: each property is a plain field. A list handed to `setScripts` or shared by `createCopy` is the same `seq` value; aliasing of a mutable list is not modelled.
- `getAvailablePort` (a socket bind) and `Random.nextInt`: their results are the `probe` and `worldIndex` parameters.
- `World.getWorlds()`, the UUID and the logs directory: these are the `catalog` and `freshName` parameters. A file's existence is the `existing` set.
- Java serialization internals (class descriptors, handles, block-data framing): a stream is a sequence of typed items.
- `RunescapeAccount`, `World` and `WorldType` beyond the tokens their `toParameter` yields. Their own serialization is not part of this model.
- ConfigurationPersistence.Decode: it rejects a list element that is not a script or a world, and a `null` where a string is read. Java would accept both and fail only when the value is used, or store the `null`.
- Serialization.IntAt and Serialization.BoolAt: a primitive item of the other kind fails the read. Java reads raw block-data bytes instead, so four booleans can be read as one int. A legacy world type followed by written booleans therefore fails here, where Java reads the number and the flag from five of those bytes and loads with shifted options.
- ConfigurationRun.Scan: its own contract gives only the bounds of the reading. Where the reading stops is stated by the lemmas `ScanStopsFirst`, `ScanNoStop`, `ScanStopsFatal` and `ScanStopsExit`.
- Scripts.Decode: a `null` identifier or parameters fails the read, where Java stores the `null` in the property.
- Proxies.Decode: a `null` address, user name or password fails the read, where Java stores the `null`. A `null` nickname fails a plain proxy's read and becomes "" for a secured proxy, where Java stores the `null` in both.
- ConfigurationPersistence.DecodeHead: a `null` account fails the read, where Java stores the `null`.
- Text.ToLower: only the ASCII letters A to Z are lowered. Java's `toLowerCase` lowers every Unicode letter under the default locale.
- ConfigurationRun.IsFatal: it uses `Text.ToLower`, so it can miss a marker that Java finds, for example "update web walking" spelled with the Kelvin sign in place of a "k". Under a Turkish locale Java lowers "I" to a dotless i and misses a marker that the model finds.
- Configurations.ReadObject: a failed read yields no object, where Java throws out of deserialisation. The object is built after all reads rather than field by field.
- Configurations.Configuration.CreateCopy: the copy is built by one copying constructor rather than by the constructor followed by setter calls. The resulting state is the same.
- `run` after an uncaught exception: apart from an empty world list, an exception thrown inside the thread is not modelled.
