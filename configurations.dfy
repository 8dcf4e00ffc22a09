/** The `Configuration` object: one bot launch setup whose fields the
    dialogs set one by one, which is saved and loaded field by field, copied,
    turned into launch commands and run. Each operation is proved against the
    value-level definitions of the encoding, persistence and run-loop modules. */
module Configurations {
  import opened Wrappers
  import opened Text
  import opened Collaborators
  import opened Serialization
  import opened ConfigurationEncoding
  import opened ConfigurationPersistence
  import opened ConfigurationRun
  import Scripts
  import Proxies

  /** The values of a list of script objects. */
  function ScriptValues(scripts: seq<Scripts.Script>): (r: seq<Scripts.ScriptValue>)
    reads scripts
    ensures |r| == |scripts|
  {
    if |scripts| == 0 then [] else [scripts[0].Value()] + ScriptValues(scripts[1..])
  }

  /** The values of a list of script objects, element by element. */
  lemma ScriptValuesAt(scripts: seq<Scripts.Script>)
    ensures forall i :: 0 <= i < |scripts| ==> ScriptValues(scripts)[i] == scripts[i].Value()
  {
    if |scripts| > 0 {
      ScriptValuesAt(scripts[1..]);
    }
  }

  /** The value of the proxy field, `None` for `null`. */
  function ProxyValue(proxy: Proxies.Proxy?): Option<Proxies.ProxyValue>
    reads proxy
  {
    if proxy == null then None else Some(proxy.Value())
  }

  /** A boolean option read in a `try` of its own: `false`, and nothing
      consumed, when the read fails. */
  method ReadOption(stream: ObjectInputStream) returns (b: bool)
    modifies stream`pos
    ensures b == BoolAt(stream.items, old(stream.pos)).GetOr(false)
    ensures stream.pos == AfterBool(stream.items, old(stream.pos))
  {
    var r := stream.ReadBoolean();
    b := r.GetOr(false);
  }

  /** Three options, each read in a `try` of its own. */
  method ReadThreeOptions(stream: ObjectInputStream) returns (options: seq<bool>)
    modifies stream`pos
    ensures TryBools(stream.items, old(stream.pos), 3) == (options, stream.pos)
  {
    ghost var p0 := stream.pos;
    var first := ReadOption(stream);
    ghost var p1 := stream.pos;
    var second := ReadOption(stream);
    ghost var p2 := stream.pos;
    var third := ReadOption(stream);
    options := [first, second, third];
    TryBoolsFrom(stream.items, [p0, p1, p2, stream.pos], options);
  }

  /** `reflection` and `noRandoms`, read in one `try`: both `false` unless
      both reads succeed. */
  method ReadPair(stream: ObjectInputStream) returns (reflection: bool, noRandoms: bool)
    modifies stream`pos
    ensures TryPair(stream.items, old(stream.pos)) == (reflection, noRandoms, stream.pos)
  {
    reflection, noRandoms := false, false;
    var first := stream.ReadBoolean();
    if first.None? {
      return;
    }
    var second := stream.ReadBoolean();
    if second.None? {
      return;
    }
    reflection, noRandoms := first.value, second.value;
  }

  /** The nine options read in a `try` each. */
  method ReadNineOptions(stream: ObjectInputStream) returns (singles: seq<bool>)
    modifies stream`pos
    ensures TryBools(stream.items, old(stream.pos), LaterOptions()) == (singles, stream.pos)
  {
    ghost var start := stream.pos;
    var interfaceOptions := ReadThreeOptions(stream);
    var inputOptions := ReadThreeOptions(stream);
    var launchOptions := ReadThreeOptions(stream);
    TryBoolsSplit(stream.items, start, 3, 3);
    TryBoolsSplit(stream.items, start, 6, 3);
    singles := interfaceOptions + inputOptions + launchOptions;
  }

  /** The log-file name, kept only when it names an existing file. */
  method ReadLogFileName(stream: ObjectInputStream, existing: set<string>, freshName: string) returns (name: string)
    modifies stream`pos
    ensures name == LogFileName(stream.items, old(stream.pos), existing, freshName)
  {
    var item := stream.ReadObject();
    name := freshName;
    if item.Some? && item.value.StringItem? && item.value.s in existing {
      name := item.value.s;
    }
  }

  /** The part of `readObject` after the worlds: `reflection` and
      `noRandoms` in one `try`, nine options in a `try` each, then the
      log-file name. */
  method ReadLaterOptions(stream: ObjectInputStream, existing: set<string>, freshName: string) returns (t: Tail)
    modifies stream`pos
    ensures t == DecodeTail(stream.items, old(stream.pos), existing, freshName)
  {
    ghost var start := stream.pos;
    var reflection, noRandoms := ReadPair(stream);
    ghost var afterPair := stream.pos;
    var singles := ReadNineOptions(stream);
    ghost var afterSingles := stream.pos;
    var name := ReadLogFileName(stream, existing, freshName);
    t := Tail(reflection, noRandoms, singles, name);
    TailParts(stream.items, start, existing, freshName, afterPair, afterSingles, t);
  }

  /** Deserialising one script object from its own block. The object is
      allocated with placeholder values, which `readObject` overwrites. */
  method LoadScript(block: seq<Item>) returns (s: Scripts.Script?)
    ensures s != null <==> Scripts.Decode(block).Some?
    ensures s != null ==> fresh(s) && s.Value() == Scripts.Decode(block).value
  {
    var blank := new Scripts.Script("", "", false);
    var stream := new ObjectInputStream(block);
    var ok := blank.ReadObject(stream);
    s := if ok then blank else null;
  }

  /** The scripts field of a stream: a single script object, or a list of
      them. */
  method LoadScripts(item: Option<Item>) returns (r: Option<seq<Scripts.Script>>)
    ensures r.Some? <==> DecodeScripts(item).Some?
    ensures r.Some? ==> ScriptValues(r.value) == DecodeScripts(item).value
    ensures r.Some? ==> forall s :: s in r.value ==> fresh(s)
  {
    if item.Some? && item.value.ObjectItem? && item.value.cls == ScriptClass {
      var s := LoadScript(item.value.block);
      if s == null {
        return None;
      }
      return Some([s]);
    } else if item.Some? && item.value.ListItem? {
      r := LoadScriptList(item.value.elems);
    } else {
      return None;
    }
  }

  /** A list of scripts, its elements deserialised one after the other; the
      first that fails fails the whole list. */
  method LoadScriptList(elems: seq<Item>) returns (r: Option<seq<Scripts.Script>>)
    ensures r.Some? <==> DecodeScriptList(elems).Some?
    ensures r.Some? ==> ScriptValues(r.value) == DecodeScriptList(elems).value
    ensures r.Some? ==> forall s :: s in r.value ==> fresh(s)
  {
    var loaded: seq<Scripts.Script> := [];
    var i := 0;
    while i < |elems|
      invariant 0 <= i <= |elems| && |loaded| == i
      invariant forall j :: 0 <= j < i ==> DecodeScript(elems[j]) == Some(loaded[j].Value())
      invariant forall s :: s in loaded ==> fresh(s)
    {
      if !(elems[i].ObjectItem? && elems[i].cls == ScriptClass) {
        return None;
      }
      var s := LoadScript(elems[i].block);
      if s == null {
        return None;
      }
      loaded := loaded + [s];
      i := i + 1;
    }
    ScriptValuesAt(loaded);
    ScriptListOf(elems, ScriptValues(loaded));
    return Some(loaded);
  }

  /** The proxy field of a stream: `null`, or a plain or secured proxy object
      deserialised from its own block. */
  method LoadProxy(item: Option<Item>) returns (ok: bool, p: Proxies.Proxy?)
    ensures ok <==> DecodeProxy(item).Some?
    ensures ok ==> ProxyValue(p) == DecodeProxy(item).value
    ensures p != null ==> fresh(p)
  {
    if item.Some? && item.value.NullItem? {
      return true, null;
    }
    if item.Some? && item.value.ObjectItem? && (item.value.cls == ProxyClass || item.value.cls == SecuredProxyClass) {
      var blank: Proxies.Proxy;
      if item.value.cls == ProxyClass {
        blank := new Proxies.Proxy("", 0);
      } else {
        blank := new Proxies.Proxy.Secured("", 0, "", "");
      }
      var stream := new ObjectInputStream(item.value.block);
      var read := blank.ReadObject(stream);
      if !read {
        return false, null;
      }
      return true, blank;
    }
    return false, null;
  }

  /** The object fields at the start of the stream: account, scripts and
      proxy. */
  method ReadReferences(stream: ObjectInputStream)
    returns (ok: bool, account: Account, scripts: seq<Scripts.Script>, proxy: Proxies.Proxy?)
    requires stream.pos == 0
    modifies stream`pos
    ensures ok <==> ObjectAt(stream.items, 0).Some? && ObjectAt(stream.items, 0).value.AccountItem?
                    && DecodeScripts(ObjectAt(stream.items, 1)).Some? && DecodeProxy(ObjectAt(stream.items, 2)).Some?
    ensures ok ==> && account == ObjectAt(stream.items, 0).value.account
                   && ScriptValues(scripts) == DecodeScripts(ObjectAt(stream.items, 1)).value
                   && ProxyValue(proxy) == DecodeProxy(ObjectAt(stream.items, 2)).value
                   && stream.pos == 3
    ensures ok ==> (forall s :: s in scripts ==> fresh(s)) && (proxy != null ==> fresh(proxy))
  {
    account, scripts, proxy := Account([]), [], null;
    var a := stream.ReadObject();
    if a.None? || !a.value.AccountItem? {
      return false, account, scripts, proxy;
    }
    account := a.value.account;
    ok, scripts := ReadScripts(stream);
    if !ok {
      return;
    }
    ok, proxy := ReadProxy(stream);
  }

  /** The scripts field: a single script object or a list of them. */
  method ReadScripts(stream: ObjectInputStream) returns (ok: bool, scripts: seq<Scripts.Script>)
    modifies stream`pos
    ensures ok <==> DecodeScripts(ObjectAt(stream.items, old(stream.pos))).Some?
    ensures ok ==> && ScriptValues(scripts) == DecodeScripts(ObjectAt(stream.items, old(stream.pos))).value
                   && stream.pos == old(stream.pos) + 1
                   && forall s :: s in scripts ==> fresh(s)
  {
    var s := stream.ReadObject();
    var loaded := LoadScripts(s);
    if loaded.None? {
      return false, [];
    }
    return true, loaded.value;
  }

  /** The proxy field: `null`, or a plain or secured proxy object. */
  method ReadProxy(stream: ObjectInputStream) returns (ok: bool, proxy: Proxies.Proxy?)
    modifies stream`pos
    ensures ok <==> DecodeProxy(ObjectAt(stream.items, old(stream.pos))).Some?
    ensures ok ==> && ProxyValue(proxy) == DecodeProxy(ObjectAt(stream.items, old(stream.pos))).value
                   && stream.pos == old(stream.pos) + 1
    ensures proxy != null ==> fresh(proxy)
  {
    var p := stream.ReadObject();
    ok, proxy := LoadProxy(p);
  }

  /** The memory, data, debug and low-usage settings, read unguarded. */
  method ReadSettings(stream: ObjectInputStream)
    returns (ok: bool, memoryAllocation: int, collectData: bool, debugMode: bool, debugPort: int,
             lowCpuMode: bool, lowResourceMode: bool)
    requires stream.pos == 3
    modifies stream`pos
    ensures ok <==> IntAt(stream.items, 3).Some? && BoolAt(stream.items, 4).Some? && BoolAt(stream.items, 5).Some?
                    && IntAt(stream.items, 6).Some? && BoolAt(stream.items, 7).Some? && BoolAt(stream.items, 8).Some?
    ensures ok ==> && memoryAllocation == IntAt(stream.items, 3).value && collectData == BoolAt(stream.items, 4).value
                   && debugMode == BoolAt(stream.items, 5).value && debugPort == IntAt(stream.items, 6).value
                   && lowCpuMode == BoolAt(stream.items, 7).value && lowResourceMode == BoolAt(stream.items, 8).value
                   && stream.pos == 9
  {
    ok, memoryAllocation, collectData, debugMode, debugPort, lowCpuMode, lowResourceMode
      := false, 0, false, false, 0, false, false;
    var memory := stream.ReadInt();
    if memory.None? {
      return;
    }
    var data := stream.ReadBoolean();
    if data.None? {
      return;
    }
    var debug := stream.ReadBoolean();
    if debug.None? {
      return;
    }
    var port := stream.ReadInt();
    if port.None? {
      return;
    }
    var lowCpu := stream.ReadBoolean();
    if lowCpu.None? {
      return;
    }
    var lowResource := stream.ReadBoolean();
    if lowResource.None? {
      return;
    }
    ok := true;
    memoryAllocation, collectData, debugMode := memory.value, data.value, debug.value;
    debugPort, lowCpuMode, lowResourceMode := port.value, lowCpu.value, lowResource.value;
  }

  /** The worlds: a list of worlds, or a legacy world type, whose world
      number and randomise flag are read and discarded in favour of every
      world in `catalog`. */
  method ReadWorlds(stream: ObjectInputStream, catalog: seq<World>) returns (ok: bool, worlds: seq<World>)
    requires stream.pos == 9
    modifies stream`pos
    ensures ok <==> DecodeWorlds(stream.items, 9, catalog).Some?
    ensures ok ==> worlds == DecodeWorlds(stream.items, 9, catalog).value.0
                   && stream.pos == DecodeWorlds(stream.items, 9, catalog).value.1
  {
    var w := stream.ReadObject();
    if w.Some? && w.value.WorldTypeItem? {
      var number := stream.ReadInt();
      if number.None? {
        return false, [];
      }
      var randomize := stream.ReadBoolean();
      if randomize.None? {
        return false, [];
      }
      return true, catalog;
    } else if w.Some? && w.value.ListItem? {
      var selected := DecodeWorldList(w.value.elems);
      if selected.None? {
        return false, [];
      }
      return true, selected.value;
    }
    return false, [];
  }

  /** The fields read without a `try`: the first failure ends `readObject`.
      The script and proxy objects are new and hold the values read. */
  method ReadHead(stream: ObjectInputStream, catalog: seq<World>)
    returns (ok: bool, head: Head, scripts: seq<Scripts.Script>, proxy: Proxies.Proxy?)
    requires stream.pos == 0
    modifies stream`pos
    ensures ok <==> DecodeHead(stream.items, catalog).Some?
    ensures ok ==> DecodeHead(stream.items, catalog) == Some(head) && stream.pos == head.next
    ensures ok ==> ScriptValues(scripts) == head.scripts && ProxyValue(proxy) == head.proxy
    ensures ok ==> (forall s :: s in scripts ==> fresh(s)) && (proxy != null ==> fresh(proxy))
  {
    head := Head(Account([]), [], None, 0, false, false, 0, false, false, [], 0);
    var account;
    ok, account, scripts, proxy := ReadReferences(stream);
    if !ok {
      return;
    }
    var memoryAllocation, collectData, debugMode, debugPort, lowCpuMode, lowResourceMode;
    ok, memoryAllocation, collectData, debugMode, debugPort, lowCpuMode, lowResourceMode := ReadSettings(stream);
    if !ok {
      return;
    }
    var worlds;
    ok, worlds := ReadWorlds(stream, catalog);
    if !ok {
      return;
    }
    head := Head(account, ScriptValues(scripts), ProxyValue(proxy), memoryAllocation, collectData, debugMode,
                 debugPort, lowCpuMode, lowResourceMode, worlds, stream.pos);
    HeadAt(stream.items, catalog, head);
  }

  /** A prefix one element longer. */
  lemma PrefixNext<T>(s: seq<T>, k: nat)
    requires k < |s|
    ensures s[..k + 1] == s[..k] + [s[k]]
  {
  }

  /** The loop of `getCommands` over a configuration's value: one command
      per script, in script order. */
  method BuildCommands(c: ConfigValue, clientPath: string, draws: seq<nat>, probes: seq<Option<int>>)
    returns (commands: seq<seq<string>>)
    requires |draws| == |c.scripts| && |probes| == |c.scripts|
    requires forall k :: 0 <= k < |draws| ==> draws[k] < |c.worlds|
    ensures commands == ConfigurationEncoding.GetCommands(c, clientPath, draws, probes)
  {
    ghost var spec := ConfigurationEncoding.GetCommands(c, clientPath, draws, probes);
    commands := [];
    var k := 0;
    while k < |c.scripts|
      invariant 0 <= k <= |c.scripts| && commands == spec[..k]
    {
      var command := Command(c, clientPath, draws[k], probes[k], c.scripts[k]);
      PrefixNext(spec, k);
      commands := commands + [command];
      k := k + 1;
    }
    assert spec[..k] == spec;
  }

  /** What `run` has done by the time its thread ends, given the
      configuration's value, the running flag and tracked PID it starts from,
      the random world draws and probed ports of `getCommands`, and one client
      session per command. With no worlds to draw from, `getCommands` fails
      before anything is launched. */
  function RunSpec(c: ConfigValue, running: bool, processID: int, clientPath: string, draws: seq<nat>,
                   probes: seq<Option<int>>, sessions: seq<Session>): RunState
    requires |draws| == |c.scripts| && |probes| == |c.scripts| && |sessions| == |c.scripts|
    requires forall k :: 0 <= k < |draws| ==> draws[k] < |c.worlds| || |c.worlds| == 0
  {
    var start := RunState(running, processID, [], [], [], false);
    if |c.worlds| == 0 && |c.scripts| > 0 then start
    else RunFrom(ConfigurationEncoding.GetCommands(c, clientPath, draws, probes), sessions, c.closeClient, 0, start)
  }

  /** When no client reports a fatal line, `run` launches exactly the
      commands of `getCommands`, in order, ends with nothing running and no
      tracked process, and every process it killed was one it had identified
      from a "loaded" line. */
  lemma QuietRunLaunchesCommands(c: ConfigValue, running: bool, processID: int, clientPath: string, draws: seq<nat>,
                                 probes: seq<Option<int>>, sessions: seq<Session>)
    requires |draws| == |c.scripts| && |probes| == |c.scripts| && |sessions| == |c.scripts|
    requires forall k :: 0 <= k < |draws| ==> draws[k] < |c.worlds|
    requires AllQuiet(sessions, c.closeClient, 0)
    ensures var r := RunSpec(c, running, processID, clientPath, draws, probes, sessions);
            && r.launched == ConfigurationEncoding.GetCommands(c, clientPath, draws, probes)
            && (|c.scripts| > 0 ==> Settled(r))
            && KillsResolved(sessions, c.closeClient, 0, r.killed, 0)
  {
    var commands := ConfigurationEncoding.GetCommands(c, clientPath, draws, probes);
    var start := RunState(running, processID, [], [], [], false);
    QuietRunLaunchesAll(commands, sessions, c.closeClient, 0, start);
    KilledWereResolved(commands, sessions, c.closeClient, 0, start);
    assert [] + commands[0..] == commands;
  }

  /** A configuration with no worlds and at least one script launches
      nothing: the world draw of the first command fails. */
  lemma NoWorldsNoLaunch(c: ConfigValue, running: bool, processID: int, clientPath: string, draws: seq<nat>,
                         probes: seq<Option<int>>, sessions: seq<Session>)
    requires |draws| == |c.scripts| && |probes| == |c.scripts| && |sessions| == |c.scripts|
    requires |c.worlds| == 0 && |c.scripts| > 0
    ensures var r := RunSpec(c, running, processID, clientPath, draws, probes, sessions);
            r.launched == [] && r.killed == [] && r.running == running && r.processID == processID
  {
  }

  /** Two configurations holding the same account, script list, proxy
      object and settings have the same value, up to the log-file name. */
  lemma CopiedValue(copy: Configuration, original: Configuration, name: string)
    requires copy.account == original.account && copy.scripts == original.scripts && copy.proxy == original.proxy
    requires copy.memoryAllocation == original.memoryAllocation && copy.collectData == original.collectData
    requires copy.debugMode == original.debugMode && copy.debugPort == original.debugPort
    requires copy.lowCpuMode == original.lowCpuMode && copy.lowResourceMode == original.lowResourceMode
    requires copy.worlds == original.worlds && copy.reflection == original.reflection
    requires copy.noRandoms == original.noRandoms && copy.noInterface == original.noInterface
    requires copy.noRender == original.noRender && copy.dismissRandoms == original.dismissRandoms
    requires copy.newMouse == original.newMouse && copy.enableBreaks == original.enableBreaks
    requires copy.stopAfterBreak == original.stopAfterBreak && copy.mirrorMode == original.mirrorMode
    requires copy.launchGame == original.launchGame && copy.closeClient == original.closeClient
    requires copy.logFileName == name
    ensures copy.Value() == original.Value().(logFileName := name)
  {
  }

  /** The value of a configuration is its head fields followed by its tail
      fields. */
  lemma AssembledValue(c: Configuration, h: Head, t: Tail)
    requires c.account == h.account && ScriptValues(c.scripts) == h.scripts && ProxyValue(c.proxy) == h.proxy
    requires c.memoryAllocation == h.memoryAllocation && c.collectData == h.collectData
    requires c.debugMode == h.debugMode && c.debugPort == h.debugPort
    requires c.lowCpuMode == h.lowCpuMode && c.lowResourceMode == h.lowResourceMode && c.worlds == h.worlds
    requires c.reflection == t.reflection && c.noRandoms == t.noRandoms && c.logFileName == t.logFileName
    requires |t.singles| == 9 && c.noInterface == t.singles[0] && c.noRender == t.singles[1]
    requires c.dismissRandoms == t.singles[2] && c.newMouse == t.singles[3] && c.enableBreaks == t.singles[4]
    requires c.stopAfterBreak == t.singles[5] && c.mirrorMode == t.singles[6] && c.launchGame == t.singles[7]
    requires c.closeClient == t.singles[8]
    ensures c.Value() == Assemble(h, t)
  {
    assert t.singles == [t.singles[0], t.singles[1], t.singles[2], t.singles[3], t.singles[4], t.singles[5],
                         t.singles[6], t.singles[7], t.singles[8]];
  }

  class Configuration {
    var account: Account
    var scripts: seq<Scripts.Script>
    var proxy: Proxies.Proxy?
    var memoryAllocation: int
    var collectData: bool
    var debugMode: bool
    var debugPort: int
    var lowCpuMode: bool
    var lowResourceMode: bool
    var dismissRandoms: bool
    var reflection: bool
    var noRandoms: bool
    var noInterface: bool
    var noRender: bool
    var newMouse: bool
    var enableBreaks: bool
    var stopAfterBreak: bool
    var mirrorMode: bool
    var launchGame: bool
    var worlds: seq<World>
    var isRunning: bool
    var closeClient: bool
    var logFileName: string
    var processID: int

    /** The persisted part of the object, in `writeObject` order. */
    function Value(): ConfigValue
      reads this`account, this`scripts, this`proxy, this`memoryAllocation, this`collectData, this`debugMode,
            this`debugPort, this`lowCpuMode, this`lowResourceMode, this`worlds, this`reflection, this`noRandoms,
            this`noInterface, this`noRender, this`dismissRandoms, this`newMouse, this`enableBreaks,
            this`stopAfterBreak, this`mirrorMode, this`launchGame, this`closeClient, this`logFileName,
            scripts, proxy
    {
      ConfigValue(account, ScriptValues(scripts), ProxyValue(proxy), memoryAllocation, collectData, debugMode,
                  debugPort, lowCpuMode, lowResourceMode, worlds, reflection, noRandoms, noInterface, noRender,
                  dismissRandoms, newMouse, enableBreaks, stopAfterBreak, mirrorMode, launchGame, closeClient,
                  logFileName)
    }

    /** `Configuration(account, scripts)`: no proxy, no memory setting or
        debug port (-1), every option off, no worlds, and a log file in the
        logs directory under a fresh random name (`logFileName`). */
    constructor (account: Account, scripts: seq<Scripts.Script>, logFileName: string)
      ensures this.account == account && this.scripts == scripts && proxy == null
      ensures memoryAllocation == -1 && debugPort == -1 && worlds == [] && this.logFileName == logFileName
      ensures !collectData && !debugMode && !lowCpuMode && !lowResourceMode && !dismissRandoms && !reflection
      ensures !noRandoms && !noInterface && !noRender && !newMouse && !enableBreaks && !stopAfterBreak
      ensures !mirrorMode && !launchGame && !closeClient
      ensures !isRunning && processID == 0
    {
      this.account := account;
      this.scripts := scripts;
      proxy := null;
      memoryAllocation := -1;
      collectData := false;
      debugMode := false;
      debugPort := -1;
      lowCpuMode := false;
      lowResourceMode := false;
      dismissRandoms := false;
      reflection := false;
      noRandoms := false;
      noInterface := false;
      noRender := false;
      newMouse := false;
      enableBreaks := false;
      stopAfterBreak := false;
      mirrorMode := false;
      launchGame := false;
      worlds := [];
      isRunning := false;
      closeClient := false;
      this.logFileName := logFileName;
      processID := 0;
    }

    // -------------------------------------------------------------------------
    // Setters: each changes its own field and nothing else
    // -------------------------------------------------------------------------

    method SetRunescapeAccount(account: Account)
      modifies this`account
      ensures this.account == account
    {
      this.account := account;
    }

    method SetScripts(scripts: seq<Scripts.Script>)
      modifies this`scripts
      ensures this.scripts == scripts
    {
      this.scripts := scripts;
    }

    method SetProxy(proxy: Proxies.Proxy?)
      modifies this`proxy
      ensures this.proxy == proxy
    {
      this.proxy := proxy;
    }

    method SetMemoryAllocation(memoryAllocation: int)
      modifies this`memoryAllocation
      ensures this.memoryAllocation == memoryAllocation
    {
      this.memoryAllocation := memoryAllocation;
    }

    method SetCollectData(collectData: bool)
      modifies this`collectData
      ensures this.collectData == collectData
    {
      this.collectData := collectData;
    }

    method SetDebugMode(debugMode: bool)
      modifies this`debugMode
      ensures this.debugMode == debugMode
    {
      this.debugMode := debugMode;
    }

    method SetDebugPort(debugPort: int)
      modifies this`debugPort
      ensures this.debugPort == debugPort
    {
      this.debugPort := debugPort;
    }

    method SetLowResourceMode(lowResourceMode: bool)
      modifies this`lowResourceMode
      ensures this.lowResourceMode == lowResourceMode
    {
      this.lowResourceMode := lowResourceMode;
    }

    method SetLowCpuMode(lowCpuMode: bool)
      modifies this`lowCpuMode
      ensures this.lowCpuMode == lowCpuMode
    {
      this.lowCpuMode := lowCpuMode;
    }

    method SetReflection(reflection: bool)
      modifies this`reflection
      ensures this.reflection == reflection
    {
      this.reflection := reflection;
    }

    method SetNoRandoms(noRandoms: bool)
      modifies this`noRandoms
      ensures this.noRandoms == noRandoms
    {
      this.noRandoms := noRandoms;
    }

    method SetNoInterface(noInterface: bool)
      modifies this`noInterface
      ensures this.noInterface == noInterface
    {
      this.noInterface := noInterface;
    }

    method SetNoRender(noRender: bool)
      modifies this`noRender
      ensures this.noRender == noRender
    {
      this.noRender := noRender;
    }

    /** `setWorlds` replaces the contents of the configuration's own list. */
    method SetWorlds(worlds: seq<World>)
      modifies this`worlds
      ensures this.worlds == worlds
    {
      this.worlds := worlds;
    }

    method SetRunning(isRunning: bool)
      modifies this`isRunning
      ensures this.isRunning == isRunning
    {
      this.isRunning := isRunning;
    }

    method SetDismissRandoms(dismissRandoms: bool)
      modifies this`dismissRandoms
      ensures this.dismissRandoms == dismissRandoms
    {
      this.dismissRandoms := dismissRandoms;
    }

    method SetNewMouse(newMouse: bool)
      modifies this`newMouse
      ensures this.newMouse == newMouse
    {
      this.newMouse := newMouse;
    }

    method SetEnableBreaks(enableBreaks: bool)
      modifies this`enableBreaks
      ensures this.enableBreaks == enableBreaks
    {
      this.enableBreaks := enableBreaks;
    }

    method SetStopAfterBreak(stopAfterBreak: bool)
      modifies this`stopAfterBreak
      ensures this.stopAfterBreak == stopAfterBreak
    {
      this.stopAfterBreak := stopAfterBreak;
    }

    method SetMirrorMode(mirrorMode: bool)
      modifies this`mirrorMode
      ensures this.mirrorMode == mirrorMode
    {
      this.mirrorMode := mirrorMode;
    }

    method SetLaunchGame(launchGame: bool)
      modifies this`launchGame
      ensures this.launchGame == launchGame
    {
      this.launchGame := launchGame;
    }

    method SetCloseClient(closeClient: bool)
      modifies this`closeClient
      ensures this.closeClient == closeClient
    {
      this.closeClient := closeClient;
    }

    // -------------------------------------------------------------------------
    // createCopy
    // -------------------------------------------------------------------------

    /** `createCopy`: a new configuration with the same account, the same
        script list and the same proxy object, and every setting copied, but
        a log file of its own (`freshName`) and not running. */
    method CreateCopy(freshName: string) returns (copy: Configuration)
      ensures fresh(copy)
      ensures copy.scripts == scripts && copy.proxy == proxy
      ensures copy.Value() == Value().(logFileName := freshName)
      ensures !copy.isRunning && copy.processID == 0
    {
      copy := new Configuration.CopyOf(this, freshName);
    }

    /** The copy `createCopy` builds: the original's account, script list,
        proxy object and settings, with a log file of its own. */
    constructor CopyOf(original: Configuration, freshName: string)
      ensures scripts == original.scripts && proxy == original.proxy
      ensures Value() == original.Value().(logFileName := freshName)
      ensures !isRunning && processID == 0
    {
      account := original.account;
      scripts := original.scripts;
      proxy := original.proxy;
      memoryAllocation := original.memoryAllocation;
      collectData := original.collectData;
      debugMode := original.debugMode;
      debugPort := original.debugPort;
      lowCpuMode := original.lowCpuMode;
      lowResourceMode := original.lowResourceMode;
      dismissRandoms := original.dismissRandoms;
      reflection := original.reflection;
      noRandoms := original.noRandoms;
      noInterface := original.noInterface;
      noRender := original.noRender;
      newMouse := original.newMouse;
      enableBreaks := original.enableBreaks;
      stopAfterBreak := original.stopAfterBreak;
      mirrorMode := original.mirrorMode;
      launchGame := original.launchGame;
      worlds := original.worlds;
      isRunning := false;
      closeClient := original.closeClient;
      logFileName := freshName;
      processID := 0;
      new;
      CopiedValue(this, original, freshName);
    }

    // -------------------------------------------------------------------------
    // readObject
    // -------------------------------------------------------------------------

    /** The object `readObject` leaves behind: the head fields read without
        a `try`, the options and log-file name read after them, and the
        running flag cleared. Deserialisation runs no constructor, so the PID
        keeps its default, 0. */
    constructor Decoded(head: Head, scripts: seq<Scripts.Script>, proxy: Proxies.Proxy?, tail: Tail)
      requires |tail.singles| == 9
      requires ScriptValues(scripts) == head.scripts && ProxyValue(proxy) == head.proxy
      ensures this.scripts == scripts && this.proxy == proxy
      ensures Value() == Assemble(head, tail) && !isRunning && processID == 0
    {
      account := head.account;
      this.scripts := scripts;
      this.proxy := proxy;
      memoryAllocation := head.memoryAllocation;
      collectData := head.collectData;
      debugMode := head.debugMode;
      debugPort := head.debugPort;
      lowCpuMode := head.lowCpuMode;
      lowResourceMode := head.lowResourceMode;
      worlds := head.worlds;
      reflection := tail.reflection;
      noRandoms := tail.noRandoms;
      noInterface := tail.singles[0];
      noRender := tail.singles[1];
      dismissRandoms := tail.singles[2];
      newMouse := tail.singles[3];
      enableBreaks := tail.singles[4];
      stopAfterBreak := tail.singles[5];
      mirrorMode := tail.singles[6];
      launchGame := tail.singles[7];
      closeClient := tail.singles[8];
      logFileName := tail.logFileName;
      isRunning := false;
      processID := 0;
      new;
      AssembledValue(this, head, tail);
    }

    // -------------------------------------------------------------------------
    // getCommands, run, stop
    // -------------------------------------------------------------------------

    /** `getCommands`: one command per script, in script order, each built
        from the client prefix, a fresh `toParameter` (world draw
        `draws[k]`, probed port `probes[k]`) and the script's parameters.
        With scripts but no worlds the first world draw throws, which is
        `None` here. */
    method GetCommands(clientPath: string, draws: seq<nat>, probes: seq<Option<int>>)
      returns (commands: Option<seq<seq<string>>>)
      requires |draws| == |scripts| && |probes| == |scripts|
      requires forall k :: 0 <= k < |draws| ==> draws[k] < |worlds| || |worlds| == 0
      ensures commands.None? <==> |worlds| == 0 && |scripts| > 0
      ensures commands.Some? ==> commands.value == ConfigurationEncoding.GetCommands(Value(), clientPath, draws, probes)
    {
      if |worlds| == 0 && |scripts| > 0 {
        return None;
      }
      var built := BuildCommands(Value(), clientPath, draws, probes);
      return Some(built);
    }

    /** `stop`: kills the tracked client only while running and tracking
        one. */
    method Stop() returns (killed: Option<int>)
      ensures killed.Some? <==> isRunning && processID != -1
      ensures killed.Some? ==> killed.value == processID
    {
      if !isRunning {
        return None;
      }
      if processID == -1 {
        return None;
      }
      return Some(processID);
    }

    /** The reading loop of one launch: copy each output line to the log,
        track the PID that appears on the "loaded" line, and stop at a fatal
        line or, when `closing`, at an exit line. Ends where `Scan` ends,
        having logged exactly the lines `Scan` read. */
    method Watch(s: Session, closing: bool) returns (fatal: bool, lines: seq<string>)
      requires processID == -1
      modifies this`processID
      ensures Scan(s.output, 0, s.pidsBefore, closing, -1) == ScanEnd(fatal, processID, |lines|)
      ensures |lines| <= |s.output| && lines == Texts(s.output[..|lines|])
    {
      ghost var scan := Scan(s.output, 0, s.pidsBefore, closing, -1);
      lines := [];
      var i := 0;
      while i < |s.output|
        invariant 0 <= i <= |s.output| && |lines| == i
        invariant scan == Scan(s.output, i, s.pidsBefore, closing, processID)
        invariant lines == Texts(s.output[..i])
      {
        var line := s.output[i];
        lines := lines + [line.text];
        TextsSnoc(s.output, i);
        ScanNext(s.output, i, s.pidsBefore, closing, processID);
        var signal := Classify(Trim(line.text), closing);
        if signal == Fatal {
          return true, lines;
        } else if signal == Loaded {
          var appeared := NewPids(s.pidsBefore, line.pids);
          if |appeared| == 1 {
            processID := appeared[0];
          }
        } else if signal == Exited {
          return false, lines;
        }
        i := i + 1;
      }
      fatal := false;
    }

    /** One pass of `run`'s command loop: launch `command`, mark the
        configuration running with no PID, watch the client's output; after a
        fatal line stop running and report the run aborted, otherwise kill
        the tracked client, if any, and stop running. The new state is
        `Launch`'s, and the object's running flag and PID are the new
        state's. */
    method LaunchCommand(command: seq<string>, s: Session, closing: bool, st: RunState) returns (next: RunState)
      modifies this`isRunning, this`processID
      ensures next == ConfigurationRun.Launch(command, s, closing, st)
      ensures isRunning == next.running && processID == next.processID
    {
      isRunning := true;
      processID := -1;
      var fatal, lines := Watch(s, closing);
      var launched, logged := st.launched + [command], st.logged + lines;
      if fatal {
        isRunning := false;
        return RunState(false, processID, launched, st.killed, logged, true);
      }
      var killed := st.killed;
      if processID != -1 {
        killed := killed + [processID];
        processID := -1;
      }
      isRunning := false;
      next := RunState(false, -1, launched, killed, logged, false);
    }

    /** `run`'s thread: build the commands, then launch them in turn.
        Returns the launched commands, the killed PIDs and the logged lines;
        the result is `RunSpec`'s. With scripts but no worlds, building the
        commands throws before anything is launched. */
    method Run(clientPath: string, draws: seq<nat>, probes: seq<Option<int>>, sessions: seq<Session>)
      returns (launched: seq<seq<string>>, killed: seq<int>, logged: seq<string>)
      requires |draws| == |scripts| && |probes| == |scripts| && |sessions| == |scripts|
      requires forall k :: 0 <= k < |draws| ==> draws[k] < |worlds| || |worlds| == 0
      modifies this`isRunning, this`processID
      ensures var r := RunSpec(old(Value()), old(isRunning), old(processID), clientPath, draws, probes, sessions);
              launched == r.launched && killed == r.killed && logged == r.logged
              && isRunning == r.running && processID == r.processID
    {
      launched, killed, logged := [], [], [];
      var commands := GetCommands(clientPath, draws, probes);
      if commands.Some? {
        launched, killed, logged := RunCommands(commands.value, sessions, closeClient);
      }
    }

    /** `run`'s command loop: launch each command, and abandon the remaining
        commands after a fatal line. The outcome is `RunFrom`'s. */
    method RunCommands(commands: seq<seq<string>>, sessions: seq<Session>, closing: bool)
      returns (launched: seq<seq<string>>, killed: seq<int>, logged: seq<string>)
      requires |sessions| == |commands|
      modifies this`isRunning, this`processID
      ensures var r := RunFrom(commands, sessions, closing, 0, RunState(old(isRunning), old(processID), [], [], [], false));
              launched == r.launched && killed == r.killed && logged == r.logged
              && isRunning == r.running && processID == r.processID
    {
      var st := RunState(isRunning, processID, [], [], [], false);
      ghost var spec := RunFrom(commands, sessions, closing, 0, st);
      var k := 0;
      while k < |commands| && !st.aborted
        invariant 0 <= k <= |commands|
        invariant spec == if st.aborted then st else RunFrom(commands, sessions, closing, k, st)
        invariant isRunning == st.running && processID == st.processID
      {
        var next := LaunchCommand(commands[k], sessions[k], closing, st);
        RunFromNext(commands, sessions, closing, k, st, next);
        st := next;
        k := k + 1;
      }
      launched, killed, logged := st.launched, st.killed, st.logged;
    }
  }

  /** `readObject`: deserialising a configuration. The stream is read in
      `writeObject` order and the object is then built from what was read;
      any failure before the optional fields means no object. */
  method ReadObject(stream: ObjectInputStream, catalog: seq<World>, existing: set<string>, freshName: string)
    returns (c: Configuration?)
    requires stream.pos == 0
    modifies stream`pos
    ensures c != null <==> Decode(stream.items, catalog, existing, freshName).Some?
    ensures c != null ==> fresh(c) && c.Value() == Decode(stream.items, catalog, existing, freshName).value
    ensures c != null ==> !c.isRunning && c.processID == 0
    ensures c != null ==> (forall s :: s in c.scripts ==> fresh(s)) && (c.proxy != null ==> fresh(c.proxy))
  {
    var ok, head, scripts, proxy := ReadHead(stream, catalog);
    if !ok {
      return null;
    }
    var tail := ReadLaterOptions(stream, existing, freshName);
    c := new Configuration.Decoded(head, scripts, proxy, tail);
    DecodedAs(stream.items, catalog, existing, freshName, head, tail);
  }
}
