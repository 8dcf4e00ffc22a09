/** The persisted state of a run configuration as a value, and the command
    line it encodes into (`Configuration.toParameter` and `getCommands`).

    The random world draw, the free-port probe and the installed client's jar
    path are parameters: `worldIndex` is the value `Random.nextInt` returned,
    `probe` what `getAvailablePort` returned, `clientPath` the jar path. */
module ConfigurationEncoding {
  import opened Wrappers
  import opened Text
  import opened Collaborators
  import Proxies
  import Scripts

  /** Every persisted field of a configuration, in `writeObject` order. */
  datatype ConfigValue = ConfigValue(
    account: Account,
    scripts: seq<Scripts.ScriptValue>,
    proxy: Option<Proxies.ProxyValue>,
    memoryAllocation: int,
    collectData: bool,
    debugMode: bool,
    debugPort: int,
    lowCpuMode: bool,
    lowResourceMode: bool,
    worlds: seq<World>,
    reflection: bool,
    noRandoms: bool,
    noInterface: bool,
    noRender: bool,
    dismissRandoms: bool,
    newMouse: bool,
    enableBreaks: bool,
    stopAfterBreak: bool,
    mirrorMode: bool,
    launchGame: bool,
    closeClient: bool,
    logFileName: string)

  // ---------------------------------------------------------------------------
  // toParameter, segment by segment
  // ---------------------------------------------------------------------------

  function ProxyTokens(c: ConfigValue): seq<string>
  {
    if c.proxy.Some? then Proxies.ToParameter(c.proxy.value) else []
  }

  function BreakTokens(c: ConfigValue): seq<string>
  {
    if c.enableBreaks then
      ["-breaksettings", Join(":", [BoolToString(c.enableBreaks), BoolToString(c.stopAfterBreak)])]
    else []
  }

  function MemoryTokens(c: ConfigValue): seq<string>
  {
    if c.memoryAllocation != -1 then ["-mem", IntToString(c.memoryAllocation)] else []
  }

  function DataTokens(c: ConfigValue): seq<string>
  {
    if c.collectData then ["-data", "1"] else []
  }

  /** The explicit debug port when debug mode is on and a port is set;
      otherwise whatever port the probe found, if any. */
  function DebugTokens(c: ConfigValue, probe: Option<int>): seq<string>
  {
    if c.debugMode && c.debugPort != -1 then ["-debug", IntToString(c.debugPort)]
    else if probe.Some? then ["-debug", IntToString(probe.value)]
    else []
  }

  /** Appends `name` when `on` holds: one step of building the allow list. */
  function AddIf(l: seq<string>, on: bool, name: string): seq<string>
  {
    if on then l + [name] else l
  }

  /** The allow list as the code builds it, one check after another. */
  function AllowList(c: ConfigValue): seq<string>
  {
    AddIf(AddIf(AddIf(AddIf(AddIf(AddIf([], c.lowResourceMode, "lowresource"),
      c.lowCpuMode, "lowcpu"), c.reflection, "reflection"), c.noRandoms, "norandoms"),
      c.noInterface, "nointerface"), c.noRender, "norender")
  }

  function AllowTokens(c: ConfigValue): seq<string>
  {
    if |AllowList(c)| > 0 then ["-allow", Join(",", AllowList(c))] else []
  }

  function SwitchTokens(c: ConfigValue): seq<string>
  {
    (if c.dismissRandoms then ["-dismissrandoms"] else [])
    + (if c.newMouse then ["-newmouse"] else [])
    + (if c.mirrorMode then ["-mirror"] else [])
    + (if c.launchGame then ["-launchgame"] else [])
  }

  /** The tokens between the proxy's and the world's. */
  function Options(c: ConfigValue, probe: Option<int>): (r: seq<string>)
    ensures |r| <= 14
  {
    var head := BreakTokens(c) + MemoryTokens(c) + DataTokens(c) + DebugTokens(c, probe);
    var allow := AllowTokens(c);
    var switches := SwitchTokens(c);
    assert |head| <= 8;
    assert |allow| <= 2;
    assert |switches| <= 4;
    head + allow + switches
  }

  /** `toParameter`: the account's tokens, then the proxy's, then the
      options, then the tokens of the drawn world. Drawing needs a non-empty
      pool (`Random.nextInt` rejects a bound of zero). */
  function ToParameter(c: ConfigValue, worldIndex: nat, probe: Option<int>): (r: seq<string>)
    requires worldIndex < |c.worlds|
    ensures |r| == |c.account.tokens| + |ProxyTokens(c)| + |Options(c, probe)| + |c.worlds[worldIndex].tokens|
    ensures r[..|c.account.tokens|] == c.account.tokens
    ensures r[|c.account.tokens|..|c.account.tokens| + |ProxyTokens(c)|] == ProxyTokens(c)
    ensures r[|c.account.tokens| + |ProxyTokens(c)|..|r| - |c.worlds[worldIndex].tokens|] == Options(c, probe)
    ensures r[|r| - |c.worlds[worldIndex].tokens|..] == c.worlds[worldIndex].tokens
  {
    var a := c.account.tokens;
    var p := ProxyTokens(c);
    var o := Options(c, probe);
    var w := c.worlds[worldIndex].tokens;
    var r := a + p + o + w;
    assert r[..|a|] == a;
    assert r[|a|..|a| + |p|] == p;
    assert r[|a| + |p|..|r| - |w|] == o;
    assert r[|r| - |w|..] == w;
    r
  }

  // ---------------------------------------------------------------------------
  // The option vocabulary: an independent description of Options
  // ---------------------------------------------------------------------------

  /** The flags the options section may hold, declared in the order they
      must appear. */
  datatype Flag = BreakSettings | Memory | Data | Debug | Allow | DismissRandoms | NewMouse | Mirror | LaunchGame
  {
    function Token(): string
    {
      match this
      case BreakSettings => "-breaksettings"
      case Memory => "-mem"
      case Data => "-data"
      case Debug => "-debug"
      case Allow => "-allow"
      case DismissRandoms => "-dismissrandoms"
      case NewMouse => "-newmouse"
      case Mirror => "-mirror"
      case LaunchGame => "-launchgame"
    }

    /** Flags followed by an argument token. */
    predicate Valued()
    {
      BreakSettings? || Memory? || Data? || Debug? || Allow?
    }
  }

  /** A flag token: a dash followed by a lower-case letter. No argument the
      encoder emits has this shape. */
  predicate IsFlag(t: string)
  {
    |t| >= 2 && t[0] == '-' && 'a' <= t[1] <= 'z'
  }

  /** When each flag must be present. */
  predicate Enabled(c: ConfigValue, probe: Option<int>, f: Flag)
  {
    match f
    case BreakSettings => c.enableBreaks
    case Memory => c.memoryAllocation != -1
    case Data => c.collectData
    case Debug => (c.debugMode && c.debugPort != -1) || probe.Some?
    case Allow => c.lowResourceMode || c.lowCpuMode || c.reflection || c.noRandoms || c.noInterface || c.noRender
    case DismissRandoms => c.dismissRandoms
    case NewMouse => c.newMouse
    case Mirror => c.mirrorMode
    case LaunchGame => c.launchGame
  }

  /** The allow-list names, in priority order, and the flag behind each. */
  const AllowNames: seq<string> := ["lowresource", "lowcpu", "reflection", "norandoms", "nointerface", "norender"]

  function AllowFlags(c: ConfigValue): seq<bool>
  {
    [c.lowResourceMode, c.lowCpuMode, c.reflection, c.noRandoms, c.noInterface, c.noRender]
  }

  /** The names whose flag is set, in table order. */
  function SelectNames(names: seq<string>, flags: seq<bool>): seq<string>
    requires |names| == |flags|
  {
    if |names| == 0 then [] else (if flags[0] then [names[0]] else []) + SelectNames(names[1..], flags[1..])
  }

  /** The argument each valued flag must carry. */
  function Argument(c: ConfigValue, probe: Option<int>, f: Flag): string
  {
    match f
    case BreakSettings => "true:" + BoolToString(c.stopAfterBreak)
    case Memory => IntToString(c.memoryAllocation)
    case Data => "1"
    case Debug => IntToString(if c.debugMode && c.debugPort != -1 then c.debugPort else probe.GetOr(0))
    case Allow => Join(",", SelectNames(AllowNames, AllowFlags(c)))
    case _ => ""
  }

  function Pick(c: ConfigValue, probe: Option<int>, f: Flag): seq<string>
  {
    if Enabled(c, probe, f) then [f.Token()] else []
  }

  function PickFlag(c: ConfigValue, probe: Option<int>, f: Flag): seq<Flag>
  {
    if Enabled(c, probe, f) then [f] else []
  }

  /** The enabled flags, in the order they are declared. */
  function ExpectedFlagList(c: ConfigValue, probe: Option<int>): seq<Flag>
  {
    ValuedFlagList(c, probe) + SwitchFlagList(c, probe)
  }

  function ValuedFlagList(c: ConfigValue, probe: Option<int>): seq<Flag>
  {
    PickFlag(c, probe, BreakSettings) + PickFlag(c, probe, Memory) + PickFlag(c, probe, Data) + PickFlag(c, probe, Debug)
    + PickFlag(c, probe, Allow)
  }

  function SwitchFlagList(c: ConfigValue, probe: Option<int>): seq<Flag>
  {
    PickFlag(c, probe, DismissRandoms) + PickFlag(c, probe, NewMouse) + PickFlag(c, probe, Mirror) + PickFlag(c, probe, LaunchGame)
  }

  function Tokens(fs: seq<Flag>): seq<string>
  {
    if |fs| == 0 then [] else [fs[0].Token()] + Tokens(fs[1..])
  }

  /** The tokens of the enabled flags, in the order the flags are declared. */
  function ExpectedFlags(c: ConfigValue, probe: Option<int>): seq<string>
  {
    Pick(c, probe, BreakSettings) + Pick(c, probe, Memory) + Pick(c, probe, Data) + Pick(c, probe, Debug) + Pick(c, probe, Allow)
    + (Pick(c, probe, DismissRandoms) + Pick(c, probe, NewMouse) + Pick(c, probe, Mirror) + Pick(c, probe, LaunchGame))
  }

  /** The flag tokens of `ts`, in order. */
  function FlagsOf(ts: seq<string>): seq<string>
  {
    if |ts| == 0 then [] else (if IsFlag(ts[0]) then [ts[0]] else []) + FlagsOf(ts[1..])
  }

  /** The token right after each occurrence of `t` in `ts`, in order. */
  function ArgsOf(ts: seq<string>, t: string): seq<string>
  {
    if |ts| == 0 then [] else (if ts[0] == t && |ts| >= 2 then [ts[1]] else []) + ArgsOf(ts[1..], t)
  }

  // --- generic facts about the three views ----------------------------------

  lemma {:induction false} FlagsOfConcat(a: seq<string>, b: seq<string>)
    ensures FlagsOf(a + b) == FlagsOf(a) + FlagsOf(b)
    decreases |a|
  {
    if |a| > 0 {
      FlagsOfConcat(a[1..], b);
      assert (a + b)[0] == a[0];
      assert (a + b)[1..] == a[1..] + b;
      var h := if IsFlag(a[0]) then [a[0]] else [];
      calc {
        FlagsOf(a + b);
        h + FlagsOf(a[1..] + b);
        h + (FlagsOf(a[1..]) + FlagsOf(b));
        (h + FlagsOf(a[1..])) + FlagsOf(b);
      }
    } else {
      assert a + b == b;
    }
  }

  /** Appending `b` adds its arguments, as long as `a` does not end in `t`. */
  lemma {:induction false} ArgsOfConcat(a: seq<string>, b: seq<string>, t: string)
    requires |a| == 0 || a[|a| - 1] != t
    ensures ArgsOf(a + b, t) == ArgsOf(a, t) + ArgsOf(b, t)
    decreases |a|
  {
    if |a| == 0 {
      assert a + b == b;
    } else if |a| == 1 {
      assert (a + b)[0] == a[0] != t;
      assert (a + b)[1..] == b;
      assert ArgsOf(a, t) == [] + ArgsOf([], t);
    } else {
      ArgsOfConcat(a[1..], b, t);
      assert (a + b)[0] == a[0] && (a + b)[1] == a[1];
      assert (a + b)[1..] == a[1..] + b;
      var h := if a[0] == t then [a[1]] else [];
      calc {
        ArgsOf(a + b, t);
        h + ArgsOf(a[1..] + b, t);
        h + (ArgsOf(a[1..], t) + ArgsOf(b, t));
        (h + ArgsOf(a[1..], t)) + ArgsOf(b, t);
      }
    }
  }

  lemma {:induction false} ArgsOfAbsent(ts: seq<string>, t: string)
    requires t !in ts
    ensures ArgsOf(ts, t) == []
    decreases |ts|
  {
    if |ts| > 0 {
      assert ts == [ts[0]] + ts[1..];
      ArgsOfAbsent(ts[1..], t);
    }
  }

  /** Only flags survive in FlagsOf, so a flag occurs equally often in both. */
  lemma {:induction false} FlagsOfCount(ts: seq<string>, t: string)
    requires IsFlag(t)
    ensures multiset(FlagsOf(ts))[t] == multiset(ts)[t]
    decreases |ts|
  {
    if |ts| > 0 {
      FlagsOfCount(ts[1..], t);
      assert ts == [ts[0]] + ts[1..];
    }
  }

  lemma {:induction false} SelectNamesSnoc(a: seq<string>, fa: seq<bool>, x: string, f: bool)
    requires |a| == |fa|
    ensures SelectNames(a + [x], fa + [f]) == AddIf(SelectNames(a, fa), f, x)
    decreases |a|
  {
    if |a| == 0 {
      assert a + [x] == [x] && fa + [f] == [f];
      assert SelectNames([x], [f]) == (if f then [x] else []) + SelectNames([], []);
    } else {
      SelectNamesSnoc(a[1..], fa[1..], x, f);
      assert (a + [x])[0] == a[0] && (fa + [f])[0] == fa[0];
      assert (a + [x])[1..] == a[1..] + [x];
      assert (fa + [f])[1..] == fa[1..] + [f];
    }
  }

  /** The names selected from a prefix, extended by one more check. */
  lemma SelectNamesStep(names: seq<string>, flags: seq<bool>, k: nat)
    requires |names| == |flags| && k < |names|
    ensures SelectNames(names[..k + 1], flags[..k + 1]) == AddIf(SelectNames(names[..k], flags[..k]), flags[k], names[k])
  {
    assert names[..k + 1] == names[..k] + [names[k]];
    assert flags[..k + 1] == flags[..k] + [flags[k]];
    SelectNamesSnoc(names[..k], flags[..k], names[k], flags[k]);
  }

  lemma {:induction false} SelectNamesNonEmpty(names: seq<string>, flags: seq<bool>)
    requires |names| == |flags|
    ensures |SelectNames(names, flags)| > 0 <==> true in flags
    decreases |names|
  {
    if |names| > 0 {
      SelectNamesNonEmpty(names[1..], flags[1..]);
      assert flags == [flags[0]] + flags[1..];
    }
  }

  lemma {:induction false} SelectNamesFrom(names: seq<string>, flags: seq<bool>)
    requires |names| == |flags|
    ensures forall x :: x in SelectNames(names, flags) ==> x in names
    decreases |names|
  {
    if |names| > 0 {
      SelectNamesFrom(names[1..], flags[1..]);
    }
  }

  // --- the allow list ---------------------------------------------------------

  /** The first three checks of a chain select from the first three names. */
  lemma SelectNamesThree(n: seq<string>, f: seq<bool>)
    requires |n| == |f| && |n| >= 3
    ensures SelectNames(n[..3], f[..3]) == AddIf(AddIf(AddIf([], f[0], n[0]), f[1], n[1]), f[2], n[2])
  {
    assert SelectNames(n[..0], f[..0]) == [];
    SelectNamesStep(n, f, 0);
    SelectNamesStep(n, f, 1);
    SelectNamesStep(n, f, 2);
  }

  /** Six checks in a row select from six names. */
  lemma SelectNamesSix(n: seq<string>, f: seq<bool>)
    requires |n| == 6 && |f| == 6
    ensures SelectNames(n, f)
         == AddIf(AddIf(AddIf(AddIf(AddIf(AddIf([], f[0], n[0]), f[1], n[1]), f[2], n[2]), f[3], n[3]), f[4], n[4]), f[5], n[5])
  {
    SelectNamesThree(n, f);
    SelectNamesStep(n, f, 3);
    SelectNamesStep(n, f, 4);
    SelectNamesStep(n, f, 5);
    assert n[..6] == n && f[..6] == f;
  }

  /** The code's chain of checks builds exactly the names whose flag is set,
      in priority order. */
  lemma AllowListIsSelection(c: ConfigValue)
    ensures AllowList(c) == SelectNames(AllowNames, AllowFlags(c))
  {
    SelectNamesSix(AllowNames, AllowFlags(c));
  }

  /** Every allow-list name is non-empty, starts with a letter and holds no comma. */
  lemma AllowNamesShape()
    ensures forall x :: x in AllowNames ==> |x| > 0 && 'a' <= x[0] <= 'z' && ',' !in x
  {
    assert ',' !in "lowresource";
    assert ',' !in "lowcpu";
    assert ',' !in "reflection";
    assert ',' !in "norandoms";
    assert ',' !in "nointerface";
    assert ',' !in "norender";
  }

  /** `-allow` is due iff at least one of the six modes is set. */
  lemma AllowListNonEmpty(c: ConfigValue)
    ensures |AllowList(c)| > 0 <==> Enabled(c, None, Allow)
  {
    AllowListIsSelection(c);
    var f := AllowFlags(c);
    SelectNamesNonEmpty(AllowNames, f);
    assert true in f <==> Enabled(c, None, Allow) by {
      assert f == [c.lowResourceMode, c.lowCpuMode, c.reflection, c.noRandoms, c.noInterface, c.noRender];
    }
  }

  /** The `-allow` argument splits back at its commas into the selected
      names, and is never mistaken for a flag. */
  lemma AllowArgument(c: ConfigValue)
    requires |AllowList(c)| > 0
    ensures Split(Join(",", AllowList(c)), ',') == SelectNames(AllowNames, AllowFlags(c))
    ensures !IsFlag(Join(",", AllowList(c)))
  {
    AllowListIsSelection(c);
    SelectNamesFrom(AllowNames, AllowFlags(c));
    AllowNamesSplit(AllowList(c));
    AllowNamesNotFlag(AllowList(c));
  }

  /** Names taken from the `-allow` vocabulary split back at their commas. */
  lemma AllowNamesSplit(l: seq<string>)
    requires |l| > 0 && forall x :: x in l ==> x in AllowNames
    ensures Split(Join(",", l), ',') == l
  {
    AllowNamesShape();
    assert forall k :: 0 <= k < |l| ==> ',' !in l[k] by {
      forall k | 0 <= k < |l| ensures ',' !in l[k] {
        assert l[k] in AllowNames;
      }
    }
    SplitJoin(l, ',');
  }

  /** A non-empty list of names from the `-allow` vocabulary, joined, starts
      with a lower-case letter and so is not a flag. */
  lemma AllowNamesNotFlag(l: seq<string>)
    requires |l| > 0 && forall x :: x in l ==> x in AllowNames
    ensures !IsFlag(Join(",", l))
  {
    AllowNamesShape();
    assert l[0] in AllowNames;
    JoinStart(",", l);
    assert Join(",", l)[0] == Join(",", l)[..|l[0]|][0];
  }

  // --- segment by segment -------------------------------------------------------

  /** No number is a flag. */
  lemma NumeralIsNotFlag(n: int)
    ensures !IsFlag(IntToString(n))
  {
    var s := IntToString(n);
    if |s| >= 2 {
      assert s[0] == '-' ==> IsDigit(s[1]);
    }
  }

  /** A flag with its argument. */
  lemma PairViews(flag: string, arg: string, t: string)
    requires IsFlag(flag) && !IsFlag(arg) && IsFlag(t)
    ensures FlagsOf([flag, arg]) == [flag]
    ensures ArgsOf([flag, arg], t) == if flag == t then [arg] else []
  {
    assert [flag, arg][1..] == [arg];
    assert FlagsOf([arg]) == [] + FlagsOf([]);
    assert arg != t;
    assert ArgsOf([arg], t) == [] + ArgsOf([], t);
  }

  lemma FlagOfSingle(flag: string)
    requires IsFlag(flag)
    ensures FlagsOf([flag]) == [flag]
  {
    assert FlagsOf([flag]) == [flag] + FlagsOf([]);
  }

  /** The tokens a valued flag contributes to the options section. */
  function Segment(c: ConfigValue, probe: Option<int>, f: Flag): seq<string>
    requires f.Valued()
  {
    match f
    case BreakSettings => BreakTokens(c)
    case Memory => MemoryTokens(c)
    case Data => DataTokens(c)
    case Debug => DebugTokens(c, probe)
    case Allow => AllowTokens(c)
  }

  lemma BreakArgument(c: ConfigValue)
    requires c.enableBreaks
    ensures BreakTokens(c) == ["-breaksettings", "true:" + BoolToString(c.stopAfterBreak)]
  {
    var parts := [BoolToString(true), BoolToString(c.stopAfterBreak)];
    assert parts[1..] == [BoolToString(c.stopAfterBreak)];
    assert Join(":", parts) == BoolToString(true) + ":" + BoolToString(c.stopAfterBreak);
    assert BoolToString(true) == "true";
    assert "true" + ":" == "true:";
  }

  /** Every valued segment is either empty or its flag followed by its
      argument, which is not itself a flag. */
  lemma SegmentShape(c: ConfigValue, probe: Option<int>, f: Flag)
    requires f.Valued()
    ensures Segment(c, probe, f) == if Enabled(c, probe, f) then [f.Token(), Argument(c, probe, f)] else []
    ensures Enabled(c, probe, f) ==> !IsFlag(Argument(c, probe, f))
  {
    match f
    case BreakSettings =>
      if c.enableBreaks {
        BreakArgument(c);
      }
    case Memory =>
      NumeralIsNotFlag(c.memoryAllocation);
    case Data =>
    case Debug =>
      NumeralIsNotFlag(if c.debugMode && c.debugPort != -1 then c.debugPort else probe.GetOr(0));
    case Allow =>
      AllowListNonEmpty(c);
      AllowListIsSelection(c);
      assert Enabled(c, probe, Allow) == Enabled(c, None, Allow);
      if |AllowList(c)| > 0 {
        AllowArgument(c);
      }
  }

  /** A valued segment's flags, its arguments for a flag `t`, and its end. */
  lemma SegmentViews(c: ConfigValue, probe: Option<int>, f: Flag, t: string)
    requires f.Valued() && IsFlag(t)
    ensures FlagsOf(Segment(c, probe, f)) == Pick(c, probe, f)
    ensures ArgsOf(Segment(c, probe, f), t) == if Enabled(c, probe, f) && f.Token() == t then [Argument(c, probe, f)] else []
    ensures EndsClear(Segment(c, probe, f), t)
  {
    SegmentShape(c, probe, f);
    if Enabled(c, probe, f) {
      PairViews(f.Token(), Argument(c, probe, f), t);
    }
  }

  lemma OptionsBySegment(c: ConfigValue, probe: Option<int>)
    ensures Options(c, probe)
         == Segment(c, probe, BreakSettings) + Segment(c, probe, Memory) + Segment(c, probe, Data)
          + Segment(c, probe, Debug) + Segment(c, probe, Allow) + SwitchTokens(c)
  {
  }

  /** The switch segment holds the four switches' tokens, in order. */
  lemma SwitchSegment(c: ConfigValue, probe: Option<int>)
    ensures FlagsOf(SwitchTokens(c)) == Pick(c, probe, DismissRandoms) + Pick(c, probe, NewMouse) + Pick(c, probe, Mirror) + Pick(c, probe, LaunchGame)
  {
    var d, n, m, l := Pick(c, probe, DismissRandoms), Pick(c, probe, NewMouse), Pick(c, probe, Mirror), Pick(c, probe, LaunchGame);
    assert SwitchTokens(c) == d + n + m + l;
    FlagsOfConcat(d + n + m, l);
    FlagsOfConcat(d + n, m);
    FlagsOfConcat(d, n);
    PickFlags(c, probe, DismissRandoms);
    PickFlags(c, probe, NewMouse);
    PickFlags(c, probe, Mirror);
    PickFlags(c, probe, LaunchGame);
  }

  lemma PickFlags(c: ConfigValue, probe: Option<int>, f: Flag)
    ensures FlagsOf(Pick(c, probe, f)) == Pick(c, probe, f)
  {
    assert IsFlag(f.Token());
    if Enabled(c, probe, f) {
      FlagOfSingle(f.Token());
    }
  }

  /** No switch token is a valued flag's token. */
  lemma SwitchTokensAreSwitches(c: ConfigValue, f: Flag)
    requires f.Valued()
    ensures f.Token() !in SwitchTokens(c)
  {
    var d, n, m, l := Pick(c, None, DismissRandoms), Pick(c, None, NewMouse), Pick(c, None, Mirror), Pick(c, None, LaunchGame);
    assert SwitchTokens(c) == d + n + m + l;
    assert f.Token() != DismissRandoms.Token() && f.Token() != NewMouse.Token();
    assert f.Token() != Mirror.Token() && f.Token() != LaunchGame.Token();
  }

  // --- the options section as a whole ---------------------------------------------

  /** The flags of the options section are exactly the enabled flags of the
      vocabulary, in vocabulary order: `-breaksettings` iff breaks are
      enabled, `-mem` iff the allocation is not -1, `-data` iff data
      collection is on, `-debug` iff debug mode has a port or the probe found
      one, `-allow` iff one of the six allow flags is set, then
      `-dismissrandoms`, `-newmouse`, `-mirror`, `-launchgame` each iff its
      own flag is set. */
  lemma OptionsFlags(c: ConfigValue, probe: Option<int>)
    ensures FlagsOf(Options(c, probe)) == ExpectedFlags(c, probe)
  {
    OptionsBySegment(c, probe);
    var t := "-mem";
    SegmentViews(c, probe, BreakSettings, t);
    SegmentViews(c, probe, Memory, t);
    SegmentViews(c, probe, Data, t);
    SegmentViews(c, probe, Debug, t);
    SegmentViews(c, probe, Allow, t);
    SwitchSegment(c, probe);
    var b, m, d := Segment(c, probe, BreakSettings), Segment(c, probe, Memory), Segment(c, probe, Data);
    var g, a, s := Segment(c, probe, Debug), Segment(c, probe, Allow), SwitchTokens(c);
    FlagsOfConcat(b + m + d + g + a, s);
    FlagsOfConcat(b + m + d + g, a);
    FlagsOfConcat(b + m + d, g);
    FlagsOfConcat(b + m, d);
    FlagsOfConcat(b, m);
  }

  /** Distinct flags have distinct tokens. */
  lemma TokenInjective(f: Flag, g: Flag)
    ensures f.Token() == g.Token() ==> f == g
  {
    if f.Token() == g.Token() {
      assert |f.Token()| == |g.Token()| && f.Token()[1] == g.Token()[1];
    }
  }

  lemma {:induction false} TokensConcat(a: seq<Flag>, b: seq<Flag>)
    ensures Tokens(a + b) == Tokens(a) + Tokens(b)
    decreases |a|
  {
    if |a| == 0 {
      assert a + b == b;
    } else {
      TokensConcat(a[1..], b);
      assert (a + b)[0] == a[0];
      assert (a + b)[1..] == a[1..] + b;
    }
  }

  /** A flag's token occurs as often among the tokens as the flag does among the flags. */
  lemma {:induction false} TokensCount(fs: seq<Flag>, f: Flag)
    ensures multiset(Tokens(fs))[f.Token()] == multiset(fs)[f]
    decreases |fs|
  {
    if |fs| > 0 {
      TokensCount(fs[1..], f);
      TokenInjective(fs[0], f);
      assert fs == [fs[0]] + fs[1..];
    }
  }

  lemma PickTokens(c: ConfigValue, probe: Option<int>, g: Flag)
    ensures Tokens(PickFlag(c, probe, g)) == Pick(c, probe, g)
  {
    if Enabled(c, probe, g) {
      assert Tokens([g]) == [g.Token()] + Tokens([]);
    }
  }

  lemma ValuedTokens(c: ConfigValue, probe: Option<int>)
    ensures Tokens(ValuedFlagList(c, probe))
         == Pick(c, probe, BreakSettings) + Pick(c, probe, Memory) + Pick(c, probe, Data) + Pick(c, probe, Debug) + Pick(c, probe, Allow)
  {
    var q0, q1, q2, q3, q4 := PickFlag(c, probe, BreakSettings), PickFlag(c, probe, Memory), PickFlag(c, probe, Data), PickFlag(c, probe, Debug), PickFlag(c, probe, Allow);
    TokensConcat(q0, q1);
    TokensConcat(q0 + q1, q2);
    TokensConcat(q0 + q1 + q2, q3);
    TokensConcat(q0 + q1 + q2 + q3, q4);
    PickTokens(c, probe, BreakSettings);
    PickTokens(c, probe, Memory);
    PickTokens(c, probe, Data);
    PickTokens(c, probe, Debug);
    PickTokens(c, probe, Allow);
  }

  lemma SwitchTokensOfList(c: ConfigValue, probe: Option<int>)
    ensures Tokens(SwitchFlagList(c, probe))
         == Pick(c, probe, DismissRandoms) + Pick(c, probe, NewMouse) + Pick(c, probe, Mirror) + Pick(c, probe, LaunchGame)
  {
    var q5, q6, q7, q8 := PickFlag(c, probe, DismissRandoms), PickFlag(c, probe, NewMouse), PickFlag(c, probe, Mirror), PickFlag(c, probe, LaunchGame);
    TokensConcat(q5, q6);
    TokensConcat(q5 + q6, q7);
    TokensConcat(q5 + q6 + q7, q8);
    PickTokens(c, probe, DismissRandoms);
    PickTokens(c, probe, NewMouse);
    PickTokens(c, probe, Mirror);
    PickTokens(c, probe, LaunchGame);
  }

  lemma ExpectedTokens(c: ConfigValue, probe: Option<int>)
    ensures Tokens(ExpectedFlagList(c, probe)) == ExpectedFlags(c, probe)
  {
    ValuedTokens(c, probe);
    SwitchTokensOfList(c, probe);
    TokensConcat(ValuedFlagList(c, probe), SwitchFlagList(c, probe));
  }

  lemma PickFlagCount(c: ConfigValue, probe: Option<int>, g: Flag, f: Flag)
    ensures multiset(PickFlag(c, probe, g))[f] == if g == f && Enabled(c, probe, f) then 1 else 0
  {
  }

  lemma ValuedCount(c: ConfigValue, probe: Option<int>, f: Flag)
    ensures multiset(ValuedFlagList(c, probe))[f] == if f.Valued() && Enabled(c, probe, f) then 1 else 0
  {
    PickFlagCount(c, probe, BreakSettings, f);
    PickFlagCount(c, probe, Memory, f);
    PickFlagCount(c, probe, Data, f);
    PickFlagCount(c, probe, Debug, f);
    PickFlagCount(c, probe, Allow, f);
  }

  lemma SwitchCount(c: ConfigValue, probe: Option<int>, f: Flag)
    ensures multiset(SwitchFlagList(c, probe))[f] == if !f.Valued() && Enabled(c, probe, f) then 1 else 0
  {
    PickFlagCount(c, probe, DismissRandoms, f);
    PickFlagCount(c, probe, NewMouse, f);
    PickFlagCount(c, probe, Mirror, f);
    PickFlagCount(c, probe, LaunchGame, f);
  }

  /** Every flag is listed once when enabled and not at all otherwise. */
  lemma FlagListCount(c: ConfigValue, probe: Option<int>, f: Flag)
    ensures multiset(ExpectedFlagList(c, probe))[f] == if Enabled(c, probe, f) then 1 else 0
  {
    ValuedCount(c, probe, f);
    SwitchCount(c, probe, f);
  }

  lemma ExpectedCount(c: ConfigValue, probe: Option<int>, f: Flag)
    ensures multiset(ExpectedFlags(c, probe))[f.Token()] == if Enabled(c, probe, f) then 1 else 0
  {
    ExpectedTokens(c, probe);
    TokensCount(ExpectedFlagList(c, probe), f);
    FlagListCount(c, probe, f);
  }

  /** Each flag occurs in the options section exactly once when it is
      enabled, and not at all otherwise. */
  lemma FlagCount(c: ConfigValue, probe: Option<int>, f: Flag)
    ensures multiset(Options(c, probe))[f.Token()] == if Enabled(c, probe, f) then 1 else 0
  {
    var o := Options(c, probe);
    assert IsFlag(f.Token());
    FlagsOfCount(o, f.Token());
    OptionsFlags(c, probe);
    ExpectedCount(c, probe, f);
  }

  /** Neither empty nor ending in `t`: appending after it cannot make `t`
      swallow a token of the next part as its argument. */
  predicate EndsClear(ts: seq<string>, t: string)
  {
    |ts| == 0 || ts[|ts| - 1] != t
  }

  lemma EndsClearConcat(a: seq<string>, b: seq<string>, t: string)
    requires EndsClear(a, t) && EndsClear(b, t)
    ensures EndsClear(a + b, t)
  {
    if |b| > 0 {
      assert (a + b)[|a + b| - 1] == b[|b| - 1];
    } else {
      assert a + b == a;
    }
  }

  /** The arguments of five valued segments followed by a segment without `t`. */
  lemma ArgsOfSegments(b: seq<string>, m: seq<string>, d: seq<string>, g: seq<string>, a: seq<string>, s: seq<string>, t: string)
    requires EndsClear(b, t) && EndsClear(m, t) && EndsClear(d, t) && EndsClear(g, t) && EndsClear(a, t)
    requires ArgsOf(s, t) == []
    ensures ArgsOf(b + m + d + g + a + s, t) == ArgsOf(b, t) + ArgsOf(m, t) + ArgsOf(d, t) + ArgsOf(g, t) + ArgsOf(a, t)
  {
    var x1 := b + m;
    EndsClearConcat(b, m, t);
    ArgsOfConcat(b, m, t);
    var x2 := x1 + d;
    EndsClearConcat(x1, d, t);
    ArgsOfConcat(x1, d, t);
    var x3 := x2 + g;
    EndsClearConcat(x2, g, t);
    ArgsOfConcat(x2, g, t);
    var x4 := x3 + a;
    EndsClearConcat(x3, a, t);
    ArgsOfConcat(x3, a, t);
    ArgsOfConcat(x4, s, t);
    assert ArgsOf(x4 + s, t) == ArgsOf(x4, t);
  }

  /** What a valued segment contributes to the arguments of `f`'s token. */
  function SegmentArgs(c: ConfigValue, probe: Option<int>, g: Flag, f: Flag): seq<string>
  {
    if Enabled(c, probe, g) && g.Token() == f.Token() then [Argument(c, probe, g)] else []
  }

  lemma SegmentArgsOnlyOwn(c: ConfigValue, probe: Option<int>, g: Flag, f: Flag)
    ensures SegmentArgs(c, probe, g, f) == if g == f && Enabled(c, probe, f) then [Argument(c, probe, f)] else []
  {
    TokenInjective(f, g);
  }

  lemma SegmentArgsOf(c: ConfigValue, probe: Option<int>, g: Flag, f: Flag)
    requires g.Valued() && f.Valued()
    ensures EndsClear(Segment(c, probe, g), f.Token())
    ensures ArgsOf(Segment(c, probe, g), f.Token()) == SegmentArgs(c, probe, g, f)
  {
    assert IsFlag(f.Token());
    SegmentViews(c, probe, g, f.Token());
  }

  lemma OptionSegmentArgs(c: ConfigValue, probe: Option<int>, f: Flag)
    requires f.Valued()
    ensures ArgsOf(Options(c, probe), f.Token())
         == SegmentArgs(c, probe, BreakSettings, f) + SegmentArgs(c, probe, Memory, f) + SegmentArgs(c, probe, Data, f)
          + SegmentArgs(c, probe, Debug, f) + SegmentArgs(c, probe, Allow, f)
  {
    OptionsBySegment(c, probe);
    SegmentArgsOf(c, probe, BreakSettings, f);
    SegmentArgsOf(c, probe, Memory, f);
    SegmentArgsOf(c, probe, Data, f);
    SegmentArgsOf(c, probe, Debug, f);
    SegmentArgsOf(c, probe, Allow, f);
    SwitchTokensAreSwitches(c, f);
    ArgsOfAbsent(SwitchTokens(c), f.Token());
    ArgsOfSegments(Segment(c, probe, BreakSettings), Segment(c, probe, Memory), Segment(c, probe, Data),
                   Segment(c, probe, Debug), Segment(c, probe, Allow), SwitchTokens(c), f.Token());
  }

  /** A valued flag's argument is exactly the token after it: the option
      section carries `-mem` followed by the allocation, `-data` followed by
      `1`, `-breaksettings` followed by `true:` and the stop-after-break
      flag, `-debug` followed by the chosen port, and `-allow` followed by
      the comma-joined allow list, each only when the flag is enabled. */
  lemma OptionArguments(c: ConfigValue, probe: Option<int>, f: Flag)
    requires f.Valued()
    ensures ArgsOf(Options(c, probe), f.Token()) == if Enabled(c, probe, f) then [Argument(c, probe, f)] else []
  {
    OptionSegmentArgs(c, probe, f);
    SegmentArgsOnlyOwn(c, probe, BreakSettings, f);
    SegmentArgsOnlyOwn(c, probe, Memory, f);
    SegmentArgsOnlyOwn(c, probe, Data, f);
    SegmentArgsOnlyOwn(c, probe, Debug, f);
    SegmentArgsOnlyOwn(c, probe, Allow, f);
    var own := if Enabled(c, probe, f) then [Argument(c, probe, f)] else [];
    OneOfFive(SegmentArgs(c, probe, BreakSettings, f), SegmentArgs(c, probe, Memory, f), SegmentArgs(c, probe, Data, f),
              SegmentArgs(c, probe, Debug, f), SegmentArgs(c, probe, Allow, f), own);
  }

  /** Five parts of which one is `own` and the others are empty. */
  lemma OneOfFive<T>(a: seq<T>, b: seq<T>, c: seq<T>, d: seq<T>, e: seq<T>, own: seq<T>)
    requires || (a == own && b == c == d == e == [])
             || (b == own && a == c == d == e == [])
             || (c == own && a == b == d == e == [])
             || (d == own && a == b == c == e == [])
             || (e == own && a == b == c == d == [])
    ensures a + b + c + d + e == own
  {
  }

  /** The debug port: the configured one when debug mode is on and a port
      is set; otherwise, debug mode on or off, the probed port if the probe
      found one, and no `-debug` at all if it did not. */
  lemma DebugPort(c: ConfigValue, probe: Option<int>)
    ensures c.debugMode && c.debugPort != -1 ==> ArgsOf(Options(c, probe), "-debug") == [IntToString(c.debugPort)]
    ensures !(c.debugMode && c.debugPort != -1) && probe.Some? ==> ArgsOf(Options(c, probe), "-debug") == [IntToString(probe.value)]
    ensures !(c.debugMode && c.debugPort != -1) && probe.None? ==> "-debug" !in Options(c, probe)
  {
    OptionArguments(c, probe, Debug);
    FlagCount(c, probe, Debug);
  }

  /** The `-allow` argument splits back into the selected names, in priority
      order. */
  lemma AllowRoundTrip(c: ConfigValue, probe: Option<int>)
    requires Enabled(c, probe, Allow)
    ensures Split(Argument(c, probe, Allow), ',') == SelectNames(AllowNames, AllowFlags(c))
  {
    AllowListNonEmpty(c);
    AllowArgument(c);
    AllowListIsSelection(c);
  }

  // ---------------------------------------------------------------------------
  // getCommands
  // ---------------------------------------------------------------------------

  /** The fixed head of every launch command. */
  function ClientPrefix(clientPath: string): seq<string>
  {
    ["java", "-jar", clientPath, "-autologin"]
  }

  /** `getCommands`: one launch command per script, in script order. Each
      command makes its own `toParameter` call, so `draws[k]` and `probes[k]`
      are the world index and the probed port of the k-th call. */
  function GetCommands(c: ConfigValue, clientPath: string, draws: seq<nat>, probes: seq<Option<int>>): (r: seq<seq<string>>)
    requires |draws| == |c.scripts| && |probes| == |c.scripts|
    requires forall k :: 0 <= k < |draws| ==> draws[k] < |c.worlds|
    ensures |r| == |c.scripts|
    ensures forall k :: 0 <= k < |r| ==> r[k] == Command(c, clientPath, draws[k], probes[k], c.scripts[k])
  {
    seq(|c.scripts|, k requires 0 <= k < |c.scripts| => Command(c, clientPath, draws[k], probes[k], c.scripts[k]))
  }

  /** The command for one script: the client prefix, the configuration's
      arguments for world `draw` and probed port `probe`, then the script's
      own arguments. */
  function Command(c: ConfigValue, clientPath: string, draw: nat, probe: Option<int>, script: Scripts.ScriptValue)
    : (r: seq<string>)
    requires draw < |c.worlds|
    ensures |r| == 4 + |ToParameter(c, draw, probe)| + |Scripts.ToParameter(script)|
    ensures r[..4] == ClientPrefix(clientPath)
    ensures r[4..|r| - |Scripts.ToParameter(script)|] == ToParameter(c, draw, probe)
    ensures r[|r| - |Scripts.ToParameter(script)|..] == Scripts.ToParameter(script)
  {
    ClientPrefix(clientPath) + ToParameter(c, draw, probe) + Scripts.ToParameter(script)
  }

  /** Every command starts with the client prefix and the account's tokens. */
  lemma CommandStart(c: ConfigValue, clientPath: string, draws: seq<nat>, probes: seq<Option<int>>, k: nat)
    requires |draws| == |c.scripts| && |probes| == |c.scripts|
    requires forall j :: 0 <= j < |draws| ==> draws[j] < |c.worlds|
    requires k < |c.scripts|
    ensures var cmd := GetCommands(c, clientPath, draws, probes)[k];
            && |cmd| >= 4 + |c.account.tokens|
            && cmd[..4] == ClientPrefix(clientPath)
            && cmd[4..4 + |c.account.tokens|] == c.account.tokens
  {
    var cmd := GetCommands(c, clientPath, draws, probes)[k];
    assert cmd == ClientPrefix(clientPath) + ToParameter(c, draws[k], probes[k]) + Scripts.ToParameter(c.scripts[k]);
    StartSlices(cmd, ClientPrefix(clientPath), ToParameter(c, draws[k], probes[k]),
                Scripts.ToParameter(c.scripts[k]), c.account.tokens);
  }

  lemma StartSlices(cmd: seq<string>, x: seq<string>, p: seq<string>, y: seq<string>, a: seq<string>)
    requires cmd == x + p + y
    requires |x| == 4 && |p| >= |a| && p[..|a|] == a
    ensures |cmd| >= 4 + |a| && cmd[..4] == x && cmd[4..4 + |a|] == a
  {
    assert cmd[4..4 + |a|] == p[..|a|];
  }

  /** Every command ends with the drawn world's tokens followed by the
      script's `-script` pair. */
  lemma CommandEnd(c: ConfigValue, clientPath: string, draws: seq<nat>, probes: seq<Option<int>>, k: nat)
    requires |draws| == |c.scripts| && |probes| == |c.scripts|
    requires forall j :: 0 <= j < |draws| ==> draws[j] < |c.worlds|
    requires k < |c.scripts|
    ensures var cmd := GetCommands(c, clientPath, draws, probes)[k];
            var w := c.worlds[draws[k]].tokens;
            && |cmd| >= |w| + 2
            && cmd[|cmd| - 2 - |w|..|cmd| - 2] == w
            && cmd[|cmd| - 2..] == Scripts.ToParameter(c.scripts[k])
  {
    var cmd := GetCommands(c, clientPath, draws, probes)[k];
    assert cmd == ClientPrefix(clientPath) + ToParameter(c, draws[k], probes[k]) + Scripts.ToParameter(c.scripts[k]);
    EndSlices(cmd, ClientPrefix(clientPath), ToParameter(c, draws[k], probes[k]),
              Scripts.ToParameter(c.scripts[k]), c.worlds[draws[k]].tokens);
  }

  lemma EndSlices(cmd: seq<string>, x: seq<string>, p: seq<string>, y: seq<string>, w: seq<string>)
    requires cmd == x + p + y
    requires |y| == 2 && |p| >= |w| && p[|p| - |w|..] == w
    ensures |cmd| >= |w| + 2 && cmd[|cmd| - 2 - |w|..|cmd| - 2] == w && cmd[|cmd| - 2..] == y
  {
    assert cmd[|cmd| - 2 - |w|..|cmd| - 2] == p[|p| - |w|..];
  }
}
