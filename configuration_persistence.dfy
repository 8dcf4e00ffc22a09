/** How a configuration is saved and loaded: the item stream of
    `Configuration.writeObject` and what `Configuration.readObject` rebuilds
    from such a stream, including streams written by older versions.

    Reading is not a plain inverse of writing. Older streams hold a single
    script instead of a list, and a `WorldType` with a world number and a
    randomise flag instead of a list of worlds (the whole world catalogue is
    then selected). Every boolean written after the worlds was added later
    and is read in its own `try`, so a stream that ends early, or has an
    object where a boolean should be, leaves the option at its default
    `false`. The log-file name is kept only when that file exists; otherwise
    a fresh one is made up. The catalogue, the set of existing files and the
    fresh name are parameters. */
module ConfigurationPersistence {
  import opened Wrappers
  import opened Collaborators
  import opened Serialization
  import opened ConfigurationEncoding
  import Proxies
  import Scripts

  // ---------------------------------------------------------------------------
  // writeObject
  // ---------------------------------------------------------------------------

  /** `writeObject` needs every script's nickname holder to exist. */
  predicate Writable(c: ConfigValue)
  {
    forall s :: s in c.scripts ==> s.nickname.Held?
  }

  /** The options read one `try` each, in stream order. */
  function Singles(c: ConfigValue): (r: seq<bool>)
    ensures |r| == 9
  {
    [c.noInterface, c.noRender, c.dismissRandoms, c.newMouse, c.enableBreaks,
     c.stopAfterBreak, c.mirrorMode, c.launchGame, c.closeClient]
  }

  function BoolItems(bs: seq<bool>): (r: seq<Item>)
    ensures |r| == |bs|
    ensures forall i :: 0 <= i < |bs| ==> r[i] == BoolItem(bs[i])
  {
    seq(|bs|, i requires 0 <= i < |bs| => BoolItem(bs[i]))
  }

  function ScriptItems(scripts: seq<Scripts.ScriptValue>): (r: seq<Item>)
    requires forall s :: s in scripts ==> s.nickname.Held?
    ensures |r| == |scripts|
    ensures forall i :: 0 <= i < |scripts| ==> r[i] == ObjectItem(ScriptClass, Scripts.Write(scripts[i]))
  {
    seq(|scripts|, i requires 0 <= i < |scripts| => ObjectItem(ScriptClass, Scripts.Write(scripts[i])))
  }

  function WorldItems(worlds: seq<World>): (r: seq<Item>)
    ensures |r| == |worlds|
    ensures forall i :: 0 <= i < |worlds| ==> r[i] == WorldItem(worlds[i])
  {
    seq(|worlds|, i requires 0 <= i < |worlds| => WorldItem(worlds[i]))
  }

  /** `writeObject(getProxy())`: null, or the proxy object of its own class. */
  function ProxyItem(proxy: Option<Proxies.ProxyValue>): Item
  {
    match proxy
    case None => NullItem
    case Some(p) => ObjectItem(if p.SecuredProxy? then SecuredProxyClass else ProxyClass, Proxies.Write(p))
  }

  /** `writeObject`: twenty-two items, the fields in declaration order with
      the scripts and the worlds as lists. */
  function Write(c: ConfigValue): (r: seq<Item>)
    requires Writable(c)
    ensures |r| == 22
  {
    [AccountItem(c.account), ListItem(ScriptItems(c.scripts)), ProxyItem(c.proxy),
     IntItem(c.memoryAllocation), BoolItem(c.collectData), BoolItem(c.debugMode),
     IntItem(c.debugPort), BoolItem(c.lowCpuMode), BoolItem(c.lowResourceMode),
     ListItem(WorldItems(c.worlds)), BoolItem(c.reflection), BoolItem(c.noRandoms)]
    + BoolItems(Singles(c)) + [StringItem(c.logFileName)]
  }

  /** Where the fields read without a `try` stand in a written stream `w`. */
  predicate WrittenFields(w: seq<Item>, c: ConfigValue)
    requires Writable(c)
  {
    && |w| == 22
    && w[0] == AccountItem(c.account) && w[1] == ListItem(ScriptItems(c.scripts)) && w[2] == ProxyItem(c.proxy)
    && w[3] == IntItem(c.memoryAllocation) && w[4] == BoolItem(c.collectData) && w[5] == BoolItem(c.debugMode)
    && w[6] == IntItem(c.debugPort) && w[7] == BoolItem(c.lowCpuMode) && w[8] == BoolItem(c.lowResourceMode)
    && w[9] == ListItem(WorldItems(c.worlds))
  }

  /** Where the options and the log-file name stand in a written stream `w`. */
  predicate WrittenOptions(w: seq<Item>, c: ConfigValue)
  {
    && |w| == 22
    && w[10] == BoolItem(c.reflection) && w[11] == BoolItem(c.noRandoms)
    && (forall i :: 0 <= i < 9 ==> w[12 + i] == BoolItem(Singles(c)[i]))
    && w[21] == StringItem(c.logFileName)
  }

  predicate WrittenAs(w: seq<Item>, c: ConfigValue)
    requires Writable(c)
  {
    WrittenFields(w, c) && WrittenOptions(w, c)
  }

  lemma WriteItems(c: ConfigValue)
    requires Writable(c)
    ensures WrittenAs(Write(c), c)
  {
    WriteFields(c);
    WriteOptions(c);
  }

  lemma WriteFields(c: ConfigValue)
    requires Writable(c)
    ensures WrittenFields(Write(c), c)
  {
    WriteReferences(c);
    WriteSettings(c);
  }

  /** The account, the scripts and the proxy come first. */
  lemma WriteReferences(c: ConfigValue)
    requires Writable(c)
    ensures var w := Write(c);
      w[0] == AccountItem(c.account) && w[1] == ListItem(ScriptItems(c.scripts)) && w[2] == ProxyItem(c.proxy)
  {
  }

  /** The settings read without a `try` and the worlds follow. */
  lemma WriteSettings(c: ConfigValue)
    requires Writable(c)
    ensures var w := Write(c);
      && w[3] == IntItem(c.memoryAllocation) && w[4] == BoolItem(c.collectData) && w[5] == BoolItem(c.debugMode)
      && w[6] == IntItem(c.debugPort) && w[7] == BoolItem(c.lowCpuMode) && w[8] == BoolItem(c.lowResourceMode)
      && w[9] == ListItem(WorldItems(c.worlds))
  {
  }

  lemma WriteOptions(c: ConfigValue)
    requires Writable(c)
    ensures WrittenOptions(Write(c), c)
  {
    var bs := BoolItems(Singles(c));
    var w := Write(c);
    assert forall i :: 0 <= i < 9 ==> w[12 + i] == bs[i];
  }

  // ---------------------------------------------------------------------------
  // readObject: the fields every stream has
  // ---------------------------------------------------------------------------

  /** A script object read from the stream. */
  function DecodeScript(item: Item): Option<Scripts.ScriptValue>
  {
    match item
    case ObjectItem(ScriptClass, block) => Scripts.Decode(block)
    case _ => None
  }

  function DecodeScriptList(elems: seq<Item>): (r: Option<seq<Scripts.ScriptValue>>)
    ensures r.Some? ==> |r.value| == |elems|
    ensures r.Some? ==> forall i :: 0 <= i < |elems| ==> DecodeScript(elems[i]) == Some(r.value[i])
  {
    if |elems| == 0 then Some([])
    else
      match (DecodeScript(elems[0]), DecodeScriptList(elems[1..]))
      case (Some(s), Some(rest)) => Some([s] + rest)
      case _ => None
  }

  /** A list whose every element decodes is read as the list of its
      elements' values. */
  lemma {:induction false} ScriptListOf(elems: seq<Item>, values: seq<Scripts.ScriptValue>)
    requires |values| == |elems|
    requires forall i :: 0 <= i < |elems| ==> DecodeScript(elems[i]) == Some(values[i])
    ensures DecodeScriptList(elems) == Some(values)
    decreases |elems|
  {
    if |elems| > 0 {
      ScriptListOf(elems[1..], values[1..]);
      assert values == [values[0]] + values[1..];
    }
  }

  /** The scripts field: a list of scripts, or a single script as older
      versions wrote it. */
  function DecodeScripts(item: Option<Item>): Option<seq<Scripts.ScriptValue>>
  {
    match item
    case Some(ObjectItem(ScriptClass, block)) =>
      (match Scripts.Decode(block) case Some(s) => Some([s]) case None => None)
    case Some(ListItem(elems)) => DecodeScriptList(elems)
    case _ => None
  }

  /** The proxy field: null, or an object whose class chooses between a plain
      and a secured proxy. */
  function DecodeProxy(item: Option<Item>): Option<Option<Proxies.ProxyValue>>
  {
    match item
    case Some(NullItem) => Some(None)
    case Some(ObjectItem(ProxyClass, block)) =>
      (match Proxies.Decode(false, block) case Some(p) => Some(Some(p)) case None => None)
    case Some(ObjectItem(SecuredProxyClass, block)) =>
      (match Proxies.Decode(true, block) case Some(p) => Some(Some(p)) case None => None)
    case _ => None
  }

  function DecodeWorldList(elems: seq<Item>): (r: Option<seq<World>>)
    ensures r.Some? ==> |r.value| == |elems|
  {
    if |elems| == 0 then Some([])
    else
      match (elems[0], DecodeWorldList(elems[1..]))
      case (WorldItem(w), Some(rest)) => Some([w] + rest)
      case _ => None
  }

  /** The worlds field at `pos` and where reading goes on: a list of worlds,
      or a legacy `WorldType` followed by a world number and a randomise flag,
      which are read (unguarded) and discarded in favour of the whole
      `catalog`. */
  function DecodeWorlds(block: seq<Item>, pos: nat, catalog: seq<World>): (r: Option<(seq<World>, nat)>)
    ensures r.Some? ==> r.value.1 == pos + 1 || r.value.1 == pos + 3
    ensures r.Some? ==> r.value.1 <= |block|
    ensures r.Some? && r.value.1 == pos + 3 ==> block[pos].WorldTypeItem? && r.value.0 == catalog
    ensures r.Some? && r.value.1 == pos + 1 ==> block[pos].ListItem? && |r.value.0| == |block[pos].elems|
    ensures pos < |block| && block[pos].WorldTypeItem? ==> (r.Some? <==> IntAt(block, pos + 1).Some? && BoolAt(block, pos + 2).Some?)
    ensures pos < |block| && block[pos].ListItem? ==> (r.Some? <==> DecodeWorldList(block[pos].elems).Some?)
    ensures r.Some? ==> block[pos].WorldTypeItem? || block[pos].ListItem?
  {
    var item := ObjectAt(block, pos);
    if item.Some? && item.value.WorldTypeItem? then
      if IntAt(block, pos + 1).Some? && BoolAt(block, pos + 2).Some? then Some((catalog, pos + 3)) else None
    else if item.Some? && item.value.ListItem? then
      var ws := DecodeWorldList(item.value.elems);
      if ws.Some? then Some((ws.value, pos + 1)) else None
    else None
  }

  /** The fields read without a `try`, and the position after them. */
  datatype Head = Head(
    account: Account,
    scripts: seq<Scripts.ScriptValue>,
    proxy: Option<Proxies.ProxyValue>,
    memoryAllocation: int,
    collectData: bool,
    debugMode: bool,
    debugPort: int,
    lowCpuMode: bool,
    lowResourceMode: bool,
    worlds: seq<World>,
    next: nat)

  /** Any failure here propagates out of `readObject`. */
  function DecodeHead(block: seq<Item>, catalog: seq<World>): (r: Option<Head>)
    ensures r.Some? ==> (r.value.next == 10 || r.value.next == 12) && r.value.next <= |block|
    ensures r.Some? ==> ObjectAt(block, 0) == Some(AccountItem(r.value.account))
    ensures r.Some? ==> IntAt(block, 3) == Some(r.value.memoryAllocation) && IntAt(block, 6) == Some(r.value.debugPort)
    ensures r.Some? ==> BoolAt(block, 4) == Some(r.value.collectData) && BoolAt(block, 5) == Some(r.value.debugMode)
    ensures r.Some? ==> BoolAt(block, 7) == Some(r.value.lowCpuMode) && BoolAt(block, 8) == Some(r.value.lowResourceMode)
    ensures r.Some? ==> DecodeWorlds(block, 9, catalog) == Some((r.value.worlds, r.value.next))
  {
    var account := ObjectAt(block, 0);
    var scripts := DecodeScripts(ObjectAt(block, 1));
    var proxy := DecodeProxy(ObjectAt(block, 2));
    var memoryAllocation := IntAt(block, 3);
    var collectData := BoolAt(block, 4);
    var debugMode := BoolAt(block, 5);
    var debugPort := IntAt(block, 6);
    var lowCpuMode := BoolAt(block, 7);
    var lowResourceMode := BoolAt(block, 8);
    var worlds := DecodeWorlds(block, 9, catalog);
    if account.None? || !account.value.AccountItem? || scripts.None? || proxy.None?
       || memoryAllocation.None? || collectData.None? || debugMode.None? || debugPort.None?
       || lowCpuMode.None? || lowResourceMode.None? || worlds.None?
    then None
    else
      Some(Head(account.value.account, scripts.value, proxy.value, memoryAllocation.value,
                collectData.value, debugMode.value, debugPort.value, lowCpuMode.value,
                lowResourceMode.value, worlds.value.0, worlds.value.1))
  }

  // ---------------------------------------------------------------------------
  // readObject: the options added later, each in its own try
  // ---------------------------------------------------------------------------

  /** `reflection` and `noRandoms`, read in one `try`: when the second read
      fails the first value is dropped too, though its item stays consumed. */
  function TryPair(block: seq<Item>, pos: nat): (r: (bool, bool, nat))
    ensures r.2 == pos || r.2 == pos + 1 || r.2 == pos + 2
    ensures r.2 != pos + 2 ==> !r.0 && !r.1
  {
    match BoolAt(block, pos)
    case None => (false, false, pos)
    case Some(reflection) =>
      match BoolAt(block, pos + 1)
      case None => (false, false, pos + 1)
      case Some(noRandoms) => (reflection, noRandoms, pos + 2)
  }

  /** `n` booleans, each in its own `try`: a failed read yields `false` and
      leaves the cursor where it was. */
  function TryBools(block: seq<Item>, pos: nat, n: nat): (r: (seq<bool>, nat))
    ensures |r.0| == n
    ensures pos <= r.1 <= pos + n
    decreases n
  {
    if n == 0 then ([], pos)
    else
      match BoolAt(block, pos)
      case Some(b) =>
        var rest := TryBools(block, pos + 1, n - 1);
        ([b] + rest.0, rest.1)
      case None =>
        var rest := TryBools(block, pos, n - 1);
        ([false] + rest.0, rest.1)
  }

  /** The log-file name: kept when a string is read and names an existing
      file; otherwise (no object, `null`, not a string, missing file) the
      fresh name. */
  function LogFileName(block: seq<Item>, pos: nat, existing: set<string>, freshName: string): (r: string)
    ensures r == freshName || r in existing
    ensures StringAt(block, pos).Some? && StringAt(block, pos).value in existing ==> r == StringAt(block, pos).value
    ensures !(StringAt(block, pos).Some? && StringAt(block, pos).value in existing) ==> r == freshName
  {
    match ObjectAt(block, pos)
    case Some(StringItem(name)) => if name in existing then name else freshName
    case _ => freshName
  }

  /** How many options are read in a `try` of their own. */
  function LaterOptions(): nat
  {
    9
  }

  /** What the `try` blocks after the worlds produce. */
  datatype Tail = Tail(reflection: bool, noRandoms: bool, singles: seq<bool>, logFileName: string)

  function DecodeTail(block: seq<Item>, pos: nat, existing: set<string>, freshName: string): (r: Tail)
    ensures |r.singles| == 9
    ensures r.logFileName == freshName || r.logFileName in existing
    ensures r.reflection || r.noRandoms ==> BoolAt(block, pos) == Some(r.reflection) && BoolAt(block, pos + 1) == Some(r.noRandoms)
  {
    var pair := TryPair(block, pos);
    var bools := TryBools(block, pair.2, LaterOptions());
    Tail(pair.0, pair.1, bools.0, LogFileName(block, bools.1, existing, freshName))
  }

  function Assemble(h: Head, t: Tail): ConfigValue
    requires |t.singles| == 9
  {
    ConfigValue(h.account, h.scripts, h.proxy, h.memoryAllocation, h.collectData, h.debugMode,
                h.debugPort, h.lowCpuMode, h.lowResourceMode, h.worlds, t.reflection, t.noRandoms,
                t.singles[0], t.singles[1], t.singles[2], t.singles[3], t.singles[4], t.singles[5],
                t.singles[6], t.singles[7], t.singles[8], t.logFileName)
  }

  /** `readObject` on a configuration's block. A loaded configuration can be
      written again, and its log-file name is either one that exists or the
      fresh one. */
  function Decode(block: seq<Item>, catalog: seq<World>, existing: set<string>, freshName: string): (r: Option<ConfigValue>)
    ensures r.Some? ==> Writable(r.value)
    ensures r.Some? ==> r.value.logFileName == freshName || r.value.logFileName in existing
    ensures r.Some? <==> DecodeHead(block, catalog).Some?
  {
    match DecodeHead(block, catalog)
    case None => None
    case Some(h) =>
      assert forall s :: s in h.scripts ==> s.nickname.Held? by {
        HeadScriptsHeld(block, catalog);
      }
      Some(Assemble(h, DecodeTail(block, h.next, existing, freshName)))
  }

  /** `Decode` from the parts `readObject` reads. */
  lemma DecodedAs(block: seq<Item>, catalog: seq<World>, existing: set<string>, freshName: string, h: Head, t: Tail)
    requires DecodeHead(block, catalog) == Some(h) && DecodeTail(block, h.next, existing, freshName) == t
    ensures Decode(block, catalog, existing, freshName) == Some(Assemble(h, t))
  {
  }

  /** Where the cursor stands after a boolean read in a `try` of its own:
      one item further when the read succeeds, unmoved when it fails. */
  function AfterBool(block: seq<Item>, pos: nat): (r: nat)
    ensures r == pos || (r == pos + 1 && BoolAt(block, pos).Some?)
  {
    if BoolAt(block, pos).Some? then pos + 1 else pos
  }

  /** Options read one after the other, each in a `try` of its own, from
      the cursor positions `ps`: what `TryBools` describes. */
  lemma {:induction false} TryBoolsFrom(block: seq<Item>, ps: seq<nat>, values: seq<bool>)
    requires |ps| == |values| + 1
    requires forall i :: 0 <= i < |values| ==> values[i] == BoolAt(block, ps[i]).GetOr(false)
    requires forall i :: 0 <= i < |values| ==> ps[i + 1] == AfterBool(block, ps[i])
    ensures TryBools(block, ps[0], |values|) == (values, ps[|values|])
    decreases |values|
  {
    if |values| > 0 {
      assert ps[1] == AfterBool(block, ps[0]);
      TryBoolsFrom(block, ps[1..], values[1..]);
      assert values == [values[0]] + values[1..];
    }
  }

  /** The first of `n` options, and the rest from where it left the
      cursor. */
  lemma TryBoolsUnfold(block: seq<Item>, pos: nat, n: nat)
    requires n > 0
    ensures var rest := TryBools(block, AfterBool(block, pos), n - 1);
            TryBools(block, pos, n) == ([BoolAt(block, pos).GetOr(false)] + rest.0, rest.1)
  {
  }

  /** Reading `m + n` options is reading `m`, then `n` from where the first
      `m` left the cursor. */
  lemma {:induction false} TryBoolsSplit(block: seq<Item>, pos: nat, m: nat, n: nat)
    ensures var first := TryBools(block, pos, m);
            var second := TryBools(block, first.1, n);
            TryBools(block, pos, m + n) == (first.0 + second.0, second.1)
    decreases m
  {
    var first := TryBools(block, pos, m);
    var second := TryBools(block, first.1, n);
    if m == 0 {
      assert first == ([], pos);
      assert first.0 + second.0 == second.0;
    } else {
      var next := AfterBool(block, pos);
      var head := [BoolAt(block, pos).GetOr(false)];
      TryBoolsSplit(block, next, m - 1, n);
      TryBoolsUnfold(block, pos, m);
      TryBoolsUnfold(block, pos, m + n);
      var rest := TryBools(block, next, m - 1);
      assert first == (head + rest.0, rest.1);
      assert head + (rest.0 + second.0) == (head + rest.0) + second.0;
    }
  }

  lemma {:induction false} ScriptListHeld(elems: seq<Item>)
    requires DecodeScriptList(elems).Some?
    ensures forall s :: s in DecodeScriptList(elems).value ==> s.nickname.Held?
  {
    var r := DecodeScriptList(elems).value;
    forall s | s in r ensures s.nickname.Held? {
      var i :| 0 <= i < |r| && r[i] == s;
      assert DecodeScript(elems[i]) == Some(s);
    }
  }

  lemma HeadScriptsHeld(block: seq<Item>, catalog: seq<World>)
    requires DecodeHead(block, catalog).Some?
    ensures forall s :: s in DecodeHead(block, catalog).value.scripts ==> s.nickname.Held?
  {
    match ObjectAt(block, 1)
    case Some(ListItem(elems)) => ScriptListHeld(elems);
    case _ =>
  }

  // ---------------------------------------------------------------------------
  // Properties
  // ---------------------------------------------------------------------------

  /** A proxy as it comes back from the stream: its nickname holder always
      exists, holding what `getNickname` returned. */
  function Reloaded(proxy: Option<Proxies.ProxyValue>): Option<Proxies.ProxyValue>
  {
    match proxy
    case None => None
    case Some(p) => Some(p.(nickname := Some(Proxies.GetNickname(p))))
  }

  /** The configuration `readObject` rebuilds from `writeObject`'s output. */
  function Reread(c: ConfigValue, existing: set<string>, freshName: string): ConfigValue
  {
    c.(proxy := Reloaded(c.proxy),
       logFileName := if c.logFileName in existing then c.logFileName else freshName)
  }

  lemma ScriptListRoundTrip(scripts: seq<Scripts.ScriptValue>)
    requires forall s :: s in scripts ==> s.nickname.Held?
    ensures DecodeScriptList(ScriptItems(scripts)) == Some(scripts)
  {
    forall i | 0 <= i < |scripts|
      ensures DecodeScript(ScriptItems(scripts)[i]) == Some(scripts[i])
    {
      Scripts.RoundTrip(scripts[i]);
    }
    ScriptListOf(ScriptItems(scripts), scripts);
  }

  lemma {:induction false} WorldListRoundTrip(worlds: seq<World>)
    ensures DecodeWorldList(WorldItems(worlds)) == Some(worlds)
    decreases |worlds|
  {
    if |worlds| > 0 {
      WorldListRoundTrip(worlds[1..]);
      assert WorldItems(worlds)[1..] == WorldItems(worlds[1..]);
      assert worlds == [worlds[0]] + worlds[1..];
    }
  }

  lemma ProxyRoundTrip(proxy: Option<Proxies.ProxyValue>)
    ensures DecodeProxy(Some(ProxyItem(proxy))) == Some(Reloaded(proxy))
  {
    if proxy.Some? {
      Proxies.RoundTrip(proxy.value);
    }
  }

  /** `n` options left at their default. */
  function Falses(n: nat): (r: seq<bool>)
    ensures |r| == n && forall i :: 0 <= i < n ==> !r[i]
  {
    seq(n, _ => false)
  }

  /** Reading `count` booleans that are all present. */
  lemma {:induction false} TryBoolsPresent(block: seq<Item>, pos: nat, bs: seq<bool>)
    requires pos + |bs| <= |block|
    requires forall i :: 0 <= i < |bs| ==> block[pos + i] == BoolItem(bs[i])
    ensures TryBools(block, pos, |bs|) == (bs, pos + |bs|)
    decreases |bs|
  {
    if |bs| > 0 {
      TryBoolsPresent(block, pos + 1, bs[1..]);
      assert bs == [bs[0]] + bs[1..];
    }
  }

  /** Once a read fails, every later one fails at the same place: all the
      remaining options default to `false` and the cursor stays. */
  lemma {:induction false} TryBoolsAbsent(block: seq<Item>, pos: nat, n: nat)
    requires BoolAt(block, pos).None?
    ensures TryBools(block, pos, n) == (Falses(n), pos)
    decreases n
  {
    if n > 0 {
      TryBoolsAbsent(block, pos, n - 1);
      assert Falses(n) == [false] + Falses(n - 1);
    }
  }

  /** The booleans that are present are read, up to the first item that is
      not one; the rest default to `false`. */
  lemma {:induction false} TryBoolsPartial(block: seq<Item>, pos: nat, bs: seq<bool>, n: nat)
    requires |bs| <= n && pos + |bs| <= |block|
    requires forall i :: 0 <= i < |bs| ==> block[pos + i] == BoolItem(bs[i])
    requires BoolAt(block, pos + |bs|).None?
    ensures TryBools(block, pos, n) == (bs + Falses(n - |bs|), pos + |bs|)
    decreases |bs|
  {
    if |bs| == 0 {
      TryBoolsAbsent(block, pos, n);
      assert bs + Falses(n) == Falses(n);
    } else {
      TryBoolsPartial(block, pos + 1, bs[1..], n - 1);
      assert bs + Falses(n - |bs|) == [bs[0]] + (bs[1..] + Falses(n - |bs|));
    }
  }

  /** The fixed fields of a configuration, read up to `next`. */
  function HeadOf(c: ConfigValue, next: nat): Head
  {
    Head(c.account, c.scripts, c.proxy, c.memoryAllocation, c.collectData, c.debugMode, c.debugPort,
         c.lowCpuMode, c.lowResourceMode, c.worlds, next)
  }

  /** The options of a configuration that are read in a `try`. */
  function TailOf(c: ConfigValue): Tail
  {
    Tail(c.reflection, c.noRandoms, Singles(c), c.logFileName)
  }

  /** `x` and `c` agree on every option read in a `try`. */
  predicate SameOptions(x: ConfigValue, c: ConfigValue)
  {
    x.reflection == c.reflection && x.noRandoms == c.noRandoms && x.noInterface == c.noInterface
    && x.noRender == c.noRender && x.dismissRandoms == c.dismissRandoms && x.newMouse == c.newMouse
    && x.enableBreaks == c.enableBreaks && x.stopAfterBreak == c.stopAfterBreak && x.mirrorMode == c.mirrorMode
    && x.launchGame == c.launchGame && x.closeClient == c.closeClient
  }

  /** The fields other than the scripts, the worlds and the options are those
      written for `c`, with the proxy as reloaded. */
  predicate FixedAsWritten(x: ConfigValue, c: ConfigValue)
  {
    && x.account == c.account && x.proxy == Reloaded(c.proxy) && x.memoryAllocation == c.memoryAllocation
    && x.collectData == c.collectData && x.debugMode == c.debugMode && x.debugPort == c.debugPort
    && x.lowCpuMode == c.lowCpuMode && x.lowResourceMode == c.lowResourceMode
  }

  /** The name `readObject` keeps for the log file written for `c`. */
  function KeptName(c: ConfigValue, existing: set<string>, freshName: string): string
  {
    if c.logFileName in existing then c.logFileName else freshName
  }

  /** `Decode` yields `x` when the fixed fields and the options read are those of `x`. */
  lemma DecodeAs(block: seq<Item>, catalog: seq<World>, existing: set<string>, freshName: string, x: ConfigValue, next: nat)
    requires DecodeHead(block, catalog) == Some(HeadOf(x, next))
    requires DecodeTail(block, next, existing, freshName) == TailOf(x)
    ensures Decode(block, catalog, existing, freshName) == Some(x)
  {
  }

  /** The options of two configurations that agree on them are read alike. */
  lemma SameSingles(x: ConfigValue, c: ConfigValue)
    requires SameOptions(x, c)
    ensures Singles(x) == Singles(c)
  {
  }

  /** Options read as those written for `c` are those of any `x` that shares
      them and the kept log-file name. */
  lemma TailAs(block: seq<Item>, pos: nat, existing: set<string>, freshName: string, x: ConfigValue, c: ConfigValue)
    requires DecodeTail(block, pos, existing, freshName)
          == Tail(c.reflection, c.noRandoms, Singles(c), KeptName(c, existing, freshName))
    requires SameOptions(x, c) && x.logFileName == KeptName(c, existing, freshName)
    ensures DecodeTail(block, pos, existing, freshName) == TailOf(x)
  {
    SameSingles(x, c);
  }

  /** The fixed fields of a stream that agrees with a written one on every
      field but the scripts and the worlds. */
  lemma WrittenFixed(b: seq<Item>, w: seq<Item>, c: ConfigValue, catalog: seq<World>, x: ConfigValue, next: nat)
    requires Writable(c) && WrittenFields(w, c) && |b| >= 9
    requires b[0] == w[0] && forall i :: 2 <= i < 9 ==> b[i] == w[i]
    requires FixedAsWritten(x, c)
    requires DecodeScripts(ObjectAt(b, 1)) == Some(x.scripts)
    requires DecodeWorlds(b, 9, catalog) == Some((x.worlds, next))
    ensures DecodeHead(b, catalog) == Some(HeadOf(x, next))
  {
    ProxyRoundTrip(c.proxy);
    assert b[2] == w[2];
    HeadAt(b, catalog, HeadOf(x, next));
  }

  /** `DecodeHead`, field by field. */
  lemma HeadAt(block: seq<Item>, catalog: seq<World>, h: Head)
    requires ObjectAt(block, 0) == Some(AccountItem(h.account))
    requires DecodeScripts(ObjectAt(block, 1)) == Some(h.scripts)
    requires DecodeProxy(ObjectAt(block, 2)) == Some(h.proxy)
    requires IntAt(block, 3) == Some(h.memoryAllocation) && BoolAt(block, 4) == Some(h.collectData)
    requires BoolAt(block, 5) == Some(h.debugMode) && IntAt(block, 6) == Some(h.debugPort)
    requires BoolAt(block, 7) == Some(h.lowCpuMode) && BoolAt(block, 8) == Some(h.lowResourceMode)
    requires DecodeWorlds(block, 9, catalog) == Some((h.worlds, h.next))
    ensures DecodeHead(block, catalog) == Some(h)
  {
  }

  /** The options as written, followed by the log-file name. */
  lemma WrittenTail(w: seq<Item>, c: ConfigValue, existing: set<string>, freshName: string)
    requires WrittenOptions(w, c)
    ensures DecodeTail(w, 10, existing, freshName) == Tail(c.reflection, c.noRandoms, Singles(c), KeptName(c, existing, freshName))
  {
    assert TryPair(w, 10) == (c.reflection, c.noRandoms, 12);
    WrittenSingles(w, c);
    assert LogFileName(w, 21, existing, freshName) == KeptName(c, existing, freshName);
    TailParts(w, 10, existing, freshName, 12, 21,
              Tail(c.reflection, c.noRandoms, Singles(c), KeptName(c, existing, freshName)));
  }

  lemma WrittenSingles(w: seq<Item>, c: ConfigValue)
    requires WrittenOptions(w, c)
    ensures TryBools(w, 12, LaterOptions()) == (Singles(c), 21)
  {
    TryBoolsPresent(w, 12, Singles(c));
  }

  /** `DecodeTail`, one `try` at a time. */
  lemma TailParts(block: seq<Item>, pos: nat, existing: set<string>, freshName: string, q: nat, r: nat, t: Tail)
    requires TryPair(block, pos) == (t.reflection, t.noRandoms, q)
    requires TryBools(block, q, LaterOptions()) == (t.singles, r)
    requires LogFileName(block, r, existing, freshName) == t.logFileName
    ensures DecodeTail(block, pos, existing, freshName) == t
  {
  }

  // --- writing, then reading ---------------------------------------------------

  /** Writing a configuration and reading it back gives the same
      configuration, except that the proxy's nickname holder now exists and
      the log-file name is replaced when its file is gone. */
  lemma RoundTrip(c: ConfigValue, catalog: seq<World>, existing: set<string>, freshName: string)
    requires Writable(c)
    ensures Decode(Write(c), catalog, existing, freshName) == Some(Reread(c, existing, freshName))
  {
    var x := Reread(c, existing, freshName);
    WriteItems(c);
    RereadFields(c, existing, freshName);
    HeadRoundTrip(Write(c), c, catalog, x);
    WrittenTail(Write(c), c, existing, freshName);
    TailAs(Write(c), 10, existing, freshName, x, c);
    DecodeAs(Write(c), catalog, existing, freshName, x, 10);
  }

  lemma RereadFields(c: ConfigValue, existing: set<string>, freshName: string)
    ensures var x := Reread(c, existing, freshName);
      && FixedAsWritten(x, c) && x.scripts == c.scripts && x.worlds == c.worlds
      && SameOptions(x, c) && x.logFileName == KeptName(c, existing, freshName)
  {
  }

  lemma HeadRoundTrip(w: seq<Item>, c: ConfigValue, catalog: seq<World>, x: ConfigValue)
    requires Writable(c) && WrittenFields(w, c)
    requires FixedAsWritten(x, c) && x.scripts == c.scripts && x.worlds == c.worlds
    ensures DecodeHead(w, catalog) == Some(HeadOf(x, 10))
  {
    ScriptListRoundTrip(c.scripts);
    WorldListRoundTrip(c.worlds);
    WrittenFixed(w, w, c, catalog, x, 10);
  }

  /** Saving is stable after one load: a loaded configuration, saved and
      loaded again with its log file still there, comes back unchanged. */
  lemma ReloadIsStable(c: ConfigValue, catalog: seq<World>, existing: set<string>, freshName: string)
    requires Writable(c)
    requires freshName in existing
    ensures var once := Reread(c, existing, freshName);
            Writable(once) && Decode(Write(once), catalog, existing, freshName) == Some(once)
  {
    var once := Reread(c, existing, freshName);
    assert Writable(once);
    RoundTrip(once, catalog, existing, freshName);
    assert Reloaded(once.proxy) == once.proxy;
  }

  // --- streams from older versions ---------------------------------------------

  /** A stream from a version that saved one script instead of a list
      loads as a configuration with that single script. */
  lemma LegacyScript(c: ConfigValue, s: Scripts.ScriptValue, catalog: seq<World>, existing: set<string>, freshName: string)
    requires Writable(c) && s.nickname.Held?
    ensures Decode(Write(c)[1 := ObjectItem(ScriptClass, Scripts.Write(s))], catalog, existing, freshName)
         == Some(Reread(c.(scripts := [s]), existing, freshName))
  {
    var x := Reread(c.(scripts := [s]), existing, freshName);
    var item := ObjectItem(ScriptClass, Scripts.Write(s));
    WriteItems(c);
    LegacyScriptFields(c, s, existing, freshName);
    LegacyScriptHead(Write(c), c, s, catalog, x);
    WrittenTail(Write(c), c, existing, freshName);
    UpdatePrefix(Write(c), 1, item, 10);
    TailShift(Write(c)[1 := item], 10, Write(c), 10, existing, freshName);
    TailAs(Write(c)[1 := item], 10, existing, freshName, x, c);
    DecodeAs(Write(c)[1 := item], catalog, existing, freshName, x, 10);
  }

  lemma LegacyScriptFields(c: ConfigValue, s: Scripts.ScriptValue, existing: set<string>, freshName: string)
    ensures var x := Reread(c.(scripts := [s]), existing, freshName);
      && FixedAsWritten(x, c) && x.scripts == [s] && x.worlds == c.worlds
      && SameOptions(x, c) && x.logFileName == KeptName(c, existing, freshName)
  {
  }

  lemma LegacyScriptHead(w: seq<Item>, c: ConfigValue, s: Scripts.ScriptValue, catalog: seq<World>, x: ConfigValue)
    requires Writable(c) && WrittenFields(w, c) && s.nickname.Held?
    requires FixedAsWritten(x, c) && x.scripts == [s] && x.worlds == c.worlds
    ensures DecodeHead(w[1 := ObjectItem(ScriptClass, Scripts.Write(s))], catalog) == Some(HeadOf(x, 10))
  {
    Scripts.RoundTrip(s);
    WorldListRoundTrip(c.worlds);
    WrittenFixed(w[1 := ObjectItem(ScriptClass, Scripts.Write(s))], w, c, catalog, x, 10);
  }

  lemma UpdatePrefix(w: seq<Item>, i: nat, x: Item, k: nat)
    requires i < k <= |w|
    ensures w[i := x][k..] == w[k..]
  {
  }

  /** The stream of `c` with a legacy `WorldType`, a world number and a
      randomise flag in place of the list of worlds. */
  function LegacyWorldBlock(w: seq<Item>, worldType: WorldType, number: int, randomize: bool): seq<Item>
    requires |w| >= 10
  {
    w[..9] + [WorldTypeItem(worldType), IntItem(number), BoolItem(randomize)] + w[10..]
  }

  /** A stream from a version that saved a `WorldType`, a world number and a
      randomise flag in place of the list of worlds loads with the whole
      world catalogue selected; everything after is read as usual. */
  lemma LegacyWorldType(c: ConfigValue, worldType: WorldType, number: int, randomize: bool,
                        catalog: seq<World>, existing: set<string>, freshName: string)
    requires Writable(c)
    ensures Decode(LegacyWorldBlock(Write(c), worldType, number, randomize), catalog, existing, freshName)
         == Some(Reread(c.(worlds := catalog), existing, freshName))
  {
    var x := Reread(c.(worlds := catalog), existing, freshName);
    var b := LegacyWorldBlock(Write(c), worldType, number, randomize);
    WriteItems(c);
    LegacyWorldFields(c, catalog, existing, freshName);
    LegacyWorldItems(Write(c), worldType, number, randomize);
    LegacyWorldTypeHead(Write(c), c, worldType, number, randomize, catalog, x);
    WrittenTail(Write(c), c, existing, freshName);
    TailShift(b, 12, Write(c), 10, existing, freshName);
    TailAs(b, 12, existing, freshName, x, c);
    DecodeAs(b, catalog, existing, freshName, x, 12);
  }

  lemma LegacyWorldFields(c: ConfigValue, catalog: seq<World>, existing: set<string>, freshName: string)
    ensures var x := Reread(c.(worlds := catalog), existing, freshName);
      && FixedAsWritten(x, c) && x.scripts == c.scripts && x.worlds == catalog
      && SameOptions(x, c) && x.logFileName == KeptName(c, existing, freshName)
  {
  }

  lemma LegacyWorldItems(w: seq<Item>, worldType: WorldType, number: int, randomize: bool)
    requires |w| >= 10
    ensures var b := LegacyWorldBlock(w, worldType, number, randomize);
      && |b| >= 12 && (forall i :: 0 <= i < 9 ==> b[i] == w[i])
      && b[9] == WorldTypeItem(worldType) && b[10] == IntItem(number) && b[11] == BoolItem(randomize)
      && b[12..] == w[10..]
  {
    var b := LegacyWorldBlock(w, worldType, number, randomize);
    assert b[12..] == w[10..];
  }

  lemma LegacyWorldTypeHead(w: seq<Item>, c: ConfigValue, worldType: WorldType, number: int, randomize: bool,
                            catalog: seq<World>, x: ConfigValue)
    requires Writable(c) && WrittenFields(w, c)
    requires FixedAsWritten(x, c) && x.scripts == c.scripts && x.worlds == catalog
    ensures DecodeHead(LegacyWorldBlock(w, worldType, number, randomize), catalog) == Some(HeadOf(x, 12))
  {
    var b := LegacyWorldBlock(w, worldType, number, randomize);
    LegacyWorldItems(w, worldType, number, randomize);
    assert DecodeWorlds(b, 9, catalog) == Some((catalog, 12));
    ScriptListRoundTrip(c.scripts);
    WrittenFixed(b, w, c, catalog, x, 12);
  }

  /** The world number after a legacy `WorldType` is read outside any
      `try`: a stream whose type is followed by an object, or by nothing,
      fails to load. */
  lemma LegacyWorldTypeWithoutNumber(c: ConfigValue, worldType: WorldType, rest: seq<Item>,
                                     catalog: seq<World>, existing: set<string>, freshName: string)
    requires Writable(c)
    requires |rest| == 0 || !rest[0].IsPrimitive()
    ensures Decode(Write(c)[..9] + [WorldTypeItem(worldType)] + rest, catalog, existing, freshName).None?
  {
    MissingNumber(Write(c), worldType, rest, catalog);
  }

  lemma MissingNumber(w: seq<Item>, worldType: WorldType, rest: seq<Item>, catalog: seq<World>)
    requires |w| >= 9
    requires |rest| == 0 || !rest[0].IsPrimitive()
    ensures DecodeHead(w[..9] + [WorldTypeItem(worldType)] + rest, catalog).None?
  {
    var b := w[..9] + [WorldTypeItem(worldType)] + rest;
    assert b[9] == WorldTypeItem(worldType);
    assert |b| == 10 || b[10] == rest[0];
  }

  // --- reading the options from a shifted position -------------------------------

  /** Two streams that agree from the given positions on. */
  lemma ShiftedReads(a: seq<Item>, pa: nat, b: seq<Item>, pb: nat)
    requires pa <= |a| && pb <= |b| && a[pa..] == b[pb..]
    ensures ReadsAgree(a, pa, b, pb)
  {
    forall j: nat | pa <= j && j < |a|
      ensures a[j] == b[j - pa + pb]
    {
      assert a[j] == a[pa..][j - pa];
    }
  }

  /** The options after the worlds are read the same way from any two
      streams that agree from the given positions on. */
  lemma TailShift(a: seq<Item>, pa: nat, b: seq<Item>, pb: nat, existing: set<string>, freshName: string)
    requires pa <= |a| && pb <= |b| && a[pa..] == b[pb..]
    ensures DecodeTail(a, pa, existing, freshName) == DecodeTail(b, pb, existing, freshName)
  {
    ShiftedReads(a, pa, b, pb);
    TailShiftFrom(a, pa, b, pb, existing, freshName);
  }

  /** Every read at or after `pa` in `a` gives what the read at the matching
      position in `b` gives. */
  ghost predicate ReadsAgree(a: seq<Item>, pa: nat, b: seq<Item>, pb: nat)
  {
    && (forall j: nat :: pa <= j ==> BoolAt(a, j) == BoolAt(b, j - pa + pb))
    && (forall j: nat :: pa <= j ==> ObjectAt(a, j) == ObjectAt(b, j - pa + pb))
  }

  lemma TailShiftFrom(a: seq<Item>, pa: nat, b: seq<Item>, pb: nat, existing: set<string>, freshName: string)
    requires ReadsAgree(a, pa, b, pb)
    ensures DecodeTail(a, pa, existing, freshName) == DecodeTail(b, pb, existing, freshName)
  {
    PairShift(a, pa, b, pb);
    var q := TryPair(a, pa).2;
    var r := BoolsShift(a, pa, b, pb, q);
    NameShift(a, pa, b, pb, r, existing, freshName);
    SameTail(a, pa, b, pb, q, r, existing, freshName);
  }

  /** Two tails whose `try` blocks read the same values, at positions that
      differ by the same amount, are equal. */
  lemma SameTail(a: seq<Item>, pa: nat, b: seq<Item>, pb: nat, q: nat, r: nat, existing: set<string>, freshName: string)
    requires pa <= q && TryPair(a, pa).2 == q
    requires TryPair(b, pb) == (TryPair(a, pa).0, TryPair(a, pa).1, q - pa + pb)
    requires pa <= r && TryBools(a, q, LaterOptions()).1 == r
    requires TryBools(b, q - pa + pb, LaterOptions()) == (TryBools(a, q, LaterOptions()).0, r - pa + pb)
    requires LogFileName(a, r, existing, freshName) == LogFileName(b, r - pa + pb, existing, freshName)
    ensures DecodeTail(a, pa, existing, freshName) == DecodeTail(b, pb, existing, freshName)
  {
    var t := Tail(TryPair(a, pa).0, TryPair(a, pa).1, TryBools(a, q, LaterOptions()).0, LogFileName(a, r, existing, freshName));
    TailParts(a, pa, existing, freshName, q, r, t);
    TailParts(b, pb, existing, freshName, q - pa + pb, r - pa + pb, t);
  }

  lemma PairShift(a: seq<Item>, pa: nat, b: seq<Item>, pb: nat)
    requires ReadsAgree(a, pa, b, pb)
    ensures TryPair(a, pa).2 >= pa
    ensures TryPair(b, pb) == (TryPair(a, pa).0, TryPair(a, pa).1, TryPair(a, pa).2 - pa + pb)
  {
    assert BoolAt(a, pa) == BoolAt(b, pb);
    assert BoolAt(a, pa + 1) == BoolAt(b, pb + 1);
  }

  /** The nine single options read from `x` in `a` and from the matching
      position in `b`; `r` is where the reads in `a` stop. */
  lemma BoolsShift(a: seq<Item>, pa: nat, b: seq<Item>, pb: nat, x: nat) returns (r: nat)
    requires ReadsAgree(a, pa, b, pb) && pa <= x
    ensures r == TryBools(a, x, LaterOptions()).1 && pa <= r
    ensures TryBools(b, x - pa + pb, LaterOptions()) == (TryBools(a, x, LaterOptions()).0, r - pa + pb)
  {
    TryBoolsShift(a, pa, b, pb, x, LaterOptions());
    r := TryBools(a, x, LaterOptions()).1;
  }

  lemma NameShift(a: seq<Item>, pa: nat, b: seq<Item>, pb: nat, x: nat, existing: set<string>, freshName: string)
    requires ReadsAgree(a, pa, b, pb) && pa <= x
    ensures LogFileName(a, x, existing, freshName) == LogFileName(b, x - pa + pb, existing, freshName)
  {
    assert ObjectAt(a, x) == ObjectAt(b, x - pa + pb);
  }

  lemma {:induction false} TryBoolsShift(a: seq<Item>, pa: nat, b: seq<Item>, pb: nat, x: nat, n: nat)
    requires pa <= x
    requires forall j: nat :: pa <= j ==> BoolAt(a, j) == BoolAt(b, j - pa + pb)
    ensures TryBools(a, x, n).0 == TryBools(b, x - pa + pb, n).0
    ensures TryBools(a, x, n).1 - pa == TryBools(b, x - pa + pb, n).1 - pb
    decreases n
  {
    if n > 0 {
      TryBoolsShift(a, pa, b, pb, x + 1, n - 1);
      TryBoolsShift(a, pa, b, pb, x, n - 1);
    }
  }

  // --- truncated streams -------------------------------------------------------

  /** The first `10 + k` items of a written stream, followed by the log-file
      name when `withName` holds. */
  function TruncatedBlock(w: seq<Item>, k: nat, withName: bool, name: string): seq<Item>
    requires 10 + k <= |w|
  {
    w[..10 + k] + (if withName then [StringItem(name)] else [])
  }

  /** The first `m` of `bs`, the rest `false`. */
  function Present(bs: seq<bool>, m: nat): (r: seq<bool>)
    ensures |r| == |bs|
    ensures forall i :: 0 <= i < |bs| ==> r[i] == (i < m && bs[i])
  {
    seq(|bs|, i requires 0 <= i < |bs| => i < m && bs[i])
  }

  /** How many of the nine later options a stream cut after `10 + k` items holds. */
  function Kept(k: nat): nat
  {
    if k < 2 then 0 else k - 2
  }

  /** What loads from a truncated stream of `c`: the options read in a `try`
      of their own are those of `c` up to where the stream stops, and
      `false` after. */
  function Shortened(c: ConfigValue, k: nat, withName: bool, existing: set<string>, freshName: string): ConfigValue
  {
    var present := Present(Singles(c), Kept(k));
    c.(proxy := Reloaded(c.proxy),
       reflection := k >= 2 && c.reflection, noRandoms := k >= 2 && c.noRandoms,
       noInterface := present[0], noRender := present[1], dismissRandoms := present[2],
       newMouse := present[3], enableBreaks := present[4], stopAfterBreak := present[5],
       mirrorMode := present[6], launchGame := present[7], closeClient := present[8],
       logFileName := if withName && c.logFileName in existing then c.logFileName else freshName)
  }

  /** A stream that stops after the worlds and `k` of the options written
      after them (`withName`: followed by the log-file name) still loads:
      the fields every stream has are read as written; `reflection` and
      `noRandoms` only when both are present; each later option only when
      present; and the log-file name only when it follows and exists. */
  lemma Truncated(c: ConfigValue, k: nat, withName: bool, catalog: seq<World>, existing: set<string>, freshName: string)
    requires Writable(c) && k <= 11
    ensures Decode(TruncatedBlock(Write(c), k, withName, c.logFileName), catalog, existing, freshName)
         == Some(Shortened(c, k, withName, existing, freshName))
  {
    var x := Shortened(c, k, withName, existing, freshName);
    WriteItems(c);
    ShortenedFields(c, k, withName, existing, freshName);
    TruncatedHead(Write(c), c, k, withName, catalog, x);
    TruncatedTail(Write(c), c, k, withName, existing, freshName);
    DecodeAs(TruncatedBlock(Write(c), k, withName, c.logFileName), catalog, existing, freshName, x, 10);
  }

  lemma ShortenedFields(c: ConfigValue, k: nat, withName: bool, existing: set<string>, freshName: string)
    requires k <= 11
    ensures var x := Shortened(c, k, withName, existing, freshName);
      FixedAsWritten(x, c) && x.scripts == c.scripts && x.worlds == c.worlds
  {
  }

  lemma TruncatedHead(w: seq<Item>, c: ConfigValue, k: nat, withName: bool, catalog: seq<World>, x: ConfigValue)
    requires Writable(c) && WrittenFields(w, c) && k <= 11
    requires FixedAsWritten(x, c) && x.scripts == c.scripts && x.worlds == c.worlds
    ensures DecodeHead(TruncatedBlock(w, k, withName, c.logFileName), catalog) == Some(HeadOf(x, 10))
  {
    var b := TruncatedBlock(w, k, withName, c.logFileName);
    assert forall i :: 0 <= i < 10 ==> b[i] == w[i];
    ScriptListRoundTrip(c.scripts);
    WorldListRoundTrip(c.worlds);
    WrittenFixed(b, w, c, catalog, x, 10);
  }

  /** Where a truncated stream stops. */
  lemma TruncatedItems(w: seq<Item>, c: ConfigValue, k: nat, withName: bool)
    requires WrittenOptions(w, c) && k <= 11
    ensures var b := TruncatedBlock(w, k, withName, c.logFileName);
      && (forall i :: 10 <= i < 10 + k ==> b[i] == w[i])
      && BoolAt(b, 10 + k).None?
      && ObjectAt(b, 10 + k) == if withName then Some(StringItem(c.logFileName)) else None
  {
  }

  lemma PresentSplit(bs: seq<bool>, m: nat)
    requires m <= |bs|
    ensures bs[..m] + Falses(|bs| - m) == Present(bs, m)
  {
  }

  lemma TruncatedPair(w: seq<Item>, c: ConfigValue, k: nat, withName: bool)
    requires WrittenOptions(w, c) && k <= 11
    ensures TryPair(TruncatedBlock(w, k, withName, c.logFileName), 10)
         == (k >= 2 && c.reflection, k >= 2 && c.noRandoms, 10 + k - Kept(k))
  {
    TruncatedItems(w, c, k, withName);
  }

  lemma TruncatedSingles(w: seq<Item>, c: ConfigValue, k: nat, withName: bool)
    requires WrittenOptions(w, c) && k <= 11
    ensures TryBools(TruncatedBlock(w, k, withName, c.logFileName), 10 + k - Kept(k), LaterOptions())
         == (Present(Singles(c), Kept(k)), 10 + k)
  {
    if k < 11 {
      CutSingles(w, c, k, withName);
    } else {
      AllSingles(w, c, withName);
    }
  }

  lemma CutSingles(w: seq<Item>, c: ConfigValue, k: nat, withName: bool)
    requires WrittenOptions(w, c) && k < 11
    ensures TryBools(TruncatedBlock(w, k, withName, c.logFileName), 10 + k - Kept(k), LaterOptions())
         == (Present(Singles(c), Kept(k)), 10 + k)
  {
    var b := TruncatedBlock(w, k, withName, c.logFileName);
    TruncatedItems(w, c, k, withName);
    var m, p := Kept(k), 10 + k - Kept(k);
    assert m < 9 && p + m == 10 + k;
    var bs := Singles(c)[..m];
    assert forall i :: 0 <= i < m ==> b[p + i] == BoolItem(bs[i]);
    TryBoolsPartial(b, p, bs, LaterOptions());
    PresentSplit(Singles(c), m);
  }

  lemma AllSingles(w: seq<Item>, c: ConfigValue, withName: bool)
    requires WrittenOptions(w, c)
    ensures TryBools(TruncatedBlock(w, 11, withName, c.logFileName), 12, LaterOptions())
         == (Present(Singles(c), 9), 21)
  {
    var b := TruncatedBlock(w, 11, withName, c.logFileName);
    TruncatedItems(w, c, 11, withName);
    assert forall i :: 0 <= i < 9 ==> b[12 + i] == BoolItem(Singles(c)[i]);
    TryBoolsPresent(b, 12, Singles(c));
    assert Present(Singles(c), 9) == Singles(c);
  }

  lemma TruncatedTail(w: seq<Item>, c: ConfigValue, k: nat, withName: bool, existing: set<string>, freshName: string)
    requires WrittenOptions(w, c) && k <= 11
    ensures DecodeTail(TruncatedBlock(w, k, withName, c.logFileName), 10, existing, freshName)
         == TailOf(Shortened(c, k, withName, existing, freshName))
  {
    TruncatedParts(w, c, k, withName, existing, freshName);
    ShortenedTail(c, k, withName, existing, freshName);
  }

  /** The options read from a truncated stream, one `try` at a time. */
  lemma TruncatedParts(w: seq<Item>, c: ConfigValue, k: nat, withName: bool, existing: set<string>, freshName: string)
    requires WrittenOptions(w, c) && k <= 11
    ensures DecodeTail(TruncatedBlock(w, k, withName, c.logFileName), 10, existing, freshName)
         == Tail(k >= 2 && c.reflection, k >= 2 && c.noRandoms, Present(Singles(c), Kept(k)),
                 if withName && c.logFileName in existing then c.logFileName else freshName)
  {
    var b := TruncatedBlock(w, k, withName, c.logFileName);
    var name := if withName && c.logFileName in existing then c.logFileName else freshName;
    var t := Tail(k >= 2 && c.reflection, k >= 2 && c.noRandoms, Present(Singles(c), Kept(k)), name);
    var q := 10 + k - Kept(k);
    TruncatedPair(w, c, k, withName);
    assert TryPair(b, 10) == (t.reflection, t.noRandoms, q);
    TruncatedSingles(w, c, k, withName);
    assert TryBools(b, q, LaterOptions()) == (t.singles, 10 + k);
    TruncatedName(w, c, k, withName, existing, freshName);
    TailParts(b, 10, existing, freshName, q, 10 + k, t);
  }

  lemma TruncatedName(w: seq<Item>, c: ConfigValue, k: nat, withName: bool, existing: set<string>, freshName: string)
    requires WrittenOptions(w, c) && k <= 11
    ensures LogFileName(TruncatedBlock(w, k, withName, c.logFileName), 10 + k, existing, freshName)
         == if withName && c.logFileName in existing then c.logFileName else freshName
  {
    TruncatedItems(w, c, k, withName);
  }

  /** What the options of a truncated stream read as. */
  lemma ShortenedTail(c: ConfigValue, k: nat, withName: bool, existing: set<string>, freshName: string)
    requires k <= 11
    ensures TailOf(Shortened(c, k, withName, existing, freshName))
         == Tail(k >= 2 && c.reflection, k >= 2 && c.noRandoms, Present(Singles(c), Kept(k)),
                 if withName && c.logFileName in existing then c.logFileName else freshName)
  {
    ShortenedSingles(c, k, withName, existing, freshName);
  }

  lemma ShortenedSingles(c: ConfigValue, k: nat, withName: bool, existing: set<string>, freshName: string)
    requires k <= 11
    ensures Singles(Shortened(c, k, withName, existing, freshName)) == Present(Singles(c), Kept(k))
  {
    NineOptions(Shortened(c, k, withName, existing, freshName), Present(Singles(c), Kept(k)));
  }

  lemma NineOptions(x: ConfigValue, p: seq<bool>)
    requires |p| == 9
    requires x.noInterface == p[0] && x.noRender == p[1] && x.dismissRandoms == p[2] && x.newMouse == p[3]
    requires x.enableBreaks == p[4] && x.stopAfterBreak == p[5] && x.mirrorMode == p[6] && x.launchGame == p[7]
    requires x.closeClient == p[8]
    ensures Singles(x) == p
  {
    assert p == [p[0], p[1], p[2], p[3], p[4], p[5], p[6], p[7], p[8]];
  }
}
