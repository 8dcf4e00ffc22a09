/** `Script`: a script reference (identifier and parameter string), local or
    remote, with an optional nickname. The pure members are functions of a
    `ScriptValue`; the class `Script` holds the fields that the setters and
    `readObject` assign. */
module Scripts {
  import opened Wrappers
  import opened Text
  import opened Serialization

  /** A JavaFX string property that may be missing altogether (`Unset`, the
      three-argument constructor never creates it) or hold a string that may
      be `null` (`Held(None)`). */
  datatype StringHolder = Unset | Held(value: Option<string>)

  datatype ScriptValue = ScriptValue(identifier: string, parameters: string, isLocal: bool, nickname: StringHolder)

  /** A backslash followed by a double quote: the escaped quote the client's
      command line expects around quoted values. */
  const EscapedQuote: string := "\\\""

  function Quoted(s: string): (r: string)
    ensures |r| == |s| + 4
  {
    EscapedQuote + s + EscapedQuote
  }

  /** `getNickname`: the held nickname, or "" when the holder holds `null`.
      The holder itself must exist. */
  function GetNickname(s: ScriptValue): (r: string)
    requires s.nickname.Held?
    ensures s.nickname.value.Some? ==> r == s.nickname.value.value
    ensures s.nickname.value.None? ==> r == ""
  {
    s.nickname.value.GetOr("")
  }

  /** `toParameter`: the `-script` flag and its argument. A local script
      quotes both the identifier and the parameters, a remote one only the
      parameters. */
  function ToParameter(s: ScriptValue): (r: seq<string>)
    ensures |r| == 2 && r[0] == "-script"
    ensures s.isLocal ==> r[1] == Quoted(s.identifier) + ":" + Quoted(s.parameters)
    ensures !s.isLocal ==> r[1] == s.identifier + ":" + Quoted(s.parameters)
  {
    if s.isLocal then
      ["-script", EscapedQuote + s.identifier + EscapedQuote + ":" + EscapedQuote + s.parameters + EscapedQuote]
    else
      ["-script", s.identifier + ":" + EscapedQuote + s.parameters + EscapedQuote]
  }

  /** `t` without one escaped quote at each end, when it has them. */
  function Unquote(t: string): string
  {
    if |t| >= 4 && StartsWith(t, EscapedQuote) && EndsWith(t, EscapedQuote) then t[2..|t| - 2] else t
  }

  /** How a reader of a `-script` argument takes it apart: the identifier is
      what comes before the first ':' (unquoted when quoted, which marks a
      local script), the parameters are the rest, unquoted. */
  function ParseArgument(arg: string): (string, string, bool)
  {
    var i := IndexOf(arg, ':');
    var head := arg[..i];
    var tail := if i < |arg| then arg[i + 1..] else "";
    var local := |head| >= 4 && StartsWith(head, EscapedQuote) && EndsWith(head, EscapedQuote);
    (if local then Unquote(head) else head, Unquote(tail), local)
  }

  lemma UnquoteQuoted(x: string)
    ensures StartsWith(Quoted(x), EscapedQuote) && EndsWith(Quoted(x), EscapedQuote)
    ensures Unquote(Quoted(x)) == x
  {
    var q := Quoted(x);
    assert q[..2] == EscapedQuote;
    assert q[|q| - 2..] == EscapedQuote;
    assert q[2..|q| - 2] == x;
  }

  lemma {:induction false} SplitAtFirstColon(head: string, tail: string)
    requires ':' !in head
    ensures IndexOf(head + ":" + tail, ':') == |head|
    decreases |head|
  {
    if |head| > 0 {
      SplitAtFirstColon(head[1..], tail);
      assert (head + ":" + tail)[1..] == head[1..] + ":" + tail;
    }
  }

  lemma ColonSlices(head: string, tail: string)
    ensures (head + ":" + tail)[..|head|] == head
    ensures (head + ":" + tail)[|head| + 1..] == tail
  {
  }

  /** The `-script` argument carries the identifier, the parameters and the
      local/remote distinction without loss, as long as the identifier has no
      ':' and a remote identifier does not itself begin with an escaped
      quote. */
  lemma ArgumentRoundTrip(s: ScriptValue)
    requires ':' !in s.identifier
    requires !s.isLocal ==> !StartsWith(s.identifier, EscapedQuote)
    ensures ParseArgument(ToParameter(s)[1]) == (s.identifier, s.parameters, s.isLocal)
  {
    var head := if s.isLocal then Quoted(s.identifier) else s.identifier;
    assert ':' !in head;
    SplitAtFirstColon(head, Quoted(s.parameters));
    ColonSlices(head, Quoted(s.parameters));
    UnquoteQuoted(s.parameters);
    UnquoteQuoted(s.identifier);
  }

  /** `toString`: `nickname (identifier)`. */
  function ToString(s: ScriptValue): (r: string)
    requires s.nickname.Held?
    ensures StartsWith(r, GetNickname(s))
    ensures EndsWith(r, " (" + s.identifier + ")")
    ensures |r| == |GetNickname(s)| + |s.identifier| + 3
  {
    var r := GetNickname(s) + " (" + s.identifier + ")";
    assert r[..|GetNickname(s)|] == GetNickname(s);
    assert r[|r| - |" (" + s.identifier + ")"|..] == " (" + s.identifier + ")";
    r
  }

  // ---------------------------------------------------------------------------
  // Persistence
  // ---------------------------------------------------------------------------

  /** `writeObject`: identifier, parameters, isLocal, then the held nickname
      (`null` written as a null object). The holder must exist. */
  function Write(s: ScriptValue): (r: seq<Item>)
    requires s.nickname.Held?
    ensures |r| == 4
    ensures StringAt(r, 0) == Some(s.identifier) && StringAt(r, 1) == Some(s.parameters)
    ensures BoolAt(r, 2) == Some(s.isLocal)
    ensures StringAt(r, 3) == s.nickname.value
  {
    [StringItem(s.identifier), StringItem(s.parameters), BoolItem(s.isLocal),
     if s.nickname.value.Some? then StringItem(s.nickname.value.value) else NullItem]
  }

  /** `readObject` on the object's block: the first three fields must be
      present; a nickname that cannot be read, or is not a string, becomes
      "". */
  function Decode(block: seq<Item>): (r: Option<ScriptValue>)
    ensures r.Some? ==> r.value.nickname.Held?
    ensures r.Some? <==> StringAt(block, 0).Some? && StringAt(block, 1).Some? && BoolAt(block, 2).Some?
  {
    var identifier := StringAt(block, 0);
    var parameters := StringAt(block, 1);
    var isLocal := BoolAt(block, 2);
    if identifier.None? || parameters.None? || isLocal.None? then None
    else
      var nickname := match ObjectAt(block, 3)
        case Some(StringItem(n)) => Some(n)
        case Some(NullItem) => None
        case _ => Some("");
      Some(ScriptValue(identifier.value, parameters.value, isLocal.value, Held(nickname)))
  }

  /** Writing then reading a script gives back the same script. */
  lemma RoundTrip(s: ScriptValue)
    requires s.nickname.Held?
    ensures Decode(Write(s)) == Some(s)
  {
  }

  /** A script written before nicknames existed decodes with the empty
      nickname. */
  lemma DecodeWithoutNickname(identifier: string, parameters: string, isLocal: bool)
    ensures Decode([StringItem(identifier), StringItem(parameters), BoolItem(isLocal)])
         == Some(ScriptValue(identifier, parameters, isLocal, Held(Some(""))))
  {
  }

  // ---------------------------------------------------------------------------
  // The object
  // ---------------------------------------------------------------------------

  class Script {
    var nickname: StringHolder
    var scriptIdentifier: string
    var parameters: string
    var isLocal: bool

    function Value(): ScriptValue
      reads this
    {
      ScriptValue(scriptIdentifier, parameters, isLocal, nickname)
    }

    /** `Script(identifier, parameters, isLocal)`: no nickname holder. */
    constructor (scriptIdentifier: string, parameters: string, isLocal: bool)
      ensures Value() == ScriptValue(scriptIdentifier, parameters, isLocal, Unset)
    {
      this.scriptIdentifier := scriptIdentifier;
      this.parameters := parameters;
      this.isLocal := isLocal;
      nickname := Unset;
    }

    /** `Script(identifier, parameters, isLocal, nickname)`. */
    constructor WithNickname(scriptIdentifier: string, parameters: string, isLocal: bool, nickname: string)
      ensures Value() == ScriptValue(scriptIdentifier, parameters, isLocal, Held(Some(nickname)))
    {
      this.scriptIdentifier := scriptIdentifier;
      this.parameters := parameters;
      this.isLocal := isLocal;
      this.nickname := Held(Some(nickname));
    }

    /** `setNickname`: sets the value of the existing holder. */
    method SetNickname(nickname: string)
      requires this.nickname.Held?
      modifies this`nickname
      ensures this.nickname == Held(Some(nickname))
    {
      this.nickname := Held(Some(nickname));
    }

    /** `setScriptIdentifier`. */
    method SetScriptIdentifier(scriptIdentifier: string)
      modifies this`scriptIdentifier
      ensures this.scriptIdentifier == scriptIdentifier
    {
      this.scriptIdentifier := scriptIdentifier;
    }

    /** `setParameters`. */
    method SetParameters(parameters: string)
      modifies this`parameters
      ensures this.parameters == parameters
    {
      this.parameters := parameters;
    }

    /** `setIsLocal`. */
    method SetIsLocal(isLocal: bool)
      modifies this`isLocal
      ensures this.isLocal == isLocal
    {
      this.isLocal := isLocal;
    }

    /** `readObject`, reading this object's own block. */
    method ReadObject(stream: ObjectInputStream) returns (ok: bool)
      requires stream.pos == 0
      modifies this, stream`pos
      ensures ok <==> Decode(stream.items).Some?
      ensures ok ==> Value() == Decode(stream.items).value
    {
      var id := stream.ReadObject();
      if id.None? || !id.value.StringItem? {
        return false;
      }
      scriptIdentifier := id.value.s;
      var params := stream.ReadObject();
      if params.None? || !params.value.StringItem? {
        return false;
      }
      parameters := params.value.s;
      var local := stream.ReadBoolean();
      if local.None? {
        return false;
      }
      isLocal := local.value;
      var n := stream.ReadObject();
      if n.Some? && n.value.StringItem? {
        nickname := Held(Some(n.value.s));
      } else if n.Some? && n.value.NullItem? {
        nickname := Held(None);
      } else {
        nickname := Held(Some(""));
      }
      ok := true;
    }

    /** `createCopy`: a new script with the same identifier, parameters and
        locality, and a nickname holder holding `getNickname()`. */
    method CreateCopy() returns (c: Script)
      requires nickname.Held?
      ensures fresh(c)
      ensures c.Value() == ScriptValue(scriptIdentifier, parameters, isLocal, Held(Some(GetNickname(Value()))))
      ensures GetNickname(c.Value()) == GetNickname(Value())
    {
      c := new Script.WithNickname(scriptIdentifier, parameters, isLocal, GetNickname(Value()));
    }
  }
}
