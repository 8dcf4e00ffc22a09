/** `Proxy` and its subclass `SecuredProxy`: a proxy endpoint with an optional
    nickname, and the authenticated variant that adds a username and a
    password. Their pure members (`toParameter`, `toString`, `getNickname`,
    the stream layout of `writeObject`) are functions of a `ProxyValue`; the
    class `Proxy` holds the fields that the setters and `readObject` assign in
    place. */
module Proxies {
  import opened Wrappers
  import opened Text
  import opened Serialization

  /** The state of a proxy object. A `nickname` of `None` is a nickname
      holder that was never created (the constructors without a nickname). */
  datatype ProxyValue =
    | PlainProxy(ipAddress: string, port: int, nickname: Option<string>)
    | SecuredProxy(ipAddress: string, port: int, username: string, password: string, nickname: Option<string>)

  /** `getNickname`: the nickname, or the empty string when none was set. */
  function GetNickname(p: ProxyValue): (r: string)
    ensures p.nickname.None? ==> r == ""
    ensures p.nickname.Some? ==> r == p.nickname.value
  {
    p.nickname.GetOr("")
  }

  /** `ip:port`, as both `toParameter` and `toString` print it. */
  function Address(p: ProxyValue): string
  {
    p.ipAddress + ":" + IntToString(p.port)
  }

  /** `toParameter`: the `-proxy` flag and its argument, `ip:port` for a plain
      proxy and `ip:port:username:password` for a secured one. */
  function ToParameter(p: ProxyValue): (r: seq<string>)
    ensures |r| == 2 && r[0] == "-proxy"
    ensures StartsWith(r[1], Address(p))
    ensures r[1] == Join(":", ArgumentFields(p))
  {
    var port := IntToString(p.port);
    match p
    case PlainProxy(ip, _, _) =>
      JoinTwo(":", ip, port);
      ["-proxy", Address(p)]
    case SecuredProxy(ip, _, username, password, _) =>
      var arg := Address(p) + ":" + username + ":" + password;
      assert arg[..|Address(p)|] == Address(p);
      JoinFour(":", ip, port, username, password);
      ["-proxy", arg]
  }

  /** The fields a `-proxy` argument carries, in order. */
  function ArgumentFields(p: ProxyValue): seq<string>
  {
    match p
    case PlainProxy(ip, port, _) => [ip, IntToString(port)]
    case SecuredProxy(ip, port, username, password, _) => [ip, IntToString(port), username, password]
  }

  /** The `-proxy` argument is the colon-separated list of the proxy's fields:
      a reader that splits it at ':' gets back the address, the port as the
      same number, and for a secured proxy the username and the password,
      provided none of those strings contains a colon itself. */
  lemma ArgumentRoundTrip(p: ProxyValue)
    requires ':' !in p.ipAddress
    requires p.SecuredProxy? ==> ':' !in p.username && ':' !in p.password
    ensures Split(ToParameter(p)[1], ':') == ArgumentFields(p)
    ensures NumeralValue(Split(ToParameter(p)[1], ':')[1]) == p.port
  {
    var fields := ArgumentFields(p);
    var port := IntToString(p.port);
    IntToStringRoundTrip(p.port);
    assert ':' !in port;
    match p
    case PlainProxy(ip, _, _) =>
      assert Join(":", fields) == ToParameter(p)[1];
      SplitJoin(fields, ':');
    case SecuredProxy(ip, _, username, password, _) =>
      assert Join(":", fields[2..]) == username + ":" + password;
      assert Join(":", fields[1..]) == port + ":" + (username + ":" + password);
      assert Join(":", fields) == ToParameter(p)[1];
      SplitJoin(fields, ':');
  }

  /** `toString`: for a plain proxy `nickname (ip:port)` when a non-empty
      nickname is set and `ip:port` otherwise; for a secured proxy
      `ip:port:username`. */
  function ToString(p: ProxyValue): (r: string)
    ensures p.PlainProxy? && p.nickname.Some? && p.nickname.value != "" ==>
              r == p.nickname.value + " (" + Address(p) + ")"
    ensures p.PlainProxy? && (p.nickname.None? || p.nickname.value == "") ==> r == Address(p)
    ensures p.SecuredProxy? ==> r == Address(p) + ":" + p.username
  {
    match p
    case PlainProxy(_, _, nickname) =>
      if nickname.Some? && nickname.value != "" then nickname.value + " (" + Address(p) + ")" else Address(p)
    case SecuredProxy(_, _, username, _, _) => Address(p) + ":" + username
  }

  /** A secured proxy's display string never depends on its password or its
      nickname. */
  lemma ToStringHidesSecrets(p: ProxyValue, password: string, nickname: Option<string>)
    requires p.SecuredProxy?
    ensures ToString(p.(password := password, nickname := nickname)) == ToString(p)
  {
  }

  // ---------------------------------------------------------------------------
  // Persistence
  // ---------------------------------------------------------------------------

  /** `writeObject`: ip, port, then for a secured proxy username and password,
      then `getNickname()` (so an unset nickname is written as ""). */
  function Write(p: ProxyValue): (r: seq<Item>)
    ensures |r| == if p.SecuredProxy? then 5 else 3
    ensures StringAt(r, 0) == Some(p.ipAddress) && IntAt(r, 1) == Some(p.port)
    ensures p.SecuredProxy? ==> StringAt(r, 2) == Some(p.username) && StringAt(r, 3) == Some(p.password)
    ensures StringAt(r, |r| - 1) == Some(GetNickname(p))
  {
    match p
    case PlainProxy(ip, port, _) => [StringItem(ip), IntItem(port), StringItem(GetNickname(p))]
    case SecuredProxy(ip, port, username, password, _) =>
      [StringItem(ip), IntItem(port), StringItem(username), StringItem(password), StringItem(GetNickname(p))]
  }

  /** `readObject` of a `Proxy` (`secured` false) or a `SecuredProxy` on the
      object's block, for an object no constructor has run on. The leading
      fields must be present. A plain proxy's nickname is left unset when no
      object follows (the caught `OptionalDataException`); a secured proxy's
      nickname falls back to "" on any failure. */
  function Decode(secured: bool, block: seq<Item>): (r: Option<ProxyValue>)
    ensures r.Some? ==> r.value.SecuredProxy? == secured
    ensures r.Some? ==> StringAt(block, 0) == Some(r.value.ipAddress) && IntAt(block, 1) == Some(r.value.port)
  {
    var ip := StringAt(block, 0);
    var port := IntAt(block, 1);
    if ip.None? || port.None? then None
    else if !secured then
      match ObjectAt(block, 2)
      case None => Some(PlainProxy(ip.value, port.value, None))
      case Some(StringItem(nickname)) => Some(PlainProxy(ip.value, port.value, Some(nickname)))
      case Some(_) => None
    else
      var username := StringAt(block, 2);
      var password := StringAt(block, 3);
      if username.None? || password.None? then None
      else
        var nickname := StringAt(block, 4).GetOr("");
        Some(SecuredProxy(ip.value, port.value, username.value, password.value, Some(nickname)))
  }

  /** Writing then reading a proxy preserves every field; the nickname comes
      back set, holding what `getNickname` returned before. */
  lemma RoundTrip(p: ProxyValue)
    ensures Decode(p.SecuredProxy?, Write(p)) == Some(p.(nickname := Some(GetNickname(p))))
    ensures GetNickname(Decode(p.SecuredProxy?, Write(p)).value) == GetNickname(p)
  {
  }

  /** A plain proxy written before nicknames existed decodes with its address
      and port and no nickname holder, and still reports the empty nickname. */
  lemma DecodeWithoutNickname(ip: string, port: int)
    ensures Decode(false, [StringItem(ip), IntItem(port)]) == Some(PlainProxy(ip, port, None))
    ensures GetNickname(Decode(false, [StringItem(ip), IntItem(port)]).value) == ""
  {
  }

  /** Whatever stands where a secured proxy's nickname should be, decoding
      does not fail because of it: the nickname is the string found there, or
      "". */
  lemma SecuredNicknameNeverFails(block: seq<Item>)
    requires StringAt(block, 0).Some? && IntAt(block, 1).Some?
    requires StringAt(block, 2).Some? && StringAt(block, 3).Some?
    ensures Decode(true, block).Some?
    ensures Decode(true, block).value.nickname == Some(StringAt(block, 4).GetOr(""))
  {
  }

  // ---------------------------------------------------------------------------
  // The object
  // ---------------------------------------------------------------------------

  /** A `Proxy` object, or a `SecuredProxy` one when `secured` holds. The
      `username` and `password` fields belong to the secured subclass and stay
      empty in a plain proxy. */
  class Proxy {
    const secured: bool
    var nickname: Option<string>
    var ipAddress: string
    var port: int
    var username: string
    var password: string

    function Value(): (v: ProxyValue)
      reads this
      ensures v.SecuredProxy? == secured
    {
      if secured then SecuredProxy(ipAddress, port, username, password, nickname)
      else PlainProxy(ipAddress, port, nickname)
    }

    /** `Proxy(ip, port)`: no nickname holder. */
    constructor (ip: string, port: int)
      ensures Value() == PlainProxy(ip, port, None)
      ensures username == "" && password == ""
    {
      secured := false;
      nickname := None;
      ipAddress := ip;
      this.port := port;
      username, password := "", "";
    }

    /** `Proxy(ip, port, nickname)`. */
    constructor WithNickname(ip: string, port: int, nickname: string)
      ensures Value() == PlainProxy(ip, port, Some(nickname))
      ensures username == "" && password == ""
    {
      secured := false;
      this.nickname := Some(nickname);
      ipAddress := ip;
      this.port := port;
      username, password := "", "";
    }

    /** `SecuredProxy(ip, port, username, password)`: no nickname holder. */
    constructor Secured(ip: string, port: int, username: string, password: string)
      ensures Value() == SecuredProxy(ip, port, username, password, None)
    {
      secured := true;
      nickname := None;
      ipAddress := ip;
      this.port := port;
      this.username, this.password := username, password;
    }

    /** `SecuredProxy(ip, port, username, password, nickname)`. */
    constructor SecuredWithNickname(ip: string, port: int, username: string, password: string, nickname: string)
      ensures Value() == SecuredProxy(ip, port, username, password, Some(nickname))
    {
      secured := true;
      this.nickname := Some(nickname);
      ipAddress := ip;
      this.port := port;
      this.username, this.password := username, password;
    }

    /** `setNickname`: sets the value of the existing holder (a proxy built
        without a nickname has none to set). */
    method SetNickname(nickname: string)
      requires this.nickname.Some?
      modifies this`nickname
      ensures this.nickname == Some(nickname)
    {
      this.nickname := Some(nickname);
    }

    /** `setIP`. */
    method SetIP(ip: string)
      modifies this`ipAddress
      ensures ipAddress == ip
    {
      ipAddress := ip;
    }

    /** `setPort`. */
    method SetPort(port: int)
      modifies this`port
      ensures this.port == port
    {
      this.port := port;
    }

    /** `SecuredProxy.setUsername`. */
    method SetUsername(username: string)
      requires secured
      modifies this`username
      ensures this.username == username
    {
      this.username := username;
    }

    /** `SecuredProxy.setPassword`. */
    method SetPassword(password: string)
      requires secured
      modifies this`password
      ensures this.password == password
    {
      this.password := password;
    }

    /** `readObject`, run by deserialization on an object whose nickname
        holder does not exist yet, reading this object's own block. */
    method ReadObject(stream: ObjectInputStream) returns (ok: bool)
      requires stream.pos == 0 && nickname.None?
      modifies this, stream`pos
      ensures ok <==> Decode(secured, stream.items).Some?
      ensures ok ==> Value() == Decode(secured, stream.items).value
    {
      var ip := stream.ReadObject();
      if ip.None? || !ip.value.StringItem? {
        return false;
      }
      ipAddress := ip.value.s;
      var p := stream.ReadInt();
      if p.None? {
        return false;
      }
      port := p.value;
      if secured {
        var u := stream.ReadObject();
        if u.None? || !u.value.StringItem? {
          return false;
        }
        username := u.value.s;
        var pw := stream.ReadObject();
        if pw.None? || !pw.value.StringItem? {
          return false;
        }
        password := pw.value.s;
        var n := stream.ReadObject();
        if n.Some? && n.value.StringItem? {
          nickname := Some(n.value.s);
        } else {
          nickname := Some("");
        }
      } else {
        var n := stream.ReadObject();
        if n.Some? {
          if !n.value.StringItem? {
            return false;
          }
          nickname := Some(n.value.s);
        }
      }
      ok := true;
    }

    /** `createCopy`: a new proxy of the same class with the same address,
        port and credentials. A plain proxy's copy keeps the nickname holder
        exactly as it is; a secured proxy's copy always has one, holding
        `getNickname()`. */
    method CreateCopy() returns (c: Proxy)
      ensures fresh(c)
      ensures c.secured == secured && c.ipAddress == ipAddress && c.port == port
      ensures GetNickname(c.Value()) == GetNickname(Value())
      ensures !secured ==> c.nickname == nickname
      ensures secured ==> c.username == username && c.password == password
      ensures secured ==> c.nickname == Some(GetNickname(Value()))
    {
      if secured {
        c := new Proxy.SecuredWithNickname(ipAddress, port, username, password, GetNickname(Value()));
      } else if nickname.Some? {
        c := new Proxy.WithNickname(ipAddress, port, GetNickname(Value()));
      } else {
        c := new Proxy(ipAddress, port);
      }
    }
  }
}
