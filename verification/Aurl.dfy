/**
 aurl/abyss_url.go: printing and parsing of abyss and abyst URLs.  The text
 form of IP addresses belongs to Go's net package and is a parameter.
 */
module AurlModel {
  import opened Prelude
  import opened Text

  type Ip = nat

  datatype IpText = IpText(show: Ip -> string, parse: string -> Option<Ip>)

  datatype UdpAddr = UdpAddr(ip: Ip, port: Int64)

  datatype Aurl = Aurl(scheme: string, hash: string, addresses: seq<UdpAddr>, path: string)

  datatype Result = Ok(url: Aurl) | Err(message: string)

  predicate IpChar(c: char) {
    '0' <= c <= '9' || 'a' <= c <= 'f' || c == '.' || c == ':'
  }

  /** What net.IP.String and net.ParseIP promise. */
  ghost predicate Faithful(t: IpText) {
    forall ip: Ip :: t.parse(t.show(ip)) == Some(ip) && forall c :: c in t.show(ip) ==> IpChar(c)
  }

  const ABYSS := "abyss"
  const ABYST := "abyst"

  // ---- printing ----

  function ShowAddr(t: IpText, a: UdpAddr): string {
    var host := t.show(a.ip);
    if ':' in host || '%' in host then "[" + host + "]:" + Itoa(a.port) else host + ":" + Itoa(a.port)
  }

  function ShowAll(t: IpText, addresses: seq<UdpAddr>): seq<string> {
    seq(|addresses|, i requires 0 <= i < |addresses| => ShowAddr(t, addresses[i]))
  }

  function Print(t: IpText, a: Aurl): string {
    if a.addresses == [] then a.scheme + ":" + a.hash + "/" + a.path
    else a.scheme + ":" + a.hash + ":" + Join(ShowAll(t, a.addresses), '|') + "/" + a.path
  }

  // ---- parsing ----

  /** Digits and letters without 0, I, O and l. */
  predicate IsBase58(c: char) {
    '1' <= c <= '9' || ('A' <= c <= 'Z' && c != 'I' && c != 'O') || ('a' <= c <= 'z' && c != 'l')
  }

  predicate PeerIdOk(s: string) {
    |s| >= 32 && 'A' <= s[0] <= 'Z' && forall i :: 1 <= i < |s| ==> IsBase58(s[i])
  }

  function HostPort(t: IpText, ip: string, port: string): Option<UdpAddr> {
    var n := Atoi(port);
    if t.parse(ip).Some? && n.Some? then Some(UdpAddr(t.parse(ip).value, n.value)) else None
  }

  function ParseEndpoint(t: IpText, ep: string): Option<UdpAddr> {
    if ep == "" then None
    else if ep[0] == '[' then
      var close := IndexOf(ep, ']');
      if close <= 0 then None
      else if close + 1 < |ep| && ep[close + 1] == ':' then HostPort(t, ep[1..close], ep[close + 2..])
      else None
    else
      var parts := Split(ep, ':');
      if |parts| != 2 then None else HostPort(t, parts[0], parts[1])
  }

  function ParseAll(t: IpText, eps: seq<string>): seq<UdpAddr> {
    Collect((ep: string) => ParseEndpoint(t, ep), eps)
  }

  const BAD_HASH := "invalid peer hash"

  lemma PeerIdIsPlain(s: string)
    requires PeerIdOk(s)
    ensures ':' !in s && '/' !in s
  {
  }

  /** A peer id is free of separators, so the part between the colon and the slash is always a proper slice. */
  lemma ColonBeforeSlash(body: string)
    requires ':' in body && PeerIdOk(body[..IndexOf(body, ':')])
    ensures '/' in body ==> IndexOf(body, ':') < IndexOf(body, '/')
  {
    var i, j := IndexOf(body, ':'), IndexOf(body, '/');
    PeerIdIsPlain(body[..i]);
    assert forall k :: 0 <= k < i ==> body[k] == body[..i][k];
  }

  /** The text between the separators of an abyss URL. */
  datatype Pieces = Pieces(hash: string, endpoints: Option<string>, path: string) | Bad(message: string)

  function Cut(body: string): (p: Pieces)
    ensures p.Pieces? ==> PeerIdOk(p.hash)
    ensures p.Pieces? ==> |p.path| <= |body| && p.path == body[|body| - |p.path|..]
  {
    if body == "" then Bad("empty address")
    else
      var addrStart := IndexOf(body, ':');
      var pathStart := IndexOf(body, '/');
      if addrStart == -1 then
        if pathStart == -1 then
          if PeerIdOk(body) then Pieces(body, None, "") else Bad(BAD_HASH)
        else if PeerIdOk(body[..pathStart]) then Pieces(body[..pathStart], None, body[pathStart + 1..])
        else Bad(BAD_HASH)
      else if !PeerIdOk(body[..addrStart]) then Bad(BAD_HASH)
      else
        ColonBeforeSlash(body);
        if pathStart == -1 then Pieces(body[..addrStart], Some(body[addrStart + 1..]), "")
        else Pieces(body[..addrStart], Some(body[addrStart + 1..pathStart]), body[pathStart + 1..])
  }

  function Assemble(t: IpText, p: Pieces): Result {
    match p
    case Bad(message) => Err(message)
    case Pieces(hash, None, path) => Ok(Aurl(ABYSS, hash, [], path))
    case Pieces(hash, Some(endpoints), path) => Ok(Aurl(ABYSS, hash, ParseAll(t, Split(endpoints, '|')), path))
  }

  function ParseAbyss(t: IpText, body: string): Result {
    Assemble(t, Cut(body))
  }

  function ParseAbyst(body: string): Result {
    var slash := IndexOf(body, '/');
    if slash == -1 then
      if PeerIdOk(body) then Ok(Aurl(ABYST, body, [], "")) else Err(BAD_HASH)
    else Ok(Aurl(ABYST, body[..slash], [], body[slash + 1..]))
  }

  predicate HasScheme(s: string, scheme: string) {
    |scheme| < |s| && s[..|scheme|] == scheme && s[|scheme|] == ':'
  }

  function ParseTrimmed(t: IpText, s: string): Result {
    if HasScheme(s, ABYSS) then ParseAbyss(t, s[|ABYSS| + 1..])
    else if HasScheme(s, ABYST) then ParseAbyst(s[|ABYST| + 1..])
    else Err("invalid scheme")
  }

  function Parse(t: IpText, input: string): Result {
    ParseTrimmed(t, TrimSpace(input))
  }

  // ---- the program's loops ----

  method IsValidPeerID(input: string) returns (ok: bool)
    ensures ok <==> PeerIdOk(input)
  {
    if |input| < 32 || input[0] < 'A' || input[0] > 'Z' {
      return false;
    }
    var i := 1;
    while i < |input|
      invariant 1 <= i <= |input| && forall k :: 1 <= k < i ==> IsBase58(input[k])
    {
      if !IsBase58(input[i]) {
        return false;
      }
      i := i + 1;
    }
    return true;
  }

  method ToString(t: IpText, a: Aurl) returns (s: string)
    ensures s == Print(t, a)
  {
    if |a.addresses| == 0 {
      return a.scheme + ":" + a.hash + "/" + a.path;
    }
    var candidates := [];
    var i := 0;
    while i < |a.addresses|
      invariant i <= |a.addresses| && |candidates| == i
      invariant forall k :: 0 <= k < i ==> candidates[k] == ShowAddr(t, a.addresses[k])
    {
      candidates := candidates + [ShowAddr(t, a.addresses[i])];
      i := i + 1;
    }
    assert candidates == ShowAll(t, a.addresses);
    return a.scheme + ":" + a.hash + ":" + Join(candidates, '|') + "/" + a.path;
  }

  method ParseOne(t: IpText, ep: string) returns (address: Option<UdpAddr>)
    ensures address == ParseEndpoint(t, ep)
  {
    if ep == "" {
      return None;
    }
    var ipPart, portPart;
    if ep[0] == '[' {
      var close := IndexOf(ep, ']');
      if close <= 0 {
        return None;
      }
      ipPart := ep[1..close];
      if close + 1 < |ep| && ep[close + 1] == ':' {
        portPart := ep[close + 2..];
      } else {
        return None;
      }
    } else {
      var parts := Split(ep, ':');
      if |parts| != 2 {
        return None;
      }
      ipPart, portPart := parts[0], parts[1];
    }
    var port, ip := Atoi(portPart), t.parse(ipPart);
    if ip.Some? && port.Some? {
      return Some(UdpAddr(ip.value, port.value));
    }
    return None;
  }

  method ParseAddresses(t: IpText, eps: seq<string>) returns (addresses: seq<UdpAddr>)
    ensures addresses == ParseAll(t, eps)
  {
    addresses := [];
    var i := 0;
    while i < |eps|
      invariant i <= |eps| && addresses == ParseAll(t, eps[..i])
    {
      assert eps[..i + 1][..i] == eps[..i];
      var address := ParseOne(t, eps[i]);
      if address.Some? {
        addresses := addresses + [address.value];
      }
      i := i + 1;
    }
    assert eps[..i] == eps;
  }

  method CutBody(body: string) returns (p: Pieces)
    ensures p == Cut(body)
  {
    if body == "" {
      return Bad("empty address");
    }
    var addrStart, pathStart := IndexOf(body, ':'), IndexOf(body, '/');
    if addrStart == -1 {
      var peerId := if pathStart == -1 then body else body[..pathStart];
      var valid := IsValidPeerID(peerId);
      if !valid {
        return Bad(BAD_HASH);
      }
      return Pieces(peerId, None, if pathStart == -1 then "" else body[pathStart + 1..]);
    }
    var peerId := body[..addrStart];
    var valid := IsValidPeerID(peerId);
    if !valid {
      return Bad(BAD_HASH);
    }
    ColonBeforeSlash(body);
    if pathStart != -1 {
      return Pieces(peerId, Some(body[addrStart + 1..pathStart]), body[pathStart + 1..]);
    }
    return Pieces(peerId, Some(body[addrStart + 1..]), "");
  }

  method TryParseAbyss(t: IpText, body: string) returns (r: Result)
    ensures r == ParseAbyss(t, body)
  {
    var p := CutBody(body);
    match p {
      case Bad(message) => r := Err(message);
      case Pieces(hash, endpoints, path) =>
        if endpoints.None? {
          r := Ok(Aurl(ABYSS, hash, [], path));
        } else {
          var addresses := ParseAddresses(t, Split(endpoints.value, '|'));
          r := Ok(Aurl(ABYSS, hash, addresses, path));
        }
    }
  }

  // ---- parsing undoes printing ----

  lemma EndpointAvoids(t: IpText, a: UdpAddr)
    requires Faithful(t)
    ensures '|' !in ShowAddr(t, a) && '/' !in ShowAddr(t, a)
  {
    AtoiUndoesItoa(a.port);
  }

  lemma BracketedRead(t: IpText, host: string, port: string)
    requires ']' !in host
    ensures ParseEndpoint(t, "[" + host + "]:" + port) == HostPort(t, host, port)
  {
    var ep := "[" + host + "]:" + port;
    assert ep == ("[" + host) + [']'] + (":" + port);
    IndexOfFirst("[" + host, ']', ":" + port);
    assert ep[1..|host| + 1] == host;
    assert ep[|host| + 3..] == port;
  }

  lemma PlainRead(t: IpText, host: string, port: string)
    requires ':' !in host && ':' !in port && '[' !in host
    ensures ParseEndpoint(t, host + ":" + port) == HostPort(t, host, port)
  {
    var ep := host + [':'] + port;
    SplitUndoesJoin([host, port], ':');
    assert [host, port][1..] == [port];
    assert Join([host, port], ':') == ep;
    assert ep[0] == if host == "" then ':' else host[0];
  }

  lemma EndpointRoundTrip(t: IpText, a: UdpAddr)
    requires Faithful(t)
    ensures ParseEndpoint(t, ShowAddr(t, a)) == Some(a)
  {
    var host, port := t.show(a.ip), Itoa(a.port);
    AtoiUndoesItoa(a.port);
    assert '%' !in host && ']' !in host && '[' !in host;
    if ':' in host {
      BracketedRead(t, host, port);
    } else {
      PlainRead(t, host, port);
    }
  }

  lemma AllRoundTrip(t: IpText, addresses: seq<UdpAddr>)
    requires Faithful(t)
    ensures ParseAll(t, ShowAll(t, addresses)) == addresses
  {
    var shown, f := ShowAll(t, addresses), (ep: string) => ParseEndpoint(t, ep);
    forall i | 0 <= i < |shown| ensures f(shown[i]) == Some(addresses[i]) {
      EndpointRoundTrip(t, addresses[i]);
    }
    CollectAll(f, shown, addresses);
  }

  lemma JoinedAddresses(t: IpText, addresses: seq<UdpAddr>)
    requires Faithful(t) && addresses != []
    ensures var joined := Join(ShowAll(t, addresses), '|');
            '/' !in joined && ParseAll(t, Split(joined, '|')) == addresses
  {
    var shown := ShowAll(t, addresses);
    forall p | p in shown ensures '|' !in p && '/' !in p {
      var i :| 0 <= i < |shown| && shown[i] == p;
      EndpointAvoids(t, addresses[i]);
    }
    JoinAvoids(shown, '|', '/');
    SplitUndoesJoin(shown, '|');
    AllRoundTrip(t, addresses);
  }

  lemma {:induction false} TrimAfter(x: string, y: string)
    requires x != [] && !IsSpace(x[|x| - 1])
    ensures TrimRight(x + y) == x + TrimRight(y)
    decreases |y|
  {
    if y == [] {
      assert x + y == x;
    } else if IsSpace(y[|y| - 1]) {
      assert (x + y)[..|x + y| - 1] == x + y[..|y| - 1];
      TrimAfter(x, y[..|y| - 1]);
    } else {
      assert (x + y)[|x + y| - 1] == y[|y| - 1];
    }
  }

  lemma TrimWhole(x: string, y: string)
    requires x != [] && !IsSpace(x[0]) && !IsSpace(x[|x| - 1])
    ensures TrimSpace(x + y) == x + TrimRight(y)
  {
    assert (x + y)[0] == x[0];
    TrimAfter(x, y);
  }

  lemma TrimKeeps(s: string, c: char)
    requires !IsSpace(c)
    ensures c in s <==> c in TrimRight(s)
  {
    var r := TrimRight(s);
    if c in s {
      var i :| 0 <= i < |s| && s[i] == c;
      assert r[i] == c;
    }
  }

  lemma BodyWithoutAddresses(hash: string, path: string)
    requires PeerIdOk(hash)
    ensures Cut(hash + ['/'] + path) == if ':' in path then Bad(BAD_HASH) else Pieces(hash, None, path)
  {
    var body := hash + ['/'] + path;
    PeerIdIsPlain(hash);
    IndexOfFirst(hash, '/', path);
    assert body[..|hash|] == hash && body[|hash| + 1..] == path;
    if ':' in path {
      assert ':' in body;
      if PeerIdOk(body[..IndexOf(body, ':')]) {
        ColonBeforeSlash(body);
        assert false;
      }
    }
  }

  lemma BodyParts(hash: string, addrPart: string, path: string, body: string)
    requires ':' !in hash && '/' !in hash && '/' !in addrPart && body == hash + [':'] + addrPart + ['/'] + path
    ensures IndexOf(body, ':') == |hash| && IndexOf(body, '/') == |hash| + 1 + |addrPart|
    ensures body[..|hash|] == hash && body[|hash| + 1..|hash| + 1 + |addrPart|] == addrPart
    ensures body[|hash| + 2 + |addrPart|..] == path
  {
    assert body == hash + [':'] + (addrPart + ['/'] + path);
    IndexOfFirst(hash, ':', addrPart + ['/'] + path);
    IndexOfFirst(hash + [':'] + addrPart, '/', path);
  }

  lemma CutPieces(body: string, hash: string, addrPart: string, path: string)
    requires PeerIdOk(hash) && |body| == |hash| + 2 + |addrPart| + |path|
    requires IndexOf(body, ':') == |hash| && IndexOf(body, '/') == |hash| + 1 + |addrPart|
    requires body[..|hash|] == hash && body[|hash| + 1..|hash| + 1 + |addrPart|] == addrPart
    requires body[|hash| + 2 + |addrPart|..] == path
    ensures Cut(body) == Pieces(hash, Some(addrPart), path)
  {
  }

  lemma BodyWithAddresses(hash: string, addrPart: string, path: string, body: string)
    requires PeerIdOk(hash) && '/' !in addrPart && body == hash + [':'] + addrPart + ['/'] + path
    ensures Cut(body) == Pieces(hash, Some(addrPart), path)
  {
    PeerIdIsPlain(hash);
    BodyParts(hash, addrPart, path, body);
    CutPieces(body, hash, addrPart, path);
  }

  lemma SchemeRead(scheme: string, rest: string)
    ensures var s := scheme + [':'] + rest; HasScheme(s, scheme) && s[|scheme| + 1..] == rest
  {
    var s := scheme + [':'] + rest;
    assert s[..|scheme|] == scheme;
    assert s[|scheme| + 1..] == rest;
  }

  lemma SchemeTrimmed(scheme: string, mid: string, path: string)
    requires scheme != [] && !IsSpace(scheme[0]) && mid != [] && mid[|mid| - 1] == '/'
    ensures TrimSpace(scheme + [':'] + mid + path) == scheme + [':'] + (mid + TrimRight(path))
  {
    var head := scheme + [':'] + mid;
    assert head[0] == scheme[0] && head[|head| - 1] == '/';
    TrimWhole(head, path);
    Associate(scheme + [':'], mid, TrimRight(path));
  }

  lemma ParsesAsAbyss(t: IpText, mid: string, path: string)
    requires mid != [] && mid[|mid| - 1] == '/'
    ensures Parse(t, ABYSS + [':'] + mid + path) == ParseAbyss(t, mid + TrimRight(path))
  {
    SchemeTrimmed(ABYSS, mid, path);
    SchemeRead(ABYSS, mid + TrimRight(path));
  }

  lemma PrintedWithout(t: IpText, hash: string, path: string)
    requires PeerIdOk(hash)
    ensures Parse(t, ABYSS + [':'] + (hash + ['/']) + path)
         == if ':' in TrimRight(path) then Err(BAD_HASH) else Ok(Aurl(ABYSS, hash, [], TrimRight(path)))
  {
    ParsesAsAbyss(t, hash + ['/'], path);
    BodyWithoutAddresses(hash, TrimRight(path));
  }

  lemma PrintedWith(t: IpText, hash: string, addresses: seq<UdpAddr>, joined: string, path: string)
    requires PeerIdOk(hash) && Faithful(t) && addresses != [] && joined == Join(ShowAll(t, addresses), '|')
    ensures Parse(t, ABYSS + [':'] + (hash + [':'] + joined + ['/']) + path) == Ok(Aurl(ABYSS, hash, addresses, TrimRight(path)))
  {
    var mid := hash + [':'] + joined + ['/'];
    ParsesAsAbyss(t, mid, path);
    JoinedAddresses(t, addresses);
    BodyWithAddresses(hash, joined, TrimRight(path), mid + TrimRight(path));
  }

  lemma Regroup(scheme: string, hash: string, path: string)
    ensures scheme + ":" + hash + "/" + path == scheme + [':'] + (hash + ['/']) + path
  {
  }

  lemma RegroupAddresses(scheme: string, hash: string, joined: string, path: string)
    ensures scheme + ":" + hash + ":" + joined + "/" + path == scheme + [':'] + (hash + [':'] + joined + ['/']) + path
  {
  }

  /** What parsing makes of any printed abyss URL with a valid peer id. */
  lemma ParsePrinted(t: IpText, a: Aurl)
    requires Faithful(t) && a.scheme == ABYSS && PeerIdOk(a.hash)
    ensures Parse(t, Print(t, a)) ==
            if a.addresses == [] && ':' in a.path then Err(BAD_HASH) else Ok(a.(path := TrimRight(a.path)))
  {
    TrimKeeps(a.path, ':');
    if a.addresses == [] {
      PrintedWithout(t, a.hash, a.path);
      Regroup(ABYSS, a.hash, a.path);
    } else {
      var joined := Join(ShowAll(t, a.addresses), '|');
      PrintedWith(t, a.hash, a.addresses, joined, a.path);
      RegroupAddresses(ABYSS, a.hash, joined, a.path);
    }
  }

  /** Parsing undoes printing exactly when the path ends in no space and, without addresses, has no colon. */
  lemma ParseUndoesPrint(t: IpText, a: Aurl)
    requires Faithful(t) && a.scheme == ABYSS && PeerIdOk(a.hash)
    ensures Parse(t, Print(t, a)) == Ok(a) <==>
            (a.addresses != [] || ':' !in a.path) && (a.path == "" || !IsSpace(a.path[|a.path| - 1]))
  {
    ParsePrinted(t, a);
  }

  lemma SuffixEnd(s: string, n: nat)
    requires n <= |s| && (s == "" || !IsSpace(s[|s| - 1]))
    ensures var r := s[n..]; r == "" || !IsSpace(r[|r| - 1])
  {
    if n < |s| { assert s[n..][|s| - n - 1] == s[|s| - 1]; }
  }

  lemma AbyssComesFromAbyss(t: IpText, s: string)
    ensures var r := ParseTrimmed(t, s);
            r.Ok? && r.url.scheme == ABYSS ==> HasScheme(s, ABYSS) && r == ParseAbyss(t, s[|ABYSS| + 1..])
  {
    assert ABYST[4] != ABYSS[4];
  }

  lemma AcceptedBody(t: IpText, body: string, a: Aurl)
    requires ParseAbyss(t, body) == Ok(a)
    ensures PeerIdOk(a.hash) && |a.path| <= |body| && a.path == body[|body| - |a.path|..]
  {
  }

  lemma AcceptedTrimmed(t: IpText, s: string)
    requires (s == "" || !IsSpace(s[|s| - 1])) && ParseTrimmed(t, s).Ok? && ParseTrimmed(t, s).url.scheme == ABYSS
    ensures var a := ParseTrimmed(t, s).url; PeerIdOk(a.hash) && (a.path == "" || !IsSpace(a.path[|a.path| - 1]))
  {
    var a := ParseTrimmed(t, s).url;
    AbyssComesFromAbyss(t, s);
    var body := s[|ABYSS| + 1..];
    AcceptedBody(t, body, a);
    SuffixEnd(s, |ABYSS| + 1);
    SuffixEnd(body, |body| - |a.path|);
  }

  /** What an accepted abyss URL looks like. */
  lemma AcceptedAbyss(t: IpText, input: string)
    requires Parse(t, input).Ok? && Parse(t, input).url.scheme == ABYSS
    ensures var a := Parse(t, input).url;
            PeerIdOk(a.hash) && (a.path == "" || !IsSpace(a.path[|a.path| - 1]))
  {
    AcceptedTrimmed(t, TrimSpace(input));
  }

  /** An accepted abyss URL survives printing and parsing again, unless all its addresses were dropped and its path has a colon. */
  lemma ReprintAccepted(t: IpText, input: string)
    requires Faithful(t) && Parse(t, input).Ok? && Parse(t, input).url.scheme == ABYSS
    ensures var a := Parse(t, input).url;
            Parse(t, Print(t, a)) == Ok(a) <==> a.addresses != [] || ':' !in a.path
  {
    AcceptedAbyss(t, input);
    ParseUndoesPrint(t, Parse(t, input).url);
  }

  /** An endpoint without a port is dropped. */
  lemma NoPort(t: IpText)
    ensures ParseAll(t, Split("x", '|')) == []
  {
    assert Split("x", '|') == ["x"] && Split("x", ':') == ["x"];
    assert ["x"][..0] == [];
    assert ParseEndpoint(t, "x") == None;
  }

  lemma ParsesParts(t: IpText, hash: string, addrPart: string, path: string)
    requires PeerIdOk(hash) && '/' !in addrPart && TrimRight(path) == path
    ensures Parse(t, ABYSS + [':'] + (hash + [':'] + addrPart + ['/']) + path)
         == Ok(Aurl(ABYSS, hash, ParseAll(t, Split(addrPart, '|')), path))
  {
    var mid := hash + [':'] + addrPart + ['/'];
    ParsesAsAbyss(t, mid, path);
    BodyWithAddresses(hash, addrPart, path, mid + path);
  }

  lemma EndpointDropped(t: IpText, hash: string)
    requires PeerIdOk(hash)
    ensures Parse(t, ABYSS + [':'] + (hash + [':'] + "x" + ['/']) + "a:b") == Ok(Aurl(ABYSS, hash, [], "a:b"))
  {
    ParsesParts(t, hash, "x", "a:b");
    NoPort(t);
  }

  const SOME_ID: string := seq(32, _ => 'A')

  /** An accepted URL that is printed in a form the parser rejects: its only address cannot be read, its path has a colon. */
  lemma LostAddress(t: IpText)
    requires Faithful(t)
    ensures var input := "abyss:" + SOME_ID + ":x/a:b";
            Parse(t, input) == Ok(Aurl(ABYSS, SOME_ID, [], "a:b")) && Parse(t, Print(t, Parse(t, input).url)) == Err(BAD_HASH)
  {
    EndpointDropped(t, SOME_ID);
    ParsePrinted(t, Aurl(ABYSS, SOME_ID, [], "a:b"));
    RegroupLost(SOME_ID);
  }

  lemma RegroupLost(hash: string)
    ensures "abyss:" + hash + ":x/a:b" == ABYSS + [':'] + (hash + [':'] + "x" + ['/']) + "a:b"
  {
  }

  lemma AbystBody(hash: string, path: string)
    requires '/' !in hash
    ensures ParseAbyst(hash + ['/'] + path) == Ok(Aurl(ABYST, hash, [], path))
  {
    var body := hash + ['/'] + path;
    IndexOfFirst(hash, '/', path);
    assert body[..|hash|] == hash && body[|hash| + 1..] == path;
  }

  lemma ParsesAsAbyst(t: IpText, mid: string, path: string)
    requires mid != [] && mid[|mid| - 1] == '/'
    ensures Parse(t, ABYST + [':'] + mid + path) == ParseAbyst(mid + TrimRight(path))
  {
    SchemeTrimmed(ABYST, mid, path);
    SchemeRead(ABYST, mid + TrimRight(path));
    assert ABYST[4] != ABYSS[4];
  }

  lemma AbystPrinted(t: IpText, a: Aurl)
    requires a.scheme == ABYST && a.addresses == [] && '/' !in a.hash
    ensures Parse(t, Print(t, a)) == Ok(a.(path := TrimRight(a.path)))
  {
    var mid := a.hash + ['/'];
    assert Print(t, a) == ABYST + [':'] + mid + a.path;
    ParsesAsAbyst(t, mid, a.path);
    AbystBody(a.hash, TrimRight(a.path));
  }

  lemma AbystComesFromAbyst(t: IpText, s: string)
    ensures var r := ParseTrimmed(t, s);
            r.Ok? && r.url.scheme == ABYST ==> HasScheme(s, ABYST) && r == ParseAbyst(s[|ABYST| + 1..])
  {
    assert ABYST[4] != ABYSS[4];
  }

  lemma AcceptedAbystBody(body: string, a: Aurl)
    requires ParseAbyst(body) == Ok(a)
    ensures a.addresses == [] && '/' !in a.hash && |a.path| <= |body| && a.path == body[|body| - |a.path|..]
  {
    if '/' in body { assert a.path == body[IndexOf(body, '/') + 1..]; }
  }

  lemma AcceptedAbystTrimmed(t: IpText, s: string)
    requires (s == "" || !IsSpace(s[|s| - 1])) && ParseTrimmed(t, s).Ok? && ParseTrimmed(t, s).url.scheme == ABYST
    ensures var a := ParseTrimmed(t, s).url;
            a.addresses == [] && '/' !in a.hash && (a.path == "" || !IsSpace(a.path[|a.path| - 1]))
  {
    var a := ParseTrimmed(t, s).url;
    AbystComesFromAbyst(t, s);
    var body := s[|ABYST| + 1..];
    AcceptedAbystBody(body, a);
    SuffixEnd(s, |ABYST| + 1);
    SuffixEnd(body, |body| - |a.path|);
  }

  /** What an accepted abyst URL looks like; its host part need not be a peer id. */
  lemma AcceptedAbyst(t: IpText, input: string)
    requires Parse(t, input).Ok? && Parse(t, input).url.scheme == ABYST
    ensures var a := Parse(t, input).url;
            a.addresses == [] && '/' !in a.hash && (a.path == "" || !IsSpace(a.path[|a.path| - 1]))
  {
    AcceptedAbystTrimmed(t, TrimSpace(input));
  }

  /** Parsing undoes printing of an abyst URL exactly when it has no addresses, no slash in its host and no space at its end. */
  lemma AbystRoundTrip(t: IpText, a: Aurl)
    requires a.scheme == ABYST
    ensures Parse(t, Print(t, a)) == Ok(a) <==>
            a.addresses == [] && '/' !in a.hash && (a.path == "" || !IsSpace(a.path[|a.path| - 1]))
  {
    if Parse(t, Print(t, a)) == Ok(a) { AcceptedAbyst(t, Print(t, a)); }
    if a.addresses == [] && '/' !in a.hash { AbystPrinted(t, a); }
  }

  /** Every accepted abyst URL survives printing and parsing again. */
  lemma ReprintAbyst(t: IpText, input: string)
    requires Parse(t, input).Ok? && Parse(t, input).url.scheme == ABYST
    ensures Parse(t, Print(t, Parse(t, input).url)) == Parse(t, input)
  {
    AcceptedAbyst(t, input);
    AbystRoundTrip(t, Parse(t, input).url);
  }
}
