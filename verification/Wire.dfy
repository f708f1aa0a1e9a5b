/**
 The AHMP messages on the wire: the TrySend encoders of
 net_service/abyss_peer.go and the TryParse decoders of ahmp/raw_message.go.
 The text form of UUIDs and the CBOR framing belong to libraries: the first is
 a parameter, the second delivers raw records unchanged.
 */
module Wire {
  import opened Prelude
  import opened Abyss
  import A = AurlModel

  type Bytes = seq<int>

  datatype IdText = IdText(show: Uuid -> string, parse: string -> Option<Uuid>)

  /** How ids and IP addresses are written. */
  datatype Codec = Codec(ids: IdText, ips: A.IpText)

  ghost predicate Faithful(c: Codec) {
    A.Faithful(c.ips) && forall u: Uuid :: c.ids.parse(c.ids.show(u)) == Some(u)
  }

  /** A member as JOK and JNI introduce it. */
  datatype Neighbor = Neighbor(url: A.Aurl, session: Uuid, stamp: Time, rootCert: Bytes, handshakeCert: Bytes)

  datatype ObjectInfo = ObjectInfo(id: Uuid, addr: string, transform: seq<real>)

  datatype Message =
    | JN(sender: Uuid, text: string, stamp: Time)
    | JOK(sender: Uuid, recver: Uuid, stamp: Time, text: string, neighbors: seq<Neighbor>)
    | JDN(recver: Uuid, text: string, code: int)
    | JNI(sender: Uuid, recver: Uuid, neighbor: Neighbor)
    | MEM(sender: Uuid, recver: Uuid, stamp: Time)
    | SJN(sender: Uuid, recver: Uuid, infos: seq<SessionRef>)
    | CRR(sender: Uuid, recver: Uuid, infos: seq<SessionRef>)
    | RST(sender: Uuid, recver: Uuid, text: string)
    | SOA(sender: Uuid, recver: Uuid, objects: seq<ObjectInfo>)
    | SOD(sender: Uuid, recver: Uuid, ids: seq<Uuid>)

  datatype RawNeighbor = RawNeighbor(url: string, session: string, millis: int, rootCert: Bytes, handshakeCert: Bytes)

  datatype RawInfo = RawInfo(peer: string, session: string)

  datatype RawObject = RawObject(id: string, addr: string, transform: seq<real>)

  datatype Raw =
    | RawJN(sender: string, text: string, millis: int)
    | RawJOK(sender: string, recver: string, millis: int, text: string, neighbors: seq<RawNeighbor>)
    | RawJDN(recver: string, code: int, text: string)
    | RawJNI(sender: string, recver: string, neighbor: RawNeighbor)
    | RawMEM(sender: string, recver: string, millis: int)
    | RawSJN(sender: string, recver: string, infos: seq<RawInfo>)
    | RawCRR(sender: string, recver: string, infos: seq<RawInfo>)
    | RawRST(sender: string, recver: string, text: string)
    | RawSOA(sender: string, recver: string, objects: seq<RawObject>)
    | RawSOD(sender: string, recver: string, ids: seq<string>)

  function UnixMilli(t: Time): int { t / MILLISECOND }

  function FromMilli(ms: int): Time { ms * MILLISECOND }

  function Map<S, T>(f: S -> T, items: seq<S>): seq<T> {
    seq(|items|, i requires 0 <= i < |items| => f(items[i]))
  }

  /** Filter_strict_ok and Filter_until_err as their callers use them: all values, or none. */
  function Every<S, T>(f: S -> Option<T>, items: seq<S>): (r: Option<seq<T>>)
    ensures r.Some? <==> forall i :: 0 <= i < |items| ==> f(items[i]).Some?
    ensures r.Some? ==> |r.value| == |items| && forall i :: 0 <= i < |items| ==> f(items[i]) == Some(r.value[i])
  {
    if items == [] then Some([])
    else
      var n := |items| - 1;
      var front, last := Every(f, items[..n]), f(items[n]);
      assert forall i :: 0 <= i < n ==> items[..n][i] == items[i];
      if front.Some? && last.Some? then Some(front.value + [last.value]) else None
  }

  // ---- encoding ----

  function EncodeNeighbor(c: Codec, n: Neighbor): RawNeighbor {
    RawNeighbor(A.Print(c.ips, n.url), c.ids.show(n.session), UnixMilli(n.stamp), n.rootCert, n.handshakeCert)
  }

  function EncodeInfo(c: Codec, r: SessionRef): RawInfo {
    RawInfo(r.peer, c.ids.show(r.session))
  }

  function EncodeObject(c: Codec, o: ObjectInfo): RawObject {
    RawObject(c.ids.show(o.id), o.addr, o.transform)
  }

  function NeighborWriter(c: Codec): Neighbor -> RawNeighbor { (n: Neighbor) => EncodeNeighbor(c, n) }

  function InfoWriter(c: Codec): SessionRef -> RawInfo { (i: SessionRef) => EncodeInfo(c, i) }

  function ObjectWriter(c: Codec): ObjectInfo -> RawObject { (o: ObjectInfo) => EncodeObject(c, o) }

  function Encode(c: Codec, m: Message): Raw {
    var show := c.ids.show;
    match m
    case JN(s, text, stamp) => RawJN(show(s), text, UnixMilli(stamp))
    case JOK(s, r, stamp, text, ns) =>
      RawJOK(show(s), show(r), UnixMilli(stamp), text, Map(NeighborWriter(c), ns))
    case JDN(r, text, code) => RawJDN(show(r), code, text)
    case JNI(s, r, n) => RawJNI(show(s), show(r), EncodeNeighbor(c, n))
    case MEM(s, r, stamp) => RawMEM(show(s), show(r), UnixMilli(stamp))
    case SJN(s, r, infos) => RawSJN(show(s), show(r), Map(InfoWriter(c), infos))
    case CRR(s, r, infos) => RawCRR(show(s), show(r), Map(InfoWriter(c), infos))
    case RST(s, r, text) => RawRST(show(s), show(r), text)
    case SOA(s, r, objects) => RawSOA(show(s), show(r), Map(ObjectWriter(c), objects))
    case SOD(s, r, ids) => RawSOD(show(s), show(r), Map(show, ids))
  }

  // ---- decoding ----

  function DecodeNeighbor(c: Codec, n: RawNeighbor): Option<Neighbor> {
    var url, session := A.Parse(c.ips, n.url), c.ids.parse(n.session);
    if url.Ok? && session.Some? then
      Some(Neighbor(url.url, session.value, FromMilli(n.millis), n.rootCert, n.handshakeCert))
    else None
  }

  function DecodeInfo(c: Codec, i: RawInfo): Option<SessionRef> {
    var session := c.ids.parse(i.session);
    if session.Some? then Some(SessionRef(i.peer, session.value)) else None
  }

  function DecodeObject(c: Codec, o: RawObject): Option<ObjectInfo> {
    var id := c.ids.parse(o.id);
    if id.Some? then Some(ObjectInfo(id.value, o.addr, o.transform)) else None
  }

  function NeighborReader(c: Codec): RawNeighbor -> Option<Neighbor> { (n: RawNeighbor) => DecodeNeighbor(c, n) }

  function InfoReader(c: Codec): RawInfo -> Option<SessionRef> { (i: RawInfo) => DecodeInfo(c, i) }

  function ObjectReader(c: Codec): RawObject -> Option<ObjectInfo> { (o: RawObject) => DecodeObject(c, o) }

  function Decode(c: Codec, raw: Raw): Option<Message> {
    match raw
    case RawJN(sender, text, millis) =>
      var s := c.ids.parse(sender);
      if s.Some? then Some(JN(s.value, text, FromMilli(millis))) else None
    case RawJDN(recver, code, text) =>
      var r := c.ids.parse(recver);
      if r.Some? then Some(JDN(r.value, text, code)) else None
    case _ =>
      var s, r := c.ids.parse(raw.sender), c.ids.parse(raw.recver);
      if s.Some? && r.Some? then DecodeBody(c, s.value, r.value, raw) else None
  }

  function DecodeBody(c: Codec, s: Uuid, r: Uuid, raw: Raw): Option<Message>
    requires !raw.RawJN? && !raw.RawJDN?
  {
    match raw
    case RawJOK(_, _, millis, text, neighbors) =>
      var ns := Every(NeighborReader(c), neighbors);
      if ns.Some? then Some(JOK(s, r, FromMilli(millis), text, ns.value)) else None
    case RawJNI(_, _, neighbor) =>
      var n := DecodeNeighbor(c, neighbor);
      if n.Some? then Some(JNI(s, r, n.value)) else None
    case RawMEM(_, _, millis) => Some(MEM(s, r, FromMilli(millis)))
    case RawSJN(_, _, infos) =>
      var rs := Every(InfoReader(c), infos);
      if rs.Some? then Some(SJN(s, r, rs.value)) else None
    case RawCRR(_, _, infos) =>
      var rs := Every(InfoReader(c), infos);
      if rs.Some? then Some(CRR(s, r, rs.value)) else None
    case RawRST(_, _, text) => Some(RST(s, r, text))
    case RawSOA(_, _, objects) =>
      var os := Every(ObjectReader(c), objects);
      if os.Some? then Some(SOA(s, r, os.value)) else None
    case RawSOD(_, _, ids) =>
      var os := Every(c.ids.parse, ids);
      if os.Some? then Some(SOD(s, r, os.value)) else None
  }

  // ---- decoding undoes encoding, up to milliseconds ----

  function CutNeighbor(n: Neighbor): Neighbor {
    n.(stamp := TruncMs(n.stamp))
  }

  function Cut(m: Message): Message {
    match m
    case JN(s, text, stamp) => JN(s, text, TruncMs(stamp))
    case JOK(s, r, stamp, text, ns) => JOK(s, r, TruncMs(stamp), text, Map(CutNeighbor, ns))
    case JNI(s, r, n) => JNI(s, r, CutNeighbor(n))
    case MEM(s, r, stamp) => MEM(s, r, TruncMs(stamp))
    case _ => m
  }

  /** The URL of a connected peer, AbyssPeer.AURL. */
  predicate PeerUrl(u: A.Aurl) {
    u.scheme == A.ABYSS && A.PeerIdOk(u.hash) && u.path == "/"
  }

  /** The neighbours that TrySendJOK and TrySendJNI write are connected peers. */
  predicate Sendable(m: Message) {
    && (m.JOK? ==> forall i :: 0 <= i < |m.neighbors| ==> PeerUrl(m.neighbors[i].url))
    && (m.JNI? ==> PeerUrl(m.neighbor.url))
  }

  lemma NeighborRoundTrip(c: Codec, n: Neighbor)
    requires Faithful(c) && PeerUrl(n.url)
    ensures DecodeNeighbor(c, EncodeNeighbor(c, n)) == Some(CutNeighbor(n))
  {
    A.ParseUndoesPrint(c.ips, n.url);
  }

  lemma EveryUndoesMap<S, T>(f: S -> T, g: T -> Option<S>, h: S -> S, items: seq<S>)
    requires forall i :: 0 <= i < |items| ==> g(f(items[i])) == Some(h(items[i]))
    ensures Every(g, Map(f, items)) == Some(Map(h, items))
  {
    var r := Every(g, Map(f, items));
    assert forall i :: 0 <= i < |items| ==> Map(f, items)[i] == f(items[i]);
    assert r.Some?;
    assert r.value == Map(h, items);
  }

  lemma EveryUndoes<S, T>(f: S -> T, g: T -> Option<S>, items: seq<S>)
    requires forall i :: 0 <= i < |items| ==> g(f(items[i])) == Some(items[i])
    ensures Every(g, Map(f, items)) == Some(items)
  {
    var r := Every(g, Map(f, items));
    assert forall i :: 0 <= i < |items| ==> Map(f, items)[i] == f(items[i]);
    assert r.Some?;
    assert r.value == items;
  }

  lemma NeighborsRoundTrip(c: Codec, ns: seq<Neighbor>)
    requires Faithful(c) && forall i :: 0 <= i < |ns| ==> PeerUrl(ns[i].url)
    ensures Every(NeighborReader(c), Map(NeighborWriter(c), ns))
         == Some(Map(CutNeighbor, ns))
  {
    forall i | 0 <= i < |ns| ensures DecodeNeighbor(c, EncodeNeighbor(c, ns[i])) == Some(CutNeighbor(ns[i])) {
      NeighborRoundTrip(c, ns[i]);
    }
    EveryUndoesMap(NeighborWriter(c), NeighborReader(c), CutNeighbor, ns);
  }

  lemma InfosRoundTrip(c: Codec, infos: seq<SessionRef>)
    requires Faithful(c)
    ensures Every(InfoReader(c), Map(InfoWriter(c), infos)) == Some(infos)
  {
    EveryUndoes(InfoWriter(c), InfoReader(c), infos);
  }

  lemma ObjectsRoundTrip(c: Codec, objects: seq<ObjectInfo>)
    requires Faithful(c)
    ensures Every(ObjectReader(c), Map(ObjectWriter(c), objects)) == Some(objects)
  {
    EveryUndoes(ObjectWriter(c), ObjectReader(c), objects);
  }

  lemma IdsRoundTrip(c: Codec, ids: seq<Uuid>)
    requires Faithful(c)
    ensures Every(c.ids.parse, Map(c.ids.show, ids)) == Some(ids)
  {
    EveryUndoes(c.ids.show, c.ids.parse, ids);
  }

  /** What arrives is what was sent, with every time stamp cut to milliseconds. */
  lemma DecodeUndoesEncode(c: Codec, m: Message)
    requires Faithful(c) && Sendable(m)
    ensures Decode(c, Encode(c, m)) == Some(Cut(m))
  {
    match m
    case JOK(_, _, _, _, ns) => NeighborsRoundTrip(c, ns);
    case JNI(_, _, n) => NeighborRoundTrip(c, n);
    case SJN(_, _, infos) => InfosRoundTrip(c, infos);
    case CRR(_, _, infos) => InfosRoundTrip(c, infos);
    case SOA(_, _, objects) => ObjectsRoundTrip(c, objects);
    case SOD(_, _, ids) => IdsRoundTrip(c, ids);
    case _ =>
  }

  /** A JOK is read only if every neighbour is: one unreadable record loses the whole message. */
  lemma JokAllOrNothing(c: Codec, raw: Raw)
    requires raw.RawJOK?
    ensures Decode(c, raw).Some? <==>
            c.ids.parse(raw.sender).Some? && c.ids.parse(raw.recver).Some? &&
            forall i :: 0 <= i < |raw.neighbors| ==> A.Parse(c.ips, raw.neighbors[i].url).Ok? && c.ids.parse(raw.neighbors[i].session).Some?
  {
    var f := NeighborReader(c);
    assert forall i :: 0 <= i < |raw.neighbors| ==>
      (f(raw.neighbors[i]).Some? <==> A.Parse(c.ips, raw.neighbors[i].url).Ok? && c.ids.parse(raw.neighbors[i].session).Some?);
  }

  // ---- the messages of the protocol model ----

  /** What AND reads of a message: a member is its identity hash, session and stamp. */
  function Seen(m: Message): Msg {
    match m
    case JN(s, text, stamp) => MJN(s, text, stamp)
    case JOK(s, r, stamp, text, ns) => MJOK(s, r, stamp, text, Map(SeenMember, ns))
    case JDN(r, _, code) => MJDN(r, code)
    case JNI(s, r, n) => MJNI(s, r, SeenMember(n))
    case MEM(s, r, stamp) => MMEM(s, r, stamp)
    case SJN(s, r, infos) => MSJN(s, r, infos)
    case CRR(s, r, infos) => MCRR(s, r, infos)
    case RST(s, r, _) => MRST(s, r)
    case SOA(s, r, objects) => MSOA(s, r, Map((o: ObjectInfo) => o.id, objects))
    case SOD(s, r, ids) => MSOD(s, r, ids)
  }

  function SeenMember(n: Neighbor): Member {
    Member(n.url.hash, n.session, n.stamp)
  }

  function CutMember(m: Member): Member {
    m.(stamp := TruncMs(m.stamp))
  }

  function CutMsg(m: Msg): Msg {
    match m
    case MJN(s, path, stamp) => MJN(s, path, TruncMs(stamp))
    case MJOK(s, r, stamp, url, ms) => MJOK(s, r, TruncMs(stamp), url, Map(CutMember, ms))
    case MJNI(s, r, member) => MJNI(s, r, CutMember(member))
    case MMEM(s, r, stamp) => MMEM(s, r, TruncMs(stamp))
    case _ => m
  }

  lemma SeenCut(m: Message)
    ensures Seen(Cut(m)) == CutMsg(Seen(m))
  {
    if m.JOK? {
      assert Map(SeenMember, Map(CutNeighbor, m.neighbors)) == Map(CutMember, Map(SeenMember, m.neighbors));
    }
  }

  /** The protocol model may treat a send as a delivery with truncated stamps. */
  lemma DeliveryMatchesModel(c: Codec, m: Message)
    requires Faithful(c) && Sendable(m)
    ensures Decode(c, Encode(c, m)).Some? && Seen(Decode(c, Encode(c, m)).value) == CutMsg(Seen(m))
  {
    DecodeUndoesEncode(c, m);
    SeenCut(m);
  }
}
