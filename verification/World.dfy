/**
 One world of and/world.go as a function of its inputs: every handler is a
 short plan of entry steps and events, carried out one after the other.
 */
module WorldModel {
  import opened Prelude
  import opened Abyss
  import opened PeerEntry

  type Peers = map<PeerId, Entry>

  /** A world, the event channel and the outgoing messages of its AND instance. */
  datatype State = State(id: WorldId, peers: Peers, events: seq<Event>, out: seq<Send>, fault: bool)

  datatype Micro = On(peer: PeerId, op: Op) | Emit(event: Event)

  function Get(peers: Peers, p: PeerId): Option<Entry> {
    if p in peers then Some(peers[p]) else None
  }

  function Put(peers: Peers, p: PeerId, e: Option<Entry>): Peers {
    if e.Some? then peers[p := e.value] else peers - {p}
  }

  function Do(st: State, m: Micro): State {
    match m
    case Emit(event) => st.(events := st.events + [event])
    case On(p, op) =>
      var o := Step(st.id, p, Get(st.peers, p), op);
      State(st.id, Put(st.peers, p, o.entry), st.events + o.events, st.out + o.sends, st.fault || o.fault)
  }

  function DoAll(st: State, ms: seq<Micro>): State
    decreases |ms|
  {
    if ms == [] then st else Do(DoAll(st, ms[..|ms| - 1]), ms[|ms| - 1])
  }

  // ---- handlers ----

  predicate IsMember(peers: Peers, p: PeerId) {
    p in peers && peers[p].status.Mem?
  }

  predicate IsProper(peers: Peers, p: PeerId, session: Uuid) {
    IsMember(peers, p) && peers[p].session == session
  }

  function MembersIn(peers: Peers, order: seq<PeerId>): (r: seq<PeerId>)
    ensures forall q :: q in r <==> q in order && IsMember(peers, q)
  {
    if order == [] then []
    else
      var rest := MembersIn(peers, order[..|order| - 1]);
      if IsMember(peers, order[|order| - 1]) then rest + [order[|order| - 1]] else rest
  }

  /** Peers that TimerExpire lists: members for at least a second, not suppressed, counted at most three times. */
  predicate Listable(peers: Peers, q: PeerId, now: Time) {
    IsMember(peers, q) && now - peers[q].stamp >= SECOND && !peers[q].sjnp && peers[q].sjnc <= 3
  }

  function ListableIn(peers: Peers, order: seq<PeerId>, now: Time): (r: seq<PeerId>)
    ensures forall q :: q in r <==> q in order && Listable(peers, q, now)
  {
    if order == [] then []
    else
      var rest := ListableIn(peers, order[..|order| - 1], now);
      if Listable(peers, order[|order| - 1], now) then rest + [order[|order| - 1]] else rest
  }

  function PlanIntroductions(local: PeerId, members: seq<Member>): seq<Micro> {
    if members == [] then []
    else
      var m := members[|members| - 1];
      PlanIntroductions(local, members[..|members| - 1]) +
      (if m.peer == local then [] else [On(m.peer, Introduce(m.session, m.stamp))])
  }

  function PlanJOK(id: WorldId, peers: Peers, p: PeerId, session: Uuid, stamp: Time, url: string, members: seq<Member>): seq<Micro> {
    [On(p, RecvJOK(session, stamp, url))] +
    (if id.joinHash == p && p in peers && peers[p].status.Jt? then PlanIntroductions(id.local, members) else [])
  }

  function PlanJNI(id: WorldId, peers: Peers, p: PeerId, session: Uuid, member: Member): seq<Micro> {
    [On(p, Vouch(session))] + (if IsProper(peers, p, session) then PlanIntroductions(id.local, [member]) else [])
  }

  function PlanGossip(id: WorldId, origin: SessionRef, refs: seq<SessionRef>): seq<Micro> {
    if refs == [] then []
    else
      var r := refs[|refs| - 1];
      PlanGossip(id, origin, refs[..|refs| - 1]) +
      (if r.peer == id.local then [] else [On(r.peer, Gossip(origin, r.session))])
  }

  function PlanSJN(id: WorldId, peers: Peers, p: PeerId, session: Uuid, refs: seq<SessionRef>): seq<Micro> {
    [On(p, Vouch(session))] + (if IsProper(peers, p, session) then PlanGossip(id, SessionRef(p, session), refs) else [])
  }

  function PlanRelay(id: WorldId, origin: Member, refs: seq<SessionRef>): seq<Micro> {
    if refs == [] then []
    else
      var r := refs[|refs| - 1];
      PlanRelay(id, origin, refs[..|refs| - 1]) +
      (if r.peer == id.local then [] else [On(r.peer, Relay(origin, r.session))])
  }

  function PlanCRR(id: WorldId, peers: Peers, p: PeerId, session: Uuid, refs: seq<SessionRef>): seq<Micro> {
    [On(p, Vouch(session))] +
    (if IsProper(peers, p, session) then PlanRelay(id, MemberOf(p, peers[p]), refs) else [])
  }

  function MemberList(peers: Peers, qs: seq<PeerId>): (r: seq<Member>)
    requires forall q :: q in qs ==> q in peers
    ensures |r| == |qs| && forall i :: 0 <= i < |qs| ==> r[i] == MemberOf(qs[i], peers[qs[i]])
  {
    if qs == [] then [] else MemberList(peers, qs[..|qs| - 1]) + [MemberOf(qs[|qs| - 1], peers[qs[|qs| - 1]])]
  }

  function PlanFanOut(id: WorldId, peers: Peers, qs: seq<PeerId>, joiner: Member): (r: seq<Micro>)
    requires forall q :: q in qs ==> q in peers
    ensures |r| == |qs|
    ensures forall i :: 0 <= i < |qs| ==> r[i] == On(qs[i], Tell(MJNI(id.lsid, peers[qs[i]].session, joiner)))
  {
    if qs == [] then []
    else PlanFanOut(id, peers, qs[..|qs| - 1], joiner) +
         [On(qs[|qs| - 1], Tell(MJNI(id.lsid, peers[qs[|qs| - 1]].session, joiner)))]
  }

  function PlanAccept(id: WorldId, peers: Peers, p: PeerId, session: Uuid, order: seq<PeerId>): seq<Micro> {
    if p in peers && peers[p].status.Jn? && peers[p].session == session then
      var ms := MembersIn(peers, order);
      PlanFanOut(id, peers, ms, MemberOf(p, peers[p])) + [On(p, Accept(session, MemberList(peers, ms)))]
    else [On(p, Accept(session, []))]
  }

  function RefList(peers: Peers, qs: seq<PeerId>): (r: seq<SessionRef>)
    requires forall q :: q in qs ==> q in peers
    ensures |r| == |qs| && forall i :: 0 <= i < |qs| ==> r[i] == SessionRef(qs[i], peers[qs[i]].session)
  {
    if qs == [] then [] else RefList(peers, qs[..|qs| - 1]) + [SessionRef(qs[|qs| - 1], peers[qs[|qs| - 1]].session)]
  }

  function PlanCount(qs: seq<PeerId>): (r: seq<Micro>)
    ensures |r| == |qs| && forall i :: 0 <= i < |qs| ==> r[i] == On(qs[i], Count)
  {
    if qs == [] then [] else PlanCount(qs[..|qs| - 1]) + [On(qs[|qs| - 1], Count)]
  }

  function PlanSpread(id: WorldId, peers: Peers, qs: seq<PeerId>, refs: seq<SessionRef>): (r: seq<Micro>)
    requires forall q :: q in qs ==> q in peers
    ensures |r| == |qs|
    ensures forall i :: 0 <= i < |qs| ==> r[i] == On(qs[i], Tell(MSJN(id.lsid, peers[qs[i]].session, refs)))
  {
    if qs == [] then []
    else PlanSpread(id, peers, qs[..|qs| - 1], refs) +
         [On(qs[|qs| - 1], Tell(MSJN(id.lsid, peers[qs[|qs| - 1]].session, refs)))]
  }

  /** 300 ms and a random share of another 300 ms for each member and for itself. */
  function Delay(seed: nat, members: nat): (ms: int)
    ensures 300 <= ms < 300 + 300 * (members + 1)
  {
    300 + seed % (300 * (members + 1))
  }

  /** `order` and `order2` are the iteration orders of the two loops; `seed` feeds the random number. */
  function PlanTimer(id: WorldId, peers: Peers, now: Time, order: seq<PeerId>, order2: seq<PeerId>, seed: nat): seq<Micro> {
    var listed := ListableIn(peers, order, now);
    var members := MembersIn(peers, order2);
    PlanCount(listed) +
    (if listed == [] then [] else PlanSpread(id, peers, members, RefList(peers, listed))) +
    [Emit(TimerRequest(id.lsid, Delay(seed, |members|)))]
  }

  function PlanShut(order: seq<PeerId>): (r: seq<Micro>)
    ensures |r| == |order| && forall i :: 0 <= i < |order| ==> r[i] == On(order[i], Shut)
  {
    if order == [] then [] else PlanShut(order[..|order| - 1]) + [On(order[|order| - 1], Shut)]
  }

  function PlanClose(id: WorldId, order: seq<PeerId>): seq<Micro> {
    PlanShut(order) + [Emit(WorldLeave(id.lsid))]
  }

  /** Dispatch of a decoded message to the world it is addressed to. */
  function PlanRecv(id: WorldId, peers: Peers, p: PeerId, m: Msg): seq<Micro> {
    match m
    case MJN(s, _, t) => [On(p, RecvJN(s, t))]
    case MJOK(s, _, t, url, members) => PlanJOK(id, peers, p, s, t, url, members)
    case MJDN(_, code) => [On(p, RecvJDN(code))]
    case MJNI(s, _, member) => PlanJNI(id, peers, p, s, member)
    case MMEM(s, _, t) => [On(p, RecvMEM(s, t))]
    case MSJN(s, _, refs) => PlanSJN(id, peers, p, s, refs)
    case MCRR(s, _, refs) => PlanCRR(id, peers, p, s, refs)
    case MRST(_, _) => [On(p, RecvRST)]
    case MSOA(s, _, objects) => [On(p, RecvSOA(s, objects))]
    case MSOD(s, _, objects) => [On(p, RecvSOD(s, objects))]
  }

  // ---- creation ----

  function Strangers(connected: set<PeerId>): Peers {
    map p | p in connected :: IDLE
  }

  function Opened(id: WorldId, connected: set<PeerId>, events: seq<Event>, out: seq<Send>): State {
    State(id, Strangers(connected), events + [JoinSuccess(id.lsid, id.url), TimerRequest(id.lsid, 500)], out, false)
  }

  function Joining(id: WorldId, connected: set<PeerId>, events: seq<Event>, out: seq<Send>): State {
    var peers := Strangers(connected);
    if id.joinHash in connected then
      State(id, peers[id.joinHash := IDLE.(status := Jt)], events,
            out + [Send(id.joinHash, MJN(id.lsid, id.joinPath, TruncMs(id.stamp)))], false)
    else
      State(id, peers[id.joinHash := Entry(false, NIL, ZERO_TIME, DcJt, false, 0)],
            events + [ConnectRequest(id.joinHash)], out, false)
  }

  // ---- composition ----

  lemma {:induction false} DoAllAppend(st: State, ms: seq<Micro>, ns: seq<Micro>)
    ensures DoAll(st, ms + ns) == DoAll(DoAll(st, ms), ns)
    decreases |ns|
  {
    if ns == [] {
      assert ms + ns == ms;
    } else {
      var k := |ns| - 1;
      assert (ms + ns)[..|ms + ns| - 1] == ms + ns[..k];
      DoAllAppend(st, ms, ns[..k]);
    }
  }

  lemma DoAllOne(st: State, m: Micro)
    ensures DoAll(st, [m]) == Do(st, m)
  {
    assert DoAll(st, [m][..0]) == st;
  }

  lemma {:induction false} DoAllKeepsId(st: State, ms: seq<Micro>)
    ensures DoAll(st, ms).id == st.id
    decreases |ms|
  {
    if ms != [] { DoAllKeepsId(st, ms[..|ms| - 1]); }
  }

  lemma {:induction false} FaultMonotone(st: State, ms: seq<Micro>)
    ensures st.fault ==> DoAll(st, ms).fault
    decreases |ms|
  {
    if ms != [] { FaultMonotone(st, ms[..|ms| - 1]); }
  }

  lemma OneIntroduction(local: PeerId, m: Member)
    ensures PlanIntroductions(local, [m]) == if m.peer == local then [] else [On(m.peer, Introduce(m.session, m.stamp))]
  {
    assert [m][..0] == [];
    assert PlanIntroductions(local, [m]) ==
           PlanIntroductions(local, [m][..0]) + (if m.peer == local then [] else [On(m.peer, Introduce(m.session, m.stamp))]);
  }
}
