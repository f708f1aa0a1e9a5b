/**
 What the messages and calls about one entry must do to an AND instance, said
 in terms of the instance before and after: the entry they leave, the events
 they push and what they send to the peer.
 */
module Handlers {
  import opened Prelude
  import opened Abyss
  import opened PeerEntry
  import opened WorldModel
  import opened NodeModel
  import opened EntryInvariant
  import opened WorldInvariant
  import opened NodeInvariant

  /** The instance with another entry of p in world l, and more events and sends. */
  function With(n: Node, l: Uuid, p: PeerId, e: Option<Entry>, events: seq<Event>, sends: seq<Send>): Node
    requires l in n.worlds
  {
    n.(worlds := n.worlds[l := World(n.worlds[l].id, Put(n.worlds[l].peers, p, e))],
       events := n.events + events, out := n.out + sends)
  }

  function EntryIn(n: Node, l: Uuid, p: PeerId): Option<Entry>
    requires l in n.worlds
  {
    Get(n.worlds[l].peers, p)
  }

  lemma NothingNew(n: Node, l: Uuid, p: PeerId)
    requires l in n.worlds
    ensures With(n, l, p, EntryIn(n, l, p), [], []) == n
  {
    assert n.events + [] == n.events && n.out + [] == n.out;
    assert Put(n.worlds[l].peers, p, EntryIn(n, l, p)) == n.worlds[l].peers;
    assert n.worlds[l := n.worlds[l]] == n.worlds;
  }

  // ---- ending a session ----

  /** What a peer is told when its entry is cleared. */
  function Farewell(l: Uuid, p: PeerId, e: Entry): seq<Send> {
    match e.status
    case DcJt => []
    case DcJni => []
    case Cc => []
    case Jn => [Send(p, MJDN(e.session, CODE_INVALID_STATES))]
    case _ => [Send(p, MRST(l, e.session))]
  }

  /** What the application is told when an entry is cleared. */
  function Ending(l: Uuid, p: PeerId, e: Entry): seq<Event> {
    match e.status
    case Mem => [SessionClose(l, p, e.session)]
    case Jt => [JoinFail(l, CODE_INVALID_STATES)]
    case _ => []
  }

  /** The instance after the entry e of p has been cleared. */
  function Ended(n: Node, l: Uuid, p: PeerId, e: Entry): Node
    requires l in n.worlds
  {
    With(n, l, p, if Disconnected(e.status) then None else Some(IDLE), Ending(l, p, e), Farewell(l, p, e))
  }

  /** The instance after a newer session has taken over the entry e of p. */
  function TakenOver(n: Node, l: Uuid, p: PeerId, e: Entry, session: Uuid, stamp: Time, status: Status): Node
    requires l in n.worlds
  {
    With(n, l, p, Some(Entry(true, session, stamp, status, false, 0)),
         Ending(l, p, e) + (if status.RmemNjni? then [] else [SessionRequest(l, p, session)]), Farewell(l, p, e))
  }

  // ---- from an entry step to the instance ----

  lemma OneStep(n: Node, l: Uuid, p: PeerId, op: Op, o: Outcome)
    requires l in n.worlds && !n.fault && !o.fault
    requires o == Step(n.worlds[l].id, p, EntryIn(n, l, p), op)
    ensures OnWorld(n, l, [On(p, op)]) == With(n, l, p, o.entry, o.events, o.sends)
  {
    DoAllOne(Inside(n, l), On(p, op));
  }

  /** A connected peer has a linked entry; busy or idle, it has the shape the invariant gives it. */
  lemma KnownPeer(n: Node, l: Uuid, p: PeerId)
    requires NodeInv(n) && l in n.worlds && p in n.peers
    ensures n.worlds[l].id.lsid == l && n.worlds[l].id.local == n.local && p != n.local
    ensures p in n.worlds[l].peers && Shape(n.worlds[l].id, p, n.worlds[l].peers[p], true)
    ensures !Disconnected(n.worlds[l].peers[p].status)
  {
    assert Live(n, l, n.peers);
    assert PeerInv(Inside(n, l), n.peers, p);
  }

  lemma JoinedHasNoTarget(n: Node, l: Uuid, p: PeerId)
    requires NodeInv(n) && l in n.worlds && JoinedIn(n.events, l) && p in n.worlds[l].peers
    ensures !Targeted(n.worlds[l].peers[p].status)
  {
    var i :| 0 <= i < |n.events| && n.events[i].JoinSuccess? && n.events[i].lsid == l;
    RequestedMeansJoined(n, l, n.events[i]);
    assert Live(n, l, n.peers);
    assert PeerInv(Inside(n, l), n.peers, p);
  }

  /** Calls and messages for a world that is not there do nothing. */
  lemma UnknownWorldIgnored(n: Node, a: Input)
    requires !a.PeerConnected? && !a.PeerClose? && !a.OpenWorld? && !a.JoinWorld? && a.lsid !in n.worlds
    requires a.Recv? && a.msg.MRST? ==> a.lsid != NIL
    ensures NodeStep(n, a) == n
  {
  }

  // ---- JN ----

  lemma JNStep(w: WorldId, p: PeerId, e: Entry, s: Uuid, t: Time, o: Outcome)
    requires Shape(w, p, e, true) && !Targeted(e.status) && o == Step(w, p, Some(e), RecvJN(s, t))
    ensures !o.fault
    ensures if e.status.Cc? || e.stamp < t then
              o.entry == Some(Entry(true, s, t, Jn, false, 0))
              && o.events == Ending(w.lsid, p, e) + [SessionRequest(w.lsid, p, s)] && o.sends == Farewell(w.lsid, p, e)
            else o == Outcome(Some(e), [], [Send(p, MJDN(s, CODE_DUPLICATE))], false)
  {
  }

  /**
   A JN is taken up by an idle entry and by one with an older session, whose end
   is then announced; any other JN is turned down and changes nothing.
   */
  lemma JNIsAnswered(n: Node, p: PeerId, l: Uuid, s: Uuid, path: string, t: Time, sweep: seq<Uuid>)
    requires NodeInv(n) && l in n.worlds && Admissible(n, Recv(p, l, MJN(s, path, t), sweep))
    ensures p in n.worlds[l].peers
    ensures var e := n.worlds[l].peers[p];
            NodeStep(n, Recv(p, l, MJN(s, path, t), sweep)) ==
            if e.status.Cc? || e.stamp < t then TakenOver(n, l, p, e, s, t, Jn)
            else With(n, l, p, Some(e), [], [Send(p, MJDN(s, CODE_DUPLICATE))])
  {
    KnownPeer(n, l, p);
    JoinedHasNoTarget(n, l, p);
    var o := Step(n.worlds[l].id, p, EntryIn(n, l, p), RecvJN(s, t));
    JNStep(n.worlds[l].id, p, n.worlds[l].peers[p], s, t, o);
    OneStep(n, l, p, RecvJN(s, t), o);
  }

  // ---- MEM ----

  lemma MEMStep(w: WorldId, p: PeerId, e: Entry, s: Uuid, t: Time, o: Outcome)
    requires Shape(w, p, e, true) && !e.status.Jt? && o == Step(w, p, Some(e), RecvMEM(s, t))
    ensures !o.fault
    ensures e.status.Cc? || e.stamp < t ==>
              o.entry == Some(Entry(true, s, t, RmemNjni, false, 0)) && o.events == Ending(w.lsid, p, e) && o.sends == Farewell(w.lsid, p, e)
    ensures !e.status.Cc? && e.stamp >= t ==>
              o.sends == [] &&
              if e.session == s && e.status.Jni? then o.entry == Some(e.(status := Rmem)) && o.events == []
              else if e.session == s && e.status.Tmem? then o.entry == Some(e.(status := Mem)) && o.events == [SessionReady(w.lsid, p, s)]
              else o.entry == Some(e) && o.events == []
  {
  }

  /** A MEM is taken up by an idle or older entry, completes a session that awaits it, and changes nothing otherwise. */
  lemma MEMIsWeighed(n: Node, p: PeerId, l: Uuid, s: Uuid, r: Uuid, t: Time, sweep: seq<Uuid>)
    requires NodeInv(n) && l in n.worlds && p in n.peers
    ensures p in n.worlds[l].peers
    ensures var e := n.worlds[l].peers[p];
            NodeStep(n, Recv(p, l, MMEM(s, r, t), sweep)) ==
            if e.status.Jt? then Ended(n, l, p, e)
            else if e.status.Cc? || e.stamp < t then TakenOver(n, l, p, e, s, t, RmemNjni)
            else if e.session == s && e.status.Jni? then With(n, l, p, Some(e.(status := Rmem)), [], [])
            else if e.session == s && e.status.Tmem? then With(n, l, p, Some(e.(status := Mem)), [SessionReady(l, p, s)], [])
            else n
  {
    KnownPeer(n, l, p);
    var w, e := n.worlds[l].id, n.worlds[l].peers[p];
    var o := Step(w, p, EntryIn(n, l, p), RecvMEM(s, t));
    NothingNew(n, l, p);
    if e.status.Jt? {
      ClearStep(w, p, e, o);
    } else {
      MEMStep(w, p, e, s, t, o);
      assert Ending(l, p, e) + [] == Ending(l, p, e);
    }
    OneStep(n, l, p, RecvMEM(s, t), o);
  }

  // ---- resets ----

  lemma ClearStep(w: WorldId, p: PeerId, e: Entry, o: Outcome)
    requires (e.linked <==> !Disconnected(e.status)) && o == Cleared(w, p, e)
    ensures o == Outcome(if Disconnected(e.status) then None else Some(IDLE), Ending(w.lsid, p, e), Farewell(w.lsid, p, e), false)
  {
  }

  /** RST addressed to one world clears the sender's entry, whatever its state. */
  lemma RSTClears(n: Node, p: PeerId, l: Uuid, s: Uuid, r: Uuid, sweep: seq<Uuid>)
    requires NodeInv(n) && l in n.worlds && l != NIL && p in n.peers
    ensures p in n.worlds[l].peers && NodeStep(n, Recv(p, l, MRST(s, r), sweep)) == Ended(n, l, p, n.worlds[l].peers[p])
  {
    KnownPeer(n, l, p);
    ClearStep(n.worlds[l].id, p, n.worlds[l].peers[p], Cleared(n.worlds[l].id, p, n.worlds[l].peers[p]));
    OneStep(n, l, p, RecvRST, Step(n.worlds[l].id, p, EntryIn(n, l, p), RecvRST));
  }

  /** Declining clears the entry that holds the session, and does nothing else. */
  lemma DeclineClears(n: Node, l: Uuid, p: PeerId, s: Uuid)
    requires NodeInv(n) && l in n.worlds
    ensures NodeStep(n, DeclineSession(l, p, s)) ==
            var e := EntryIn(n, l, p); if e.Some? && e.value.session == s then Ended(n, l, p, e.value) else n
  {
    assert Live(n, l, n.peers);
    assert PeerInv(Inside(n, l), n.peers, p);
    var e := EntryIn(n, l, p);
    NothingNew(n, l, p);
    if e.Some? { ClearStep(n.worlds[l].id, p, e.value, Cleared(n.worlds[l].id, p, e.value)); }
    OneStep(n, l, p, Decline(s), Step(n.worlds[l].id, p, e, Decline(s)));
  }

  /** JDN fails the join of a world that waits for this very peer, with the code it carries, and is ignored otherwise. */
  lemma JDNFailsJoin(n: Node, p: PeerId, l: Uuid, r: Uuid, code: int, sweep: seq<Uuid>)
    requires NodeInv(n) && l in n.worlds && p in n.peers
    ensures p in n.worlds[l].peers
    ensures NodeStep(n, Recv(p, l, MJDN(r, code), sweep)) ==
            if n.worlds[l].peers[p].status.Jt? then With(n, l, p, Some(IDLE), [JoinFail(l, code)], []) else n
  {
    KnownPeer(n, l, p);
    NothingNew(n, l, p);
    OneStep(n, l, p, RecvJDN(code), Step(n.worlds[l].id, p, EntryIn(n, l, p), RecvJDN(code)));
  }

  /** A message that only members may send, from anybody else or in another session. */
  predicate MembersOnly(m: Msg) {
    m.MJNI? || m.MSJN? || m.MCRR?
  }

  lemma VouchStep(w: WorldId, p: PeerId, e: Entry, s: Uuid, o: Outcome)
    requires Shape(w, p, e, true) && o == Step(w, p, Some(e), Vouch(s))
    ensures if e.status.Mem? && e.session == s then o == Outcome(Some(e), [], [], false)
            else o == Outcome(Some(IDLE), Ending(w.lsid, p, e), Farewell(w.lsid, p, e), false)
  {
  }

  /** JNI, SJN and CRR from anybody but the member session end the sender's session and do nothing else. */
  lemma StrangerIsReset(n: Node, p: PeerId, l: Uuid, m: Msg, sweep: seq<Uuid>)
    requires NodeInv(n) && l in n.worlds && p in n.peers && MembersOnly(m) && !IsProper(n.worlds[l].peers, p, m.sender)
    ensures p in n.worlds[l].peers && NodeStep(n, Recv(p, l, m, sweep)) == Ended(n, l, p, n.worlds[l].peers[p])
  {
    KnownPeer(n, l, p);
    var o := Step(n.worlds[l].id, p, EntryIn(n, l, p), Vouch(m.sender));
    VouchStep(n.worlds[l].id, p, n.worlds[l].peers[p], m.sender, o);
    OneStep(n, l, p, Vouch(m.sender), o);
  }

  // ---- accepting ----

  /**
   Accepting a peer that was introduced sends it a MEM; if its own MEM is
   already here the session is ready.  An accept that names another session,
   or an entry that awaits no accept, changes nothing.  (A joiner is
   `Meetings.JoinerIsAnswered`.)
   */
  lemma AcceptCompletes(n: Node, l: Uuid, p: PeerId, s: Uuid, order: seq<PeerId>)
    requires NodeInv(n) && l in n.worlds && Admissible(n, AcceptSession(l, p, s, order))
    requires var e := EntryIn(n, l, p); !(e.Some? && e.value.session == s && e.value.status.Jn?)
    ensures NodeStep(n, AcceptSession(l, p, s, order)) ==
            var e := EntryIn(n, l, p);
            var mem := Send(p, MMEM(l, s, TruncMs(n.worlds[l].id.stamp)));
            if e.Some? && e.value.session == s && e.value.status.Jni? then With(n, l, p, Some(e.value.(status := Tmem)), [], [mem])
            else if e.Some? && e.value.session == s && e.value.status.Rmem? then
              With(n, l, p, Some(e.value.(status := Mem)), [SessionReady(l, p, s)], [mem])
            else n
  {
    assert Live(n, l, n.peers);
    RequestedMeansJoined(n, l, SessionRequest(l, p, s));
    assert PeerInv(Inside(n, l), n.peers, p);
    NothingNew(n, l, p);
    OneStep(n, l, p, Accept(s, []), Step(n.worlds[l].id, p, EntryIn(n, l, p), Accept(s, [])));
  }

  // ---- objects ----

  /** SOA from the member session is reported as an append of exactly these objects; another session is reset. */
  lemma SOAAppends(n: Node, p: PeerId, l: Uuid, s: Uuid, r: Uuid, objects: seq<ObjectId>, sweep: seq<Uuid>)
    requires NodeInv(n) && l in n.worlds && p in n.peers
    ensures p in n.worlds[l].peers
    ensures var e := n.worlds[l].peers[p];
            NodeStep(n, Recv(p, l, MSOA(s, r, objects), sweep)) ==
            if e.session != s then n.(out := n.out + [Send(p, MRST(l, s))])
            else if e.status.Mem? then n.(events := n.events + [ObjectAppend(l, p, s, objects)]) else n
  {
    KnownPeer(n, l, p);
    ObjectsOnly(n, l, p, [ObjectAppend(l, p, s, objects)], [Send(p, MRST(l, s))]);
    OneStep(n, l, p, RecvSOA(s, objects), Step(n.worlds[l].id, p, EntryIn(n, l, p), RecvSOA(s, objects)));
  }

  /** SOD from the member session is reported as a deletion of exactly these objects; another session is reset. */
  lemma SODDeletes(n: Node, p: PeerId, l: Uuid, s: Uuid, r: Uuid, objects: seq<ObjectId>, sweep: seq<Uuid>)
    requires NodeInv(n) && l in n.worlds && p in n.peers
    ensures p in n.worlds[l].peers
    ensures var e := n.worlds[l].peers[p];
            NodeStep(n, Recv(p, l, MSOD(s, r, objects), sweep)) ==
            if e.session != s then n.(out := n.out + [Send(p, MRST(l, s))])
            else if e.status.Mem? then n.(events := n.events + [ObjectDelete(l, p, s, objects)]) else n
  {
    KnownPeer(n, l, p);
    ObjectsOnly(n, l, p, [ObjectDelete(l, p, s, objects)], [Send(p, MRST(l, s))]);
    OneStep(n, l, p, RecvSOD(s, objects), Step(n.worlds[l].id, p, EntryIn(n, l, p), RecvSOD(s, objects)));
  }

  lemma ObjectsOnly(n: Node, l: Uuid, p: PeerId, es: seq<Event>, xs: seq<Send>)
    requires l in n.worlds
    ensures With(n, l, p, EntryIn(n, l, p), es, []) == n.(events := n.events + es)
    ensures With(n, l, p, EntryIn(n, l, p), [], xs) == n.(out := n.out + xs)
    ensures With(n, l, p, EntryIn(n, l, p), [], []) == n
  {
    NothingNew(n, l, p);
    assert n.events + [] == n.events && n.out + [] == n.out;
    assert Put(n.worlds[l].peers, p, EntryIn(n, l, p)) == n.worlds[l].peers;
    assert n.worlds[l := n.worlds[l]] == n.worlds;
  }

  // ---- introductions ----

  /** The entry of a peer that was e, after an introduction. */
  function Acquainted(e: Option<Entry>, m: Member): Entry {
    if e.None? then Entry(false, m.session, m.stamp, DcJni, false, 0)
    else if e.value.status.DcJni? then if e.value.stamp < m.stamp then e.value.(session := m.session, stamp := m.stamp) else e.value
    else if e.value.status.Cc? || e.value.stamp < m.stamp then Entry(true, m.session, m.stamp, Jni, false, 0)
    else if e.value.status.RmemNjni? && e.value.session == m.session then e.value.(status := Rmem)
    else e.value
  }

  /** What the application learns from it. */
  function News(l: Uuid, e: Option<Entry>, m: Member): seq<Event> {
    if e.None? then [PeerRegister(m.peer), ConnectRequest(m.peer)]
    else if e.value.status.DcJni? then []
    else if e.value.status.Cc? || e.value.stamp < m.stamp then Ending(l, m.peer, e.value) + [SessionRequest(l, m.peer, m.session)]
    else if e.value.status.RmemNjni? && e.value.session == m.session then [SessionRequest(l, m.peer, m.session)]
    else []
  }

  /** What being told of a session of another host must do to its entry. */
  function Introduced(n: Node, l: Uuid, m: Member): Node
    requires l in n.worlds
  {
    var e := EntryIn(n, l, m.peer);
    if m.peer == n.local then n
    else With(n, l, m.peer, Some(Acquainted(e, m)), News(l, e, m),
              if e.Some? && e.value.stamp < m.stamp then Farewell(l, m.peer, e.value) else [])
  }

  lemma IntroduceStep(w: WorldId, e: Option<Entry>, m: Member, o: Outcome)
    requires o == Step(w, m.peer, e, Introduce(m.session, m.stamp))
    requires e.Some? ==> !Targeted(e.value.status) && Shape(w, m.peer, e.value, !e.value.status.DcJni?)
    ensures o == Outcome(Some(Acquainted(e, m)), News(w.lsid, e, m),
                         if e.Some? && e.value.stamp < m.stamp then Farewell(w.lsid, m.peer, e.value) else [], false)
  {
  }

  /** JNI from a member introduces the peer it names. */
  lemma JNIIntroduces(n: Node, p: PeerId, l: Uuid, s: Uuid, r: Uuid, m: Member, sweep: seq<Uuid>)
    requires NodeInv(n) && l in n.worlds && p in n.peers && IsProper(n.worlds[l].peers, p, s)
    ensures NodeStep(n, Recv(p, l, MJNI(s, r, m), sweep)) == Introduced(n, l, m)
  {
    VouchedPlan(n, l, p, s, PlanIntroductions(n.worlds[l].id.local, [m]));
    assert Live(n, l, n.peers);
    assert PeerInv(Inside(n, l), n.peers, m.peer);
    OneIntroduction(n.local, m);
    ProperMeansJoined(Inside(n, l), n.peers, p);
    if m.peer != n.local {
      var op := Introduce(m.session, m.stamp);
      var o := Step(n.worlds[l].id, m.peer, EntryIn(n, l, m.peer), op);
      IntroduceStep(n.worlds[l].id, EntryIn(n, l, m.peer), m, o);
      OneStep(n, l, m.peer, op, o);
    } else {
      NoPlan(n, l);
    }
  }

  lemma NoPlan(n: Node, l: Uuid)
    requires l in n.worlds && !n.fault
    ensures OnWorld(n, l, []) == n
  {
    assert n.worlds[l := n.worlds[l]] == n.worlds;
  }

  /** What a member vouched for is carried out in the unchanged world. */
  lemma VouchedPlan(n: Node, l: Uuid, p: PeerId, s: Uuid, rest: seq<Micro>)
    requires l in n.worlds && IsProper(n.worlds[l].peers, p, s)
    ensures OnWorld(n, l, [On(p, Vouch(s))] + rest) == OnWorld(n, l, rest)
  {
    var st := Inside(n, l);
    ProperSenderStays(st, p, s);
    DoAllAppend(st, [On(p, Vouch(s))], rest);
    DoAllOne(st, On(p, Vouch(s)));
  }
}
