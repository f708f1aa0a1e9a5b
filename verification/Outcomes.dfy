/** Closed forms of the plans that touch many entries at once. */
module Outcomes {
  import opened Prelude
  import opened Abyss
  import opened PeerEntry
  import opened WorldModel

  // ---- plans that only send ----

  predicate AllTell(ms: seq<Micro>) {
    forall i :: 0 <= i < |ms| ==> ms[i].On? && ms[i].op.Tell?
  }

  function Told(ms: seq<Micro>): (r: seq<Send>)
    requires AllTell(ms)
    ensures |r| == |ms| && forall i :: 0 <= i < |ms| ==> r[i] == Send(ms[i].peer, ms[i].op.msg)
  {
    if ms == [] then [] else Told(ms[..|ms| - 1]) + [Send(ms[|ms| - 1].peer, ms[|ms| - 1].op.msg)]
  }

  lemma TellOne(st: State, p: PeerId, msg: Msg)
    ensures Do(st, On(p, Tell(msg))) == st.(out := st.out + [Send(p, msg)])
  {
    assert Put(st.peers, p, Get(st.peers, p)) == st.peers;
    assert st.events + [] == st.events;
  }

  lemma {:induction false} TellOnlySends(st: State, ms: seq<Micro>)
    requires AllTell(ms)
    ensures DoAll(st, ms) == st.(out := st.out + Told(ms))
    decreases |ms|
  {
    if ms != [] {
      var init, m := ms[..|ms| - 1], ms[|ms| - 1];
      TellOnlySends(st, init);
      assert Told(ms)[..|init|] == Told(init);
      TellOne(st.(out := st.out + Told(init)), m.peer, m.op.msg);
      Associate(st.out, Told(init), [Send(m.peer, m.op.msg)]);
    } else {
      assert st.out + Told(ms) == st.out;
    }
  }

  lemma {:induction false} MembersDistinct(peers: Peers, order: seq<PeerId>)
    requires forall i, j :: 0 <= i < j < |order| ==> order[i] != order[j]
    ensures forall i, j :: 0 <= i < j < |MembersIn(peers, order)| ==> MembersIn(peers, order)[i] != MembersIn(peers, order)[j]
    decreases |order|
  {
    if order != [] {
      var init, q := order[..|order| - 1], order[|order| - 1];
      MembersDistinct(peers, init);
      assert q !in init;
      assert q !in MembersIn(peers, init);
    }
  }

  lemma {:induction false} ListedDistinct(peers: Peers, order: seq<PeerId>, now: Time)
    requires forall i, j :: 0 <= i < j < |order| ==> order[i] != order[j]
    ensures forall i, j :: 0 <= i < j < |ListableIn(peers, order, now)| ==> ListableIn(peers, order, now)[i] != ListableIn(peers, order, now)[j]
    decreases |order|
  {
    if order != [] {
      var init, q := order[..|order| - 1], order[|order| - 1];
      ListedDistinct(peers, init, now);
      assert q !in init;
      assert q !in ListableIn(peers, init, now);
    }
  }

  // ---- accepting a joiner ----

  function JokFor(id: WorldId, p: PeerId, session: Uuid, members: seq<Member>): Send {
    Send(p, MJOK(id.lsid, session, TruncMs(id.stamp), id.url, members))
  }

  lemma AcceptOutcome(st: State, p: PeerId, session: Uuid, ms: seq<PeerId>)
    requires p in st.peers && st.peers[p].status.Jn? && st.peers[p].session == session
    requires forall q :: q in ms ==> q in st.peers
    ensures var fan := PlanFanOut(st.id, st.peers, ms, MemberOf(p, st.peers[p]));
            DoAll(st, fan + [On(p, Accept(session, MemberList(st.peers, ms)))])
            == st.(peers := st.peers[p := st.peers[p].(status := Tmem)],
                   out := st.out + (Told(fan) + [JokFor(st.id, p, session, MemberList(st.peers, ms))]))
  {
    var fan := PlanFanOut(st.id, st.peers, ms, MemberOf(p, st.peers[p]));
    var list := MemberList(st.peers, ms);
    TellOnlySends(st, fan);
    DoAllAppend(st, fan, [On(p, Accept(session, list))]);
    AcceptLast(st.(out := st.out + Told(fan)), p, session, list);
    Associate(st.out, Told(fan), [JokFor(st.id, p, session, list)]);
  }

  lemma AcceptEntry(w: WorldId, p: PeerId, e: Entry, list: seq<Member>)
    requires e.status.Jn?
    ensures Step(w, p, Some(e), Accept(e.session, list))
         == Outcome(Some(e.(status := Tmem)), [], [JokFor(w, p, e.session, list)], false)
  {
  }

  lemma AcceptLast(st: State, p: PeerId, session: Uuid, list: seq<Member>)
    requires p in st.peers && st.peers[p].status.Jn? && st.peers[p].session == session
    ensures DoAll(st, [On(p, Accept(session, list))])
         == st.(peers := st.peers[p := st.peers[p].(status := Tmem)], out := st.out + [JokFor(st.id, p, session, list)])
  {
    DoAllOne(st, On(p, Accept(session, list)));
    AcceptEntry(st.id, p, st.peers[p], list);
    assert st.events + [] == st.events;
  }

  // ---- the SJN timer ----

  /** The peer map after each listed peer has been counted once. */
  function Bumped(peers: Peers, qs: seq<PeerId>): Peers {
    map q | q in peers :: if q in qs then peers[q].(sjnc := peers[q].sjnc + 1) else peers[q]
  }

  lemma BumpOne(st: State, peers: Peers, qs: seq<PeerId>, q: PeerId)
    requires st.peers == Bumped(peers, qs) && q in peers && q !in qs
    ensures Do(st, On(q, Count)) == st.(peers := Bumped(peers, qs + [q]))
  {
    assert st.events + [] == st.events && st.out + [] == st.out;
    assert Do(st, On(q, Count)).peers == Bumped(peers, qs + [q]);
  }

  lemma {:induction false} CountAll(st: State, qs: seq<PeerId>)
    requires forall i :: 0 <= i < |qs| ==> qs[i] in st.peers
    requires forall i, j :: 0 <= i < j < |qs| ==> qs[i] != qs[j]
    ensures DoAll(st, PlanCount(qs)) == st.(peers := Bumped(st.peers, qs))
    decreases |qs|
  {
    if qs != [] {
      var init, q := qs[..|qs| - 1], qs[|qs| - 1];
      CountAll(st, init);
      assert PlanCount(qs)[..|init|] == PlanCount(init);
      assert q !in init && qs == init + [q];
      BumpOne(st.(peers := Bumped(st.peers, init)), st.peers, init, q);
    } else {
      assert Bumped(st.peers, []) == st.peers;
    }
  }

  /** The SJN messages of one tick. */
  function SjnSends(id: WorldId, peers: Peers, members: seq<PeerId>, listed: seq<PeerId>): (r: seq<Send>)
    requires forall q :: q in listed ==> q in peers
    requires forall q :: q in members ==> q in peers
    ensures |r| == if listed == [] then 0 else |members|
    ensures listed != [] ==> forall i :: 0 <= i < |members| ==>
              r[i] == Send(members[i], MSJN(id.lsid, peers[members[i]].session, RefList(peers, listed)))
  {
    if listed == [] then [] else Told(PlanSpread(id, peers, members, RefList(peers, listed)))
  }

  /** A world in which the listed peers have been counted and the SJN messages sent. */
  function TickDone(st: State, listed: seq<PeerId>, members: seq<PeerId>, ms: int): State
    requires forall q :: q in listed ==> q in st.peers
    requires forall q :: q in members ==> q in st.peers
  {
    st.(peers := Bumped(st.peers, listed), out := st.out + SjnSends(st.id, st.peers, members, listed),
        events := st.events + [TimerRequest(st.id.lsid, ms)])
  }

  lemma TimerOutcome(st: State, now: Time, order: seq<PeerId>, order2: seq<PeerId>, seed: nat)
    requires forall i, j :: 0 <= i < j < |order| ==> order[i] != order[j]
    ensures var listed, members := ListableIn(st.peers, order, now), MembersIn(st.peers, order2);
            DoAll(st, PlanTimer(st.id, st.peers, now, order, order2, seed)) == TickDone(st, listed, members, Delay(seed, |members|))
  {
    var listed, members := ListableIn(st.peers, order, now), MembersIn(st.peers, order2);
    ListedDistinct(st.peers, order, now);
    TickParts(st, listed, members, Delay(seed, |members|), PlanTimer(st.id, st.peers, now, order, order2, seed));
  }

  lemma TickParts(st: State, listed: seq<PeerId>, members: seq<PeerId>, ms: int, plan: seq<Micro>)
    requires forall q :: q in listed ==> q in st.peers
    requires forall q :: q in members ==> q in st.peers
    requires forall i, j :: 0 <= i < j < |listed| ==> listed[i] != listed[j]
    requires plan == PlanCount(listed) +
                     (if listed == [] then [] else PlanSpread(st.id, st.peers, members, RefList(st.peers, listed))) +
                     [Emit(TimerRequest(st.id.lsid, ms))]
    ensures DoAll(st, plan) == TickDone(st, listed, members, ms)
  {
    var timer := Emit(TimerRequest(st.id.lsid, ms));
    var spread := if listed == [] then [] else PlanSpread(st.id, st.peers, members, RefList(st.peers, listed));
    var st1 := st.(peers := Bumped(st.peers, listed));
    var st2 := st1.(out := st.out + SjnSends(st.id, st.peers, members, listed));
    CountAll(st, listed);
    assert DoAll(st1, spread) == st2 by { TellOnlySends(st1, spread); }
    DoAllAppend(st, PlanCount(listed), spread);
    DoAllAppend(st, PlanCount(listed) + spread, [timer]);
    DoAllOne(st2, timer);
  }

  // ---- the same, as the loops build it up ----

  function RosterSends(id: WorldId, peers: Peers, order: seq<PeerId>, joiner: Member): seq<Send> {
    if order == [] then []
    else
      var q := order[|order| - 1];
      RosterSends(id, peers, order[..|order| - 1], joiner) +
      (if IsMember(peers, q) then [Send(q, MJNI(id.lsid, peers[q].session, joiner))] else [])
  }

  function Roster(peers: Peers, order: seq<PeerId>): seq<Member> {
    if order == [] then []
    else
      var q := order[|order| - 1];
      Roster(peers, order[..|order| - 1]) + (if IsMember(peers, q) then [MemberOf(q, peers[q])] else [])
  }

  lemma FanOutSnoc(id: WorldId, peers: Peers, ms: seq<PeerId>, q: PeerId, joiner: Member)
    requires q in peers && forall m :: m in ms ==> m in peers
    ensures Told(PlanFanOut(id, peers, ms + [q], joiner))
         == Told(PlanFanOut(id, peers, ms, joiner)) + [Send(q, MJNI(id.lsid, peers[q].session, joiner))]
    ensures MemberList(peers, ms + [q]) == MemberList(peers, ms) + [MemberOf(q, peers[q])]
  {
    assert (ms + [q])[..|ms|] == ms;
    ToldSnoc(PlanFanOut(id, peers, ms, joiner), On(q, Tell(MJNI(id.lsid, peers[q].session, joiner))));
  }

  lemma {:induction false} RosterForms(id: WorldId, peers: Peers, order: seq<PeerId>, joiner: Member)
    ensures RosterSends(id, peers, order, joiner) == Told(PlanFanOut(id, peers, MembersIn(peers, order), joiner))
    ensures Roster(peers, order) == MemberList(peers, MembersIn(peers, order))
    decreases |order|
  {
    if order != [] {
      var init, q := order[..|order| - 1], order[|order| - 1];
      RosterForms(id, peers, init, joiner);
      if IsMember(peers, q) { FanOutSnoc(id, peers, MembersIn(peers, init), q, joiner); }
    }
  }

  lemma ToldSnoc(ms: seq<Micro>, m: Micro)
    requires AllTell(ms) && m.On? && m.op.Tell?
    ensures AllTell(ms + [m]) && Told(ms + [m]) == Told(ms) + [Send(m.peer, m.op.msg)]
  {
    assert (ms + [m])[..|ms|] == ms;
  }

  /** The state after a joiner has been accepted. */
  function Admitted(st: State, p: PeerId, order: seq<PeerId>): State
    requires p in st.peers
  {
    var e := st.peers[p];
    st.(peers := st.peers[p := e.(status := Tmem)],
        out := st.out + RosterSends(st.id, st.peers, order, MemberOf(p, e)) + [JokFor(st.id, p, e.session, Roster(st.peers, order))])
  }

  lemma AdmittedByPlan(st: State, p: PeerId, order: seq<PeerId>)
    requires p in st.peers && st.peers[p].status.Jn?
    ensures DoAll(st, PlanAccept(st.id, st.peers, p, st.peers[p].session, order)) == Admitted(st, p, order)
  {
    var e, ms := st.peers[p], MembersIn(st.peers, order);
    RosterForms(st.id, st.peers, order, MemberOf(p, e));
    Associate(st.out, RosterSends(st.id, st.peers, order, MemberOf(p, e)), [JokFor(st.id, p, e.session, Roster(st.peers, order))]);
    AcceptOutcome(st, p, e.session, ms);
  }

  function Listing(peers: Peers, order: seq<PeerId>, now: Time): seq<SessionRef> {
    if order == [] then []
    else
      var q := order[|order| - 1];
      Listing(peers, order[..|order| - 1], now) + (if Listable(peers, q, now) then [SessionRef(q, peers[q].session)] else [])
  }

  /** The peer map once the peers in `walked` have been visited by the counting loop. */
  function Ticked(peers: Peers, walked: seq<PeerId>, now: Time): Peers {
    map q | q in peers :: if q in walked && Listable(peers, q, now) then peers[q].(sjnc := peers[q].sjnc + 1) else peers[q]
  }

  lemma {:induction false} ListingForms(peers: Peers, order: seq<PeerId>, now: Time)
    ensures Listing(peers, order, now) == RefList(peers, ListableIn(peers, order, now))
    ensures Ticked(peers, order, now) == Bumped(peers, ListableIn(peers, order, now))
    decreases |order|
  {
    if order != [] {
      var init, q := order[..|order| - 1], order[|order| - 1];
      ListingForms(peers, init, now);
      if Listable(peers, q, now) {
        var ls := ListableIn(peers, init, now);
        assert (ls + [q])[..|ls|] == ls;
      }
    }
  }

  function SpreadSends(id: WorldId, peers: Peers, order: seq<PeerId>, refs: seq<SessionRef>): seq<Send> {
    if order == [] || refs == [] then []
    else
      var q := order[|order| - 1];
      SpreadSends(id, peers, order[..|order| - 1], refs) +
      (if IsMember(peers, q) then [Send(q, MSJN(id.lsid, peers[q].session, refs))] else [])
  }

  function MemberCount(peers: Peers, order: seq<PeerId>): nat {
    if order == [] then 0
    else MemberCount(peers, order[..|order| - 1]) + if IsMember(peers, order[|order| - 1]) then 1 else 0
  }

  lemma {:induction false} SpreadForms(id: WorldId, peers: Peers, order: seq<PeerId>, refs: seq<SessionRef>)
    ensures MemberCount(peers, order) == |MembersIn(peers, order)|
    ensures refs != [] ==> SpreadSends(id, peers, order, refs) == Told(PlanSpread(id, peers, MembersIn(peers, order), refs))
    decreases |order|
  {
    if order != [] {
      var init, q := order[..|order| - 1], order[|order| - 1];
      SpreadForms(id, peers, init, refs);
      if IsMember(peers, q) {
        var ms := MembersIn(peers, init);
        assert (ms + [q])[..|ms|] == ms;
        ToldSnoc(PlanSpread(id, peers, ms, refs), On(q, Tell(MSJN(id.lsid, peers[q].session, refs))));
      }
    }
  }

  /** The state after a timer tick. */
  function AfterTick(st: State, now: Time, order: seq<PeerId>, order2: seq<PeerId>, seed: nat): State {
    st.(peers := Ticked(st.peers, order, now),
        out := st.out + SpreadSends(st.id, st.peers, order2, Listing(st.peers, order, now)),
        events := st.events + [TimerRequest(st.id.lsid, Delay(seed, MemberCount(st.peers, order2)))])
  }

  lemma SjnForms(id: WorldId, peers: Peers, now: Time, order: seq<PeerId>, order2: seq<PeerId>)
    ensures SjnSends(id, peers, MembersIn(peers, order2), ListableIn(peers, order, now))
         == SpreadSends(id, peers, order2, Listing(peers, order, now))
    ensures MemberCount(peers, order2) == |MembersIn(peers, order2)|
    ensures Ticked(peers, order, now) == Bumped(peers, ListableIn(peers, order, now))
  {
    ListingForms(peers, order, now);
    SpreadForms(id, peers, order2, Listing(peers, order, now));
  }

  lemma TickForms(st: State, now: Time, order: seq<PeerId>, order2: seq<PeerId>, seed: nat)
    ensures var listed, members := ListableIn(st.peers, order, now), MembersIn(st.peers, order2);
            TickDone(st, listed, members, Delay(seed, |members|)) == AfterTick(st, now, order, order2, seed)
  {
    SjnForms(st.id, st.peers, now, order, order2);
  }

  lemma TickByPlan(st: State, now: Time, order: seq<PeerId>, order2: seq<PeerId>, seed: nat)
    requires forall i, j :: 0 <= i < j < |order| ==> order[i] != order[j]
    ensures DoAll(st, PlanTimer(st.id, st.peers, now, order, order2, seed)) == AfterTick(st, now, order, order2, seed)
  {
    TimerOutcome(st, now, order, order2, seed);
    TickForms(st, now, order, order2, seed);
  }
}
