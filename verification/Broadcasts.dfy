/** The two handlers that address all members at once: accepting a joiner, and the SJN timer. */
module Broadcasts {
  import opened Abyss
  import opened PeerEntry
  import opened WorldModel
  import opened Outcomes

  // ---- accepting a joiner ----

  /** Every message to q in a list of sends. */
  function To(sends: seq<Send>, q: PeerId): seq<Msg> {
    if sends == [] then []
    else To(sends[..|sends| - 1], q) + (if sends[|sends| - 1].dst == q then [sends[|sends| - 1].msg] else [])
  }

  lemma {:induction false} ToDistinct(sends: seq<Send>, q: PeerId)
    requires forall i, j :: 0 <= i < j < |sends| ==> sends[i].dst != sends[j].dst
    ensures |To(sends, q)| <= 1
    ensures forall m :: m in To(sends, q) <==> Send(q, m) in sends
    ensures To(sends, q) == [] <==> forall i :: 0 <= i < |sends| ==> sends[i].dst != q
    decreases |sends|
  {
    if sends != [] {
      ToDistinct(sends[..|sends| - 1], q);
    }
  }

  lemma {:induction false} ToCat(a: seq<Send>, b: seq<Send>, q: PeerId)
    ensures To(a + b, q) == To(a, q) + To(b, q)
    decreases |b|
  {
    if b == [] {
      assert a + b == a;
    } else {
      assert (a + b)[..|a + b| - 1] == a + b[..|b| - 1];
      ToCat(a, b[..|b| - 1], q);
    }
  }

  lemma ToOne(x: Send, q: PeerId)
    ensures To([x], q) == if x.dst == q then [x.msg] else []
  {
    assert [x][..0] == [];
  }

  /** What accepting the joiner p must send to peer q. */
  function Owed(id: WorldId, peers: Peers, p: PeerId, members: seq<Member>, q: PeerId): seq<Msg>
    requires p in peers
  {
    if q == p then [MJOK(id.lsid, peers[p].session, TruncMs(id.stamp), id.url, members)]
    else if IsMember(peers, q) then [MJNI(id.lsid, peers[q].session, MemberOf(p, peers[p]))]
    else []
  }

  /** The listed members are exactly the member entries, each once. */
  ghost predicate IsRoster(peers: Peers, members: seq<Member>) {
    && (forall q :: IsMember(peers, q) ==> MemberOf(q, peers[q]) in members)
    && (forall m :: m in members ==> IsMember(peers, m.peer) && m == MemberOf(m.peer, peers[m.peer]))
    && (forall i, j :: 0 <= i < j < |members| ==> members[i].peer != members[j].peer)
  }

  lemma RosterIsExact(peers: Peers, order: seq<PeerId>)
    requires Enumerates(order, peers.Keys)
    ensures IsRoster(peers, MemberList(peers, MembersIn(peers, order)))
  {
    var ms := MembersIn(peers, order);
    var list := MemberList(peers, ms);
    MembersDistinct(peers, order);
    forall q | IsMember(peers, q) ensures MemberOf(q, peers[q]) in list {
      assert q in ms;
      var i :| 0 <= i < |ms| && ms[i] == q;
      assert list[i] == MemberOf(q, peers[q]);
    }
    forall m | m in list ensures IsMember(peers, m.peer) && m == MemberOf(m.peer, peers[m.peer]) {
      var i :| 0 <= i < |list| && list[i] == m;
      assert ms[i] in ms;
    }
  }

  /**
   Accepting a joiner sends it one JOK with exactly the current members, sends
   each member one JNI about the joiner, and sends nobody anything else,
   whatever the order in which the peer map is walked.
   */
  lemma AcceptFanOut(st: State, p: PeerId, session: Uuid, order: seq<PeerId>)
    requires p in st.peers && st.peers[p].status.Jn? && st.peers[p].session == session
    requires Enumerates(order, st.peers.Keys)
    ensures var st' := DoAll(st, PlanAccept(st.id, st.peers, p, session, order));
            var members := MemberList(st.peers, MembersIn(st.peers, order));
            && IsRoster(st.peers, members)
            && st.out <= st'.out
            && (forall q :: To(st'.out[|st.out|..], q) == Owed(st.id, st.peers, p, members, q))
            && st'.peers == st.peers[p := st.peers[p].(status := Tmem)]
            && st'.events == st.events && st'.fault == st.fault
  {
    var ms := MembersIn(st.peers, order);
    var members := MemberList(st.peers, ms);
    RosterIsExact(st.peers, order);
    MembersDistinct(st.peers, order);
    AcceptOutcome(st, p, session, ms);
    var sends := Told(PlanFanOut(st.id, st.peers, ms, MemberOf(p, st.peers[p]))) + [JokFor(st.id, p, session, members)];
    assert (st.out + sends)[|st.out|..] == sends;
    forall q ensures To(sends, q) == Owed(st.id, st.peers, p, members, q) {
      SendsAreOwed(st.id, st.peers, p, ms, members, sends, q);
    }
  }

  lemma SendsAreOwed(id: WorldId, peers: Peers, p: PeerId, ms: seq<PeerId>, members: seq<Member>, sends: seq<Send>, q: PeerId)
    requires p in peers && peers[p].status.Jn?
    requires forall x :: x in ms <==> IsMember(peers, x)
    requires forall i, j :: 0 <= i < j < |ms| ==> ms[i] != ms[j]
    requires |sends| == |ms| + 1
    requires forall i :: 0 <= i < |ms| ==> ms[i] in peers && sends[i] == Send(ms[i], MJNI(id.lsid, peers[ms[i]].session, MemberOf(p, peers[p])))
    requires sends[|ms|] == Send(p, MJOK(id.lsid, peers[p].session, TruncMs(id.stamp), id.url, members))
    ensures To(sends, q) == Owed(id, peers, p, members, q)
  {
    forall i, j | 0 <= i < j < |sends| ensures sends[i].dst != sends[j].dst {
      assert ms[i] in ms;
    }
    ToDistinct(sends, q);
    if q == p {
      assert sends[|ms|].dst == q;
      assert To(sends, q)[0] in To(sends, q);
      var k :| 0 <= k < |sends| && sends[k] == Send(q, To(sends, q)[0]);
      assert k == |ms|;
    } else if IsMember(peers, q) {
      var i :| 0 <= i < |ms| && ms[i] == q;
      assert sends[i].dst == q;
      assert To(sends, q)[0] in To(sends, q);
      var k :| 0 <= k < |sends| && sends[k] == Send(q, To(sends, q)[0]);
      assert k == i;
    } else {
      forall i | 0 <= i < |sends| ensures sends[i].dst != q { if i < |ms| { assert ms[i] in ms; } }
    }
  }

  // ---- the SJN timer ----

  function Left(e: Entry): nat {
    if e.status.Mem? && e.sjnc < 4 then 4 - e.sjnc else 0
  }

  /** How many more listings the members of the world can cause. */
  function Budget(peers: Peers, order: seq<PeerId>): nat {
    if order == [] then 0
    else
      var q := order[|order| - 1];
      Budget(peers, order[..|order| - 1]) + if q in peers then Left(peers[q]) else 0
  }

  lemma {:induction false} BudgetFalls(peers: Peers, peers': Peers, order: seq<PeerId>, now: Time)
    requires forall i, j :: 0 <= i < j < |order| ==> order[i] != order[j]
    requires peers.Keys == peers'.Keys
    requires forall i :: 0 <= i < |order| && order[i] in peers ==>
      peers'[order[i]] == if Listable(peers, order[i], now) then peers[order[i]].(sjnc := peers[order[i]].sjnc + 1) else peers[order[i]]
    ensures Budget(peers', order) + |ListableIn(peers, order, now)| == Budget(peers, order)
    decreases |order|
  {
    if order != [] {
      BudgetFalls(peers, peers', order[..|order| - 1], now);
    }
  }

  /**
   One tick: the peers listed are exactly the listable members; every member
   gets one SJN with that list if it is not empty; the budget falls by the
   number of peers listed; and the next timer is set within its range.
   */
  lemma TimerTick(st: State, now: Time, order: seq<PeerId>, order2: seq<PeerId>, seed: nat)
    requires Enumerates(order, st.peers.Keys) && Enumerates(order2, st.peers.Keys)
    ensures var st' := DoAll(st, PlanTimer(st.id, st.peers, now, order, order2, seed));
            var listed, members := ListableIn(st.peers, order, now), MembersIn(st.peers, order2);
            && Budget(st'.peers, order) == Budget(st.peers, order) - |listed|
            && st'.out == st.out + SjnSends(st.id, st.peers, members, listed)
            && (st'.out != st.out ==> Budget(st'.peers, order) < Budget(st.peers, order))
            && exists ms :: 300 <= ms < 300 + 300 * (|members| + 1) && st'.events == st.events + [TimerRequest(st.id.lsid, ms)]
  {
    var listed, members := ListableIn(st.peers, order, now), MembersIn(st.peers, order2);
    TimerOutcome(st, now, order, order2, seed);
    var ms := Delay(seed, |members|);
    assert 300 <= ms < 300 + 300 * (|members| + 1);
    forall i | 0 <= i < |order| && order[i] in st.peers
      ensures Bumped(st.peers, listed)[order[i]]
              == if Listable(st.peers, order[i], now) then st.peers[order[i]].(sjnc := st.peers[order[i]].sjnc + 1) else st.peers[order[i]] {
      assert order[i] in order;
    }
    BudgetFalls(st.peers, Bumped(st.peers, listed), order, now);
  }
}
