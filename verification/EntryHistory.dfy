/** Every legal run of an AND instance, seen from one world and one peer, is a run of the entry machine. */
module EntryHistory {
  import opened Prelude
  import opened Abyss
  import opened PeerEntry
  import opened WorldModel
  import opened NodeModel
  import opened EntryInvariant
  import opened WorldInvariant
  import opened NodeInvariant
  import opened EntryRuns
  import opened Outcomes

  /** What a call does to world l. */
  function MicrosOf(n: Node, a: Input, l: Uuid): seq<Micro>
    requires l in n.worlds
  {
    match a
    case PeerConnected(p, sweep) => if l in sweep then [On(p, Connect)] else []
    case PeerClose(p, sweep) => if l in sweep then [On(p, Remove)] else []
    case OpenWorld(_, _, _) => []
    case JoinWorld(_, _, _, _) => []
    case Recv(p, l', m, sweep) =>
      if m.MRST? && l' == NIL then (if l in sweep then [On(p, RecvRST)] else [])
      else if l' == l then PlanFor(n, l, a) else []
    case _ => if a.lsid == l then PlanFor(n, l, a) else []
  }

  /** The steps taken on p's entry since world l was created. */
  function History(local: PeerId, calls: seq<Input>, l: Uuid, p: PeerId): seq<Op> {
    if calls == [] then []
    else
      var n := Exec(local, calls[..|calls| - 1]);
      if l !in n.worlds then [] else History(local, calls[..|calls| - 1], l, p) + OpsOn(MicrosOf(n, calls[|calls| - 1], l), p)
  }

  /** The entry of p when world l was created. */
  function Origin(local: PeerId, calls: seq<Input>, l: Uuid, p: PeerId): Option<Entry> {
    if calls == [] then None
    else if l in Exec(local, calls[..|calls| - 1]).worlds then Origin(local, calls[..|calls| - 1], l, p)
    else if l in Exec(local, calls).worlds then Get(Exec(local, calls).worlds[l].peers, p) else None
  }

  lemma {:induction false} SweepWorld(n: Node, sweep: seq<Uuid>, m: Micro, l: Uuid)
    requires l in n.worlds && forall i, j :: 0 <= i < j < |sweep| ==> sweep[i] != sweep[j]
    ensures l in OnEach(n, sweep, m).worlds
    ensures OnEach(n, sweep, m).worlds[l].id == n.worlds[l].id
    ensures OnEach(n, sweep, m).worlds[l].peers == if l in sweep then Do(Inside(n, l), m).peers else n.worlds[l].peers
    decreases |sweep|
  {
    if sweep != [] {
      var init, k := sweep[..|sweep| - 1], sweep[|sweep| - 1];
      SweepWorld(n, init, m, l);
      var n1 := OnEach(n, init, m);
      assert k !in init;
      if k == l {
        DoAllKeepsId(Inside(n1, l), [m]);
        DoAllOne(Inside(n1, l), m);
      }
    }
  }

  lemma OneMicro(st: State, m: Micro)
    ensures DoAll(st, [m]).peers == Do(st, m).peers
  {
    DoAllOne(st, m);
  }

  lemma SweepAfter(n: Node, sweep: seq<Uuid>, m: Micro, l: Uuid)
    requires l in n.worlds && Enumerates(sweep, n.worlds.Keys)
    ensures l in OnEach(n, sweep, m).worlds && OnEach(n, sweep, m).worlds[l].id == n.worlds[l].id
    ensures l in sweep && OnEach(n, sweep, m).worlds[l].peers == DoAll(Inside(n, l), [m]).peers
  {
    SweepWorld(n, sweep, m, l);
    OneMicro(Inside(n, l), m);
  }

  lemma PlanAfter(n: Node, k: Uuid, ms: seq<Micro>, l: Uuid)
    requires l in n.worlds
    ensures l in OnWorld(n, k, ms).worlds && OnWorld(n, k, ms).worlds[l].id == n.worlds[l].id
    ensures OnWorld(n, k, ms).worlds[l].peers == if k == l then DoAll(Inside(n, l), ms).peers else n.worlds[l].peers
  {
    DoAllKeepsId(Inside(n, l), ms);
  }

  lemma WorldAfter(n: Node, a: Input, l: Uuid)
    requires NodeInv(n) && Admissible(n, a) && l in n.worlds && l in NodeStep(n, a).worlds
    ensures NodeStep(n, a).worlds[l].id == n.worlds[l].id
    ensures NodeStep(n, a).worlds[l].peers == DoAll(Inside(n, l), MicrosOf(n, a, l)).peers
  {
    WorldsAreBorn(n);
    match a
    case PeerConnected(p, sweep) => SweepAfter(n.(peers := n.peers + {p}), sweep, On(p, Connect), l);
    case PeerClose(p, sweep) => SweepAfter(n, sweep, On(p, Remove), l);
    case Recv(p, k, m, sweep) =>
      if m.MRST? && k == NIL {
        SweepAfter(n, sweep, On(p, RecvRST), l);
      } else if k in n.worlds {
        PlanAfter(n, k, PlanFor(n, k, a), l);
      }
    case OpenWorld(_, _, _) =>
    case JoinWorld(_, _, _, _) =>
    case _ => if a.lsid in n.worlds { PlanAfter(n, a.lsid, PlanFor(n, a.lsid, a), l); }
  }

  // ---- no faults, fair listing ----

  lemma FaultlessSnoc(w: WorldId, p: PeerId, e: Option<Entry>, ops: seq<Op>, op: Op)
    requires Faultless(w, p, e, ops) && !Step(w, p, Run(w, p, e, ops), op).fault
    ensures Faultless(w, p, e, ops + [op])
  {
    assert (ops + [op])[..|ops|] == ops;
  }

  lemma NoFaultBefore(st: State, m: Micro)
    requires !Do(st, m).fault
    ensures !st.fault && (m.On? ==> !Step(st.id, m.peer, Get(st.peers, m.peer), m.op).fault)
  {
  }

  lemma {:induction false} NoFaultInside(st: State, ms: seq<Micro>, p: PeerId)
    requires !DoAll(st, ms).fault
    requires forall m :: m in ms && m.Emit? ==> !About(m.event, st.id.lsid, p)
    ensures Faultless(st.id, p, Get(st.peers, p), OpsOn(ms, p))
    decreases |ms|
  {
    if ms != [] {
      var init, m := ms[..|ms| - 1], ms[|ms| - 1];
      NoFaultBefore(DoAll(st, init), m);
      NoFaultInside(st, init, p);
      assert ms == init + [m];
      OpsSnoc(init, m, p);
      if m.On? && m.peer == p {
        EntryAlone(st, init, p);
        DoAllKeepsId(st, init);
        FaultlessSnoc(st.id, p, Get(st.peers, p), OpsOn(init, p), m.op);
      }
    }
  }

  lemma {:induction false} RunCat(w: WorldId, p: PeerId, e: Option<Entry>, a: seq<Op>, b: seq<Op>)
    ensures Run(w, p, e, a + b) == Run(w, p, Run(w, p, e, a), b)
    ensures Faultless(w, p, e, a) && Faultless(w, p, Run(w, p, e, a), b) ==> Faultless(w, p, e, a + b)
    ensures Fair(w, p, e, a) && Fair(w, p, Run(w, p, e, a), b) ==> Fair(w, p, e, a + b)
    decreases |b|
  {
    if b == [] {
      assert a + b == a;
    } else {
      assert (a + b)[..|a + b| - 1] == a + b[..|b| - 1];
      RunCat(w, p, e, a, b[..|b| - 1]);
    }
  }

  lemma {:induction false} NoCountFair(w: WorldId, p: PeerId, e: Option<Entry>, ops: seq<Op>)
    requires forall op :: op in ops ==> !op.Count?
    ensures Fair(w, p, e, ops)
    decreases |ops|
  {
    if ops != [] {
      assert ops[|ops| - 1] in ops;
      NoCountFair(w, p, e, ops[..|ops| - 1]);
    }
  }

  lemma {:induction false} OpsMember(ms: seq<Micro>, p: PeerId)
    ensures forall op :: op in OpsOn(ms, p) ==> On(p, op) in ms
    decreases |ms|
  {
    if ms != [] {
      OpsMember(ms[..|ms| - 1], p);
      var m := ms[|ms| - 1];
      if m.On? && m.peer == p { assert m == On(p, m.op); }
    }
  }

  lemma {:induction false} OpsCat(a: seq<Micro>, b: seq<Micro>, p: PeerId)
    ensures OpsOn(a + b, p) == OpsOn(a, p) + OpsOn(b, p)
    decreases |b|
  {
    if b == [] {
      assert a + b == a;
    } else {
      assert (a + b)[..|a + b| - 1] == a + b[..|b| - 1];
      OpsCat(a, b[..|b| - 1], p);
    }
  }

  /** Among distinct peers each is counted once. */
  lemma {:induction false} CountOnce(qs: seq<PeerId>, p: PeerId)
    requires forall i, j :: 0 <= i < j < |qs| ==> qs[i] != qs[j]
    ensures OpsOn(PlanCount(qs), p) == if p in qs then [Count] else []
    decreases |qs|
  {
    if qs != [] {
      var init, q := qs[..|qs| - 1], qs[|qs| - 1];
      assert q !in init;
      CountOnce(init, p);
      OpsSnoc(PlanCount(init), On(q, Count), p);
    }
  }

  /** The second half of TimerExpire: the SJN messages and the next timer. */
  function TimerTail(id: WorldId, peers: Peers, listed: seq<PeerId>, members: seq<PeerId>, ms: int): seq<Micro>
    requires forall q :: q in listed ==> q in peers
    requires forall q :: q in members ==> q in peers
  {
    (if listed == [] then [] else PlanSpread(id, peers, members, RefList(peers, listed))) + [Emit(TimerRequest(id.lsid, ms))]
  }

  lemma TailCountsNothing(id: WorldId, peers: Peers, listed: seq<PeerId>, members: seq<PeerId>, ms: int, p: PeerId)
    requires forall q :: q in listed ==> q in peers
    requires forall q :: q in members ==> q in peers
    ensures forall op :: op in OpsOn(TimerTail(id, peers, listed, members, ms), p) ==> !op.Count?
  {
    var tail := TimerTail(id, peers, listed, members, ms);
    OpsMember(tail, p);
    forall op | op in OpsOn(tail, p) ensures !op.Count? {
      var i :| 0 <= i < |tail| && tail[i] == On(p, op);
      if i < |members| && listed != [] { assert tail[i] == PlanSpread(id, peers, members, RefList(peers, listed))[i]; }
    }
  }

  lemma TimerFair(id: WorldId, peers: Peers, now: Time, order: seq<PeerId>, order2: seq<PeerId>, seed: nat, p: PeerId)
    requires forall i, j :: 0 <= i < j < |order| ==> order[i] != order[j]
    ensures Fair(id, p, Get(peers, p), OpsOn(PlanTimer(id, peers, now, order, order2, seed), p))
  {
    var listed, members := ListableIn(peers, order, now), MembersIn(peers, order2);
    var tail := TimerTail(id, peers, listed, members, Delay(seed, |members|));
    assert PlanTimer(id, peers, now, order, order2, seed) == PlanCount(listed) + tail;
    ListedDistinct(peers, order, now);
    OpsCat(PlanCount(listed), tail, p);
    TailCountsNothing(id, peers, listed, members, Delay(seed, |members|), p);
    CountThenNothing(id, peers, now, order, listed, OpsOn(tail, p), p);
  }

  lemma CountThenNothing(id: WorldId, peers: Peers, now: Time, order: seq<PeerId>, listed: seq<PeerId>, rest: seq<Op>, p: PeerId)
    requires listed == ListableIn(peers, order, now)
    requires forall i, j :: 0 <= i < j < |listed| ==> listed[i] != listed[j]
    requires forall op :: op in rest ==> !op.Count?
    ensures Fair(id, p, Get(peers, p), OpsOn(PlanCount(listed), p) + rest)
  {
    CountOnce(listed, p);
    if p in listed {
      FairOnce(id, p, peers[p], rest);
    } else {
      NoCountFair(id, p, Get(peers, p), rest);
      assert [] + rest == rest;
    }
  }

  lemma FairOnce(id: WorldId, p: PeerId, e: Entry, rest: seq<Op>)
    requires e.status.Mem? && !e.sjnp && e.sjnc <= 3 && forall op :: op in rest ==> !op.Count?
    ensures Fair(id, p, Some(e), [Count] + rest)
  {
    assert [Count][..0] == [];
    assert Run(id, p, Some(e), []) == Some(e) && Fair(id, p, Some(e), []);
    assert Fair(id, p, Some(e), [Count]);
    NoCountFair(id, p, Run(id, p, Some(e), [Count]), rest);
    RunCat(id, p, Some(e), [Count], rest);
  }

  lemma {:induction false} RecvCountsNothing(id: WorldId, peers: Peers, p: PeerId, m: Msg)
    ensures forall x :: x in PlanRecv(id, peers, p, m) ==> x.On? && !x.op.Count?
  {
    match m
    case MJOK(s, _, _, _, members) => ListsCountNothing(id, SessionRef(p, s), Member(p, s, 0), members, []);
    case MJNI(s, _, member) => ListsCountNothing(id, SessionRef(p, s), Member(p, s, 0), [member], []);
    case MSJN(s, _, refs) => ListsCountNothing(id, SessionRef(p, s), Member(p, s, 0), [], refs);
    case MCRR(s, _, refs) =>
      if p in peers { ListsCountNothing(id, SessionRef(p, s), MemberOf(p, peers[p]), [], refs); }
    case _ =>
  }

  lemma {:induction false} ListsCountNothing(id: WorldId, origin: SessionRef, source: Member, members: seq<Member>, refs: seq<SessionRef>)
    ensures forall x :: x in PlanIntroductions(id.local, members) ==> x.On? && !x.op.Count?
    ensures forall x :: x in PlanGossip(id, origin, refs) ==> x.On? && !x.op.Count?
    ensures forall x :: x in PlanRelay(id, source, refs) ==> x.On? && !x.op.Count?
    decreases |members| + |refs|
  {
    if members != [] { ListsCountNothing(id, origin, source, members[..|members| - 1], refs); }
    if refs != [] { ListsCountNothing(id, origin, source, members, refs[..|refs| - 1]); }
  }

  /** The steps a call takes on one entry are fair. */
  lemma CallFair(n: Node, a: Input, l: Uuid, p: PeerId)
    requires l in n.worlds && Admissible(n, a)
    ensures var w := n.worlds[l]; Fair(w.id, p, Get(w.peers, p), OpsOn(MicrosOf(n, a, l), p))
  {
    var w := n.worlds[l];
    var ms := MicrosOf(n, a, l);
    if a.TimerExpire? && a.lsid == l {
      TimerFair(w.id, w.peers, a.now, a.order, a.order2, a.seed, p);
    } else {
      if a.Recv? { RecvCountsNothing(w.id, w.peers, a.peer, a.msg); }
      OpsMember(ms, p);
      NoCountFair(w.id, p, Get(w.peers, p), OpsOn(ms, p));
    }
  }

  lemma MicrosQuiet(n: Node, a: Input, l: Uuid, p: PeerId)
    requires l in n.worlds
    ensures forall m :: m in MicrosOf(n, a, l) && m.Emit? ==> !About(m.event, n.worlds[l].id.lsid, p)
  {
    if a.Recv? { RecvCountsNothing(n.worlds[l].id, n.worlds[l].peers, a.peer, a.msg); }
    if a.TimerExpire? { TimerEmits(n.worlds[l].id, n.worlds[l].peers, a.now, a.order, a.order2, a.seed); }
  }

  ghost predicate Follows(local: PeerId, calls: seq<Input>, l: Uuid, p: PeerId)
    requires l in Exec(local, calls).worlds
  {
    var w := Exec(local, calls).worlds[l];
    var e, ops := Origin(local, calls, l, p), History(local, calls, l, p);
    && Quiescent(e)
    && Get(w.peers, p) == Run(w.id, p, e, ops)
    && Faultless(w.id, p, e, ops) && Fair(w.id, p, e, ops)
  }

  /** A live world's entry is where its history has taken it. */
  lemma {:induction false} RunsFollowHistory(local: PeerId, calls: seq<Input>, l: Uuid, p: PeerId)
    requires Legal(local, calls) && l in Exec(local, calls).worlds
    ensures Follows(local, calls, l, p)
    decreases |calls|
  {
    var init, a := calls[..|calls| - 1], calls[|calls| - 1];
    var n := Exec(local, init);
    RunKeepsNode(local, init);
    RunKeepsNode(local, calls);
    if l in n.worlds {
      RunsFollowHistory(local, init, l, p);
      StepFollows(n, a, l, p, Origin(local, init, l, p), History(local, init, l, p));
    } else {
      CreatedQuiescent(n, a, l, p);
    }
  }

  lemma StepFollows(n: Node, a: Input, l: Uuid, p: PeerId, e: Option<Entry>, ops: seq<Op>)
    requires NodeInv(n) && Admissible(n, a) && l in n.worlds && l in NodeStep(n, a).worlds && NodeInv(NodeStep(n, a))
    requires var w := n.worlds[l]; Get(w.peers, p) == Run(w.id, p, e, ops) && Faultless(w.id, p, e, ops) && Fair(w.id, p, e, ops)
    ensures var w := NodeStep(n, a).worlds[l];
            var ops' := ops + OpsOn(MicrosOf(n, a, l), p);
            Get(w.peers, p) == Run(w.id, p, e, ops') && Faultless(w.id, p, e, ops') && Fair(w.id, p, e, ops')
  {
    var st, ms := Inside(n, l), MicrosOf(n, a, l);
    WorldAfter(n, a, l);
    MicrosQuiet(n, a, l, p);
    EntryAlone(st, ms, p);
    CallFair(n, a, l, p);
    NoFaultHere(n, a, l);
    NoFaultInside(st, ms, p);
    RunCat(st.id, p, e, ops, OpsOn(ms, p));
  }

  lemma NoFaultHere(n: Node, a: Input, l: Uuid)
    requires NodeInv(n) && Admissible(n, a) && l in n.worlds && l in NodeStep(n, a).worlds && NodeInv(NodeStep(n, a))
    ensures !DoAll(Inside(n, l), MicrosOf(n, a, l)).fault
  {
    var st := Inside(n, l);
    assert Live(n, l, n.peers);
    match a
    case PeerConnected(p, sweep) => DoAllOne(st, On(p, Connect)); DoKeeps(st, n.peers, On(p, Connect));
    case PeerClose(p, sweep) => DoAllOne(st, On(p, Remove)); DoKeeps(st, n.peers, On(p, Remove));
    case Recv(p, l', m, sweep) =>
      if m.MRST? && l' == NIL { DoAllOne(st, On(p, RecvRST)); DoKeeps(st, n.peers, On(p, RecvRST)); }
    case _ =>
  }

  lemma CreatedQuiescent(n: Node, a: Input, l: Uuid, p: PeerId)
    requires l !in n.worlds && l in NodeStep(n, a).worlds
    ensures Quiescent(Get(NodeStep(n, a).worlds[l].peers, p))
  {
    match a
    case PeerConnected(q, sweep) => OnEachKeepsKeys(n.(peers := n.peers + {q}), sweep, On(q, Connect));
    case PeerClose(q, sweep) => OnEachKeepsKeys(n, sweep, On(q, Remove));
    case Recv(q, _, m, sweep) => OnEachKeepsKeys(n, sweep, On(q, RecvRST));
    case _ =>
  }

  // ---- theorems over runs ----

  /** In every legal run the stored stamp is the newest the entry has weighed since it was last idle. */
  lemma NewestWinsAlways(local: PeerId, calls: seq<Input>, l: Uuid, p: PeerId)
    requires Legal(local, calls) && l in Exec(local, calls).worlds
    ensures var w := Exec(local, calls).worlds[l];
            var e := Get(w.peers, p);
            Newest(w.id, p, Origin(local, calls, l, p), History(local, calls, l, p))
            == if IdleOrGone(e) then None else Some(e.value.stamp)
    ensures var e := Get(Exec(local, calls).worlds[l].peers, p);
            e.Some? && Idling(e.value.status) ==> e.value.session == NIL && e.value.stamp == ZERO_TIME
  {
    RunsFollowHistory(local, calls, l, p);
    var n := Exec(local, calls);
    NewestWins(n.worlds[l].id, p, Origin(local, calls, l, p), History(local, calls, l, p));
    RunKeepsNode(local, calls);
    assert Live(n, l, n.peers);
    assert PeerInv(Inside(n, l), n.peers, p);
  }

  /** In every legal run a peer is listed at most four times per membership, and never after a JOK. */
  lemma ListedAtMostFourAlways(local: PeerId, calls: seq<Input>, l: Uuid, p: PeerId)
    requires Legal(local, calls) && l in Exec(local, calls).worlds
    ensures var id := Exec(local, calls).worlds[l].id;
            var e, ops := Origin(local, calls, l, p), History(local, calls, l, p);
            Listed(id, p, e, ops) <= 4 && (ThroughJOK(id, p, e, ops) ==> Listed(id, p, e, ops) == 0)
  {
    RunsFollowHistory(local, calls, l, p);
    ListedAtMostFour(Exec(local, calls).worlds[l].id, p, Origin(local, calls, l, p), History(local, calls, l, p));
  }
}
