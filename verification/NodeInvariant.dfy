/** What every admissible call of an AND instance keeps, over every run. */
module NodeInvariant {
  import opened Prelude
  import opened Abyss
  import opened PeerEntry
  import opened WorldModel
  import opened NodeModel
  import opened EventOrder
  import opened EntryInvariant
  import opened WorldInvariant

  ghost predicate Live(n: Node, l: Uuid, connected: set<PeerId>)
    requires l in n.worlds
  {
    && l in n.born
    && n.worlds[l].id.lsid == l
    && n.worlds[l].id.local == n.local
    && n.worlds[l].id.stamp == n.born[l]
    && WorldInv(Inside(n, l), connected)
  }

  /** A world that is gone, or was never there. */
  ghost predicate Gone(n: Node, l: Uuid) {
    && (if l in n.born then StageOf(n.events, l).Left? || StageOf(n.events, l).LeftEarly? else StageOf(n.events, l).Fresh?)
    && (forall p :: var ph := PhaseOf(n.events, l, p); !ph.Ready? && !ph.Broken? && (l !in n.born ==> ph.Idle?))
  }

  ghost predicate NodeInv(n: Node) {
    && !n.fault
    && n.local !in n.peers
    && NIL !in n.born
    && (forall l :: l in n.worlds ==> Live(n, l, n.peers))
    && (forall l :: l !in n.worlds ==> Gone(n, l))
  }

  // ---- the log grows by events of one world ----

  ghost predicate Grew(log: seq<Event>, log': seq<Event>, l: Uuid) {
    && |log| <= |log'| && log == log'[..|log|]
    && (forall i :: |log| <= i < |log'| ==> Within(log'[i], l))
  }

  lemma {:induction false} DoAllGrows(st: State, ms: seq<Micro>)
    requires forall m :: m in ms && m.Emit? ==> Within(m.event, st.id.lsid)
    ensures Grew(st.events, DoAll(st, ms).events, st.id.lsid)
    decreases |ms|
  {
    if ms != [] {
      var init, m := ms[..|ms| - 1], ms[|ms| - 1];
      assert m in ms;
      DoAllGrows(st, init);
      DoAllKeepsId(st, init);
      if m.On? { StepNamesPeer(st.id, m.peer, Get(DoAll(st, init).peers, m.peer), m.op); }
    }
  }

  lemma GrewElsewhere(log: seq<Event>, log': seq<Event>, l: Uuid, l': Uuid, p: PeerId)
    requires Grew(log, log', l) && l != l'
    ensures PhaseOf(log', l', p) == PhaseOf(log, l', p) && StageOf(log', l') == StageOf(log, l')
  {
    var es := log'[|log|..];
    assert log' == log + es;
    PhaseCat(Idle, log, es, l', p);
    StageCat(Fresh, log, es, l');
    OtherWorldUntouched(PhaseOf(log, l', p), StageOf(log, l'), es, l, l', p);
  }

  lemma BystanderWorld(n: Node, n': Node, l: Uuid, l': Uuid, connected: set<PeerId>)
    requires l' != l && Grew(n.events, n'.events, l) && !n'.fault && n'.local == n.local
    requires l' in n.born ==> l' in n'.born && n'.born[l'] == n.born[l']
    requires l' in n'.born ==> l' in n.born
    ensures l' in n.worlds && l' in n'.worlds && n'.worlds[l'] == n.worlds[l'] && Live(n, l', connected) ==> Live(n', l', connected)
    ensures Gone(n, l') ==> Gone(n', l')
  {
    forall p ensures PhaseOf(n'.events, l', p) == PhaseOf(n.events, l', p) && StageOf(n'.events, l') == StageOf(n.events, l') {
      GrewElsewhere(n.events, n'.events, l, l', p);
    }
    if l' in n.worlds && l' in n'.worlds && n'.worlds[l'] == n.worlds[l'] && Live(n, l', connected) {
      forall p ensures PeerInv(Inside(n', l'), connected, p) {
        assert PeerInv(Inside(n, l'), connected, p);
      }
    }
    assert StageOf(n'.events, l') == StageOf(n.events, l') by { GrewElsewhere(n.events, n'.events, l, l', ""); }
  }

  /** One world has moved on by a plan that keeps its invariant; all others are as before. */
  lemma WorldMoved(n: Node, l: Uuid, ms: seq<Micro>, l': Uuid, connected: set<PeerId>, connected': set<PeerId>)
    requires l in n.worlds && Live(n, l, connected) && !n.fault
    requires forall m :: m in ms && m.Emit? ==> Within(m.event, l)
    requires WorldInv(DoAll(Inside(n, l), ms), connected')
    ensures Grew(n.events, OnWorld(n, l, ms).events, l) && !OnWorld(n, l, ms).fault
    ensures Live(OnWorld(n, l, ms), l, connected')
    ensures l' != l && l' in n.worlds && Live(n, l', connected) ==> Live(OnWorld(n, l, ms), l', connected)
    ensures l' != l && l' in n.worlds && Live(n, l', connected') ==> Live(OnWorld(n, l, ms), l', connected')
    ensures l' != l && Gone(n, l') ==> Gone(OnWorld(n, l, ms), l')
  {
    var n' := OnWorld(n, l, ms);
    DoAllGrows(Inside(n, l), ms);
    DoAllKeepsId(Inside(n, l), ms);
    assert Inside(n', l) == DoAll(Inside(n, l), ms);
    if l' != l {
      BystanderWorld(n, n', l, l', connected);
      BystanderWorld(n, n', l, l', connected');
    }
  }

  lemma OneWorldKeeps(n: Node, l: Uuid, ms: seq<Micro>)
    requires NodeInv(n) && l in n.worlds
    requires forall m :: m in ms && m.Emit? ==> Within(m.event, l)
    requires WorldInv(DoAll(Inside(n, l), ms), n.peers)
    ensures NodeInv(OnWorld(n, l, ms))
  {
    var n' := OnWorld(n, l, ms);
    forall l' | l' in n'.worlds ensures Live(n', l', n'.peers) { WorldMoved(n, l, ms, l', n.peers, n.peers); }
    forall l' | l' !in n'.worlds ensures Gone(n', l') { WorldMoved(n, l, ms, l', n.peers, n.peers); }
    WorldMoved(n, l, ms, l, n.peers, n.peers);
  }

  // ---- the same step in all worlds ----

  ghost predicate Sweeping(n: Node, done: seq<Uuid>, connected: set<PeerId>, connected': set<PeerId>) {
    && !n.fault
    && (forall l :: l in n.worlds ==> Live(n, l, if l in done then connected' else connected))
    && (forall l :: l !in n.worlds ==> Gone(n, l))
  }

  lemma SweepStep(n1: Node, init: seq<Uuid>, l: Uuid, m: Micro, connected: set<PeerId>, connected': set<PeerId>, n2: Node)
    requires Sweeping(n1, init, connected, connected') && l in n1.worlds && l !in init && n2 == OnWorld(n1, l, [m])
    requires m.On? && (m.op.Connect? || m.op.Remove? || m.op.RecvRST?) && m.peer != n1.local
    requires (m.op.Connect? <==> m.peer !in connected) && connected' == After(connected, m)
    ensures Sweeping(n2, init + [l], connected, connected')
    ensures n2.worlds.Keys == n1.worlds.Keys && n2.local == n1.local && n2.born == n1.born && n2.peers == n1.peers
  {
    assert Live(n1, l, connected);
    DoAllOne(Inside(n1, l), m);
    DoKeeps(Inside(n1, l), connected, m);
    WorldMoved(n1, l, [m], l, connected, connected');
    forall l' | l' in n2.worlds ensures Live(n2, l', if l' in init + [l] then connected' else connected) {
      WorldMoved(n1, l, [m], l', connected, connected');
      assert l' in init + [l] <==> l' in init || l' == l;
    }
    forall l' | l' !in n2.worlds ensures Gone(n2, l') { WorldMoved(n1, l, [m], l', connected, connected'); }
  }

  lemma {:induction false} SweepKeeps(n: Node, sweep: seq<Uuid>, m: Micro, connected: set<PeerId>, connected': set<PeerId>, n': Node)
    requires Sweeping(n, [], connected, connected') && n' == OnEach(n, sweep, m)
    requires m.On? && (m.op.Connect? || m.op.Remove? || m.op.RecvRST?) && m.peer != n.local
    requires m.op.Connect? <==> m.peer !in connected
    requires connected' == After(connected, m)
    requires forall l :: l in sweep ==> l in n.worlds
    requires forall i, j :: 0 <= i < j < |sweep| ==> sweep[i] != sweep[j]
    ensures Sweeping(n', sweep, connected, connected')
    ensures n'.worlds.Keys == n.worlds.Keys && n'.local == n.local && n'.born == n.born && n'.peers == n.peers
    decreases |sweep|
  {
    if sweep != [] {
      var init, l := sweep[..|sweep| - 1], sweep[|sweep| - 1];
      assert l in sweep && l !in init && sweep == init + [l];
      var n1 := OnEach(n, init, m);
      SweepKeeps(n, init, m, connected, connected', n1);
      SweepStep(n1, init, l, m, connected, connected', n');
    }
  }

  lemma SweepAll(n: Node, sweep: seq<Uuid>, m: Micro, connected: set<PeerId>)
    requires Sweeping(n, [], connected, After(connected, m))
    requires m.On? && (m.op.Connect? || m.op.Remove? || m.op.RecvRST?) && m.peer != n.local
    requires m.op.Connect? <==> m.peer !in connected
    requires Enumerates(sweep, n.worlds.Keys)
    ensures Sweeping(OnEach(n, sweep, m), [], After(connected, m), After(connected, m))
    ensures var n' := OnEach(n, sweep, m);
            n'.worlds.Keys == n.worlds.Keys && n'.local == n.local && n'.born == n.born && n'.peers == n.peers
  {
    var n' := OnEach(n, sweep, m);
    SweepKeeps(n, sweep, m, connected, After(connected, m), n');
    forall l | l in n'.worlds ensures Live(n', l, After(connected, m)) { assert l in sweep; }
  }

  // ---- creation and closing ----

  lemma {:induction false} StageWitness(log: seq<Event>, l: Uuid, i: nat)
    requires i < |log|
    requires (log[i].JoinSuccess? || log[i].SessionRequest?) && log[i].lsid == l
    ensures StageOf(log, l).Joined? || StageOf(log, l).Left? || StageOf(log, l).Disordered?
    decreases |log|
  {
    if i < |log| - 1 { StageWitness(log[..|log| - 1], l, i); }
  }

  lemma LiveStage(n: Node, l: Uuid)
    requires NodeInv(n) && l in n.worlds
    ensures StageOf(n.events, l).Fresh? || StageOf(n.events, l).Joined? || StageOf(n.events, l).Failed?
  {
    assert Live(n, l, n.peers);
    assert PeerInv(Inside(n, l), n.peers, n.worlds[l].id.joinHash);
  }

  lemma RequestedMeansJoined(n: Node, l: Uuid, ev: Event)
    requires NodeInv(n) && l in n.worlds && ev in n.events && (ev.JoinSuccess? || ev.SessionRequest?) && ev.lsid == l
    ensures StageOf(n.events, l).Joined?
  {
    LiveStage(n, l);
    var i :| 0 <= i < |n.events| && n.events[i] == ev;
    StageWitness(n.events, l, i);
  }

  lemma WorldsAreBorn(n: Node)
    requires NodeInv(n)
    ensures forall l :: l in n.worlds ==> l in n.born
  {
    forall l | l in n.worlds ensures l in n.born { assert Live(n, l, n.peers); }
  }

  lemma NewWorldKeeps(n: Node, l: Uuid, now: Time, st: State)
    requires NodeInv(n) && l !in n.born && l != NIL
    requires st.id.lsid == l && st.id.local == n.local && st.id.stamp == now
    requires Grew(n.events, st.events, l) && WorldInv(st, n.peers)
    ensures NodeInv(Store(n.(born := n.born[l := now]), l, st))
  {
    var n' := Store(n.(born := n.born[l := now]), l, st);
    WorldsAreBorn(n);
    assert Inside(n', l) == st;
    forall l' | l' in n'.worlds ensures Live(n', l', n'.peers) { if l' != l { BystanderWorld(n, n', l, l', n.peers); } }
    forall l' | l' !in n'.worlds ensures Gone(n', l') { BystanderWorld(n, n', l, l', n.peers); }
  }

  lemma OpenKeeps(n: Node, l: Uuid, url: string, now: Time)
    requires NodeInv(n) && l !in n.born && l != NIL
    ensures NodeInv(NodeStep(n, OpenWorld(l, url, now)))
  {
    var id := WorldId(n.local, l, now, "", "", url);
    var st := Opened(id, n.peers, n.events, n.out);
    WorldsAreBorn(n);
    assert Gone(n, l);
    var a, b := JoinSuccess(l, url), TimerRequest(l, 500);
    StageCat(Fresh, n.events, [a, b], l);
    forall p ensures PeerInv(st, n.peers, p) {
      PhaseCat(Idle, n.events, [a, b], l, p);
      Unroll(PhaseOf(n.events, l, p), StageOf(n.events, l), a, b, l, p);
    }
    NewWorldKeeps(n, l, now, st);
  }

  lemma JoiningPeer(id: WorldId, connected: set<PeerId>, st: State, p: PeerId)
    requires st.id == id && StageOf(st.events, id.lsid).Fresh? && PhaseOf(st.events, id.lsid, p).Idle?
    requires Get(st.peers, p) == if p == id.joinHash
                                 then Some(if p in connected then IDLE.(status := Jt) else Entry(false, NIL, ZERO_TIME, DcJt, false, 0))
                                 else if p in connected then Some(IDLE) else None
    ensures PeerInv(st, connected, p)
  {
  }

  lemma JoiningInv(id: WorldId, connected: set<PeerId>, events: seq<Event>, out: seq<Send>, st: State)
    requires id.local !in connected && id.joinHash != id.local
    requires StageOf(events, id.lsid).Fresh? && forall p :: PhaseOf(events, id.lsid, p).Idle?
    requires st == Joining(id, connected, events, out)
    ensures WorldInv(st, connected)
  {
    var a := ConnectRequest(id.joinHash);
    StageCat(Fresh, events, [a], id.lsid);
    Unroll(Idle, Fresh, a, a, id.lsid, "");
    forall p ensures PeerInv(st, connected, p) {
      assert PhaseOf(events, id.lsid, p).Idle?;
      PhaseCat(Idle, events, [a], id.lsid, p);
      Unroll(Idle, Fresh, a, a, id.lsid, p);
      JoiningPeer(id, connected, st, p);
    }
  }

  lemma JoinKeeps(n: Node, l: Uuid, target: PeerId, path: string, now: Time)
    requires NodeInv(n) && l !in n.born && l != NIL && target != n.local
    ensures NodeInv(NodeStep(n, JoinWorld(l, target, path, now)))
  {
    var id := WorldId(n.local, l, now, target, path, "");
    var st := Joining(id, n.peers, n.events, n.out);
    WorldsAreBorn(n);
    assert Gone(n, l);
    JoiningInv(id, n.peers, n.events, n.out, Joining(id, n.peers, n.events, n.out));
    NewWorldKeeps(n, l, now, st);
  }

  lemma CloseWorldKeeps(n: Node, l: Uuid, order: seq<PeerId>)
    requires NodeInv(n) && l in n.worlds && Enumerates(order, n.worlds[l].peers.Keys)
    ensures NodeInv(NodeStep(n, CloseWorld(l, order)))
    ensures StageOf(NodeStep(n, CloseWorld(l, order)).events, l) == if Early(n.worlds[l].id, n.worlds[l].peers) then LeftEarly else Left
  {
    var st := Inside(n, l);
    var plan := PlanClose(st.id, order);
    assert Live(n, l, n.peers);
    CloseKeeps(st, n.peers, order);
    DoAllGrows(st, plan);
    var n' := WithoutWorld(n, l, DoAll(st, plan));
    CloseDrops(n, l, order);
    forall l' | l' in n'.worlds ensures Live(n', l', n'.peers) { BystanderWorld(n, n', l, l', n.peers); }
    forall l' | l' !in n'.worlds ensures Gone(n', l') { if l' != l { BystanderWorld(n, n', l, l', n.peers); } }
  }

  // ---- every call, every run ----

  lemma CallOnWorldKeeps(n: Node, l: Uuid, a: Input)
    requires NodeInv(n) && Admissible(n, a) && l in n.worlds
    requires (a.AcceptSession? || a.DeclineSession? || a.TimerExpire? || a.Recv?) && a.lsid == l
    ensures NodeInv(OnWorld(n, l, PlanFor(n, l, a)))
  {
    var st := Inside(n, l);
    assert Live(n, l, n.peers);
    match a
    case AcceptSession(_, p, s, order) =>
      RequestedMeansJoined(n, l, SessionRequest(l, p, s));
      AcceptKeeps(st, n.peers, p, s, order);
      OneWorldKeeps(n, l, PlanFor(n, l, a));
    case DeclineSession(_, p, s) =>
      RequestedMeansJoined(n, l, SessionRequest(l, p, s));
      DoAllOne(st, On(p, Decline(s)));
      DoKeeps(st, n.peers, On(p, Decline(s)));
      OneWorldKeeps(n, l, PlanFor(n, l, a));
    case TimerExpire(_, now, order, order2, seed) =>
      TimerKeeps(st, n.peers, now, order, order2, seed);
      TimerEmits(st.id, st.peers, now, order, order2, seed);
      OneWorldKeeps(n, l, PlanFor(n, l, a));
    case Recv(p, _, m, _) =>
      MessageOnWorldKeeps(n, l, p, m);
      OneWorldKeeps(n, l, PlanFor(n, l, a));
  }

  lemma MessageOnWorldKeeps(n: Node, l: Uuid, p: PeerId, m: Msg)
    requires NodeInv(n) && l in n.worlds && p in n.peers
    requires m.MJN? ==> JoinedIn(n.events, l)
    requires m.MCRR? ==> RelaysLinked(n.worlds[l].peers, m.refs)
    ensures var st := Inside(n, l); WorldInv(DoAll(st, PlanRecv(st.id, st.peers, p, m)), n.peers)
    ensures forall x :: x in PlanRecv(n.worlds[l].id, n.worlds[l].peers, p, m) ==> x.On?
  {
    var st := Inside(n, l);
    assert Live(n, l, n.peers);
    if m.MJN? {
      var i :| 0 <= i < |n.events| && n.events[i].JoinSuccess? && n.events[i].lsid == l;
      RequestedMeansJoined(n, l, n.events[i]);
    }
    RecvKeeps(st, n.peers, p, m);
    RecvEmitsNothing(st.id, st.peers, p, m);
  }

  lemma TimerEmits(id: WorldId, peers: Peers, now: Time, order: seq<PeerId>, order2: seq<PeerId>, seed: nat)
    ensures forall x :: x in PlanTimer(id, peers, now, order, order2, seed) && x.Emit? ==> Within(x.event, id.lsid)
  {
    var plan := PlanTimer(id, peers, now, order, order2, seed);
    TimerHarmless(id, peers, now, order, order2, seed, plan[..|plan| - 1]);
    assert plan == plan[..|plan| - 1] + [plan[|plan| - 1]];
  }

  lemma {:induction false} ListsEmitNothing(id: WorldId, origin: SessionRef, source: Member, members: seq<Member>, refs: seq<SessionRef>)
    ensures forall x :: x in PlanIntroductions(id.local, members) ==> x.On?
    ensures forall x :: x in PlanGossip(id, origin, refs) ==> x.On?
    ensures forall x :: x in PlanRelay(id, source, refs) ==> x.On?
    decreases |members| + |refs|
  {
    if members != [] { ListsEmitNothing(id, origin, source, members[..|members| - 1], refs); }
    if refs != [] { ListsEmitNothing(id, origin, source, members, refs[..|refs| - 1]); }
  }

  lemma RecvEmitsNothing(id: WorldId, peers: Peers, p: PeerId, m: Msg)
    ensures forall x :: x in PlanRecv(id, peers, p, m) ==> x.On?
  {
    match m
    case MJOK(s, _, _, _, members) => ListsEmitNothing(id, SessionRef(p, s), Member(p, s, 0), members, []);
    case MJNI(s, _, member) => ListsEmitNothing(id, SessionRef(p, s), Member(p, s, 0), [member], []);
    case MSJN(s, _, refs) => ListsEmitNothing(id, SessionRef(p, s), Member(p, s, 0), [], refs);
    case MCRR(s, _, refs) =>
      if p in peers { ListsEmitNothing(id, SessionRef(p, s), MemberOf(p, peers[p]), [], refs); }
    case _ =>
  }

  /** Every admissible call keeps the node invariant; in particular it does not panic. */
  lemma StepKeepsNode(n: Node, a: Input)
    requires NodeInv(n) && Admissible(n, a)
    ensures NodeInv(NodeStep(n, a))
  {
    match a
    case PeerConnected(p, sweep) =>
      var n0 := n.(peers := n.peers + {p});
      forall l | l in n0.worlds ensures Live(n0, l, n.peers) { assert Live(n, l, n.peers); assert Inside(n0, l) == Inside(n, l); }
      forall l | l !in n0.worlds ensures Gone(n0, l) { assert Gone(n, l); }
      SweepAll(n0, sweep, On(p, Connect), n.peers);
    case PeerClose(p, sweep) =>
      SweepAll(n, sweep, On(p, Remove), n.peers);
      var n1 := OnEach(n, sweep, On(p, Remove));
      var n' := NodeStep(n, a);
      forall l | l in n'.worlds ensures Live(n', l, n'.peers) { assert Inside(n', l) == Inside(n1, l); }
      forall l | l !in n'.worlds ensures Gone(n', l) { assert Gone(n1, l); }
    case OpenWorld(l, url, now) => OpenKeeps(n, l, url, now);
    case JoinWorld(l, target, path, now) => JoinKeeps(n, l, target, path, now);
    case CloseWorld(l, order) => if l in n.worlds { CloseWorldKeeps(n, l, order); }
    case Recv(p, l, m, sweep) =>
      if m.MRST? && l == NIL { SweepAll(n, sweep, On(p, RecvRST), n.peers); }
      else if l in n.worlds { CallOnWorldKeeps(n, l, a); }
    case _ => if a.lsid in n.worlds { CallOnWorldKeeps(n, a.lsid, a); }
  }

  /** Every legal run ends in a state that satisfies the node invariant. */
  lemma {:induction false} RunKeepsNode(local: PeerId, calls: seq<Input>)
    requires Legal(local, calls)
    ensures NodeInv(Exec(local, calls))
    decreases |calls|
  {
    if calls != [] {
      LegalPrefix(local, calls, |calls| - 1);
      RunKeepsNode(local, calls[..|calls| - 1]);
      StepKeepsNode(Exec(local, calls[..|calls| - 1]), calls[|calls| - 1]);
    }
  }
}
