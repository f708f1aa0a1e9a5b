/**
 Who asks for timers and who gossips.  The host calls TimerExpire only for a
 timer that AND has asked for, so a timer is the continuation of the first one,
 which only an opened world gets.
 */
module Timers {
  import opened Prelude
  import opened Abyss
  import opened PeerEntry
  import opened WorldModel
  import opened NodeModel
  import opened NodeInvariant

  ghost predicate HasTimer(log: seq<Event>, l: Uuid) {
    exists i :: 0 <= i < |log| && log[i].TimerRequest? && log[i].lsid == l
  }

  /** Every expiry answers a request that is already in the log. */
  ghost predicate Timed(local: PeerId, calls: seq<Input>) {
    calls == [] ||
    (Timed(local, calls[..|calls| - 1]) &&
     (calls[|calls| - 1].TimerExpire? ==> HasTimer(Exec(local, calls[..|calls| - 1]).events, calls[|calls| - 1].lsid)))
  }

  predicate IsOpening(a: Input, l: Uuid) {
    a.OpenWorld? && a.lsid == l
  }

  ghost predicate OpenedIn(calls: seq<Input>, l: Uuid) {
    exists i :: 0 <= i < |calls| && IsOpening(calls[i], l)
  }

  // ---- one plan ----

  /** Timer requests and SJN messages are those of world `who`, if of any. */
  predicate TimerOf(ev: Event, who: Option<Uuid>) {
    ev.TimerRequest? ==> who == Some(ev.lsid)
  }

  predicate GossipOf(x: Send, who: Option<Uuid>) {
    x.msg.MSJN? ==> who == Some(x.msg.sender)
  }

  predicate Keeps(m: Micro, who: Option<Uuid>) {
    match m
    case Emit(ev) => TimerOf(ev, who)
    case On(p, op) => op.Tell? ==> GossipOf(Send(p, op.msg), who)
  }

  ghost predicate OnlyOf(events: seq<Event>, out: seq<Send>, events': seq<Event>, out': seq<Send>, who: Option<Uuid>) {
    && events <= events' && out <= out'
    && (forall i :: |events| <= i < |events'| ==> TimerOf(events'[i], who))
    && (forall i :: |out| <= i < |out'| ==> GossipOf(out'[i], who))
  }

  lemma StepKeepsSilent(w: WorldId, p: PeerId, e: Option<Entry>, op: Op)
    ensures forall ev :: ev in Step(w, p, e, op).events ==> !ev.TimerRequest?
    ensures !op.Tell? ==> forall x :: x in Step(w, p, e, op).sends ==> !x.msg.MSJN?
  {
  }

  lemma MicroOnlyOf(st: State, m: Micro, who: Option<Uuid>, st': State)
    requires Keeps(m, who) && st' == Do(st, m)
    ensures OnlyOf(st.events, st.out, st'.events, st'.out, who)
  {
    if m.On? {
      var o := Step(st.id, m.peer, Get(st.peers, m.peer), m.op);
      StepKeepsSilent(st.id, m.peer, Get(st.peers, m.peer), m.op);
      StepGossip(st.id, m.peer, Get(st.peers, m.peer), m.op, who);
      EmittedOnlyOf(st.events, st.out, o.events, o.sends, who);
    }
  }

  lemma StepGossip(w: WorldId, p: PeerId, e: Option<Entry>, op: Op, who: Option<Uuid>)
    requires Keeps(On(p, op), who)
    ensures forall x :: x in Step(w, p, e, op).sends ==> GossipOf(x, who)
  {
    StepKeepsSilent(w, p, e, op);
  }

  lemma EmittedOnlyOf(events: seq<Event>, out: seq<Send>, es: seq<Event>, xs: seq<Send>, who: Option<Uuid>)
    requires (forall ev :: ev in es ==> TimerOf(ev, who)) && (forall x :: x in xs ==> GossipOf(x, who))
    ensures OnlyOf(events, out, events + es, out + xs, who)
  {
  }

  lemma {:induction false} PlanOnlyOf(st: State, ms: seq<Micro>, who: Option<Uuid>)
    requires forall m :: m in ms ==> Keeps(m, who)
    ensures OnlyOf(st.events, st.out, DoAll(st, ms).events, DoAll(st, ms).out, who)
    decreases |ms|
  {
    if ms != [] {
      var st1 := DoAll(st, ms[..|ms| - 1]);
      PlanOnlyOf(st, ms[..|ms| - 1], who);
      MicroOnlyOf(st1, ms[|ms| - 1], who, Do(st1, ms[|ms| - 1]));
    }
  }

  lemma {:induction false} ListsAreQuiet(id: WorldId, origin: SessionRef, source: Member, members: seq<Member>, refs: seq<SessionRef>)
    ensures forall x :: x in PlanIntroductions(id.local, members) ==> Keeps(x, None)
    ensures forall x :: x in PlanGossip(id, origin, refs) ==> Keeps(x, None)
    ensures forall x :: x in PlanRelay(id, source, refs) ==> Keeps(x, None)
    decreases |members| + |refs|
  {
    if members != [] { ListsAreQuiet(id, origin, source, members[..|members| - 1], refs); }
    if refs != [] { ListsAreQuiet(id, origin, source, members, refs[..|refs| - 1]); }
  }

  lemma RecvIsQuiet(id: WorldId, peers: Peers, p: PeerId, m: Msg)
    ensures forall x :: x in PlanRecv(id, peers, p, m) ==> Keeps(x, None)
  {
    match m
    case MJOK(s, _, _, _, members) => ListsAreQuiet(id, SessionRef(p, s), Member(p, s, 0), members, []);
    case MJNI(s, _, member) => ListsAreQuiet(id, SessionRef(p, s), Member(p, s, 0), [member], []);
    case MSJN(s, _, refs) => ListsAreQuiet(id, SessionRef(p, s), Member(p, s, 0), [], refs);
    case MCRR(s, _, refs) =>
      if p in peers { ListsAreQuiet(id, SessionRef(p, s), MemberOf(p, peers[p]), [], refs); }
    case _ =>
  }

  lemma TimerIsOwn(id: WorldId, peers: Peers, now: Time, order: seq<PeerId>, order2: seq<PeerId>, seed: nat)
    ensures forall x :: x in PlanTimer(id, peers, now, order, order2, seed) ==> Keeps(x, Some(id.lsid))
  {
    var members, refs := MembersIn(peers, order2), RefList(peers, ListableIn(peers, order, now));
    forall x | x in PlanSpread(id, peers, members, refs) ensures Keeps(x, Some(id.lsid)) {
      var i :| 0 <= i < |members| && PlanSpread(id, peers, members, refs)[i] == x;
    }
  }

  lemma AcceptIsQuiet(id: WorldId, peers: Peers, p: PeerId, session: Uuid, order: seq<PeerId>)
    ensures forall x :: x in PlanAccept(id, peers, p, session, order) ==> Keeps(x, None)
  {
    if p in peers {
      var ms := MembersIn(peers, order);
      forall x | x in PlanFanOut(id, peers, ms, MemberOf(p, peers[p])) ensures Keeps(x, None) {
        var i :| 0 <= i < |ms| && PlanFanOut(id, peers, ms, MemberOf(p, peers[p]))[i] == x;
      }
    }
  }

  // ---- one call ----

  /** The world whose timers and gossip a call may add. */
  function Ticking(a: Input): Option<Uuid> {
    if a.OpenWorld? || a.TimerExpire? then Some(a.lsid) else None
  }

  lemma PlanIsOwn(n: Node, l: Uuid, a: Input)
    requires NodeInv(n) && l in n.worlds && (a.TimerExpire? ==> a.lsid == l)
    ensures forall x :: x in PlanFor(n, l, a) ==> Keeps(x, if a.TimerExpire? then Some(l) else None)
  {
    var w := n.worlds[l];
    assert Live(n, l, n.peers);
    match a
    case TimerExpire(_, now, order, order2, seed) => TimerIsOwn(w.id, w.peers, now, order, order2, seed);
    case AcceptSession(_, p, s, order) => AcceptIsQuiet(w.id, w.peers, p, s, order);
    case Recv(p, _, m, _) => RecvIsQuiet(w.id, w.peers, p, m);
    case _ =>
  }

  ghost predicate NodeOnlyOf(n: Node, n': Node, who: Option<Uuid>) {
    OnlyOf(n.events, n.out, n'.events, n'.out, who)
  }

  lemma WorldOnlyOf(n: Node, l: Uuid, ms: seq<Micro>, who: Option<Uuid>)
    requires forall m :: m in ms ==> Keeps(m, who)
    ensures NodeOnlyOf(n, OnWorld(n, l, ms), who)
  {
    if l in n.worlds { PlanOnlyOf(Inside(n, l), ms, who); }
  }

  lemma {:induction false} SweepOnlyOf(n: Node, sweep: seq<Uuid>, m: Micro)
    requires Keeps(m, None)
    ensures NodeOnlyOf(n, OnEach(n, sweep, m), None)
    decreases |sweep|
  {
    if sweep != [] {
      SweepOnlyOf(n, sweep[..|sweep| - 1], m);
      WorldOnlyOf(OnEach(n, sweep[..|sweep| - 1], m), sweep[|sweep| - 1], [m], None);
    }
  }

  lemma CallOnlyOf(n: Node, a: Input)
    requires NodeInv(n)
    ensures NodeOnlyOf(n, NodeStep(n, a), Ticking(a))
  {
    match a
    case PeerConnected(p, sweep) => SweepOnlyOf(n.(peers := n.peers + {p}), sweep, On(p, Connect));
    case PeerClose(p, sweep) => SweepOnlyOf(n, sweep, On(p, Remove));
    case OpenWorld(_, _, _) =>
    case JoinWorld(_, _, _, _) =>
    case Recv(p, l, m, sweep) =>
      if m.MRST? && l == NIL { SweepOnlyOf(n, sweep, On(p, RecvRST)); }
      else if l in n.worlds { PlanIsOwn(n, l, a); WorldOnlyOf(n, l, PlanFor(n, l, a), None); }
    case _ =>
      if a.lsid in n.worlds { PlanIsOwn(n, a.lsid, a); WorldOnlyOf(n, a.lsid, PlanFor(n, a.lsid, a), Ticking(a)); }
  }

  // ---- every run ----

  /** Timers belong to opened worlds, and only they have sent SJN. */
  ghost predicate TimersAreOpened(n: Node, calls: seq<Input>) {
    && (forall l :: HasTimer(n.events, l) <==> OpenedIn(calls, l))
    && (forall i :: 0 <= i < |n.out| && n.out[i].msg.MSJN? ==> OpenedIn(calls, n.out[i].msg.sender))
  }

  lemma OpenedSnoc(calls: seq<Input>, l: Uuid)
    requires calls != []
    ensures OpenedIn(calls, l) <==> OpenedIn(calls[..|calls| - 1], l) || IsOpening(calls[|calls| - 1], l)
  {
    var init := calls[..|calls| - 1];
    if i :| 0 <= i < |init| && IsOpening(init[i], l) { assert calls[i] == init[i]; }
    if IsOpening(calls[|calls| - 1], l) { assert calls[|calls| - 1] == calls[|calls| - 1]; }
  }

  lemma TimerGrows(log: seq<Event>, log': seq<Event>, l: Uuid, who: Option<Uuid>)
    requires log <= log' && forall i :: |log| <= i < |log'| ==> TimerOf(log'[i], who)
    ensures HasTimer(log, l) ==> HasTimer(log', l)
    ensures HasTimer(log', l) && !HasTimer(log, l) ==> who == Some(l)
  {
    if HasTimer(log, l) {
      var i :| 0 <= i < |log| && log[i].TimerRequest? && log[i].lsid == l;
      assert log'[i] == log[i];
    } else if HasTimer(log', l) {
      assert forall i :: 0 <= i < |log| ==> log[i] == log'[i];
      var i :| 0 <= i < |log'| && log'[i].TimerRequest? && log'[i].lsid == l;
      assert |log| <= i;
    }
  }

  lemma OpeningAsks(n: Node, a: Input)
    requires a.OpenWorld?
    ensures HasTimer(NodeStep(n, a).events, a.lsid)
  {
    assert NodeStep(n, a).events[|n.events| + 1] == TimerRequest(a.lsid, 500);
  }

  lemma CallTimers(n: Node, a: Input, calls: seq<Input>, n': Node)
    requires NodeInv(n) && n' == NodeStep(n, a) && calls != [] && calls[|calls| - 1] == a
    requires TimersAreOpened(n, calls[..|calls| - 1]) && (a.TimerExpire? ==> HasTimer(n.events, a.lsid))
    ensures TimersAreOpened(n', calls)
  {
    CallOnlyOf(n, a);
    forall l ensures HasTimer(n'.events, l) <==> OpenedIn(calls, l) {
      OpenedSnoc(calls, l);
      TimerGrows(n.events, n'.events, l, Ticking(a));
      if IsOpening(a, l) { OpeningAsks(n, a); }
    }
    forall i | 0 <= i < |n'.out| && n'.out[i].msg.MSJN? ensures OpenedIn(calls, n'.out[i].msg.sender) {
      OpenedSnoc(calls, n'.out[i].msg.sender);
      if i < |n.out| { assert n'.out[i] == n.out[i]; } else { assert GossipOf(n'.out[i], Ticking(a)); }
    }
  }

  lemma {:induction false} TimersAlways(local: PeerId, calls: seq<Input>)
    requires Legal(local, calls) && Timed(local, calls)
    ensures TimersAreOpened(Exec(local, calls), calls)
    decreases |calls|
  {
    if calls != [] {
      var init := calls[..|calls| - 1];
      TimersAlways(local, init);
      RunKeepsNode(local, init);
      CallTimers(Exec(local, init), calls[|calls| - 1], calls, Exec(local, calls));
    }
  }

  /** A world has asked for a timer exactly if it was opened, so a world that was joined never gossips. */
  lemma OnlyOpenedWorldsGossip(local: PeerId, calls: seq<Input>, l: Uuid)
    requires Legal(local, calls) && Timed(local, calls)
    ensures HasTimer(Exec(local, calls).events, l) <==> OpenedIn(calls, l)
    ensures !OpenedIn(calls, l) ==>
              forall i :: 0 <= i < |Exec(local, calls).out| && Exec(local, calls).out[i].msg.MSJN? ==>
                Exec(local, calls).out[i].msg.sender != l
  {
    TimersAlways(local, calls);
  }
}
