/** Where the object events of a log come from: each goes back to one SOA or SOD of the member session, in order. */
module Objects {
  import opened Prelude
  import opened Abyss
  import opened PeerEntry
  import opened WorldModel
  import opened NodeModel
  import opened NodeInvariant
  import opened Handlers

  predicate IsObject(ev: Event) {
    ev.ObjectAppend? || ev.ObjectDelete?
  }

  function OnlyObjects(log: seq<Event>): seq<Event> {
    if log == [] then []
    else OnlyObjects(log[..|log| - 1]) + if IsObject(log[|log| - 1]) then [log[|log| - 1]] else []
  }

  lemma ObjectsSnoc(log: seq<Event>, ev: Event)
    ensures OnlyObjects(log + [ev]) == OnlyObjects(log) + if IsObject(ev) then [ev] else []
  {
    assert (log + [ev])[..|log|] == log;
  }

  // ---- calls that report no objects ----

  ghost predicate Grown(log: seq<Event>, log': seq<Event>) {
    log <= log' && OnlyObjects(log') == OnlyObjects(log)
  }

  lemma {:induction false} GrownBy(log: seq<Event>, es: seq<Event>)
    requires forall ev :: ev in es ==> !IsObject(ev)
    ensures Grown(log, log + es)
    decreases |es|
  {
    if es == [] {
      assert log + es == log;
    } else {
      var init, ev := es[..|es| - 1], es[|es| - 1];
      assert ev in es && log + es == (log + init) + [ev];
      GrownBy(log, init);
      ObjectsSnoc(log + init, ev);
    }
  }

  predicate Objectless(m: Micro) {
    match m
    case Emit(ev) => !IsObject(ev)
    case On(_, op) => !op.RecvSOA? && !op.RecvSOD?
  }

  lemma StepIsObjectless(w: WorldId, p: PeerId, e: Option<Entry>, op: Op)
    requires !op.RecvSOA? && !op.RecvSOD?
    ensures forall ev :: ev in Step(w, p, e, op).events ==> !IsObject(ev)
  {
  }

  lemma {:induction false} PlanGrows(st: State, ms: seq<Micro>)
    requires forall m :: m in ms ==> Objectless(m)
    ensures Grown(st.events, DoAll(st, ms).events)
    decreases |ms|
  {
    if ms != [] {
      var init, m := ms[..|ms| - 1], ms[|ms| - 1];
      var st1 := DoAll(st, init);
      assert m in ms;
      PlanGrows(st, init);
      if m.On? {
        StepIsObjectless(st1.id, m.peer, Get(st1.peers, m.peer), m.op);
        GrownBy(st1.events, Step(st1.id, m.peer, Get(st1.peers, m.peer), m.op).events);
      } else {
        GrownBy(st1.events, [m.event]);
      }
    }
  }

  lemma WorldGrown(n: Node, l: Uuid, ms: seq<Micro>)
    requires forall m :: m in ms ==> Objectless(m)
    ensures Grown(n.events, OnWorld(n, l, ms).events)
  {
    if l in n.worlds { PlanGrows(Inside(n, l), ms); }
  }

  lemma {:induction false} SweepGrown(n: Node, sweep: seq<Uuid>, m: Micro)
    requires Objectless(m)
    ensures Grown(n.events, OnEach(n, sweep, m).events)
    decreases |sweep|
  {
    if sweep != [] {
      SweepGrown(n, sweep[..|sweep| - 1], m);
      WorldGrown(OnEach(n, sweep[..|sweep| - 1], m), sweep[|sweep| - 1], [m]);
    }
  }

  lemma {:induction false} ListsAreObjectless(id: WorldId, origin: SessionRef, source: Member, members: seq<Member>, refs: seq<SessionRef>)
    ensures forall x :: x in PlanIntroductions(id.local, members) ==> Objectless(x)
    ensures forall x :: x in PlanGossip(id, origin, refs) ==> Objectless(x)
    ensures forall x :: x in PlanRelay(id, source, refs) ==> Objectless(x)
    decreases |members| + |refs|
  {
    if members != [] { ListsAreObjectless(id, origin, source, members[..|members| - 1], refs); }
    if refs != [] { ListsAreObjectless(id, origin, source, members, refs[..|refs| - 1]); }
  }

  lemma RecvIsObjectless(id: WorldId, peers: Peers, p: PeerId, m: Msg)
    requires !m.MSOA? && !m.MSOD?
    ensures forall x :: x in PlanRecv(id, peers, p, m) ==> Objectless(x)
  {
    match m
    case MJOK(s, _, _, _, members) => ListsAreObjectless(id, SessionRef(p, s), Member(p, s, 0), members, []);
    case MJNI(s, _, member) => ListsAreObjectless(id, SessionRef(p, s), Member(p, s, 0), [member], []);
    case MSJN(s, _, refs) => ListsAreObjectless(id, SessionRef(p, s), Member(p, s, 0), [], refs);
    case MCRR(s, _, refs) =>
      if p in peers { ListsAreObjectless(id, SessionRef(p, s), MemberOf(p, peers[p]), [], refs); }
    case _ =>
  }

  predicate BringsObjects(a: Input) {
    a.Recv? && (a.msg.MSOA? || a.msg.MSOD?)
  }

  lemma PlanIsObjectless(n: Node, l: Uuid, a: Input)
    requires l in n.worlds && !BringsObjects(a)
    ensures forall x :: x in PlanFor(n, l, a) ==> Objectless(x)
  {
    if a.Recv? { RecvIsObjectless(n.worlds[l].id, n.worlds[l].peers, a.peer, a.msg); }
  }

  lemma CallReportsNone(n: Node, a: Input)
    requires !BringsObjects(a)
    ensures Grown(n.events, NodeStep(n, a).events)
  {
    match a
    case PeerConnected(p, sweep) => SweepGrown(n.(peers := n.peers + {p}), sweep, On(p, Connect));
    case PeerClose(p, sweep) => SweepGrown(n, sweep, On(p, Remove));
    case OpenWorld(l, url, _) => GrownBy(n.events, [JoinSuccess(l, url), TimerRequest(l, 500)]);
    case JoinWorld(_, target, _, _) => GrownBy(n.events, if target in n.peers then [] else [ConnectRequest(target)]);
    case Recv(p, l, m, sweep) =>
      if m.MRST? && l == NIL { SweepGrown(n, sweep, On(p, RecvRST)); }
      else if l in n.worlds { PlanIsObjectless(n, l, a); WorldGrown(n, l, PlanFor(n, l, a)); }
    case _ => if a.lsid in n.worlds { PlanIsObjectless(n, a.lsid, a); WorldGrown(n, a.lsid, PlanFor(n, a.lsid, a)); }
  }

  // ---- every run ----

  /** What the application must learn from a call about objects: those a member sends within its session. */
  function ObjectsOf(n: Node, a: Input): seq<Event> {
    if a.Recv? && a.lsid in n.worlds && a.peer in n.worlds[a.lsid].peers && n.worlds[a.lsid].peers[a.peer].status.Mem? then
      var session := n.worlds[a.lsid].peers[a.peer].session;
      if a.msg.MSOA? && a.msg.sender == session then [ObjectAppend(a.lsid, a.peer, session, a.msg.objects)]
      else if a.msg.MSOD? && a.msg.sender == session then [ObjectDelete(a.lsid, a.peer, session, a.msg.objects)]
      else []
    else []
  }

  function ObjectHistory(local: PeerId, calls: seq<Input>): seq<Event> {
    if calls == [] then []
    else ObjectHistory(local, calls[..|calls| - 1]) + ObjectsOf(Exec(local, calls[..|calls| - 1]), calls[|calls| - 1])
  }

  lemma CallReports(n: Node, a: Input)
    requires NodeInv(n) && Admissible(n, a)
    ensures OnlyObjects(NodeStep(n, a).events) == OnlyObjects(n.events) + ObjectsOf(n, a)
  {
    if !BringsObjects(a) {
      CallReportsNone(n, a);
    } else if a.lsid in n.worlds {
      if a.msg.MSOA? {
        SOAAppends(n, a.peer, a.lsid, a.msg.sender, a.msg.recver, a.msg.objects, a.sweep);
      } else {
        SODDeletes(n, a.peer, a.lsid, a.msg.sender, a.msg.recver, a.msg.objects, a.sweep);
      }
      if ObjectsOf(n, a) != [] { ObjectsSnoc(n.events, ObjectsOf(n, a)[0]); }
    }
  }

  /**
   In every legal run the object events of the log are exactly those of the SOA
   and SOD messages that came from a member within its session, each once, in
   order, with the objects of the message.
   */
  lemma {:induction false} ObjectsFollowMessages(local: PeerId, calls: seq<Input>)
    requires Legal(local, calls)
    ensures OnlyObjects(Exec(local, calls).events) == ObjectHistory(local, calls)
    decreases |calls|
  {
    if calls != [] {
      ObjectsFollowMessages(local, calls[..|calls| - 1]);
      RunKeepsNode(local, calls[..|calls| - 1]);
      CallReports(Exec(local, calls[..|calls| - 1]), calls[|calls| - 1]);
    }
  }

  /** The call delivers the message that the event reports. */
  predicate Delivers(a: Input, ev: Event) {
    && a.Recv? && IsObject(ev) && a.lsid == ev.lsid && a.peer == ev.peer
    && (ev.ObjectAppend? ==> a.msg.MSOA?) && (ev.ObjectDelete? ==> a.msg.MSOD?)
    && (a.msg.MSOA? || a.msg.MSOD? ==> a.msg.sender == ev.session && a.msg.objects == ev.objects)
  }

  lemma {:induction false} HistoryHasSource(local: PeerId, calls: seq<Input>, ev: Event)
    requires ev in ObjectHistory(local, calls)
    ensures exists k :: 0 <= k < |calls| && Delivers(calls[k], ev)
    decreases |calls|
  {
    var init, a := calls[..|calls| - 1], calls[|calls| - 1];
    if ev in ObjectHistory(local, init) {
      HistoryHasSource(local, init, ev);
      var k :| 0 <= k < |init| && Delivers(init[k], ev);
      assert calls[k] == init[k];
    } else {
      assert ev in ObjectsOf(Exec(local, init), a);
      assert Delivers(calls[|calls| - 1], ev);
    }
  }

  lemma {:induction false} ObjectsAreKept(log: seq<Event>, ev: Event)
    requires ev in log && IsObject(ev)
    ensures ev in OnlyObjects(log)
    decreases |log|
  {
    if ev in log[..|log| - 1] { ObjectsAreKept(log[..|log| - 1], ev); }
  }

  /** Every object event goes back to a message of the same kind, from the same peer, about the same session and objects. */
  lemma ObjectsHaveSource(local: PeerId, calls: seq<Input>, ev: Event)
    requires Legal(local, calls) && ev in Exec(local, calls).events && IsObject(ev)
    ensures exists k :: 0 <= k < |calls| && Delivers(calls[k], ev)
  {
    ObjectsFollowMessages(local, calls);
    ObjectsAreKept(Exec(local, calls).events, ev);
    HistoryHasSource(local, calls, ev);
  }
}
