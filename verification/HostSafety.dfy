/**
 AND and the host together: application calls and the event loop interleave in
 any way, and the event loop may lag behind by any number of events.
 */
module HostSafety {
  import opened Abyss
  import opened PeerEntry
  import opened WorldModel
  import opened NodeModel
  import opened EventOrder
  import opened WorldInvariant
  import opened NodeInvariant
  import opened EventTheorems
  import opened HostModel

  datatype Act = Api(call: Input) | Drain

  /** `done` events of the node's log have been handled. */
  datatype Pair = Pair(node: Node, host: Host, done: nat)

  function Initial(local: PeerId): Pair {
    Pair(Start(local), NEW_HOST, 0)
  }

  function PairStep(s: Pair, a: Act): Pair {
    match a
    case Api(call) =>
      s.(node := NodeStep(s.node, call),
         host := if call.OpenWorld? || call.JoinWorld? then Register(s.host, call.lsid) else s.host)
    case Drain =>
      if s.done < |s.node.events| then s.(host := HandleEvent(s.host, s.node.events[s.done]), done := s.done + 1) else s
  }

  function PairExec(local: PeerId, acts: seq<Act>): Pair {
    if acts == [] then Initial(local) else PairStep(PairExec(local, acts[..|acts| - 1]), acts[|acts| - 1])
  }

  ghost predicate PairLegal(local: PeerId, acts: seq<Act>) {
    acts == [] ||
    (PairLegal(local, acts[..|acts| - 1]) &&
     (acts[|acts| - 1].Api? ==> Admissible(PairExec(local, acts[..|acts| - 1]).node, acts[|acts| - 1].call)))
  }

  // ---- the host state as a function of the handled events ----

  function Mentioned(log: seq<Event>): set<Uuid> {
    set i | 0 <= i < |log| && !Quiet(log[i]) :: log[i].lsid
  }

  /** Worlds whose handled events leave the peer ready. */
  function ReadyWorlds(log: seq<Event>, p: PeerId): set<Uuid> {
    set l | l in Mentioned(log) && PhaseOf(log, l, p).Ready?
  }

  lemma ReadyWorldsExact(log: seq<Event>, l: Uuid, p: PeerId)
    ensures l in ReadyWorlds(log, p) <==> PhaseOf(log, l, p).Ready?
  {
    if PhaseOf(log, l, p).Ready? {
      var j := ReadySince(log, l, p);
      assert log[j].lsid == l && !Quiet(log[j]);
    }
  }

  ghost predicate TracksWorlds(h: Host, log: seq<Event>, born: set<Uuid>) {
    && (forall l :: l in h.worlds <==> StageOf(log, l).Joined? || StageOf(log, l).Failed?)
    && (forall l :: l in h.worlds ==> h.worlds[l] == StageOf(log, l).Joined?)
    && (forall l :: l in h.queue <==> l in born && StageOf(log, l).Fresh?)
  }

  /** What an event is worth to a join waiter. */
  function ResultOf(ev: Event): seq<JoinResult> {
    match ev
    case JoinSuccess(l, url) => [Entered(l, url)]
    case JoinFail(l, code) => [Refused(l, code)]
    case _ => []
  }

  /** The join results of a log, in order. */
  function ResultsOf(log: seq<Event>): seq<JoinResult> {
    if log == [] then [] else ResultsOf(log[..|log| - 1]) + ResultOf(log[|log| - 1])
  }

  lemma ResultsSnoc(log: seq<Event>, ev: Event)
    ensures ResultsOf(log + [ev]) == ResultsOf(log) + ResultOf(ev)
  {
    assert (log + [ev])[..|log|] == log;
  }

  ghost predicate TracksPeers(h: Host, log: seq<Event>) {
    forall p :: ActiveCount(h, p) == |ReadyWorlds(log, p)|
  }

  ghost predicate Tracks(h: Host, log: seq<Event>, born: set<Uuid>) {
    !h.fault && TracksWorlds(h, log, born) && TracksPeers(h, log) && h.results == ResultsOf(log)
  }

  ghost predicate InOrder(log: seq<Event>) {
    (forall l, p :: !PhaseOf(log, l, p).Broken?) && (forall l :: !StageOf(log, l).Disordered?)
  }

  lemma NextReady(log: seq<Event>, ev: Event, p: PeerId)
    requires InOrder(log) && InOrder(log + [ev])
    ensures ReadyWorlds(log + [ev], p) ==
            if ev.SessionReady? && ev.peer == p then ReadyWorlds(log, p) + {ev.lsid}
            else if ev.SessionClose? && ev.peer == p then ReadyWorlds(log, p) - {ev.lsid}
            else ReadyWorlds(log, p)
    ensures ev.SessionReady? && ev.peer == p ==> ev.lsid !in ReadyWorlds(log, p)
    ensures ev.SessionClose? && ev.peer == p ==> ev.lsid in ReadyWorlds(log, p)
  {
    var log' := log + [ev];
    assert log'[..|log|] == log;
    forall l ensures PhaseOf(log', l, p) == NextPhase(PhaseOf(log, l, p), ev, l, p)
                     && !PhaseOf(log', l, p).Broken?
                     && (l in ReadyWorlds(log, p) <==> PhaseOf(log, l, p).Ready?)
                     && (l in ReadyWorlds(log', p) <==> PhaseOf(log', l, p).Ready?) {
      ReadyWorldsExact(log, l, p);
      ReadyWorldsExact(log', l, p);
    }
  }

  lemma HandleCount(h: Host, ev: Event, p: PeerId)
    requires !h.fault
    ensures !HandleEvent(h, ev).fault ==>
              ActiveCount(HandleEvent(h, ev), p) ==
              ActiveCount(h, p) + (if ev.SessionReady? && ev.peer == p then 1 else if ev.SessionClose? && ev.peer == p then -1 else 0)
  {
  }

  lemma CountFollows(h: Host, log: seq<Event>, ev: Event, p: PeerId)
    requires !h.fault && InOrder(log) && InOrder(log + [ev])
    requires ActiveCount(h, p) == |ReadyWorlds(log, p)|
    ensures !HandleEvent(h, ev).fault ==> ActiveCount(HandleEvent(h, ev), p) == |ReadyWorlds(log + [ev], p)|
    ensures ev.SessionClose? && ev.peer == p ==> ActiveCount(h, p) > 0
  {
    NextReady(log, ev, p);
    HandleCount(h, ev, p);
    if ev.SessionClose? && ev.peer == p { assert ReadyWorlds(log, p) != {}; }
  }

  lemma CountsFollow(h: Host, log: seq<Event>, ev: Event)
    requires !h.fault && TracksPeers(h, log) && InOrder(log) && InOrder(log + [ev])
    ensures !HandleEvent(h, ev).fault ==> TracksPeers(HandleEvent(h, ev), log + [ev])
    ensures ev.SessionClose? ==> ActiveCount(h, ev.peer) > 0
  {
    forall p ensures !HandleEvent(h, ev).fault ==> ActiveCount(HandleEvent(h, ev), p) == |ReadyWorlds(log + [ev], p)| {
      CountFollows(h, log, ev, p);
    }
    if ev.SessionClose? { CountFollows(h, log, ev, ev.peer); }
  }

  /** Handling one more in-order event keeps the host in step, unless a world leaves early. */
  lemma HandleTracks(h: Host, log: seq<Event>, ev: Event, born: set<Uuid>)
    requires Tracks(h, log, born) && InOrder(log) && InOrder(log + [ev])
    requires !Quiet(ev) ==> ev.lsid in born
    ensures if ev.WorldLeave? && StageOf(log, ev.lsid).Fresh? then HandleEvent(h, ev).fault
            else Tracks(HandleEvent(h, ev), log + [ev], born)
  {
    var log' := log + [ev];
    forall l ensures StageOf(log', l) == NextStage(StageOf(log, l), ev, l) && !StageOf(log', l).Disordered? {
      assert log'[..|log|] == log;
    }
    CountsFollow(h, log, ev);
    ResultsSnoc(log, ev);
    if !Quiet(ev) { assert StageOf(log', ev.lsid) == NextStage(StageOf(log, ev.lsid), ev, ev.lsid); }
  }

  // ---- the joint invariant ----

  ghost predicate SomeLeftEarly(log: seq<Event>) {
    exists l :: StageOf(log, l).LeftEarly?
  }

  ghost predicate PairInv(s: Pair) {
    && NodeInv(s.node)
    && s.done <= |s.node.events|
    && (forall i :: 0 <= i < |s.node.events| && !Quiet(s.node.events[i]) ==> s.node.events[i].lsid in s.node.born)
    && (s.host.fault <==> SomeLeftEarly(s.node.events[..s.done]))
    && (!s.host.fault ==> Tracks(s.host, s.node.events[..s.done], s.node.born.Keys))
  }

  lemma PrefixInOrder(n: Node, k: nat)
    requires NodeInv(n) && k <= |n.events|
    ensures InOrder(n.events[..k])
  {
    forall l, p ensures !PhaseOf(n.events[..k], l, p).Broken? {
      AlwaysInOrder(n, l, p);
      BrokenSticks(n.events, k, l, p);
    }
    forall l ensures !StageOf(n.events[..k], l).Disordered? {
      AlwaysInOrder(n, l, "");
      BrokenSticks(n.events, k, l, "");
    }
  }

  lemma DrainKeeps(s: Pair)
    requires PairInv(s) && s.done < |s.node.events|
    ensures PairInv(PairStep(s, Drain))
  {
    var log, ev := s.node.events[..s.done], s.node.events[s.done];
    var log' := s.node.events[..s.done + 1];
    assert log' == log + [ev];
    PrefixInOrder(s.node, s.done);
    PrefixInOrder(s.node, s.done + 1);
    forall l ensures StageOf(log', l) == NextStage(StageOf(log, l), ev, l) { assert log'[..|log|] == log; }
    if s.host.fault {
      var l :| StageOf(log, l).LeftEarly?;
      assert StageOf(log', l).LeftEarly?;
    } else {
      HandleTracks(s.host, log, ev, s.node.born.Keys);
      if ev.WorldLeave? && StageOf(log, ev.lsid).Fresh? {
        assert StageOf(log', ev.lsid).LeftEarly?;
      } else {
        forall l ensures !StageOf(log', l).LeftEarly? { assert !StageOf(log, l).LeftEarly?; }
      }
    }
  }

  lemma ApiKeeps(s: Pair, call: Input)
    requires PairInv(s) && Admissible(s.node, call)
    ensures PairInv(PairStep(s, Api(call)))
  {
    var n' := NodeStep(s.node, call);
    StepKeepsNode(s.node, call);
    CallAppends(s.node, call);
    BornAfter(s.node, call);
    var added := if call.OpenWorld? || call.JoinWorld? then {call.lsid} else {};
    if added != {} {
      WorldsAreBorn(s.node);
      assert Gone(s.node, call.lsid);
      StageOnlyMoves(s.node.events, s.done, call.lsid);
    }
    PairGrows(s, n', added, PairStep(s, Api(call)).host);
  }

  lemma PairGrows(s: Pair, n': Node, added: set<Uuid>, host': Host)
    requires PairInv(s) && NodeInv(n') && Appends(s.node, n') && n'.born.Keys == s.node.born.Keys + added
    requires host' == s.host.(queue := s.host.queue + added)
    requires forall l :: l in added ==> StageOf(s.node.events[..s.done], l).Fresh?
    ensures PairInv(Pair(n', host', s.done))
  {
    assert n'.events[..s.done] == s.node.events[..s.done];
  }

  lemma InitialTracks(local: PeerId)
    ensures PairInv(Initial(local))
  {
    forall p ensures ReadyWorlds([], p) == {} {}
  }

  lemma {:induction false} PairAlways(local: PeerId, acts: seq<Act>)
    requires PairLegal(local, acts)
    ensures PairInv(PairExec(local, acts))
    decreases |acts|
  {
    if acts == [] {
      InitialTracks(local);
    } else {
      var init, a := acts[..|acts| - 1], acts[|acts| - 1];
      PairAlways(local, init);
      var s := PairExec(local, init);
      match a
      case Api(call) => ApiKeeps(s, call);
      case Drain => if s.done < |s.node.events| { DrainKeeps(s); }
    }
  }

  // ---- theorems ----

  /** As long as the event loop runs, a peer's activity counter is the number of worlds it is ready in. */
  lemma ActivityIsReadiness(local: PeerId, acts: seq<Act>, p: PeerId)
    requires PairLegal(local, acts) && !PairExec(local, acts).host.fault
    ensures var s := PairExec(local, acts);
            s.done <= |s.node.events| && ActiveCount(s.host, p) == |ReadyWorlds(s.node.events[..s.done], p)|
    ensures var s := PairExec(local, acts);
            s.done == |s.node.events| ==> forall l ::
              l in ReadyWorlds(s.node.events, p) <==> l in s.node.worlds && IsMember(s.node.worlds[l].peers, p)
  {
    PairAlways(local, acts);
    var s := PairExec(local, acts);
    if s.done == |s.node.events| {
      forall l ensures l in ReadyWorlds(s.node.events, p) <==> l in s.node.worlds && IsMember(s.node.worlds[l].peers, p) {
        ReadyWorldsExact(s.node.events, l, p);
        AlwaysInOrder(s.node, l, p);
      }
    }
  }

  /** No world has two join results, and one that has any is past its start. */
  lemma {:induction false} OneResultEach(n: Node, k: nat)
    requires NodeInv(n) && k <= |n.events|
    ensures var rs := ResultsOf(n.events[..k]);
            && (forall i, j :: 0 <= i < j < |rs| ==> rs[i].lsid != rs[j].lsid)
            && (forall i :: 0 <= i < |rs| ==> !StageOf(n.events[..k], rs[i].lsid).Fresh?)
    decreases k
  {
    if k > 0 {
      var log, ev := n.events[..k - 1], n.events[k - 1];
      assert n.events[..k] == log + [ev] && n.events[..k][..k - 1] == log;
      OneResultEach(n, k - 1);
      PrefixInOrder(n, k);
      ResultsSnoc(log, ev);
      forall l ensures StageOf(n.events[..k], l) == NextStage(StageOf(log, l), ev, l) && !StageOf(n.events[..k], l).Disordered? {}
    }
  }

  lemma {:induction false} ResultsMember(log: seq<Event>, l: Uuid, url: string, code: int)
    ensures Entered(l, url) in ResultsOf(log) <==> JoinSuccess(l, url) in log
    ensures Refused(l, code) in ResultsOf(log) <==> JoinFail(l, code) in log
    decreases |log|
  {
    if log != [] {
      ResultsMember(log[..|log| - 1], l, url, code);
      assert log == log[..|log| - 1] + [log[|log| - 1]];
    }
  }

  /**
   As long as the event loop runs, the waiter of a world has been told exactly
   the join result that was handled, success with its URL or failure with its
   code, and told once; the worlds still waited for are those without a result.
   */
  lemma WaitersAreTold(local: PeerId, acts: seq<Act>, l: Uuid, url: string, code: int)
    requires PairLegal(local, acts) && !PairExec(local, acts).host.fault
    ensures var s := PairExec(local, acts);
            && s.done <= |s.node.events|
            && (Entered(l, url) in s.host.results <==> JoinSuccess(l, url) in s.node.events[..s.done])
            && (Refused(l, code) in s.host.results <==> JoinFail(l, code) in s.node.events[..s.done])
            && (forall i, j :: 0 <= i < j < |s.host.results| ==> s.host.results[i].lsid != s.host.results[j].lsid)
            && (l in s.host.queue ==> l in s.node.born && forall i :: 0 <= i < |s.host.results| ==> s.host.results[i].lsid != l)
  {
    PairAlways(local, acts);
    var s := PairExec(local, acts);
    OneResultEach(s.node, s.done);
    ResultsMember(s.node.events[..s.done], l, url, code);
  }

  /** The call closes a world that has not reached its join target yet. */
  predicate ClosesEarly(n: Node, call: Input) {
    call.CloseWorld? && call.lsid in n.worlds && Early(n.worlds[call.lsid].id, n.worlds[call.lsid].peers)
  }

  /** Some call of the run closed a world early. */
  ghost predicate ClosedEarly(local: PeerId, acts: seq<Act>) {
    acts != [] &&
    (ClosedEarly(local, acts[..|acts| - 1]) ||
     (acts[|acts| - 1].Api? && ClosesEarly(PairExec(local, acts[..|acts| - 1]).node, acts[|acts| - 1].call)))
  }

  lemma EarlyStays(n: Node, k: nat)
    requires NodeInv(n) && k <= |n.events| && SomeLeftEarly(n.events[..k])
    ensures SomeLeftEarly(n.events)
  {
    var l :| StageOf(n.events[..k], l).LeftEarly?;
    AlwaysInOrder(n, l, "");
    StageOnlyMoves(n.events, k, l);
    assert StageOf(n.events, l).LeftEarly?;
  }

  lemma EarlyByCall(n: Node, call: Input)
    requires NodeInv(n) && Admissible(n, call)
    ensures SomeLeftEarly(NodeStep(n, call).events) <==> SomeLeftEarly(n.events) || ClosesEarly(n, call)
  {
    var n' := NodeStep(n, call);
    StepKeepsNode(n, call);
    CallAppends(n, call);
    if SomeLeftEarly(n.events) { EarlyStays(n', |n.events|); }
    if ClosesEarly(n, call) {
      CloseWorldKeeps(n, call.lsid, call.order);
      assert StageOf(n'.events, call.lsid).LeftEarly?;
    }
    if SomeLeftEarly(n'.events) && !SomeLeftEarly(n.events) {
      var l :| StageOf(n'.events, l).LeftEarly?;
      assert !StageOf(n.events, l).LeftEarly?;
      NewlyEarly(n, call, l);
    }
  }

  lemma NewlyEarly(n: Node, call: Input, l: Uuid)
    requires NodeInv(n) && Admissible(n, call) && NodeInv(NodeStep(n, call))
    requires StageOf(NodeStep(n, call).events, l).LeftEarly? && !StageOf(n.events, l).LeftEarly?
    ensures ClosesEarly(n, call)
  {
    var n' := NodeStep(n, call);
    BornAfter(n, call);
    if l in n'.worlds {
      LiveStage(n', l);
    } else if call.CloseWorld? && call.lsid == l && l in n.worlds {
      CloseWorldKeeps(n, l, call.order);
    } else {
      StillGone(n, call, l);
    }
  }

  lemma StillGone(n: Node, call: Input, l: Uuid)
    requires NodeInv(n) && Admissible(n, call) && NodeInv(NodeStep(n, call))
    requires l !in NodeStep(n, call).worlds && !(call.CloseWorld? && call.lsid == l && l in n.worlds)
    ensures l !in n.worlds && StageOf(NodeStep(n, call).events, l) == StageOf(n.events, l)
  {
    if l in n.worlds { WorldsStay(n, call, l); }
    var n' := NodeStep(n, call);
    assert Gone(n, l) && Gone(n', l);
    BornAfter(n, call);
    CallAppends(n, call);
    StageOnlyMoves(n'.events, |n.events|, l);
  }

  lemma {:induction false} EarlyByRun(local: PeerId, acts: seq<Act>)
    requires PairLegal(local, acts)
    ensures SomeLeftEarly(PairExec(local, acts).node.events) <==> ClosedEarly(local, acts)
    decreases |acts|
  {
    if acts != [] {
      var init, a := acts[..|acts| - 1], acts[|acts| - 1];
      EarlyByRun(local, init);
      PairAlways(local, init);
      if a.Api? { EarlyByCall(PairExec(local, init).node, a.call); }
    }
  }

  /**
   The event loop is safe exactly when no world is closed before it reaches
   its join target: once all events are handled it has failed if and only if
   some CloseWorld call hit a world whose target was still disconnected.
   */
  lemma HostFailsExactlyOnEarlyClose(local: PeerId, acts: seq<Act>)
    requires PairLegal(local, acts)
    ensures !ClosedEarly(local, acts) ==> !PairExec(local, acts).host.fault
    ensures var s := PairExec(local, acts);
            s.done == |s.node.events| ==> (s.host.fault <==> ClosedEarly(local, acts))
  {
    PairAlways(local, acts);
    EarlyByRun(local, acts);
    var s := PairExec(local, acts);
    if s.host.fault {
      var l :| StageOf(s.node.events[..s.done], l).LeftEarly?;
      AlwaysInOrder(s.node, l, "");
      StageOnlyMoves(s.node.events, s.done, l);
      assert StageOf(s.node.events, l).LeftEarly?;
    }
    assert s.node.events[..|s.node.events|] == s.node.events;
  }

  lemma CloseOfOne(st: State, order: seq<PeerId>, p: PeerId)
    requires order == [p] && p in st.peers && st.peers[p].status.DcJt?
    ensures DoAll(st, PlanClose(st.id, order)).events == st.events + [WorldLeave(st.id.lsid)]
  {
    var leave := Emit(WorldLeave(st.id.lsid));
    assert order[..0] == [];
    DoAllAppend(st, PlanShut(order), [leave]);
    PlanShutSnoc(st, [], p);
    assert order == [] + [p];
    ShutDo(st, p, OnShut(st.id, p, st.peers[p]));
    DoAllOne(DoAll(st, PlanShut(order)), leave);
    assert st.events + [] == st.events;
  }

  lemma UnreachableJoin(local: PeerId, l: Uuid, target: PeerId, path: string, now: Time, n: Node)
    requires n == NodeStep(Start(local), JoinWorld(l, target, path, now))
    ensures n.events == [ConnectRequest(target)] && l in n.worlds && n.worlds[l].id.lsid == l
    ensures n.worlds[l].peers == map[target := Entry(false, NIL, ZERO_TIME, DcJt, false, 0)]
  {
  }

  lemma CancelledJoinEvents(n: Node, l: Uuid, target: PeerId, order: seq<PeerId>)
    requires order == [target] && l in n.worlds && n.worlds[l].id.lsid == l
    requires n.worlds[l].peers == map[target := Entry(false, NIL, ZERO_TIME, DcJt, false, 0)]
    ensures NodeStep(n, CloseWorld(l, order)).events == n.events + [WorldLeave(l)]
  {
    CloseDrops(n, l, order);
    CloseOfOne(Inside(n, l), order, target);
  }

  /** The shortest failing runs: join a host that is not connected, cancel, let the event loop work. */
  lemma CancelledJoinCrashes(local: PeerId, l: Uuid, target: PeerId, path: string, now: Time)
    requires l != NIL && target != local
    ensures var acts := [Api(JoinWorld(l, target, path, now)), Api(CloseWorld(l, [target])), Drain, Drain];
            PairLegal(local, acts) && PairExec(local, acts).host.fault
  {
    var join, close := Api(JoinWorld(l, target, path, now)), Api(CloseWorld(l, [target]));
    var n1 := NodeStep(Start(local), join.call);
    UnreachableJoin(local, l, target, path, now, n1);
    CancelledJoinEvents(n1, l, target, [target]);
    assert Enumerates([target], n1.worlds[l].peers.Keys);
    FourActs(local, join, close, Drain, Drain);
    TwoDrains(Pair(NodeStep(n1, close.call), Register(NEW_HOST, l), 0), l, target);
  }

  lemma FourActs(local: PeerId, a: Act, b: Act, c: Act, d: Act)
    ensures PairExec(local, [a, b, c, d]) == PairStep(PairStep(PairStep(PairStep(Initial(local), a), b), c), d)
    ensures PairLegal(local, [a, b, c, d]) <==>
      && (a.Api? ==> Admissible(Initial(local).node, a.call))
      && (b.Api? ==> Admissible(PairStep(Initial(local), a).node, b.call))
      && (c.Api? ==> Admissible(PairStep(PairStep(Initial(local), a), b).node, c.call))
      && (d.Api? ==> Admissible(PairStep(PairStep(PairStep(Initial(local), a), b), c).node, d.call))
  {
    assert [a, b, c, d][..3] == [a, b, c] && [a, b, c][..2] == [a, b] && [a, b][..1] == [a] && [a][..0] == [];
    assert PairExec(local, [a]) == PairStep(Initial(local), a);
    assert PairExec(local, [a, b]) == PairStep(PairStep(Initial(local), a), b);
    assert PairExec(local, [a, b, c]) == PairStep(PairStep(PairStep(Initial(local), a), b), c);
    assert PairLegal(local, []) && PairExec(local, []) == Initial(local);
    assert PairLegal(local, [a]) <==> (a.Api? ==> Admissible(Initial(local).node, a.call));
    assert PairLegal(local, [a, b]) <==>
           PairLegal(local, [a]) && (b.Api? ==> Admissible(PairStep(Initial(local), a).node, b.call));
    assert PairLegal(local, [a, b, c]) <==>
           PairLegal(local, [a, b]) && (c.Api? ==> Admissible(PairStep(PairStep(Initial(local), a), b).node, c.call));
  }

  lemma TwoDrains(s: Pair, l: Uuid, target: PeerId)
    requires s.node.events == [ConnectRequest(target), WorldLeave(l)] && s.done == 0 && !s.host.fault && l !in s.host.worlds
    ensures PairStep(PairStep(s, Drain), Drain).host.fault
  {
  }
}
