/** The promises of the event channel in plain terms, for every legal run of an AND instance. */
module EventTheorems {
  import opened Abyss
  import opened PeerEntry
  import opened WorldModel
  import opened NodeModel
  import opened EventOrder
  import opened WorldInvariant
  import opened NodeInvariant

  predicate IsRequest(ev: Event, l: Uuid, p: PeerId) { ev.SessionRequest? && ev.lsid == l && ev.peer == p }
  predicate IsReady(ev: Event, l: Uuid, p: PeerId) { ev.SessionReady? && ev.lsid == l && ev.peer == p }
  predicate IsClose(ev: Event, l: Uuid, p: PeerId) { ev.SessionClose? && ev.lsid == l && ev.peer == p }

  function Readies(log: seq<Event>, l: Uuid, p: PeerId): nat {
    if log == [] then 0
    else Readies(log[..|log| - 1], l, p) + if IsReady(log[|log| - 1], l, p) then 1 else 0
  }

  function Closes(log: seq<Event>, l: Uuid, p: PeerId): nat {
    if log == [] then 0
    else Closes(log[..|log| - 1], l, p) + if IsClose(log[|log| - 1], l, p) then 1 else 0
  }

  /** log[j] requests session s, and no request and no close for the peer comes between j and i. */
  ghost predicate LatestRequest(log: seq<Event>, j: int, i: int, l: Uuid, p: PeerId, s: Uuid) {
    && 0 <= j < i <= |log| && log[j] == SessionRequest(l, p, s)
    && (forall k :: j < k < i ==> !IsRequest(log[k], l, p) && !IsClose(log[k], l, p))
  }

  /** log[j] makes session s ready, and no close for the peer comes between j and i. */
  ghost predicate OpenSince(log: seq<Event>, j: int, i: int, l: Uuid, p: PeerId, s: Uuid) {
    && 0 <= j < i <= |log| && log[j] == SessionReady(l, p, s)
    && (forall k :: j < k < i ==> !IsClose(log[k], l, p))
  }

  lemma {:induction false} PhaseCounts(log: seq<Event>, l: Uuid, p: PeerId)
    requires !PhaseOf(log, l, p).Broken?
    ensures Readies(log, l, p) - Closes(log, l, p) == if PhaseOf(log, l, p).Ready? then 1 else 0
    decreases |log|
  {
    if log != [] { PhaseCounts(log[..|log| - 1], l, p); }
  }

  lemma {:induction false} BrokenSticks(log: seq<Event>, k: nat, l: Uuid, p: PeerId)
    requires k <= |log|
    ensures PhaseOf(log[..k], l, p).Broken? ==> PhaseOf(log, l, p).Broken?
    ensures StageOf(log[..k], l).Disordered? ==> StageOf(log, l).Disordered?
    decreases |log|
  {
    if k == |log| {
      assert log[..k] == log;
    } else {
      assert log[..|log| - 1][..k] == log[..k];
      BrokenSticks(log[..|log| - 1], k, l, p);
    }
  }

  lemma {:induction false} RequestedSince(log: seq<Event>, l: Uuid, p: PeerId) returns (j: int)
    requires PhaseOf(log, l, p).Requested?
    ensures LatestRequest(log, j, |log|, l, p, PhaseOf(log, l, p).session)
    decreases |log|
  {
    var last := log[|log| - 1];
    if IsRequest(last, l, p) {
      j := |log| - 1;
    } else {
      j := RequestedSince(log[..|log| - 1], l, p);
    }
  }

  lemma {:induction false} ReadySince(log: seq<Event>, l: Uuid, p: PeerId) returns (j: int)
    requires PhaseOf(log, l, p).Ready?
    ensures OpenSince(log, j, |log|, l, p, PhaseOf(log, l, p).session)
    decreases |log|
  {
    var last := log[|log| - 1];
    if IsReady(last, l, p) {
      j := |log| - 1;
    } else {
      j := ReadySince(log[..|log| - 1], l, p);
    }
  }

  lemma ReadyIsPrepared(log: seq<Event>, i: nat, l: Uuid, p: PeerId)
    requires !PhaseOf(log, l, p).Broken? && i < |log| && IsReady(log[i], l, p)
    ensures exists j :: LatestRequest(log, j, i, l, p, log[i].session)
  {
    BrokenSticks(log, i + 1, l, p);
    assert log[..i + 1][..i] == log[..i];
    var j := RequestedSince(log[..i], l, p);
    assert LatestRequest(log, j, i, l, p, log[i].session);
  }

  lemma ObjectsAreInside(log: seq<Event>, i: nat, l: Uuid, p: PeerId)
    requires !PhaseOf(log, l, p).Broken? && i < |log|
    requires (log[i].ObjectAppend? || log[i].ObjectDelete?) && log[i].lsid == l && log[i].peer == p
    ensures exists j :: OpenSince(log, j, i, l, p, log[i].session)
  {
    BrokenSticks(log, i + 1, l, p);
    assert log[..i + 1][..i] == log[..i];
    var j := ReadySince(log[..i], l, p);
    assert OpenSince(log, j, i, l, p, log[i].session);
  }

  lemma AlwaysInOrder(n: Node, l: Uuid, p: PeerId)
    requires NodeInv(n)
    ensures !PhaseOf(n.events, l, p).Broken?
    ensures PhaseOf(n.events, l, p).Ready? <==> l in n.worlds && IsMember(n.worlds[l].peers, p)
    ensures !StageOf(n.events, l).Disordered?
  {
    if l in n.worlds {
      assert Live(n, l, n.peers);
      assert PeerInv(Inside(n, l), n.peers, p);
    } else {
      assert Gone(n, l);
    }
  }

  /** Sessions are bracketed: at every moment the ready sessions are exactly the member entries. */
  lemma SessionsAreBracketed(local: PeerId, calls: seq<Input>, l: Uuid, p: PeerId)
    requires Legal(local, calls)
    ensures var n := Exec(local, calls);
            Readies(n.events, l, p) - Closes(n.events, l, p)
            == if l in n.worlds && IsMember(n.worlds[l].peers, p) then 1 else 0
  {
    RunKeepsNode(local, calls);
    AlwaysInOrder(Exec(local, calls), l, p);
    PhaseCounts(Exec(local, calls).events, l, p);
  }

  /** A session becomes ready only as the latest requested one, with no close in between. */
  lemma ReadyFollowsRequest(local: PeerId, calls: seq<Input>, i: nat)
    requires Legal(local, calls) && i < |Exec(local, calls).events| && Exec(local, calls).events[i].SessionReady?
    ensures var log := Exec(local, calls).events;
            exists j :: LatestRequest(log, j, i, log[i].lsid, log[i].peer, log[i].session)
  {
    var n := Exec(local, calls);
    RunKeepsNode(local, calls);
    AlwaysInOrder(n, n.events[i].lsid, n.events[i].peer);
    ReadyIsPrepared(n.events, i, n.events[i].lsid, n.events[i].peer);
  }

  /** Objects are reported only between the ready and the close of their own session. */
  lemma ObjectsInsideSession(local: PeerId, calls: seq<Input>, i: nat)
    requires Legal(local, calls) && i < |Exec(local, calls).events|
    requires Exec(local, calls).events[i].ObjectAppend? || Exec(local, calls).events[i].ObjectDelete?
    ensures var log := Exec(local, calls).events;
            exists j :: OpenSince(log, j, i, log[i].lsid, log[i].peer, log[i].session)
  {
    var n := Exec(local, calls);
    RunKeepsNode(local, calls);
    AlwaysInOrder(n, n.events[i].lsid, n.events[i].peer);
    ObjectsAreInside(n.events, i, n.events[i].lsid, n.events[i].peer);
  }

  // ---- worlds ----

  predicate IsResult(ev: Event, l: Uuid) { (ev.JoinSuccess? || ev.JoinFail?) && ev.lsid == l }

  predicate IsSession(ev: Event, l: Uuid) {
    (ev.SessionRequest? || ev.SessionReady? || ev.SessionClose? || ev.ObjectAppend? || ev.ObjectDelete?) && ev.lsid == l
  }

  lemma {:induction false} StageTells(log: seq<Event>, l: Uuid)
    requires !StageOf(log, l).Disordered?
    ensures var st := StageOf(log, l);
            && (st.Fresh? || st.LeftEarly? ==> forall i :: 0 <= i < |log| ==> !IsResult(log[i], l))
            && (st.Fresh? || st.LeftEarly? || st.Failed? ==> forall i :: 0 <= i < |log| ==> !IsSession(log[i], l))
            && (st.Joined? ==> forall i :: 0 <= i < |log| && IsResult(log[i], l) ==> log[i].JoinSuccess?)
            && (st.Joined? || st.Failed? ==> exists i :: 0 <= i < |log| && IsResult(log[i], l))
            && (st.Fresh? || st.Joined? || st.Failed? ==> forall i :: 0 <= i < |log| ==> log[i] != WorldLeave(l))
    decreases |log|
  {
    if log != [] {
      var init := log[..|log| - 1];
      StageTells(init, l);
      forall i | 0 <= i < |init| ensures log[i] == init[i] {}
    }
  }

  /** What the log before position i says about the world of event i. */
  lemma StageBefore(log: seq<Event>, i: nat, l: Uuid)
    requires !StageOf(log, l).Disordered? && i < |log|
    ensures !StageOf(log[..i], l).Disordered? && StageOf(log[..i + 1], l) == NextStage(StageOf(log[..i], l), log[i], l)
    ensures !StageOf(log[..i + 1], l).Disordered?
  {
    BrokenSticks(log, i, l, "");
    BrokenSticks(log, i + 1, l, "");
    assert log[..i + 1][..i] == log[..i];
  }

  /** One world's events: at most one join result; sessions only after a success; nothing after the leave. */
  lemma WorldGrammar(local: PeerId, calls: seq<Input>, l: Uuid, i: nat, j: nat)
    requires Legal(local, calls) && i < j < |Exec(local, calls).events|
    ensures var log := Exec(local, calls).events;
            && !(IsResult(log[i], l) && IsResult(log[j], l))
            && !(log[i].JoinFail? && log[i].lsid == l && IsSession(log[j], l))
            && !(log[i] == WorldLeave(l) && !Quiet(log[j]) && log[j].lsid == l)
            && !(IsSession(log[i], l) && IsResult(log[j], l))
  {
    var log := Exec(local, calls).events;
    RunKeepsNode(local, calls);
    AlwaysInOrder(Exec(local, calls), l, "");
    StageBefore(log, j, l);
    var pre := log[..j];
    StageTells(pre, l);
    assert pre[i] == log[i];
    StageBefore(log, i, l);
    assert pre[..i + 1] == log[..i + 1];
    StageOnlyMoves(pre, i + 1, l);
  }

  predicate Quiet(ev: Event) { ev.ConnectRequest? || ev.PeerRegister? }

  /** Stages never move backwards. */
  function Rank(st: Stage): nat {
    match st
    case Fresh => 0
    case Joined => 1
    case Failed => 1
    case Left => 2
    case LeftEarly => 2
    case Disordered => 3
  }

  lemma {:induction false} StageOnlyMoves(log: seq<Event>, k: nat, l: Uuid)
    requires k <= |log|
    ensures Rank(StageOf(log[..k], l)) <= Rank(StageOf(log, l))
    ensures Rank(StageOf(log[..k], l)) == Rank(StageOf(log, l)) ==> StageOf(log[..k], l) == StageOf(log, l)
    decreases |log|
  {
    if k == |log| {
      assert log[..k] == log;
    } else {
      assert log[..|log| - 1][..k] == log[..k];
      StageOnlyMoves(log[..|log| - 1], k, l);
    }
  }

  /** A session event is preceded by the success of its world's join. */
  lemma SessionsNeedJoin(local: PeerId, calls: seq<Input>, l: Uuid, j: nat)
    requires Legal(local, calls) && j < |Exec(local, calls).events| && IsSession(Exec(local, calls).events[j], l)
    ensures exists i :: 0 <= i < j && Exec(local, calls).events[i].JoinSuccess? && Exec(local, calls).events[i].lsid == l
  {
    var log := Exec(local, calls).events;
    RunKeepsNode(local, calls);
    AlwaysInOrder(Exec(local, calls), l, "");
    StageBefore(log, j, l);
    StageTells(log[..j], l);
    var i :| 0 <= i < j && IsResult(log[..j][i], l);
    assert log[..j][i] == log[i];
  }

  // ---- how a call extends the log and the registry of worlds ----

  /** A call only appends events, of worlds that exist or have just been created. */
  ghost predicate Appends(n: Node, n': Node) {
    && |n.events| <= |n'.events| && n'.events[..|n.events|] == n.events
    && n.born.Keys <= n'.born.Keys
    && (forall i :: |n.events| <= i < |n'.events| && !Quiet(n'.events[i]) ==> n'.events[i].lsid in n'.born)
  }

  lemma OnWorldAppends(n: Node, l: Uuid, ms: seq<Micro>)
    requires l in n.worlds ==> l in n.born && n.worlds[l].id.lsid == l
    requires forall m :: m in ms && m.Emit? ==> Within(m.event, l)
    ensures Appends(n, OnWorld(n, l, ms))
  {
    if l in n.worlds { DoAllGrows(Inside(n, l), ms); }
  }

  lemma {:induction false} OnEachAppends(n: Node, sweep: seq<Uuid>, m: Micro)
    requires m.On? && forall l :: l in n.worlds ==> l in n.born && n.worlds[l].id.lsid == l
    ensures var n' := OnEach(n, sweep, m);
            Appends(n, n') && n'.born == n.born && (forall l :: l in n'.worlds ==> l in n.born && n'.worlds[l].id.lsid == l)
    decreases |sweep|
  {
    if sweep != [] {
      var init, l := sweep[..|sweep| - 1], sweep[|sweep| - 1];
      OnEachAppends(n, init, m);
      var n1 := OnEach(n, init, m);
      OnWorldAppends(n1, l, [m]);
      if l in n1.worlds { DoAllKeepsId(Inside(n1, l), [m]); }
      assert OnWorld(n1, l, [m]).events[..|n.events|] == n1.events[..|n.events|];
    }
  }

  lemma PlanWithin(n: Node, l: Uuid, a: Input)
    requires NodeInv(n) && l in n.worlds
    ensures forall m :: m in PlanFor(n, l, a) && m.Emit? ==> Within(m.event, l)
  {
    var w := n.worlds[l];
    assert Live(n, l, n.peers);
    match a
    case TimerExpire(_, now, order, order2, seed) => TimerEmits(w.id, w.peers, now, order, order2, seed);
    case Recv(p, _, m, _) => RecvEmitsNothing(w.id, w.peers, p, m);
    case _ =>
  }

  lemma CreationAppends(n: Node, a: Input)
    requires a.OpenWorld? || a.JoinWorld?
    ensures Appends(n, NodeStep(n, a))
  {
  }

  lemma CallAppends(n: Node, a: Input)
    requires NodeInv(n)
    ensures Appends(n, NodeStep(n, a))
  {
    forall l | l in n.worlds ensures l in n.born && n.worlds[l].id.lsid == l { assert Live(n, l, n.peers); }
    match a
    case PeerConnected(p, sweep) => OnEachAppends(n.(peers := n.peers + {p}), sweep, On(p, Connect));
    case PeerClose(p, sweep) => OnEachAppends(n, sweep, On(p, Remove));
    case OpenWorld(_, _, _) => CreationAppends(n, a);
    case JoinWorld(_, _, _, _) => CreationAppends(n, a);
    case Recv(p, l, m, sweep) =>
      if m.MRST? && l == NIL { OnEachAppends(n, sweep, On(p, RecvRST)); }
      else if l in n.worlds { PlanWithin(n, l, a); OnWorldAppends(n, l, PlanFor(n, l, a)); }
    case _ => if a.lsid in n.worlds { PlanWithin(n, a.lsid, a); OnWorldAppends(n, a.lsid, PlanFor(n, a.lsid, a)); }
  }

  lemma {:induction false} OnEachKeepsBorn(n: Node, sweep: seq<Uuid>, m: Micro)
    ensures OnEach(n, sweep, m).born == n.born
    decreases |sweep|
  {
    if sweep != [] { OnEachKeepsBorn(n, sweep[..|sweep| - 1], m); }
  }

  lemma BornAfter(n: Node, call: Input)
    ensures NodeStep(n, call).born == if call.OpenWorld? || call.JoinWorld? then n.born[call.lsid := call.now] else n.born
  {
    match call
    case PeerConnected(p, sweep) => OnEachKeepsBorn(n.(peers := n.peers + {p}), sweep, On(p, Connect));
    case PeerClose(p, sweep) => OnEachKeepsBorn(n, sweep, On(p, Remove));
    case Recv(p, l, m, sweep) => OnEachKeepsBorn(n, sweep, On(p, RecvRST));
    case _ =>
  }

  /** Worlds disappear only through CloseWorld. */
  lemma WorldsStay(n: Node, call: Input, l: Uuid)
    requires l in n.worlds && !(call.CloseWorld? && call.lsid == l)
    ensures l in NodeStep(n, call).worlds
  {
    match call {
      case PeerConnected(p, sweep) => OnEachKeepsKeys(n.(peers := n.peers + {p}), sweep, On(p, Connect));
      case PeerClose(p, sweep) => OnEachKeepsKeys(n, sweep, On(p, Remove));
      case Recv(p, _, m, sweep) => OnEachKeepsKeys(n, sweep, On(p, RecvRST));
      case _ =>
    }
  }
}
