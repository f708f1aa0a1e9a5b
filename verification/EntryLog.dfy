/** From any point of a legal run on, a live entry and its share of the event log are a run of the entry machine. */
module EntryLog {
  import opened Prelude
  import opened Abyss
  import opened PeerEntry
  import opened WorldModel
  import opened NodeModel
  import opened EventOrder
  import opened NodeInvariant
  import opened EventTheorems
  import opened EntryRuns
  import opened EntryHistory

  /** The steps that the calls after the first k take on p's entry in world l. */
  function Since(local: PeerId, calls: seq<Input>, k: nat, l: Uuid, p: PeerId): seq<Op>
    requires k <= |calls|
  {
    if |calls| == k then []
    else
      var init := calls[..|calls| - 1];
      var n := Exec(local, init);
      if l !in n.worlds then [] else Since(local, init, k, l, p) + OpsOn(MicrosOf(n, calls[|calls| - 1], l), p)
  }

  // ---- the log of a single call ----

  lemma GrewOnly(log: seq<Event>, log': seq<Event>, k: Uuid, l: Uuid, p: PeerId)
    requires Grew(log, log', k) && k != l
    ensures Only(log', l, p) == Only(log, l, p)
  {
    assert log' == log + log'[|log|..];
    Unrelated(log, log'[|log|..], l, p);
  }

  lemma OneStepEvents(w: WorldId, p: PeerId, e: Option<Entry>, op: Op)
    ensures RunEvents(w, p, e, [op]) == Step(w, p, e, op).events
  {
    assert [op][..0] == [];
    assert Run(w, p, e, []) == e && RunEvents(w, p, e, []) == [];
    assert [] + Step(w, p, e, op).events == Step(w, p, e, op).events;
  }

  /** What a step on q's entry reports about p. */
  function StepLog(w: WorldId, peers: Peers, q: PeerId, op: Op, p: PeerId): seq<Event> {
    if q == p then Only(Step(w, p, Get(peers, p), op).events, w.lsid, p) else []
  }

  /** One world's step of a sweep, seen from world l. */
  lemma SweepOneLog(n: Node, k: Uuid, q: PeerId, op: Op, l: Uuid, p: PeerId)
    requires k in n.worlds ==> n.worlds[k].id.lsid == k
    requires l in n.worlds
    ensures Only(OnWorld(n, k, [On(q, op)]).events, l, p)
            == Only(n.events, l, p) + if k == l then StepLog(n.worlds[l].id, n.worlds[l].peers, q, op, p) else []
  {
    var m := On(q, op);
    if k == l {
      DoAllOne(Inside(n, l), m);
      OneMoreStep(Inside(n, l), m, p);
    } else if k in n.worlds {
      DoAllGrows(Inside(n, k), [m]);
      GrewOnly(n.events, OnWorld(n, k, [m]).events, k, l, p);
    }
  }

  lemma SweepNext(n: Node, init: seq<Uuid>, k: Uuid, q: PeerId, op: Op, l: Uuid, p: PeerId, share: seq<Event>)
    requires l in n.worlds && k !in init && forall i, j :: 0 <= i < j < |init| ==> init[i] != init[j]
    requires forall k :: k in n.worlds ==> n.worlds[k].id.lsid == k
    requires share == StepLog(n.worlds[l].id, n.worlds[l].peers, q, op, p)
    ensures Only(OnWorld(OnEach(n, init, On(q, op)), k, [On(q, op)]).events, l, p)
            == Only(OnEach(n, init, On(q, op)).events, l, p) + if k == l then share else []
  {
    SweptWorlds(n, init, q, op, k);
    SweptWorlds(n, init, q, op, l);
    SweepOneLog(OnEach(n, init, On(q, op)), k, q, op, l, p);
  }

  lemma Combine(log: seq<Event>, share: seq<Event>, a: bool, b: bool)
    requires !(a && b)
    ensures log + (if a then share else []) + (if b then share else []) == log + if a || b then share else []
  {
  }

  lemma {:induction false} SweepLog(n: Node, sweep: seq<Uuid>, q: PeerId, op: Op, l: Uuid, p: PeerId, share: seq<Event>)
    requires l in n.worlds && forall i, j :: 0 <= i < j < |sweep| ==> sweep[i] != sweep[j]
    requires forall k :: k in n.worlds ==> n.worlds[k].id.lsid == k
    requires share == StepLog(n.worlds[l].id, n.worlds[l].peers, q, op, p)
    ensures Only(OnEach(n, sweep, On(q, op)).events, l, p) == Only(n.events, l, p) + if l in sweep then share else []
    decreases |sweep|
  {
    if sweep != [] {
      var init, k := sweep[..|sweep| - 1], sweep[|sweep| - 1];
      assert k !in init && sweep == init + [k];
      SweepLog(n, init, q, op, l, p, share);
      SweepNext(n, init, k, q, op, l, p, share);
      Combine(Only(n.events, l, p), share, l in init, k == l);
    }
  }

  lemma SweptWorlds(n: Node, sweep: seq<Uuid>, q: PeerId, op: Op, k: Uuid)
    requires forall i, j :: 0 <= i < j < |sweep| ==> sweep[i] != sweep[j]
    ensures var n1 := OnEach(n, sweep, On(q, op));
            && (k in n1.worlds <==> k in n.worlds)
            && (k in n.worlds ==> n1.worlds[k].id == n.worlds[k].id && (k !in sweep ==> n1.worlds[k].peers == n.worlds[k].peers))
  {
    OnEachKeepsKeys(n, sweep, On(q, op));
    if k in n.worlds { SweepWorld(n, sweep, On(q, op), k); }
  }

  lemma SweepFollows(n: Node, sweep: seq<Uuid>, q: PeerId, op: Op, l: Uuid, p: PeerId, ops: seq<Op>)
    requires l in n.worlds && Enumerates(sweep, n.worlds.Keys)
    requires forall k :: k in n.worlds ==> n.worlds[k].id.lsid == k
    requires ops == OpsOn([On(q, op)], p)
    ensures Only(OnEach(n, sweep, On(q, op)).events, l, p)
            == Only(n.events, l, p) + Only(RunEvents(n.worlds[l].id, p, Get(n.worlds[l].peers, p), ops), l, p)
  {
    SweepLog(n, sweep, q, op, l, p, StepLog(n.worlds[l].id, n.worlds[l].peers, q, op, p));
    assert [On(q, op)] == [] + [On(q, op)];
    OpsSnoc([], On(q, op), p);
    assert l in sweep && OpsOn([], p) == [] && OpsOn([], p) + [op] == [op];
    OneStepEvents(n.worlds[l].id, p, Get(n.worlds[l].peers, p), op);
  }

  lemma PlanLog(n: Node, k: Uuid, a: Input, l: Uuid, p: PeerId)
    requires NodeInv(n) && l in n.worlds && k in n.worlds && (forall m :: m in PlanFor(n, k, a) && m.Emit? ==> Within(m.event, k))
    requires k == l ==> MicrosOf(n, a, l) == PlanFor(n, l, a)
    requires k != l ==> MicrosOf(n, a, l) == []
    ensures Only(OnWorld(n, k, PlanFor(n, k, a)).events, l, p)
            == Only(n.events, l, p)
             + Only(RunEvents(n.worlds[l].id, p, Get(n.worlds[l].peers, p), OpsOn(MicrosOf(n, a, l), p)), l, p)
  {
    assert Live(n, k, n.peers) && Live(n, l, n.peers);
    if k == l {
      MicrosQuiet(n, a, l, p);
      EntriesAreIndependent(Inside(n, l), PlanFor(n, l, a), p);
    } else {
      DoAllGrows(Inside(n, k), PlanFor(n, k, a));
      GrewOnly(n.events, OnWorld(n, k, PlanFor(n, k, a)).events, k, l, p);
    }
  }

  /** What a call adds to the log about p in a world that it leaves alive. */
  lemma CallLog(n: Node, a: Input, l: Uuid, p: PeerId)
    requires NodeInv(n) && Admissible(n, a) && l in n.worlds && l in NodeStep(n, a).worlds
    ensures Only(NodeStep(n, a).events, l, p)
            == Only(n.events, l, p)
             + Only(RunEvents(n.worlds[l].id, p, Get(n.worlds[l].peers, p), OpsOn(MicrosOf(n, a, l), p)), l, p)
  {
    forall k | k in n.worlds ensures n.worlds[k].id.lsid == k { assert Live(n, k, n.peers); }
    match a
    case PeerConnected(q, sweep) => SweepFollows(n.(peers := n.peers + {q}), sweep, q, Connect, l, p, OpsOn([On(q, Connect)], p));
    case PeerClose(q, sweep) => SweepFollows(n, sweep, q, Remove, l, p, OpsOn([On(q, Remove)], p));
    case OpenWorld(k, _, _) => BirthLog(n, a, l, p);
    case JoinWorld(k, _, _, _) => BirthLog(n, a, l, p);
    case Recv(q, k, m, sweep) =>
      if m.MRST? && k == NIL { SweepFollows(n, sweep, q, RecvRST, l, p, OpsOn([On(q, RecvRST)], p)); }
      else if k in n.worlds { PlanWithin(n, k, a); PlanLog(n, k, a, l, p); }
    case _ => if a.lsid in n.worlds { PlanWithin(n, a.lsid, a); PlanLog(n, a.lsid, a, l, p); }
  }

  lemma BirthLog(n: Node, a: Input, l: Uuid, p: PeerId)
    requires a.OpenWorld? || a.JoinWorld?
    ensures Only(NodeStep(n, a).events, l, p) == Only(n.events, l, p)
  {
    if a.OpenWorld? {
      Unrelated(n.events, [JoinSuccess(a.lsid, a.url), TimerRequest(a.lsid, 500)], l, p);
    } else {
      Unrelated(n.events, if a.target in n.peers then [] else [ConnectRequest(a.target)], l, p);
    }
  }

  lemma Unrelated(log: seq<Event>, es: seq<Event>, l: Uuid, p: PeerId)
    requires forall ev :: ev in es ==> !About(ev, l, p)
    ensures Only(log + es, l, p) == Only(log, l, p)
  {
    OnlyCat(log, es, l, p);
    OnlyNothing(es, l, p);
  }

  // ---- the log of a run ----

  lemma RunEventsSnoc(w: WorldId, p: PeerId, e: Option<Entry>, ops: seq<Op>, op: Op)
    ensures RunEvents(w, p, e, ops + [op]) == RunEvents(w, p, e, ops) + Step(w, p, Run(w, p, e, ops), op).events
  {
    assert (ops + [op])[..|ops|] == ops;
  }

  lemma {:induction false} RunEventsCat(w: WorldId, p: PeerId, e: Option<Entry>, a: seq<Op>, b: seq<Op>)
    ensures RunEvents(w, p, e, a + b) == RunEvents(w, p, e, a) + RunEvents(w, p, Run(w, p, e, a), b)
    decreases |b|
  {
    if b == [] {
      assert a + b == a;
      assert RunEvents(w, p, Run(w, p, e, a), b) == [];
    } else {
      var init, op := b[..|b| - 1], b[|b| - 1];
      assert b == init + [op] && a + b == (a + init) + [op];
      var e1 := Run(w, p, e, a);
      RunEventsCat(w, p, e, a, init);
      RunCat(w, p, e, a, init);
      RunEventsSnoc(w, p, e, a + init, op);
      RunEventsSnoc(w, p, e1, init, op);
      Associate(RunEvents(w, p, e, a), RunEvents(w, p, e1, init), Step(w, p, Run(w, p, e1, init), op).events);
    }
  }

  /** A world that was there after k calls and is there now has been there all the time. */
  lemma {:induction false} StillThere(local: PeerId, calls: seq<Input>, k: nat, l: Uuid)
    requires Legal(local, calls) && k < |calls|
    requires l in Exec(local, calls[..k]).worlds && l in Exec(local, calls).worlds
    ensures l in Exec(local, calls[..|calls| - 1]).worlds
  {
    var init, a := calls[..|calls| - 1], calls[|calls| - 1];
    var n := Exec(local, init);
    assert init[..k] == calls[..k];
    BornStays(local, init, k, l);
    if l !in n.worlds { OnlyBirth(n, a, l); }
  }

  lemma {:induction false} BornStays(local: PeerId, calls: seq<Input>, k: nat, l: Uuid)
    requires Legal(local, calls) && k <= |calls| && l in Exec(local, calls[..k]).worlds
    ensures l in Exec(local, calls).born
    decreases |calls|
  {
    if k == |calls| {
      assert calls[..k] == calls;
      RunKeepsNode(local, calls);
      WorldsAreBorn(Exec(local, calls));
    } else {
      assert calls[..|calls| - 1][..k] == calls[..k];
      BornStays(local, calls[..|calls| - 1], k, l);
      BornAfter(Exec(local, calls[..|calls| - 1]), calls[|calls| - 1]);
    }
  }

  lemma OnlyBirth(n: Node, a: Input, l: Uuid)
    requires l !in n.worlds && l in NodeStep(n, a).worlds
    ensures (a.OpenWorld? || a.JoinWorld?) && a.lsid == l
  {
    match a
    case PeerConnected(q, sweep) => OnEachKeepsKeys(n.(peers := n.peers + {q}), sweep, On(q, Connect));
    case PeerClose(q, sweep) => OnEachKeepsKeys(n, sweep, On(q, Remove));
    case Recv(q, _, m, sweep) => OnEachKeepsKeys(n, sweep, On(q, RecvRST));
    case _ =>
  }

  ghost predicate Continues(n: Node, n': Node, l: Uuid, p: PeerId, ops: seq<Op>)
    requires l in n.worlds && l in n'.worlds
  {
    var w, e := n.worlds[l].id, Get(n.worlds[l].peers, p);
    && n'.worlds[l].id == w
    && Get(n'.worlds[l].peers, p) == Run(w, p, e, ops)
    && Only(n'.events, l, p) == Only(n.events, l, p) + Only(RunEvents(w, p, e, ops), l, p)
  }

  lemma CallContinues(n: Node, a: Input, l: Uuid, p: PeerId)
    requires NodeInv(n) && Admissible(n, a) && l in n.worlds && l in NodeStep(n, a).worlds
    ensures Continues(n, NodeStep(n, a), l, p, OpsOn(MicrosOf(n, a, l), p))
  {
    assert Live(n, l, n.peers);
    WorldAfter(n, a, l);
    MicrosQuiet(n, a, l, p);
    EntryAlone(Inside(n, l), MicrosOf(n, a, l), p);
    CallLog(n, a, l, p);
  }

  lemma ContinuesTwice(n: Node, n1: Node, n2: Node, l: Uuid, p: PeerId, a: seq<Op>, b: seq<Op>)
    requires l in n.worlds && l in n1.worlds && l in n2.worlds
    requires Continues(n, n1, l, p, a) && Continues(n1, n2, l, p, b)
    ensures Continues(n, n2, l, p, a + b)
  {
    var w, e := n.worlds[l].id, Get(n.worlds[l].peers, p);
    RunCat(w, p, e, a, b);
    RunEventsCat(w, p, e, a, b);
    OnlyCat(RunEvents(w, p, e, a), RunEvents(w, p, Run(w, p, e, a), b), l, p);
    Associate(Only(n.events, l, p), Only(RunEvents(w, p, e, a), l, p), Only(RunEvents(w, p, Run(w, p, e, a), b), l, p));
  }

  /** Between any two points of a legal run, entry and log of a living world follow the steps taken on the entry. */
  lemma {:induction false} RunContinues(local: PeerId, calls: seq<Input>, k: nat, l: Uuid, p: PeerId)
    requires Legal(local, calls) && k <= |calls|
    requires l in Exec(local, calls[..k]).worlds && l in Exec(local, calls).worlds
    ensures Continues(Exec(local, calls[..k]), Exec(local, calls), l, p, Since(local, calls, k, l, p))
    decreases |calls|
  {
    if k == |calls| {
      assert calls[..k] == calls;
    } else {
      var init, a := calls[..|calls| - 1], calls[|calls| - 1];
      assert init[..k] == calls[..k];
      StillThere(local, calls, k, l);
      RunContinues(local, init, k, l, p);
      RunKeepsNode(local, init);
      CallContinues(Exec(local, init), a, l, p);
      ContinuesTwice(Exec(local, calls[..k]), Exec(local, init), Exec(local, calls), l, p,
                     Since(local, init, k, l, p), OpsOn(MicrosOf(Exec(local, init), a, l), p));
    }
  }

  /**
   In every legal run: from any point at which p is unmet in world l, connected before or not, the entry and
   the events about p depend only on which of the four parts of the introduction have happened, not on their
   order, their repeats or what the other peers did; listings in an SJN are counted, no more.
   */
  lemma OrderDoesNotMatterAlways(local: PeerId, calls: seq<Input>, k: nat, l: Uuid, p: PeerId, known: bool, s: Uuid, t: Time)
    requires Legal(local, calls) && k <= |calls|
    requires l in Exec(local, calls[..k]).worlds && l in Exec(local, calls).worlds
    requires Get(Exec(local, calls[..k]).worlds[l].peers, p) == Unmet(known)
    requires Introduction(known, Since(local, calls, k, l, p), s, t)
    ensures var f := FlagsOf(known, Since(local, calls, k, l, p), s);
            && Get(Exec(local, calls).worlds[l].peers, p) == EntryFor(f, s, t)
            && Only(Exec(local, calls).events, l, p) == Only(Exec(local, calls[..k]).events, l, p) + EventsFor(f, l, p, s)
  {
    var n := Exec(local, calls[..k]);
    RunContinues(local, calls, k, l, p);
    LegalPrefix(local, calls, k);
    RunKeepsNode(local, calls[..k]);
    assert Live(n, l, n.peers);
    OrderDoesNotMatter(n.worlds[l].id, p, known, Since(local, calls, k, l, p), s, t);
  }
}
