/**
 and/and.go: the AND object with its peer and world registries.  Every call is
 proved to be one step of the node model.
 */
module AndImpl {
  import opened Abyss
  import opened PeerEntry
  import opened WorldModel
  import opened NodeModel
  import opened WorldImpl
  import opened Outcomes

  /** The state reached is the one specified; after a panic only the panic itself matters. */
  predicate NodeMatches(now: Node, spec: Node) {
    now.fault == spec.fault && (!spec.fault ==> now == spec)
  }

  lemma StoreMatches(n: Node, l: Uuid, st: State, ms: seq<Micro>)
    requires l in n.worlds && Matches(st, DoAll(Inside(n, l), ms)) && !n.fault
    ensures NodeMatches(Store(n, l, st), OnWorld(n, l, ms))
  {
  }

  lemma {:induction false} OnEachFault(n: Node, sweep: seq<Uuid>, k: nat, m: Micro)
    requires k <= |sweep|
    ensures OnEach(n, sweep[..k], m).fault ==> OnEach(n, sweep, m).fault
    decreases |sweep|
  {
    if k == |sweep| {
      assert sweep[..k] == sweep;
    } else {
      assert sweep[..|sweep| - 1][..k] == sweep[..k];
      OnEachFault(n, sweep[..|sweep| - 1], k, m);
    }
  }

  lemma TimerStores(n: Node, l: Uuid, now: Time, order: seq<PeerId>, order2: seq<PeerId>, seed: nat, plan: seq<Micro>)
    requires l in n.worlds && plan == PlanTimer(n.worlds[l].id, n.worlds[l].peers, now, order, order2, seed)
    ensures NodeStep(n, Input.TimerExpire(l, now, order, order2, seed)) == Store(n, l, DoAll(Inside(n, l), plan))
  {
  }

  lemma TickIsStep(n: Node, l: Uuid, st: State, now: Time, order: seq<PeerId>, order2: seq<PeerId>, seed: nat)
    requires l in n.worlds && Enumerates(order, n.worlds[l].peers.Keys) && st == AfterTick(Inside(n, l), now, order, order2, seed)
    ensures Store(n, l, st) == NodeStep(n, Input.TimerExpire(l, now, order, order2, seed))
  {
    TickByPlan(Inside(n, l), now, order, order2, seed);
    TimerStores(n, l, now, order, order2, seed, PlanTimer(n.worlds[l].id, n.worlds[l].peers, now, order, order2, seed));
  }

  lemma OpenIsStep(n: Node, l: Uuid, url: string, now: Time, st: State, n': Node)
    requires st == Opened(WorldId(n.local, l, now, "", "", url), n.peers, n.events, n.out) && !n.fault
    requires n' == Node(n.local, n.peers, n.worlds[l := World(st.id, st.peers)], st.events, st.out, false, n.born[l := now])
    ensures n' == NodeStep(n, Input.OpenWorld(l, url, now))
  {
  }

  lemma JoinIsStep(n: Node, l: Uuid, target: PeerId, path: string, now: Time, st: State, n': Node)
    requires st == Joining(WorldId(n.local, l, now, target, path, ""), n.peers, n.events, n.out) && !n.fault
    requires n' == Node(n.local, n.peers, n.worlds[l := World(st.id, st.peers)], st.events, st.out, false, n.born[l := now])
    ensures n' == NodeStep(n, Input.JoinWorld(l, target, path, now))
  {
  }

  lemma AcceptIsStep(n: Node, l: Uuid, p: PeerId, session: Uuid, order: seq<PeerId>, st: State)
    requires l in n.worlds && !n.fault
    requires Matches(st, DoAll(Inside(n, l), PlanAccept(n.worlds[l].id, n.worlds[l].peers, p, session, order)))
    ensures NodeMatches(Store(n, l, st), NodeStep(n, Input.AcceptSession(l, p, session, order)))
  {
    StoreMatches(n, l, st, PlanAccept(n.worlds[l].id, n.worlds[l].peers, p, session, order));
  }

  lemma RecvIsStep(n: Node, l: Uuid, p: PeerId, m: Msg, st: State)
    requires l in n.worlds && !n.fault && !(m.MRST? && l == NIL)
    requires Matches(st, DoAll(Inside(n, l), PlanRecv(n.worlds[l].id, n.worlds[l].peers, p, m)))
    ensures NodeMatches(Store(n, l, st), NodeStep(n, Recv(p, l, m, [])))
  {
    StoreMatches(n, l, st, PlanRecv(n.worlds[l].id, n.worlds[l].peers, p, m));
  }

  lemma DeclineIsStep(n: Node, l: Uuid, p: PeerId, session: Uuid, st: State)
    requires l in n.worlds && !n.fault && Matches(st, Do(Inside(n, l), On(p, Decline(session))))
    ensures NodeMatches(Store(n, l, st), NodeStep(n, Input.DeclineSession(l, p, session)))
  {
    DoAllOne(Inside(n, l), On(p, Decline(session)));
    StoreMatches(n, l, st, [On(p, Decline(session))]);
  }

  lemma PeerCloseIsStep(n: Node, p: PeerId, sweep: seq<Uuid>, n1: Node)
    requires NodeMatches(n1, OnEach(n, sweep, On(p, Remove)))
    ensures NodeMatches(n1.(peers := n1.peers - {p}), NodeStep(n, Input.PeerClose(p, sweep)))
  {
  }

  class AND {
    const local: PeerId
    const env: Environment
    var peers: set<PeerId>
    var worlds: map<Uuid, ANDWorld>
    ghost var born: map<Uuid, Time>

    /** Each session id has a world object of its own, and all share one event channel. */
    ghost predicate Valid()
      reads this, set l | l in worlds :: worlds[l]
    {
      && (forall l :: l in worlds ==> worlds[l].env == env)
      && (forall l, l' :: l in worlds && l' in worlds && l != l' ==> worlds[l] != worlds[l'])
    }

    ghost function View(): Node
      reads this, env, set l | l in worlds :: worlds[l]
    {
      Node(local, peers, map l | l in worlds :: World(worlds[l].id, worlds[l].peers), env.events, env.out, env.panicked, born)
    }

    constructor (local: PeerId)
      ensures Valid() && View() == Start(local)
    {
      this.local := local;
      env := new Environment();
      peers, worlds, born := {}, map[], map[];
    }

    method Register(l: Uuid, w: ANDWorld, now: Time)
      requires Valid() && w.env == env && forall l' :: l' in worlds ==> worlds[l'] != w
      modifies this`worlds, this`born
      ensures Valid()
      ensures View() == old(View()).(worlds := old(View()).worlds[l := World(w.id, w.peers)], born := old(View()).born[l := now])
    {
      worlds := worlds[l := w];
      born := born[l := now];
      assert View().worlds == old(View()).worlds[l := World(w.id, w.peers)];
    }

    method OpenWorld(l: Uuid, url: string, now: Time)
      requires Valid() && !env.panicked
      modifies this, env
      ensures Valid() && View() == NodeStep(old(View()), Input.OpenWorld(l, url, now))
    {
      ghost var n := View();
      var w := new ANDWorld.Open(WorldId(local, l, now, "", "", url), peers, env);
      assert View().worlds == n.worlds;
      Register(l, w, now);
      OpenIsStep(n, l, url, now, w.View(), View());
    }

    method JoinWorld(l: Uuid, target: PeerId, path: string, now: Time)
      requires Valid() && !env.panicked
      modifies this, env
      ensures Valid() && View() == NodeStep(old(View()), Input.JoinWorld(l, target, path, now))
    {
      ghost var n := View();
      var w := new ANDWorld.Join(WorldId(local, l, now, target, path, ""), peers, env);
      assert View().worlds == n.worlds;
      Register(l, w, now);
      JoinIsStep(n, l, target, path, now, w.View(), View());
    }

    static method EntryCall(w: ANDWorld, p: PeerId, op: Op)
      requires !w.env.panicked && (op.Connect? || op.Remove? || op.RecvRST?)
      modifies w, w.env
      ensures Matches(w.View(), Do(old(w.View()), On(p, op)))
    {
      match op {
        case Connect => w.PeerConnected(p);
        case Remove => w.RemovePeer(p);
        case RecvRST => w.RST(p);
      }
    }

    /** One entry step in one world: the body of the loops over all worlds. */
    method InWorld(l: Uuid, p: PeerId, op: Op)
      requires Valid() && !env.panicked && l in worlds && (op.Connect? || op.Remove? || op.RecvRST?)
      modifies env, worlds[l]
      ensures Valid() && NodeMatches(View(), OnWorld(old(View()), l, [On(p, op)]))
    {
      ghost var n := View();
      DoAllOne(Inside(n, l), On(p, op));
      EntryCall(worlds[l], p, op);
      StoreMatches(n, l, worlds[l].View(), [On(p, op)]);
      assert View() == Store(n, l, worlds[l].View());
    }

    /** The loop over all worlds, in the order of one map iteration. */
    method InEveryWorld(sweep: seq<Uuid>, p: PeerId, op: Op)
      requires Valid() && !env.panicked && (op.Connect? || op.Remove? || op.RecvRST?)
      requires forall i :: 0 <= i < |sweep| ==> sweep[i] in worlds
      modifies env, set l | l in worlds :: worlds[l]
      ensures Valid() && NodeMatches(View(), OnEach(old(View()), sweep, On(p, op)))
    {
      ghost var n := View();
      var i := 0;
      while i < |sweep|
        invariant i <= |sweep| && Valid() && !env.panicked
        invariant View() == OnEach(n, sweep[..i], On(p, op))
      {
        assert sweep[..i + 1][..i] == sweep[..i];
        InWorld(sweep[i], p, op);
        i := i + 1;
        if env.panicked {
          OnEachFault(n, sweep, i, On(p, op));
          return;
        }
      }
      assert sweep[..|sweep|] == sweep;
    }

    method PeerConnected(p: PeerId) returns (sweep: seq<Uuid>)
      requires Valid() && !env.panicked
      modifies this`peers, env, set l | l in worlds :: worlds[l]
      ensures Valid() && Enumerates(sweep, worlds.Keys)
      ensures NodeMatches(View(), NodeStep(old(View()), Input.PeerConnected(p, sweep)))
    {
      peers := peers + {p};
      sweep := RangeOver(worlds.Keys);
      forall i | 0 <= i < |sweep| ensures sweep[i] in worlds { assert sweep[i] in sweep; }
      assert View() == old(View()).(peers := old(View()).peers + {p});
      InEveryWorld(sweep, p, Connect);
    }

    method Forget(p: PeerId)
      requires Valid()
      modifies this`peers
      ensures Valid() && View() == old(View()).(peers := old(View()).peers - {p})
    {
      peers := peers - {p};
    }

    method PeerClose(p: PeerId) returns (sweep: seq<Uuid>)
      requires Valid() && !env.panicked
      modifies this`peers, env, set l | l in worlds :: worlds[l]
      ensures Valid() && Enumerates(sweep, worlds.Keys)
      ensures NodeMatches(View(), NodeStep(old(View()), Input.PeerClose(p, sweep)))
    {
      sweep := RangeOver(worlds.Keys);
      forall i | 0 <= i < |sweep| ensures sweep[i] in worlds { assert sweep[i] in sweep; }
      ghost var was := View();
      InEveryWorld(sweep, p, Remove);
      ghost var n := View();
      Forget(p);
      PeerCloseIsStep(was, p, sweep, n);
    }

    method AcceptSession(l: Uuid, p: PeerId, session: Uuid) returns (order: seq<PeerId>)
      requires Valid() && !env.panicked
      modifies env, set l | l in worlds :: worlds[l]
      ensures Valid() && (l in old(View()).worlds ==> Enumerates(order, old(View()).worlds[l].peers.Keys))
      ensures NodeMatches(View(), NodeStep(old(View()), Input.AcceptSession(l, p, session, order)))
    {
      if l !in worlds { return []; }
      ghost var n, w := View(), worlds[l];
      order := worlds[l].AcceptSession(p, session);
      assert View() == Store(n, l, w.View());
      AcceptIsStep(n, l, p, session, order, w.View());
    }

    method DeclineSession(l: Uuid, p: PeerId, session: Uuid)
      requires Valid() && !env.panicked
      modifies env, set l | l in worlds :: worlds[l]
      ensures Valid() && NodeMatches(View(), NodeStep(old(View()), Input.DeclineSession(l, p, session)))
    {
      if l !in worlds { return; }
      ghost var n, w := View(), worlds[l];
      worlds[l].DeclineSession(p, session);
      assert View() == Store(n, l, w.View());
      DeclineIsStep(n, l, p, session, w.View());
    }

    method CloseWorld(l: Uuid) returns (order: seq<PeerId>)
      requires Valid() && !env.panicked
      modifies this`worlds, env
      ensures Valid() && (l in old(View()).worlds ==> Enumerates(order, old(View()).worlds[l].peers.Keys))
      ensures View() == NodeStep(old(View()), Input.CloseWorld(l, order))
    {
      if l !in worlds { return []; }
      ghost var n := View();
      order := worlds[l].Close();
      worlds := worlds - {l};
      assert View().worlds == n.worlds - {l};
      CloseDrops(n, l, order);
    }

    method Tick(l: Uuid, now: Time, seed: nat) returns (order: seq<PeerId>, order2: seq<PeerId>)
      requires Valid() && !env.panicked && l in worlds
      modifies env, worlds[l]
      ensures Valid() && Enumerates(order, old(worlds[l].peers.Keys)) && Enumerates(order2, old(worlds[l].peers.Keys))
      ensures View() == Store(old(View()), l, worlds[l].View())
      ensures worlds[l].View() == AfterTick(old(worlds[l].View()), now, order, order2, seed)
    {
      ghost var n := View();
      order, order2 := worlds[l].Tick(now, seed);
      assert View().worlds == n.worlds[l := World(worlds[l].id, worlds[l].peers)];
    }

    method TimerExpire(l: Uuid, now: Time, seed: nat) returns (order: seq<PeerId>, order2: seq<PeerId>)
      requires Valid() && !env.panicked
      modifies env, set l | l in worlds :: worlds[l]
      ensures Valid()
      ensures l in old(View()).worlds ==>
                Enumerates(order, old(View()).worlds[l].peers.Keys) && Enumerates(order2, old(View()).worlds[l].peers.Keys)
      ensures NodeMatches(View(), NodeStep(old(View()), Input.TimerExpire(l, now, order, order2, seed)))
    {
      if l !in worlds { return [], []; }
      ghost var n, w := View(), worlds[l];
      order, order2 := Tick(l, now, seed);
      TickIsStep(n, l, w.View(), now, order, order2, seed);
    }

    /** Dispatch of a decoded message to one world. */
    method Handle(l: Uuid, p: PeerId, m: Msg)
      requires Valid() && !env.panicked && l in worlds
      modifies env, worlds[l]
      ensures Valid() && Matches(worlds[l].View(), DoAll(old(worlds[l].View()), PlanRecv(worlds[l].id, old(worlds[l].peers), p, m)))
    {
      var w := worlds[l];
      ghost var st := w.View();
      match m
      case MJN(s, _, t) => DoAllOne(st, On(p, RecvJN(s, t))); w.JN(p, s, t);
      case MJOK(s, _, t, url, members) => w.JOK(p, s, t, url, members);
      case MJDN(_, code) => DoAllOne(st, On(p, RecvJDN(code))); w.JDN(p, code);
      case MJNI(s, _, member) => w.JNI(p, s, member);
      case MMEM(s, _, t) => DoAllOne(st, On(p, RecvMEM(s, t))); w.MEM(p, s, t);
      case MSJN(s, _, refs) => w.SJN(p, s, refs);
      case MCRR(s, _, refs) => w.CRR(p, s, refs);
      case MRST(_, _) => DoAllOne(st, On(p, RecvRST)); w.RST(p);
      case MSOA(s, _, objects) => DoAllOne(st, On(p, RecvSOA(s, objects))); w.SOA(p, s, objects);
      case MSOD(s, _, objects) => DoAllOne(st, On(p, RecvSOD(s, objects))); w.SOD(p, s, objects);
    }

    /** JN, JOK, JDN, JNI, MEM, SJN, CRR, SOA, SOD, and RST addressed to one world. */
    method Receive(p: PeerId, l: Uuid, m: Msg)
      requires Valid() && !env.panicked && !(m.MRST? && l == NIL)
      modifies env, set l | l in worlds :: worlds[l]
      ensures Valid() && NodeMatches(View(), NodeStep(old(View()), Recv(p, l, m, [])))
    {
      if l !in worlds { return; }
      ghost var n, w := View(), worlds[l];
      Handle(l, p, m);
      assert View() == Store(n, l, w.View());
      RecvIsStep(n, l, p, m, w.View());
    }

    /** RST addressed to the nil session goes to every world. */
    method BroadcastRST(p: PeerId, m: Msg) returns (sweep: seq<Uuid>)
      requires Valid() && !env.panicked && m.MRST?
      modifies env, set l | l in worlds :: worlds[l]
      ensures Valid() && Enumerates(sweep, worlds.Keys)
      ensures NodeMatches(View(), NodeStep(old(View()), Recv(p, NIL, m, sweep)))
    {
      sweep := RangeOver(worlds.Keys);
      forall i | 0 <= i < |sweep| ensures sweep[i] in worlds { assert sweep[i] in sweep; }
      InEveryWorld(sweep, p, RecvRST);
    }
  }
}
