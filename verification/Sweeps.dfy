/**
 What calls that reach every world, and the birth and the end of a world, must
 do to an AND instance.
 */
module Sweeps {
  import opened Prelude
  import opened Abyss
  import opened PeerEntry
  import opened WorldModel
  import opened NodeModel
  import opened WorldInvariant
  import opened NodeInvariant
  import opened Broadcasts
  import opened Handlers

  /** What happens to the entry of one peer in one world. */
  datatype Share = Share(entry: Option<Entry>, events: seq<Event>, sends: seq<Send>)

  /** What a sweep makes of a world it reaches. */
  type Effect = (WorldId, Option<Entry>) -> Share

  function EffectIn(n: Node, l: Uuid, p: PeerId, f: Effect): Share
    requires l in n.worlds
  {
    f(n.worlds[l].id, Get(n.worlds[l].peers, p))
  }

  function EventsOver(n: Node, sweep: seq<Uuid>, p: PeerId, f: Effect): seq<Event>
    requires forall l :: l in sweep ==> l in n.worlds
  {
    if sweep == [] then []
    else EventsOver(n, sweep[..|sweep| - 1], p, f) + EffectIn(n, sweep[|sweep| - 1], p, f).events
  }

  function SendsOver(n: Node, sweep: seq<Uuid>, p: PeerId, f: Effect): seq<Send>
    requires forall l :: l in sweep ==> l in n.worlds
  {
    if sweep == [] then []
    else SendsOver(n, sweep[..|sweep| - 1], p, f) + EffectIn(n, sweep[|sweep| - 1], p, f).sends
  }

  function WorldsOver(n: Node, sweep: seq<Uuid>, p: PeerId, f: Effect): map<Uuid, World> {
    map l | l in n.worlds ::
      if l in sweep then World(n.worlds[l].id, Put(n.worlds[l].peers, p, EffectIn(n, l, p, f).entry)) else n.worlds[l]
  }

  /** The instance after every world of the sweep has had its share. */
  function Swept(n: Node, sweep: seq<Uuid>, p: PeerId, f: Effect): Node
    requires forall l :: l in sweep ==> l in n.worlds
  {
    n.(worlds := WorldsOver(n, sweep, p, f), events := n.events + EventsOver(n, sweep, p, f), out := n.out + SendsOver(n, sweep, p, f))
  }

  /** In every world of the instance, the step on p's entry is the effect. */
  ghost predicate Does(n: Node, p: PeerId, op: Op, f: Effect) {
    forall l :: l in n.worlds ==>
      var e := Get(n.worlds[l].peers, p);
      var o := Step(n.worlds[l].id, p, e, op);
      !o.fault && f(n.worlds[l].id, e) == Share(o.entry, o.events, o.sends)
  }

  lemma SweptSnoc(n: Node, init: seq<Uuid>, l: Uuid, p: PeerId, f: Effect, n1: Node)
    requires l in n.worlds && l !in init && (forall k :: k in init ==> k in n.worlds) && n1 == Swept(n, init, p, f)
    ensures var c := EffectIn(n, l, p, f);
            l in n1.worlds && n1.worlds[l] == n.worlds[l] && (forall k :: k in init + [l] ==> k in n.worlds)
            && With(n1, l, p, c.entry, c.events, c.sends) == Swept(n, init + [l], p, f)
  {
    var c, all := EffectIn(n, l, p, f), init + [l];
    assert all[..|init|] == init && forall k :: k in all <==> k in init || k == l;
    Associate(n.events, EventsOver(n, init, p, f), c.events);
    Associate(n.out, SendsOver(n, init, p, f), c.sends);
    assert WorldsOver(n, all, p, f) == WorldsOver(n, init, p, f)[l := World(n.worlds[l].id, Put(n.worlds[l].peers, p, c.entry))];
  }

  lemma SweepOn(n1: Node, l: Uuid, p: PeerId, op: Op, c: Share)
    requires l in n1.worlds && !n1.fault
    requires var o := Step(n1.worlds[l].id, p, EntryIn(n1, l, p), op); !o.fault && c == Share(o.entry, o.events, o.sends)
    ensures OnWorld(n1, l, [On(p, op)]) == With(n1, l, p, c.entry, c.events, c.sends)
  {
    OneStep(n1, l, p, op, Step(n1.worlds[l].id, p, EntryIn(n1, l, p), op));
  }

  lemma {:induction false} SweepDoes(n: Node, sweep: seq<Uuid>, p: PeerId, op: Op, f: Effect)
    requires !n.fault && Does(n, p, op, f) && (forall l :: l in sweep ==> l in n.worlds)
    requires forall i, j :: 0 <= i < j < |sweep| ==> sweep[i] != sweep[j]
    ensures OnEach(n, sweep, On(p, op)) == Swept(n, sweep, p, f)
    decreases |sweep|
  {
    if sweep == [] {
      assert n.events + [] == n.events && n.out + [] == n.out;
      assert WorldsOver(n, [], p, f) == n.worlds;
    } else {
      var init, l := sweep[..|sweep| - 1], sweep[|sweep| - 1];
      assert l in sweep && l !in init && sweep == init + [l] && forall k :: k in init ==> k in sweep;
      SweepDoes(n, init, p, op, f);
      var n1 := Swept(n, init, p, f);
      SweptSnoc(n, init, l, p, f, n1);
      SweepOn(n1, l, p, op, EffectIn(n, l, p, f));
    }
  }

  // ---- a new connection ----

  /** A world that waits for the peer asks to join it; one that was told of it reports its request; any other knows it now. */
  function Greeting(p: PeerId): Effect {
    (w: WorldId, e: Option<Entry>) =>
      if e.None? then Share(Some(IDLE), [], [])
      else if e.value.status.DcJt? then
        Share(Some(e.value.(linked := true, status := Jt)), [], [Send(p, MJN(w.lsid, w.joinPath, TruncMs(w.stamp)))])
      else Share(Some(e.value.(linked := true, status := Jni)), [SessionRequest(w.lsid, p, e.value.session)], [])
  }

  /** A new connection reaches every world: the peer gets one JN for each world that waits for it, and nobody gets anything else. */
  lemma ConnectGreets(n: Node, p: PeerId, sweep: seq<Uuid>)
    requires NodeInv(n) && Admissible(n, PeerConnected(p, sweep))
    ensures forall l :: l in sweep ==> l in n.worlds
    ensures NodeStep(n, PeerConnected(p, sweep)) == Swept(n, sweep, p, Greeting(p)).(peers := n.peers + {p})
    ensures WorldsOver(n, sweep, p, Greeting(p)).Keys == n.worlds.Keys
  {
    var n0 := n.(peers := n.peers + {p});
    forall l | l in n0.worlds
      ensures var e := Get(n0.worlds[l].peers, p);
              var o := Step(n0.worlds[l].id, p, e, Connect);
              !o.fault && Greeting(p)(n0.worlds[l].id, e) == Share(o.entry, o.events, o.sends) {
      assert Live(n, l, n.peers);
      assert PeerInv(Inside(n, l), n.peers, p);
    }
    SweepDoes(n0, sweep, p, Connect, Greeting(p));
    SweptPeers(n, n0, sweep, p, Greeting(p));
  }

  /** World l waits for a connection to the host it is to join. */
  predicate WaitsFor(n: Node, l: Uuid, p: PeerId) {
    l in n.worlds && p in n.worlds[l].peers && n.worlds[l].peers[p].status.DcJt?
  }

  function Asking(n: Node, l: Uuid, p: PeerId): Send
    requires l in n.worlds
  {
    Send(p, MJN(l, n.worlds[l].id.joinPath, TruncMs(n.worlds[l].id.stamp)))
  }

  lemma {:induction false} GreetingsSent(n: Node, sweep: seq<Uuid>, p: PeerId)
    requires forall l :: l in sweep ==> l in n.worlds && n.worlds[l].id.lsid == l
    ensures forall l :: l in sweep && WaitsFor(n, l, p) ==> Asking(n, l, p) in SendsOver(n, sweep, p, Greeting(p))
    ensures forall x :: x in SendsOver(n, sweep, p, Greeting(p)) ==> exists l :: l in sweep && WaitsFor(n, l, p) && x == Asking(n, l, p)
    decreases |sweep|
  {
    if sweep != [] {
      var init, k := sweep[..|sweep| - 1], sweep[|sweep| - 1];
      assert sweep == init + [k] && k in sweep && forall l :: l in init ==> l in sweep;
      GreetingsSent(n, init, p);
      var more := EffectIn(n, k, p, Greeting(p)).sends;
      assert more == if WaitsFor(n, k, p) then [Asking(n, k, p)] else [];
      forall x | x in SendsOver(n, sweep, p, Greeting(p)) ensures exists l :: l in sweep && WaitsFor(n, l, p) && x == Asking(n, l, p) {
        if x in SendsOver(n, init, p, Greeting(p)) {
          var l :| l in init && WaitsFor(n, l, p) && x == Asking(n, l, p);
          assert l in sweep;
        } else {
          assert x in more;
        }
      }
    }
  }

  /** On a new connection the peer is asked by exactly the worlds that wait for it, and nothing else is sent. */
  lemma ConnectAsks(n: Node, p: PeerId, sweep: seq<Uuid>)
    requires NodeInv(n) && Admissible(n, PeerConnected(p, sweep))
    ensures var n' := NodeStep(n, PeerConnected(p, sweep));
            && n.out <= n'.out
            && (forall l :: WaitsFor(n, l, p) ==> Asking(n, l, p) in n'.out[|n.out|..])
            && (forall x :: x in n'.out[|n.out|..] ==> exists l :: WaitsFor(n, l, p) && x == Asking(n, l, p))
  {
    ConnectGreets(n, p, sweep);
    forall l | l in sweep ensures l in n.worlds && n.worlds[l].id.lsid == l { assert Live(n, l, n.peers); }
    GreetingsSent(n, sweep, p);
    var sends := SendsOver(n, sweep, p, Greeting(p));
    assert (n.out + sends)[|n.out|..] == sends;
    forall l | WaitsFor(n, l, p) ensures Asking(n, l, p) in sends { assert l in sweep; }
  }

  lemma {:induction false} SweptPeers(n: Node, n0: Node, sweep: seq<Uuid>, p: PeerId, f: Effect)
    requires n0 == n.(peers := n0.peers) && forall l :: l in sweep ==> l in n.worlds
    ensures EventsOver(n0, sweep, p, f) == EventsOver(n, sweep, p, f) && SendsOver(n0, sweep, p, f) == SendsOver(n, sweep, p, f)
    ensures WorldsOver(n0, sweep, p, f) == WorldsOver(n, sweep, p, f)
    decreases |sweep|
  {
    if sweep != [] {
      assert forall l :: l in sweep[..|sweep| - 1] ==> l in sweep;
      SweptPeers(n, n0, sweep[..|sweep| - 1], p, f);
    }
  }

  // ---- a reset of every world, and a peer that is gone ----

  /** The session with the peer ends, in every world with its own farewell. */
  function Parting(p: PeerId): Effect {
    (w: WorldId, e: Option<Entry>) =>
      if e.None? then Share(None, [], [])
      else Share(if Disconnected(e.value.status) then None else Some(IDLE), Ending(w.lsid, p, e.value), Farewell(w.lsid, p, e.value))
  }

  /** RST addressed to the nil session ends the sender's session in every world. */
  lemma BroadcastRSTClears(n: Node, p: PeerId, s: Uuid, r: Uuid, sweep: seq<Uuid>)
    requires NodeInv(n) && Admissible(n, Recv(p, NIL, MRST(s, r), sweep))
    ensures (forall l :: l in sweep ==> l in n.worlds)
    ensures NodeStep(n, Recv(p, NIL, MRST(s, r), sweep)) == Swept(n, sweep, p, Parting(p))
  {
    forall l | l in n.worlds
      ensures var e := Get(n.worlds[l].peers, p);
              var o := Step(n.worlds[l].id, p, e, RecvRST);
              !o.fault && Parting(p)(n.worlds[l].id, e) == Share(o.entry, o.events, o.sends) {
      KnownPeer(n, l, p);
      ClearStep(n.worlds[l].id, p, n.worlds[l].peers[p], Cleared(n.worlds[l].id, p, n.worlds[l].peers[p]));
    }
    SweepDoes(n, sweep, p, RecvRST, Parting(p));
  }

  /** The same, and no world knows the peer any more. */
  function Removal(p: PeerId): Effect {
    (w: WorldId, e: Option<Entry>) =>
      if e.None? then Share(None, [], []) else Share(None, Ending(w.lsid, p, e.value), Farewell(w.lsid, p, e.value))
  }

  /** A peer that is gone is forgotten by every world, with the same farewells. */
  lemma PeerCloseForgets(n: Node, p: PeerId, sweep: seq<Uuid>)
    requires NodeInv(n) && Admissible(n, PeerClose(p, sweep))
    ensures (forall l :: l in sweep ==> l in n.worlds)
    ensures NodeStep(n, PeerClose(p, sweep)) == Swept(n, sweep, p, Removal(p)).(peers := n.peers - {p})
  {
    forall l | l in n.worlds
      ensures var e := Get(n.worlds[l].peers, p);
              var o := Step(n.worlds[l].id, p, e, Remove);
              !o.fault && Removal(p)(n.worlds[l].id, e) == Share(o.entry, o.events, o.sends) {
      KnownPeer(n, l, p);
      RemoveStep(n.worlds[l].id, p, n.worlds[l].peers[p]);
    }
    SweepDoes(n, sweep, p, Remove, Removal(p));
  }

  lemma RemoveStep(w: WorldId, p: PeerId, e: Entry)
    requires e.linked <==> !Disconnected(e.status)
    ensures Step(w, p, Some(e), Remove) == Outcome(None, Ending(w.lsid, p, e), Farewell(w.lsid, p, e), false)
  {
    ClearStep(w, p, e, Cleared(w, p, e));
  }

  // ---- birth ----

  /** A joining world asks its target at once, or has it connected to; when that connection comes, it asks then. */
  lemma JoinAsksTarget(n: Node, l: Uuid, target: PeerId, path: string, now: Time, sweep: seq<Uuid>)
    requires NodeInv(n) && Admissible(n, JoinWorld(l, target, path, now))
    ensures var n1 := NodeStep(n, JoinWorld(l, target, path, now));
            var jn := Send(target, MJN(l, path, TruncMs(now)));
            if target in n.peers then n1.events == n.events && n1.out == n.out + [jn]
            else
              && n1.events == n.events + [ConnectRequest(target)] && n1.out == n.out
              && (Admissible(n1, PeerConnected(target, sweep)) ==> jn in NodeStep(n1, PeerConnected(target, sweep)).out)
  {
    var n1 := NodeStep(n, JoinWorld(l, target, path, now));
    WorldIsBorn(n, l, JoinWorld(l, target, path, now));
    if target !in n.peers && Admissible(n1, PeerConnected(target, sweep)) {
      StepKeepsNode(n, JoinWorld(l, target, path, now));
      ConnectAsks(n1, target, sweep);
      assert WaitsFor(n1, l, target) && Asking(n1, l, target) == Send(target, MJN(l, path, TruncMs(now)));
    }
  }

  /** A new world knows every connected peer as idle; an opened one has joined itself and gets its first timer. */
  lemma WorldIsBorn(n: Node, l: Uuid, a: Input)
    requires NodeInv(n) && Admissible(n, a) && (a.OpenWorld? || a.JoinWorld?) && a.lsid == l
    ensures var n' := NodeStep(n, a);
            && l in n'.worlds && n'.worlds - {l} == n.worlds
            && n'.worlds[l].id.lsid == l && n'.worlds[l].id.local == n.local && n'.worlds[l].id.stamp == a.now
            && (forall q :: q in n'.worlds[l].peers <==> q in n.peers || (a.JoinWorld? && q == a.target))
            && (forall q :: q in n.peers && (a.JoinWorld? ==> q != a.target) ==> n'.worlds[l].peers[q] == IDLE)
            && (a.OpenWorld? ==> n'.worlds[l].id.url == a.url && n'.out == n.out
                                 && n'.events == n.events + [JoinSuccess(l, a.url), TimerRequest(l, 500)])
            && (a.JoinWorld? ==> n'.worlds[l].id.joinHash == a.target && n'.worlds[l].id.joinPath == a.path && n'.worlds[l].peers[a.target].status
                                 == if a.target in n.peers then Jt else DcJt)
  {
    WorldsAreBorn(n);
    assert l !in n.worlds;
  }

  // ---- the end of a world ----

  /** What a peer is told, and the application about it, when the world is closed. */
  function LastWords(p: PeerId): Effect {
    (w: WorldId, e: Option<Entry>) =>
      if e.None? || Disconnected(e.value.status) || e.value.status.Cc? then Share(None, [], [])
      else Share(None,
                 match e.value.status
                 case Jt => [JoinFail(w.lsid, CODE_CANCELED)]
                 case Mem => [SessionClose(w.lsid, p, e.value.session)]
                 case _ => [],
                 [Send(p, MRST(w.lsid, e.value.session))])
  }

  function LastEvents(n: Node, l: Uuid, order: seq<PeerId>): seq<Event>
    requires l in n.worlds
  {
    if order == [] then []
    else
      var q := order[|order| - 1];
      LastEvents(n, l, order[..|order| - 1]) + EffectIn(n, l, q, LastWords(q)).events
  }

  function LastSends(n: Node, l: Uuid, order: seq<PeerId>): seq<Send>
    requires l in n.worlds
  {
    if order == [] then []
    else
      var q := order[|order| - 1];
      LastSends(n, l, order[..|order| - 1]) + EffectIn(n, l, q, LastWords(q)).sends
  }

  lemma LastStep(st: State, q: PeerId, e: Option<Entry>)
    requires e == Get(st.peers, q)
    ensures var c := LastWords(q)(st.id, e);
            Do(st, On(q, Shut)) == State(st.id, st.peers - {q}, st.events + c.events, st.out + c.sends, st.fault)
  {
    assert st.events + [] == st.events && st.out + [] == st.out;
    assert q !in st.peers ==> st.peers - {q} == st.peers;
  }

  /** The world with the peers in `order` gone. */
  function PartlyClosed(n: Node, l: Uuid, order: seq<PeerId>): State
    requires l in n.worlds
  {
    Inside(n, l).(peers := n.worlds[l].peers - (set q | q in order),
                  events := n.events + LastEvents(n, l, order), out := n.out + LastSends(n, l, order))
  }

  lemma ShutOneMore(n: Node, l: Uuid, init: seq<PeerId>, q: PeerId)
    requires l in n.worlds && q !in init
    ensures Do(PartlyClosed(n, l, init), On(q, Shut)) == PartlyClosed(n, l, init + [q])
  {
    var st1, c := PartlyClosed(n, l, init), EffectIn(n, l, q, LastWords(q));
    LastStep(st1, q, Get(n.worlds[l].peers, q));
    assert (init + [q])[..|init|] == init;
    assert (set x | x in init + [q]) == (set x | x in init) + {q};
    assert st1.peers - {q} == n.worlds[l].peers - (set x | x in init + [q]);
    Associate(n.events, LastEvents(n, l, init), c.events);
    Associate(n.out, LastSends(n, l, init), c.sends);
  }

  lemma ClosedNone(n: Node, l: Uuid)
    requires l in n.worlds
    ensures PartlyClosed(n, l, []) == Inside(n, l)
  {
    assert n.events + [] == n.events && n.out + [] == n.out;
    assert n.worlds[l].peers - (set q: PeerId | q in []) == n.worlds[l].peers;
  }

  lemma {:induction false} AllShut(n: Node, l: Uuid, order: seq<PeerId>)
    requires l in n.worlds && forall i, j :: 0 <= i < j < |order| ==> order[i] != order[j]
    ensures DoAll(Inside(n, l), PlanShut(order)) == PartlyClosed(n, l, order)
    decreases |order|
  {
    if order == [] {
      ClosedNone(n, l);
    } else {
      var init, q := order[..|order| - 1], order[|order| - 1];
      assert q !in init && order == init + [q];
      AllShut(n, l, init);
      PlanShutSnoc(Inside(n, l), init, q);
      ShutOneMore(n, l, init, q);
    }
  }

  /** The farewell of a closed world to one peer. */
  function Goodbye(n: Node, l: Uuid, q: PeerId): seq<Msg>
    requires l in n.worlds
  {
    var peers := n.worlds[l].peers;
    if q in peers && !Disconnected(peers[q].status) && !peers[q].status.Cc? then [MRST(l, peers[q].session)] else []
  }

  lemma {:induction false} GoodbyeTo(n: Node, l: Uuid, order: seq<PeerId>, q: PeerId)
    requires l in n.worlds && n.worlds[l].id.lsid == l && forall i, j :: 0 <= i < j < |order| ==> order[i] != order[j]
    ensures To(LastSends(n, l, order), q) == if q in order then Goodbye(n, l, q) else []
    decreases |order|
  {
    if order != [] {
      var init, x := order[..|order| - 1], order[|order| - 1];
      assert x !in init && order == init + [x];
      GoodbyeTo(n, l, init, q);
      var more := EffectIn(n, l, x, LastWords(x)).sends;
      ToCat(LastSends(n, l, init), more, q);
      if more != [] { ToOne(more[0], q); }
    }
  }

  /** Closing a world: each busy peer gets one RST for its session, each ready session and a pending join are ended, and the leave is last. */
  lemma CloseSaysGoodbye(n: Node, l: Uuid, order: seq<PeerId>)
    requires NodeInv(n) && l in n.worlds && Admissible(n, CloseWorld(l, order))
    ensures var n' := NodeStep(n, CloseWorld(l, order));
            && n'.worlds == n.worlds - {l} && n.out <= n'.out
            && n'.events == n.events + LastEvents(n, l, order) + [WorldLeave(l)]
            && forall q :: To(n'.out[|n.out|..], q) == Goodbye(n, l, q)
  {
    assert Live(n, l, n.peers);
    var st, plan := Inside(n, l), PlanClose(n.worlds[l].id, order);
    CloseDrops(n, l, order);
    AllShut(n, l, order);
    DoAllAppend(st, PlanShut(order), [Emit(WorldLeave(l))]);
    DoAllOne(DoAll(st, PlanShut(order)), Emit(WorldLeave(l)));
    var n' := NodeStep(n, CloseWorld(l, order));
    assert n'.out == n.out + LastSends(n, l, order) && n'.out[|n.out|..] == LastSends(n, l, order);
    forall q ensures To(LastSends(n, l, order), q) == Goodbye(n, l, q) { GoodbyeTo(n, l, order, q); }
  }
}
