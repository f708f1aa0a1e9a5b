/**
 One AND instance of and/and.go: the peer and world registries and the
 dispatch of application calls and decoded messages by local session id.
 The whole instance runs under one mutex, so every call is one step.
 */
module NodeModel {
  import opened Abyss
  import opened PeerEntry
  import opened WorldModel

  datatype World = World(id: WorldId, peers: Peers)

  /** `born` is a history: the creation time of every world ever opened or joined here. */
  datatype Node = Node(local: PeerId, peers: set<PeerId>, worlds: map<Uuid, World>,
                       events: seq<Event>, out: seq<Send>, fault: bool, born: map<Uuid, Time>)

  /** Calls of the AND interface.  Iteration orders, clock readings and random numbers are part of the call. */
  datatype Input =
    | PeerConnected(peer: PeerId, sweep: seq<Uuid>)
    | PeerClose(peer: PeerId, sweep: seq<Uuid>)
    | OpenWorld(lsid: Uuid, url: string, now: Time)
    | JoinWorld(lsid: Uuid, target: PeerId, path: string, now: Time)
    | AcceptSession(lsid: Uuid, peer: PeerId, session: Uuid, order: seq<PeerId>)
    | DeclineSession(lsid: Uuid, peer: PeerId, session: Uuid)
    | CloseWorld(lsid: Uuid, order: seq<PeerId>)
    | TimerExpire(lsid: Uuid, now: Time, order: seq<PeerId>, order2: seq<PeerId>, seed: nat)
    | Recv(peer: PeerId, lsid: Uuid, msg: Msg, sweep: seq<Uuid>)

  function Start(local: PeerId): Node {
    Node(local, {}, map[], [], [], false, map[])
  }

  function Inside(n: Node, l: Uuid): State
    requires l in n.worlds
  {
    State(n.worlds[l].id, n.worlds[l].peers, n.events, n.out, n.fault)
  }

  function Store(n: Node, l: Uuid, st: State): Node {
    n.(worlds := n.worlds[l := World(st.id, st.peers)], events := st.events, out := st.out, fault := n.fault || st.fault)
  }

  function OnWorld(n: Node, l: Uuid, ms: seq<Micro>): Node {
    if l in n.worlds then Store(n, l, DoAll(Inside(n, l), ms)) else n
  }

  /** The same entry step in every listed world. */
  function OnEach(n: Node, sweep: seq<Uuid>, m: Micro): Node {
    if sweep == [] then n
    else OnWorld(OnEach(n, sweep[..|sweep| - 1], m), sweep[|sweep| - 1], [m])
  }

  function PlanFor(n: Node, l: Uuid, a: Input): seq<Micro>
    requires l in n.worlds
  {
    var w := n.worlds[l];
    match a
    case AcceptSession(_, p, s, order) => PlanAccept(w.id, w.peers, p, s, order)
    case DeclineSession(_, p, s) => [On(p, Decline(s))]
    case CloseWorld(_, order) => PlanClose(w.id, order)
    case TimerExpire(_, now, order, order2, seed) => PlanTimer(w.id, w.peers, now, order, order2, seed)
    case Recv(p, _, m, _) => PlanRecv(w.id, w.peers, p, m)
    case _ => []
  }

  function NodeStep(n: Node, a: Input): Node {
    match a
    case PeerConnected(p, sweep) => OnEach(n.(peers := n.peers + {p}), sweep, On(p, Connect))
    case PeerClose(p, sweep) => var n' := OnEach(n, sweep, On(p, Remove)); n'.(peers := n'.peers - {p})
    case OpenWorld(l, url, now) =>
      var st := Opened(WorldId(n.local, l, now, "", "", url), n.peers, n.events, n.out);
      Store(n.(born := n.born[l := now]), l, st)
    case JoinWorld(l, target, path, now) =>
      var st := Joining(WorldId(n.local, l, now, target, path, ""), n.peers, n.events, n.out);
      Store(n.(born := n.born[l := now]), l, st)
    case CloseWorld(l, _) =>
      if l in n.worlds then var n' := OnWorld(n, l, PlanFor(n, l, a)); n'.(worlds := n'.worlds - {l}) else n
    case Recv(p, l, m, sweep) =>
      if m.MRST? && l == NIL then OnEach(n, sweep, On(p, RecvRST))
      else if l in n.worlds then OnWorld(n, l, PlanFor(n, l, a)) else n
    case _ => if a.lsid in n.worlds then OnWorld(n, a.lsid, PlanFor(n, a.lsid, a)) else n
  }

  lemma {:induction false} OnEachKeepsKeys(n: Node, sweep: seq<Uuid>, m: Micro)
    ensures OnEach(n, sweep, m).worlds.Keys == n.worlds.Keys
    decreases |sweep|
  {
    if sweep != [] { OnEachKeepsKeys(n, sweep[..|sweep| - 1], m); }
  }

  /** The state of a node that has carried out a plan in one world and dropped that world. */
  function WithoutWorld(n: Node, l: Uuid, st: State): Node {
    Node(n.local, n.peers, n.worlds - {l}, st.events, st.out, n.fault || st.fault, n.born)
  }

  lemma StoreThenDrop(n: Node, l: Uuid, st: State)
    ensures var n' := Store(n, l, st); n'.(worlds := n'.worlds - {l}) == WithoutWorld(n, l, st)
  {
    assert n.worlds[l := World(st.id, st.peers)] - {l} == n.worlds - {l};
  }

  lemma PlanThenDrop(n: Node, l: Uuid, ms: seq<Micro>, st: State)
    requires l in n.worlds && st == DoAll(Inside(n, l), ms)
    ensures var n' := OnWorld(n, l, ms); n'.(worlds := n'.worlds - {l}) == WithoutWorld(n, l, st)
  {
    StoreThenDrop(n, l, st);
  }

  lemma CloseByPlan(n: Node, l: Uuid, order: seq<PeerId>, ms: seq<Micro>)
    requires l in n.worlds && ms == PlanClose(n.worlds[l].id, order)
    ensures NodeStep(n, CloseWorld(l, order)) == var n' := OnWorld(n, l, ms); n'.(worlds := n'.worlds - {l})
  {
  }

  lemma CloseDrops(n: Node, l: Uuid, order: seq<PeerId>)
    requires l in n.worlds
    ensures NodeStep(n, CloseWorld(l, order)) == WithoutWorld(n, l, DoAll(Inside(n, l), PlanClose(n.worlds[l].id, order)))
  {
    var ms := PlanClose(n.worlds[l].id, order);
    CloseByPlan(n, l, order, ms);
    PlanThenDrop(n, l, ms, DoAll(Inside(n, l), ms));
  }

  // ---- what the rest of the program guarantees to AND ----

  predicate JoinedIn(events: seq<Event>, l: Uuid) {
    exists i :: 0 <= i < |events| && events[i].JoinSuccess? && events[i].lsid == l
  }

  /** CRR dereferences the Peer of every entry whose session it names. */
  ghost predicate RelaysLinked(peers: Peers, refs: seq<SessionRef>) {
    forall r :: r in refs && r.peer in peers && peers[r.peer].session == r.session ==> peers[r.peer].linked
  }

  ghost predicate Admissible(n: Node, a: Input) {
    match a
    case PeerConnected(p, sweep) => p !in n.peers && p != n.local && Enumerates(sweep, n.worlds.Keys)
    case PeerClose(p, sweep) => p in n.peers && Enumerates(sweep, n.worlds.Keys)
    case OpenWorld(l, _, _) => l !in n.born && l != NIL
    case JoinWorld(l, target, _, _) => l !in n.born && l != NIL && target != n.local
    case AcceptSession(l, p, s, order) =>
      SessionRequest(l, p, s) in n.events && (l in n.worlds ==> Enumerates(order, n.worlds[l].peers.Keys))
    case DeclineSession(l, p, s) => SessionRequest(l, p, s) in n.events
    case CloseWorld(l, order) => l in n.worlds ==> Enumerates(order, n.worlds[l].peers.Keys)
    case TimerExpire(l, _, order, order2, _) =>
      l in n.worlds ==> Enumerates(order, n.worlds[l].peers.Keys) && Enumerates(order2, n.worlds[l].peers.Keys)
    case Recv(p, l, m, sweep) =>
      && p in n.peers
      && (m.MRST? ==> Enumerates(sweep, n.worlds.Keys))
      && (m.MJN? && l in n.worlds ==> JoinedIn(n.events, l))
      && (m.MCRR? && l in n.worlds ==> RelaysLinked(n.worlds[l].peers, m.refs))
  }

  // ---- runs ----

  function Exec(local: PeerId, calls: seq<Input>): Node {
    if calls == [] then Start(local) else NodeStep(Exec(local, calls[..|calls| - 1]), calls[|calls| - 1])
  }

  ghost predicate Legal(local: PeerId, calls: seq<Input>) {
    calls == [] ||
    (Legal(local, calls[..|calls| - 1]) && Admissible(Exec(local, calls[..|calls| - 1]), calls[|calls| - 1]))
  }

  lemma {:induction false} LegalPrefix(local: PeerId, calls: seq<Input>, k: nat)
    requires Legal(local, calls) && k <= |calls|
    ensures Legal(local, calls[..k])
    ensures k < |calls| ==> Admissible(Exec(local, calls[..k]), calls[k])
    decreases |calls|
  {
    if k == |calls| {
      assert calls[..k] == calls;
    } else {
      var init := calls[..|calls| - 1];
      LegalPrefix(local, init, k);
      assert init[..k] == calls[..k];
    }
  }
}
