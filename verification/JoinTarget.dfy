/** The entries of a live world over every run: who is connected, and who is being joined. */
module JoinTarget {
  import opened Abyss
  import opened PeerEntry
  import opened WorldModel
  import opened NodeModel
  import opened EventOrder
  import opened EntryInvariant
  import opened WorldInvariant
  import opened NodeInvariant
  import opened EventTheorems

  lemma LivePeer(local: PeerId, calls: seq<Input>, l: Uuid, p: PeerId)
    requires Legal(local, calls) && l in Exec(local, calls).worlds
    ensures var n := Exec(local, calls);
            var w := n.worlds[l];
            && ShapeOpt(w.id, p, Get(w.peers, p), p in n.peers)
            && Fits(w.id, p, Get(w.peers, p), StageOf(n.events, l))
  {
    RunKeepsNode(local, calls);
    var n := Exec(local, calls);
    assert Live(n, l, n.peers);
    assert PeerInv(Inside(n, l), n.peers, p);
  }

  /**
   The connected entries of every world are exactly the registered peers, an
   entry has its Peer set exactly when it is connected, and an idle entry
   carries no session and no time stamp.
   */
  lemma ConnectedSetAgrees(local: PeerId, calls: seq<Input>, l: Uuid, p: PeerId)
    requires Legal(local, calls) && l in Exec(local, calls).worlds
    ensures var n := Exec(local, calls);
            var e := Get(n.worlds[l].peers, p);
            && (p in n.peers <==> e.Some? && !Disconnected(e.value.status))
            && (e.Some? ==> (e.value.linked <==> p in n.peers))
            && (e.Some? && Idling(e.value.status) ==> e.value.session == NIL && e.value.stamp == ZERO_TIME)
  {
    LivePeer(local, calls, l, p);
  }

  predicate HasTarget(peers: Peers) {
    exists p :: p in peers && Targeted(peers[p].status)
  }

  /** A target is there exactly as long as the join has no result; until then every other entry is idle or a silent member. */
  lemma TargetUntilResult(local: PeerId, calls: seq<Input>, l: Uuid)
    requires Legal(local, calls) && l in Exec(local, calls).worlds
    ensures var n := Exec(local, calls);
            var w := n.worlds[l];
            && (forall p :: p in w.peers && Targeted(w.peers[p].status) ==> p == w.id.joinHash)
            && (HasTarget(w.peers) <==> forall i :: 0 <= i < |n.events| ==> !IsResult(n.events[i], l))
            && (HasTarget(w.peers) ==>
                  forall p :: p in w.peers && p != w.id.joinHash ==> w.peers[p].status.Cc? || w.peers[p].status.RmemNjni?)
  {
    var n := Exec(local, calls);
    var w := n.worlds[l];
    RunKeepsNode(local, calls);
    LiveStage(n, l);
    StageTells(n.events, l);
    LivePeer(local, calls, l, w.id.joinHash);
    forall p | p in w.peers
      ensures Targeted(w.peers[p].status) ==> p == w.id.joinHash && StageOf(n.events, l).Fresh?
      ensures StageOf(n.events, l).Fresh? && p != w.id.joinHash ==> w.peers[p].status.Cc? || w.peers[p].status.RmemNjni?
    {
      LivePeer(local, calls, l, p);
    }
  }

  lemma {:induction false} LogGrows(local: PeerId, calls: seq<Input>, k: nat)
    requires Legal(local, calls) && k <= |calls|
    ensures Exec(local, calls[..k]).events <= Exec(local, calls).events
    decreases |calls|
  {
    if k == |calls| {
      assert calls[..k] == calls;
    } else {
      var init := calls[..|calls| - 1];
      assert init[..k] == calls[..k];
      LogGrows(local, init, k);
      RunKeepsNode(local, init);
      CallAppends(Exec(local, init), calls[|calls| - 1]);
    }
  }

  /** Once the join target is gone it never comes back. */
  lemma TargetNeverReturns(local: PeerId, calls: seq<Input>, k: nat, l: Uuid)
    requires Legal(local, calls) && k <= |calls|
    requires l in Exec(local, calls[..k]).worlds && l in Exec(local, calls).worlds
    requires !HasTarget(Exec(local, calls[..k]).worlds[l].peers)
    ensures !HasTarget(Exec(local, calls).worlds[l].peers)
  {
    LegalPrefix(local, calls, k);
    TargetUntilResult(local, calls[..k], l);
    TargetUntilResult(local, calls, l);
    LogGrows(local, calls, k);
    var before, after := Exec(local, calls[..k]).events, Exec(local, calls).events;
    var i :| 0 <= i < |before| && IsResult(before[i], l);
    assert after[i] == before[i];
  }
}
