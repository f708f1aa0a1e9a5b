/**
 From net_service to AND: the host calls PeerConnected once for each peer it
 takes from the service's channel (in any order, and perhaps not for all), so
 AND never meets a second connection of a peer.
 */
module PeerFeed {
  import opened Abyss
  import opened NodeModel
  import PeerLink

  function Connects(calls: seq<Input>): seq<PeerId> {
    if calls == [] then [] else
      var last := calls[|calls| - 1];
      Connects(calls[..|calls| - 1]) + if last.PeerConnected? then [last.peer] else []
  }

  /** Every hypothesis on the calls except that a peer connects only once; the host never closes a peer. */
  ghost predicate Otherwise(n: Node, a: Input) {
    if a.PeerConnected? then a.peer != n.local && Enumerates(a.sweep, n.worlds.Keys)
    else !a.PeerClose? && Admissible(n, a)
  }

  ghost predicate LegalOtherwise(local: PeerId, calls: seq<Input>) {
    calls == [] ||
    (LegalOtherwise(local, calls[..|calls| - 1]) && Otherwise(Exec(local, calls[..|calls| - 1]), calls[|calls| - 1]))
  }

  lemma {:induction false} SweepKeepsPeers(n: Node, sweep: seq<Uuid>, m: WorldModel.Micro)
    ensures OnEach(n, sweep, m).peers == n.peers
    decreases |sweep|
  {
    if sweep != [] { SweepKeepsPeers(n, sweep[..|sweep| - 1], m); }
  }

  lemma CallsKeepPeers(n: Node, a: Input)
    requires !a.PeerClose?
    ensures NodeStep(n, a).peers == n.peers + if a.PeerConnected? then {a.peer} else {}
  {
    if a.PeerConnected? {
      SweepKeepsPeers(n.(peers := n.peers + {a.peer}), a.sweep, WorldModel.On(a.peer, PeerEntry.Connect));
    } else if a.Recv? {
      SweepKeepsPeers(n, a.sweep, WorldModel.On(a.peer, PeerEntry.RecvRST));
    }
  }

  lemma {:induction false} PeersAreConnects(local: PeerId, calls: seq<Input>)
    requires LegalOtherwise(local, calls)
    ensures forall p :: p in Exec(local, calls).peers <==> p in Connects(calls)
    decreases |calls|
  {
    if calls != [] {
      var init := calls[..|calls| - 1];
      PeersAreConnects(local, init);
      CallsKeepPeers(Exec(local, init), calls[|calls| - 1]);
    }
  }

  lemma {:induction false} AtMostOne<T>(s: seq<T>, x: T)
    requires forall i, j :: 0 <= i < j < |s| ==> s[i] != s[j]
    ensures multiset(s)[x] <= 1
    decreases |s|
  {
    if s != [] {
      AtMostOne(s[..|s| - 1], x);
      assert s == s[..|s| - 1] + [s[|s| - 1]];
    }
  }

  /** Whatever the network does, no call of the host reaches the "duplicate connection" panic. */
  lemma {:induction false} ConnectionsAreNew(ops: seq<PeerLink.Op>, local: PeerId, calls: seq<Input>)
    requires multiset(Connects(calls)) <= multiset(PeerLink.Run(ops).published)
    requires LegalOtherwise(local, calls)
    ensures Legal(local, calls)
    decreases |calls|
  {
    if calls != [] {
      var init, last := calls[..|calls| - 1], calls[|calls| - 1];
      ConnectionsAreNew(ops, local, init);
      if last.PeerConnected? {
        PeersAreConnects(local, init);
        PeerLink.RunKeeps(ops);
        AtMostOne(PeerLink.Run(ops).published, last.peer);
        assert Connects(calls) == Connects(init) + [last.peer];
        assert multiset(Connects(calls))[last.peer] == multiset(Connects(init))[last.peer] + 1;
      }
    }
  }
}
