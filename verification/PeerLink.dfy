/**
 net_service: a connection to a peer is made of two half connections whose
 handshakes finish independently.  Each peer's record is guarded by a mutex,
 so the deferred block of a handshake, the end of the listener and a failed
 send are each one step.  A handshake is modelled by its outcome: the
 connection and codec it produced, or the error its deferred block sees.
 */
module PeerLink {
  import opened Prelude
  import opened Abyss

  type Conn = nat
  type Codec = nat
  type Address = nat
  type Error = string

  datatype LinkState = Disconnected | Inbound | Outbound | Connected | Closed

  /** A snapshot of an AbyssPeer. */
  datatype Link = Link(state: LinkState, inboundConn: Option<Conn>, decoder: Option<Codec>,
                       outboundConn: Option<Conn>, encoder: Option<Codec>, addresses: seq<Address>, err: Option<Error>)

  const NEW_LINK := Link(Disconnected, None, None, None, None, [], None)

  datatype Reason = AlreadyConnected | EarlyReconnection

  datatype Refusal = Refusal(conn: Conn, reason: Reason)

  /** The peers known to the service, the peers handed to the host, the connections turned away. */
  datatype Net = Net(links: map<PeerId, Link>, published: seq<PeerId>, refused: seq<Refusal>)

  datatype Op =
    | Append(peer: PeerId)
    | InboundDone(peer: PeerId, conn: Conn, codec: Codec)
    | InboundFailed(peer: PeerId, err: Error)
    | OutboundDone(peer: PeerId, conn: Conn, codec: Codec, addresses: seq<Address>)
    | OutboundFailed(peer: PeerId, err: Error)
    | ListenerEnded(peer: PeerId)
    | SendFailed(peer: PeerId, err: Error)

  function Rank(s: LinkState): nat {
    match s
    case Disconnected => 0
    case Inbound => 1
    case Outbound => 1
    case Connected => 2
    case Closed => 3
  }

  function Fail(l: Link, e: Error): Link {
    l.(state := Closed, err := if l.err.None? then Some(e) else l.err)
  }

  /** What one step does to the peer it names. */
  function LinkStep(l: Link, a: Op): Link {
    match a
    case Append(_) => l
    case InboundFailed(_, e) => Fail(l, e)
    case OutboundFailed(_, e) => Fail(l, e)
    case InboundDone(_, conn, codec) =>
      if l.state.Disconnected? then l.(state := Inbound, inboundConn := Some(conn), decoder := Some(codec))
      else if l.state.Outbound? then l.(state := Connected, inboundConn := Some(conn), decoder := Some(codec))
      else l
    case OutboundDone(_, conn, codec, addresses) =>
      if l.state.Disconnected? then
        l.(state := Outbound, outboundConn := Some(conn), encoder := Some(codec), addresses := l.addresses + addresses)
      else if l.state.Inbound? then
        l.(state := Connected, outboundConn := Some(conn), encoder := Some(codec), addresses := l.addresses + addresses)
      else l
    case ListenerEnded(_) => l.(state := Closed, err := None) // the loop's own err hides the one stored here
    case SendFailed(_, e) => l.(state := Closed, err := Some(e))
  }

  function InboundOp(p: PeerId, failed: Option<Error>, conn: Conn, codec: Codec): Op {
    if failed.Some? then InboundFailed(p, failed.value) else InboundDone(p, conn, codec)
  }

  function OutboundOp(p: PeerId, failed: Option<Error>, conn: Conn, codec: Codec, dialled: seq<Address>): Op {
    if failed.Some? then OutboundFailed(p, failed.value) else OutboundDone(p, conn, codec, dialled)
  }

  function Refusals(l: Link, a: Op): seq<Refusal> {
    match a
    case InboundDone(_, conn, _) =>
      if l.state.Inbound? || l.state.Connected? then [Refusal(conn, AlreadyConnected)]
      else if l.state.Closed? then [Refusal(conn, EarlyReconnection)] else []
    case OutboundDone(_, conn, _, _) =>
      if l.state.Outbound? || l.state.Connected? then [Refusal(conn, AlreadyConnected)]
      else if l.state.Closed? then [Refusal(conn, EarlyReconnection)] else []
    case _ => []
  }

  function Step(n: Net, a: Op): Net {
    if a.peer !in n.links then
      if a.Append? then n.(links := n.links[a.peer := NEW_LINK]) else n
    else
      var l := n.links[a.peer];
      var l' := LinkStep(l, a);
      Net(n.links[a.peer := l'],
          if l'.state.Connected? && !l.state.Connected? then n.published + [a.peer] else n.published,
          n.refused + Refusals(l, a))
  }

  lemma StepShape(n: Net, a: Op, n': Net, publish: bool)
    requires a.peer in n.links && n'.links == n.links[a.peer := LinkStep(n.links[a.peer], a)]
    requires publish <==> LinkStep(n.links[a.peer], a).state.Connected? && !n.links[a.peer].state.Connected?
    requires n'.published == if publish then n.published + [a.peer] else n.published
    requires n'.refused == n.refused + Refusals(n.links[a.peer], a)
    ensures n' == Step(n, a)
  {
  }

  /** When the program can take the step: a listener runs once the inbound half is in, a sender has seen the peer connected. */
  predicate Enabled(n: Net, a: Op) {
    match a
    case Append(_) => true
    case ListenerEnded(p) => p in n.links && n.links[p].decoder.Some?
    case SendFailed(p, _) => p in n.published
    case _ => a.peer in n.links
  }

  const EMPTY_NET := Net(map[], [], [])

  function Run(ops: seq<Op>): Net {
    if ops == [] then EMPTY_NET else Step(Run(ops[..|ops| - 1]), ops[|ops| - 1])
  }

  ghost predicate Possible(ops: seq<Op>) {
    ops == [] || (Possible(ops[..|ops| - 1]) && Enabled(Run(ops[..|ops| - 1]), ops[|ops| - 1]))
  }

  // ---- the record of one peer, and the service, as the program keeps them ----

  class AbyssPeer {
    var state: LinkState
    var inboundConn: Option<Conn>
    var decoder: Option<Codec>
    var outboundConn: Option<Conn>
    var encoder: Option<Codec>
    var addresses: seq<Address>
    var err: Option<Error>

    constructor ()
      ensures View() == NEW_LINK
    {
      state, inboundConn, decoder, outboundConn, encoder, addresses, err := Disconnected, None, None, None, None, [], None;
    }

    ghost function View(): Link
      reads this
    {
      Link(state, inboundConn, decoder, outboundConn, encoder, addresses, err)
    }

    method FinishInbound(ghost p: PeerId, failed: Option<Error>, conn: Conn, codec: Codec)
      returns (publish: bool, refused: Option<Reason>)
      modifies this
      ensures View() == LinkStep(old(View()), InboundOp(p, failed, conn, codec))
      ensures publish <==> state == Connected && old(state) != Connected
      ensures (if refused.Some? then [Refusal(conn, refused.value)] else []) == Refusals(old(View()), InboundOp(p, failed, conn, codec))
    {
      publish, refused := false, None;
      if failed.Some? {
        if err.None? { err := failed; }
        state := Closed;
      } else {
        match state
        case Disconnected => {
          state, inboundConn, decoder := Inbound, Some(conn), Some(codec);
        }
        case Outbound => {
          state, inboundConn, decoder := Connected, Some(conn), Some(codec);
          publish := true;
        }
        case Inbound => { refused := Some(AlreadyConnected); }
        case Connected => { refused := Some(AlreadyConnected); }
        case Closed => { refused := Some(EarlyReconnection); }
      }
    }

    method FinishOutbound(ghost p: PeerId, failed: Option<Error>, conn: Conn, codec: Codec, dialled: seq<Address>)
      returns (publish: bool, refused: Option<Reason>)
      modifies this
      ensures View() == LinkStep(old(View()), OutboundOp(p, failed, conn, codec, dialled))
      ensures publish <==> state == Connected && old(state) != Connected
      ensures (if refused.Some? then [Refusal(conn, refused.value)] else []) == Refusals(old(View()), OutboundOp(p, failed, conn, codec, dialled))
    {
      publish, refused := false, None;
      if failed.Some? {
        if err.None? { err := failed; }
        state := Closed;
      } else {
        match state
        case Disconnected => {
          state, outboundConn, encoder, addresses := Outbound, Some(conn), Some(codec), addresses + dialled;
        }
        case Inbound => {
          state, outboundConn, encoder, addresses := Connected, Some(conn), Some(codec), addresses + dialled;
          publish := true;
        }
        case Outbound => { refused := Some(AlreadyConnected); }
        case Connected => { refused := Some(AlreadyConnected); }
        case Closed => { refused := Some(EarlyReconnection); }
      }
    }

    method EndListener(ghost p: PeerId)
      modifies this
      ensures View() == LinkStep(old(View()), ListenerEnded(p))
    {
      state, err := Closed, None;
    }

    /** The failing path of _trySend. */
    method FailSend(ghost p: PeerId, e: Error)
      modifies this
      ensures View() == LinkStep(old(View()), SendFailed(p, e))
    {
      state, err := Closed, Some(e);
    }
  }

  class NetService {
    var peers: map<PeerId, AbyssPeer>
    var channel: seq<PeerId>
    var refused: seq<Refusal>

    ghost predicate Valid()
      reads this
    {
      forall p, q :: p in peers && q in peers && p != q ==> peers[p] != peers[q]
    }

    ghost function View(): Net
      reads this, peers.Values
    {
      Net(map p | p in peers :: peers[p].View(), channel, refused)
    }

    constructor ()
      ensures Valid() && View() == EMPTY_NET
    {
      peers, channel, refused := map[], [], [];
    }

    /** AppendKnownPeerDer. */
    method AppendPeer(p: PeerId)
      requires Valid()
      modifies this`peers
      ensures Valid() && View() == Step(old(View()), Append(p))
      ensures forall q :: q in peers && q !in old(peers) ==> fresh(peers[q])
    {
      if p !in peers {
        var peer := new AbyssPeer();
        peers := peers[p := peer];
      }
      assert View().links == Step(old(View()), Append(p)).links;
    }

    /** A peer that has become connected goes to the host; a connection that is not needed is turned away. */
    method Settle(p: PeerId, publish: bool, conn: Conn, reason: Option<Reason>)
      requires Valid()
      modifies this`channel, this`refused
      ensures Valid() && View() == old(View()).(
                published := old(channel) + (if publish then [p] else []),
                refused := old(refused) + (if reason.Some? then [Refusal(conn, reason.value)] else []))
    {
      channel := channel + if publish then [p] else [];
      refused := refused + if reason.Some? then [Refusal(conn, reason.value)] else [];
    }

    /** The deferred block of PrepareAbyssInbound, once the peer has been looked up. */
    method PrepareInbound(p: PeerId, failed: Option<Error>, conn: Conn, codec: Codec)
      requires Valid() && p in peers
      modifies this`channel, this`refused, peers[p]
      ensures Valid() && View() == Step(old(View()), InboundOp(p, failed, conn, codec))
    {
      ghost var was, a := View(), InboundOp(p, failed, conn, codec);
      var publish, reason := peers[p].FinishInbound(p, failed, conn, codec);
      assert forall q :: q in peers && q != p ==> peers[q].View() == old(peers[q].View());
      assert View().links == was.links[p := LinkStep(was.links[p], a)];
      Settle(p, publish, conn, reason);
      StepShape(was, a, View(), publish);
    }

    /** The deferred block of PrepareAbyssOutbound. */
    method PrepareOutbound(p: PeerId, failed: Option<Error>, conn: Conn, codec: Codec, dialled: seq<Address>)
      requires Valid() && p in peers
      modifies this`channel, this`refused, peers[p]
      ensures Valid() && View() == Step(old(View()), OutboundOp(p, failed, conn, codec, dialled))
    {
      ghost var was, a := View(), OutboundOp(p, failed, conn, codec, dialled);
      var publish, reason := peers[p].FinishOutbound(p, failed, conn, codec, dialled);
      assert forall q :: q in peers && q != p ==> peers[q].View() == old(peers[q].View());
      assert View().links == was.links[p := LinkStep(was.links[p], a)];
      Settle(p, publish, conn, reason);
      StepShape(was, a, View(), publish);
    }
  }

  // ---- what holds in every run ----

  ghost predicate LinkOk(l: Link, published: bool) {
    && (l.inboundConn.Some? <==> l.decoder.Some?)
    && (l.outboundConn.Some? <==> l.encoder.Some?)
    && (l.state.Disconnected? ==> l.inboundConn.None? && l.outboundConn.None?)
    && (l.state.Inbound? ==> l.inboundConn.Some? && l.outboundConn.None?)
    && (l.state.Outbound? ==> l.inboundConn.None? && l.outboundConn.Some?)
    && (l.state.Connected? ==> l.inboundConn.Some? && l.outboundConn.Some?)
    && (published <==> l.inboundConn.Some? && l.outboundConn.Some?)
  }

  ghost predicate Inv(n: Net) {
    && (forall p :: p in n.links ==> LinkOk(n.links[p], p in n.published))
    && (forall p :: p in n.published ==> p in n.links)
    && (forall i, j :: 0 <= i < j < |n.published| ==> n.published[i] != n.published[j])
  }

  lemma LinkKeeps(l: Link, a: Op, published: bool)
    requires LinkOk(l, published)
    ensures LinkOk(LinkStep(l, a), published || LinkStep(l, a).state.Connected?)
    ensures published ==> !LinkStep(l, a).state.Connected? || l.state.Connected?
  {
  }

  lemma LinkedKeeps(n: Net, a: Op)
    requires Inv(n) && a.peer in n.links
    ensures Inv(Step(n, a))
  {
    var l := n.links[a.peer];
    LinkKeeps(l, a, a.peer in n.published);
    assert forall p :: p in Step(n, a).published <==> p in n.published || (p == a.peer && LinkStep(l, a).state.Connected?);
  }

  lemma StepKeeps(n: Net, a: Op)
    requires Inv(n)
    ensures Inv(Step(n, a))
  {
    if a.peer in n.links { LinkedKeeps(n, a); }
  }

  lemma {:induction false} RunKeeps(ops: seq<Op>)
    ensures Inv(Run(ops))
    decreases |ops|
  {
    if ops != [] {
      RunKeeps(ops[..|ops| - 1]);
      StepKeeps(Run(ops[..|ops| - 1]), ops[|ops| - 1]);
    }
  }

  /** A peer is published at most once, and exactly the peers with both halves installed have been. */
  lemma PublishedExactlyAtJoin(ops: seq<Op>)
    ensures var n := Run(ops);
            && (forall i, j :: 0 <= i < j < |n.published| ==> n.published[i] != n.published[j])
            && (forall p :: p in n.published <==>
                  p in n.links && n.links[p].inboundConn.Some? && n.links[p].decoder.Some?
                  && n.links[p].outboundConn.Some? && n.links[p].encoder.Some?)
            && (forall p :: p in n.links && n.links[p].state.Connected? ==> p in n.published)
  {
    RunKeeps(ops);
  }

  /** The state has not moved back and the installed halves are the same. */
  ghost predicate Grown(l: Link, l': Link) {
    && Rank(l.state) <= Rank(l'.state)
    && (l.inboundConn.Some? ==> l'.inboundConn == l.inboundConn && l'.decoder == l.decoder)
    && (l.outboundConn.Some? ==> l'.outboundConn == l.outboundConn && l'.encoder == l.encoder)
    && l.addresses <= l'.addresses
  }

  lemma StepGrows(l: Link, a: Op, published: bool)
    requires LinkOk(l, published)
    ensures Grown(l, LinkStep(l, a))
  {
  }

  /** Later in the run, a peer is still known, its state has not moved back and its halves are the same. */
  lemma {:induction false} LinksOnlyGrow(ops: seq<Op>, k: nat, p: PeerId)
    requires k <= |ops| && p in Run(ops[..k]).links
    ensures p in Run(ops).links && Grown(Run(ops[..k]).links[p], Run(ops).links[p])
    decreases |ops|
  {
    if k == |ops| {
      assert ops[..k] == ops;
    } else {
      var init := ops[..|ops| - 1];
      assert init[..k] == ops[..k];
      LinksOnlyGrow(init, k, p);
      RunKeeps(init);
      StepGrows(Run(init).links[p], ops[|ops| - 1], p in Run(init).published);
    }
  }

  /** A finished handshake is never lost: its connection becomes a half of the peer or is turned away. */
  lemma {:induction false} NoConnectionIsLost(ops: seq<Op>, k: nat)
    requires Possible(ops) && k < |ops| && (ops[k].InboundDone? || ops[k].OutboundDone?)
    ensures var n := Run(ops);
            var a := ops[k];
            || (exists r :: r in n.refused && r.conn == a.conn)
            || (a.peer in n.links && (if a.InboundDone? then n.links[a.peer].inboundConn else n.links[a.peer].outboundConn) == Some(a.conn))
    decreases |ops|
  {
    var init, last := ops[..|ops| - 1], ops[|ops| - 1];
    var n := Run(init);
    if k < |init| {
      NoConnectionIsLost(init, k);
      assert forall r :: r in n.refused ==> r in Run(ops).refused;
      if !exists r :: r in n.refused && r.conn == ops[k].conn {
        assert init == ops[..|init|];
        LinksOnlyGrow(ops, |init|, ops[k].peer);
      }
    } else {
      var l := n.links[last.peer];
      var rs := Refusals(l, last);
      if rs != [] { assert rs[0] in Run(ops).refused; }
    }
  }

  // ---- which handshakes make the connection ----

  predicate Known(ops: seq<Op>, p: PeerId) {
    ops != [] && (Known(ops[..|ops| - 1], p) || ops[|ops| - 1] == Append(p))
  }

  predicate Ends(a: Op) {
    a.InboundFailed? || a.OutboundFailed? || a.ListenerEnded? || a.SendFailed?
  }

  /** A handshake or a send of the known peer has failed, or its listener has ended. */
  predicate Over(ops: seq<Op>, p: PeerId) {
    ops != [] && (Over(ops[..|ops| - 1], p) || (Known(ops[..|ops| - 1], p) && Ends(ops[|ops| - 1]) && ops[|ops| - 1].peer == p))
  }

  /** The first inbound handshake that has finished while the peer was known and nothing had failed. */
  function FirstInbound(ops: seq<Op>, p: PeerId): Option<Op> {
    if ops == [] then None
    else
      var init, a := ops[..|ops| - 1], ops[|ops| - 1];
      if FirstInbound(init, p).None? && a.InboundDone? && a.peer == p && Known(init, p) && !Over(init, p) then Some(a)
      else FirstInbound(init, p)
  }

  function FirstOutbound(ops: seq<Op>, p: PeerId): Option<Op> {
    if ops == [] then None
    else
      var init, a := ops[..|ops| - 1], ops[|ops| - 1];
      if FirstOutbound(init, p).None? && a.OutboundDone? && a.peer == p && Known(init, p) && !Over(init, p) then Some(a)
      else FirstOutbound(init, p)
  }

  lemma {:induction false} FirstsAreDone(ops: seq<Op>, p: PeerId)
    ensures FirstInbound(ops, p).Some? ==> FirstInbound(ops, p).value.InboundDone?
    ensures FirstOutbound(ops, p).Some? ==> FirstOutbound(ops, p).value.OutboundDone?
    decreases |ops|
  {
    if ops != [] { FirstsAreDone(ops[..|ops| - 1], p); }
  }

  /** The record of a peer, as its history determines it. */
  ghost predicate AsHistory(ops: seq<Op>, p: PeerId, l: Link)
    requires FirstInbound(ops, p).Some? ==> FirstInbound(ops, p).value.InboundDone?
    requires FirstOutbound(ops, p).Some? ==> FirstOutbound(ops, p).value.OutboundDone?
  {
    var i, o := FirstInbound(ops, p), FirstOutbound(ops, p);
    && (l.state.Closed? <==> Over(ops, p))
    && (i.None? ==> l.inboundConn.None? && l.decoder.None?)
    && (i.Some? ==> l.inboundConn == Some(i.value.conn) && l.decoder == Some(i.value.codec))
    && (o.None? ==> l.outboundConn.None? && l.encoder.None? && l.addresses == [])
    && (o.Some? ==> l.outboundConn == Some(o.value.conn) && l.encoder == Some(o.value.codec) && l.addresses == o.value.addresses)
  }

  lemma HistoryStep(ops: seq<Op>, p: PeerId, l: Link, published: bool)
    requires ops != [] && ops[|ops| - 1].peer == p && Known(ops[..|ops| - 1], p) && LinkOk(l, published)
    requires FirstInbound(ops[..|ops| - 1], p).Some? ==> FirstInbound(ops[..|ops| - 1], p).value.InboundDone?
    requires FirstOutbound(ops[..|ops| - 1], p).Some? ==> FirstOutbound(ops[..|ops| - 1], p).value.OutboundDone?
    requires AsHistory(ops[..|ops| - 1], p, l)
    ensures FirstInbound(ops, p).Some? ==> FirstInbound(ops, p).value.InboundDone?
    ensures FirstOutbound(ops, p).Some? ==> FirstOutbound(ops, p).value.OutboundDone?
    ensures AsHistory(ops, p, LinkStep(l, ops[|ops| - 1]))
  {
  }

  /** Unknown peers have no history. */
  lemma {:induction false} UnknownHasNone(ops: seq<Op>, p: PeerId)
    requires !Known(ops, p)
    ensures FirstInbound(ops, p).None? && FirstOutbound(ops, p).None? && !Over(ops, p)
    decreases |ops|
  {
    if ops != [] { UnknownHasNone(ops[..|ops| - 1], p); }
  }

  /**
   In every run the halves of a peer are those of the first inbound and the
   first outbound handshake that finished before anything of the peer failed,
   each with its own codec and the dialled addresses; and the peer is closed
   exactly once something has failed.
   */
  lemma {:induction false} HalvesAreFirst(ops: seq<Op>, p: PeerId)
    ensures FirstInbound(ops, p).Some? ==> FirstInbound(ops, p).value.InboundDone?
    ensures FirstOutbound(ops, p).Some? ==> FirstOutbound(ops, p).value.OutboundDone?
    ensures p in Run(ops).links <==> Known(ops, p)
    ensures p in Run(ops).links ==> AsHistory(ops, p, Run(ops).links[p])
    decreases |ops|
  {
    FirstsAreDone(ops, p);
    if ops != [] {
      var init, a := ops[..|ops| - 1], ops[|ops| - 1];
      HalvesAreFirst(init, p);
      RunKeeps(init);
      if !Known(init, p) {
        UnknownHasNone(init, p);
      } else if a.peer == p {
        HistoryStep(ops, p, Run(init).links[p], p in Run(init).published);
      }
    }
  }

  /** The handshakes turned away, with the reason their history gives. */
  function TurnedAway(ops: seq<Op>): seq<Refusal> {
    if ops == [] then []
    else
      var init, a := ops[..|ops| - 1], ops[|ops| - 1];
      TurnedAway(init) +
      if !(a.InboundDone? || a.OutboundDone?) || !Known(init, a.peer) then []
      else if Over(init, a.peer) then [Refusal(a.conn, EarlyReconnection)]
      else if (if a.InboundDone? then FirstInbound(init, a.peer) else FirstOutbound(init, a.peer)).Some? then
        [Refusal(a.conn, AlreadyConnected)]
      else []
  }

  lemma RefusalsFromHistory(ops: seq<Op>, n: Net, a: Op)
    requires n == Run(ops) && a.peer in n.links && (a.InboundDone? || a.OutboundDone?)
    ensures Refusals(n.links[a.peer], a) ==
            if Over(ops, a.peer) then [Refusal(a.conn, EarlyReconnection)]
            else if (if a.InboundDone? then FirstInbound(ops, a.peer) else FirstOutbound(ops, a.peer)).Some? then
              [Refusal(a.conn, AlreadyConnected)]
            else []
  {
    HalvesAreFirst(ops, a.peer);
    RunKeeps(ops);
  }

  /** In every run exactly these connections are turned away, in this order: late ones as early reconnections, the others as duplicates. */
  lemma {:induction false} RefusedExactly(ops: seq<Op>)
    ensures Run(ops).refused == TurnedAway(ops)
    decreases |ops|
  {
    if ops != [] {
      var init, a := ops[..|ops| - 1], ops[|ops| - 1];
      RefusedExactly(init);
      HalvesAreFirst(init, a.peer);
      if a.peer in Run(init).links && (a.InboundDone? || a.OutboundDone?) { RefusalsFromHistory(init, Run(init), a); }
    }
  }

  // ---- the recorded error ----

  predicate RecordsError(a: Op) {
    a.InboundFailed? || a.OutboundFailed? || a.SendFailed?
  }

  /** Some failure of the peer, met while the peer was known, has not been followed by the end of its listener. */
  ghost predicate ErrorStands(ops: seq<Op>, p: PeerId) {
    exists k :: FailedAt(ops, p, k) && forall j :: k < j < |ops| ==> ops[j] != ListenerEnded(p)
  }

  predicate FailedAt(ops: seq<Op>, p: PeerId, k: int) {
    0 <= k < |ops| && RecordsError(ops[k]) && ops[k].peer == p && p in Run(ops[..k]).links
  }

  lemma FailedAtSnoc(ops: seq<Op>, p: PeerId, k: nat)
    requires k < |ops| - 1
    ensures FailedAt(ops[..|ops| - 1], p, k) <==> FailedAt(ops, p, k)
  {
    assert ops[..|ops| - 1][..k] == ops[..k];
  }

  lemma ErrorCarriesOver(ops: seq<Op>, p: PeerId)
    requires ops != []
    ensures var init, a := ops[..|ops| - 1], ops[|ops| - 1];
            ErrorStands(init, p) && a != ListenerEnded(p) ==> ErrorStands(ops, p)
  {
    var init, a, last := ops[..|ops| - 1], ops[|ops| - 1], |ops| - 1;
    if ErrorStands(init, p) && a != ListenerEnded(p) {
      var k :| FailedAt(init, p, k) && forall j :: k < j < |init| ==> init[j] != ListenerEnded(p);
      FailedAtSnoc(ops, p, k);
      assert forall j :: k < j < |ops| ==> ops[j] == if j < last then init[j] else a;
      assert FailedAt(ops, p, k);
    }
  }

  lemma ErrorCameFrom(ops: seq<Op>, p: PeerId)
    requires ops != [] && ErrorStands(ops, p)
    ensures var init, a := ops[..|ops| - 1], ops[|ops| - 1];
            (a.peer == p && RecordsError(a) && p in Run(init).links) || (ErrorStands(init, p) && a != ListenerEnded(p))
  {
    var init, last := ops[..|ops| - 1], |ops| - 1;
    var k :| FailedAt(ops, p, k) && forall j :: k < j < |ops| ==> ops[j] != ListenerEnded(p);
    if k < last {
      FailedAtSnoc(ops, p, k);
      assert forall j :: k < j < |init| ==> init[j] == ops[j];
      assert FailedAt(init, p, k);
    }
  }

  lemma ErrorStandsSnoc(ops: seq<Op>, p: PeerId)
    requires ops != []
    ensures var init, a := ops[..|ops| - 1], ops[|ops| - 1];
            ErrorStands(ops, p) <==>
              (a.peer == p && RecordsError(a) && p in Run(init).links) || (ErrorStands(init, p) && a != ListenerEnded(p))
  {
    var init, a, last := ops[..|ops| - 1], ops[|ops| - 1], |ops| - 1;
    ErrorCarriesOver(ops, p);
    if a.peer == p && RecordsError(a) && p in Run(init).links { assert FailedAt(ops, p, last); }
    if ErrorStands(ops, p) { ErrorCameFrom(ops, p); }
  }

  /** A known peer holds an error exactly if some failure has not been wiped by the end of its listener. */
  lemma {:induction false} ErrorRecordedExactly(ops: seq<Op>, p: PeerId)
    requires p in Run(ops).links
    ensures Run(ops).links[p].err.Some? <==> ErrorStands(ops, p)
    decreases |ops|
  {
    var init := ops[..|ops| - 1];
    ErrorStandsSnoc(ops, p);
    if p in Run(init).links {
      ErrorRecordedExactly(init, p);
    } else {
      NothingFailedYet(init, p);
    }
  }

  lemma NothingFailedYet(ops: seq<Op>, p: PeerId)
    requires p !in Run(ops).links
    ensures !ErrorStands(ops, p)
  {
    if k :| FailedAt(ops, p, k) { LinksOnlyGrow(ops, k, p); }
  }

  /** serveLoop prints the error of a peer whose context has ended, and dereferences nil if there is none. */
  predicate ExpiryPanics(n: Net, p: PeerId) {
    p in n.links && n.links[p].err.None?
  }

  /** Of the peers handed to the host, the expiry is survived exactly by those whose failure still stands. */
  lemma ExpiryPanicsExactly(ops: seq<Op>, p: PeerId)
    requires p in Run(ops).published
    ensures ExpiryPanics(Run(ops), p) <==> !ErrorStands(ops, p)
  {
    RunKeeps(ops);
    ErrorRecordedExactly(ops, p);
  }

  /** A connection that fails on sending and whose listener then ends has lost its error; so has one that never failed. */
  lemma ListenerWipesError(p: PeerId, conn: Conn, codec: Codec, e: Error)
    ensures var joined := [Append(p), InboundDone(p, conn, codec), OutboundDone(p, conn, codec, [])];
            var failed := joined + [SendFailed(p, e)];
            var ended := failed + [ListenerEnded(p)];
            && Possible(ended) && p in Run(ended).published
            && Run(failed).links[p].err == Some(e) && Run(ended).links[p].err == None
            && ExpiryPanics(Run(joined), p) && !ExpiryPanics(Run(failed), p) && ExpiryPanics(Run(ended), p)
  {
    var o1 := [Append(p)];
    var o2 := o1 + [InboundDone(p, conn, codec)];
    var o3 := o2 + [OutboundDone(p, conn, codec, [])];
    var o4 := o3 + [SendFailed(p, e)];
    var o5 := o4 + [ListenerEnded(p)];
    assert o3 == [Append(p), InboundDone(p, conn, codec), OutboundDone(p, conn, codec, [])];
    RunSnoc([], Append(p));
    RunSnoc(o1, InboundDone(p, conn, codec));
    RunSnoc(o2, OutboundDone(p, conn, codec, []));
    RunSnoc(o3, SendFailed(p, e));
    RunSnoc(o4, ListenerEnded(p));
  }

  lemma RunSnoc(ops: seq<Op>, a: Op)
    ensures Run(ops + [a]) == Step(Run(ops), a)
    ensures Possible(ops + [a]) <==> Possible(ops) && Enabled(Run(ops), a)
  {
    assert (ops + [a])[..|ops|] == ops;
  }
}
