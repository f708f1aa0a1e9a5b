/** A lost introduction is repaired: timer, SJN, CRR and JNI bring two members together that have never heard of each other. */
module Healing {
  import opened Abyss
  import opened WorldModel
  import opened NodeModel
  import opened WorldInvariant
  import opened NodeInvariant
  import opened Handlers
  import opened Meetings
  import opened Gossip

  /** The same session, stamp and status. */
  ghost predicate SameSession(n: Node, n': Node, l: Uuid, q: PeerId)
    requires l in n.worlds
  {
    l in n'.worlds && q in n.worlds[l].peers && q in n'.worlds[l].peers && SameBut(n'.worlds[l].peers[q], n.worlds[l].peers[q])
  }

  lemma MemberIsConnected(n: Node, l: Uuid, q: PeerId)
    requires NodeInv(n) && l in n.worlds && IsMember(n.worlds[l].peers, q)
    ensures q in n.peers && n.worlds[l].peers[q].linked && q != n.local
    ensures n.worlds[l].id.lsid == l && n.worlds[l].id.local == n.local
  {
    assert Live(n, l, n.peers);
    ProperMeansJoined(Inside(n, l), n.peers, q);
    KnownPeer(n, l, q);
  }

  /** The timer tells member p of the session of q, which is due. */
  lemma TimerTells(n: Node, l: Uuid, now: Time, order: seq<PeerId>, order2: seq<PeerId>, seed: nat, p: PeerId, q: PeerId, sjn: Msg)
    requires NodeInv(n) && l in n.worlds && Admissible(n, TimerExpire(l, now, order, order2, seed))
    requires IsMember(n.worlds[l].peers, p) && Due(n, l, q, now)
    requires sjn in SentTo(n, NodeStep(n, TimerExpire(l, now, order, order2, seed)), p)
    ensures var n' := NodeStep(n, TimerExpire(l, now, order, order2, seed));
            && sjn.MSJN? && sjn.sender == l && sjn.recver == n.worlds[l].peers[p].session
            && SessionRef(q, n.worlds[l].peers[q].session) in sjn.refs
            && NodeInv(n') && n'.peers == n.peers && n'.local == n.local && SameSession(n, n', l, p) && SameSession(n, n', l, q)
  {
    var n' := NodeStep(n, TimerExpire(l, now, order, order2, seed));
    var refs, sends, ms := TimerSpreads(n, l, now, order, order2, seed);
    StepKeepsNode(n, TimerExpire(l, now, order, order2, seed));
    assert n'.out[|n.out|..] == sends;
  }

  lemma {:induction false} AskedFor(n: Node, l: Uuid, p: PeerId, s: Uuid, refs: seq<SessionRef>, r: SessionRef)
    requires l in n.worlds && r in refs && r.peer != n.local && !Current(n, l, r)
    ensures Send(p, MCRR(l, s, [r])) in Questions(n, l, p, s, refs)
    decreases |refs|
  {
    if refs[|refs| - 1] != r { AskedFor(n, l, p, s, refs[..|refs| - 1], r); }
  }

  /** A member that is told of a session it does not have asks back, and nothing else changes for the two peers. */
  lemma MemberAsksBack(n: Node, l: Uuid, p: PeerId, s: Uuid, r: Uuid, refs: seq<SessionRef>, q: PeerId, t: Uuid)
    requires NodeInv(n) && l in n.worlds && IsProper(n.worlds[l].peers, p, s)
    requires SessionRef(q, t) in refs && q != n.local && !Current(n, l, SessionRef(q, t))
    ensures var n' := NodeStep(n, Recv(p, l, MSJN(s, r, refs), []));
            && NodeInv(n') && n'.peers == n.peers && n'.local == n.local && n'.events == n.events && n.out <= n'.out
            && Send(p, MCRR(l, s, [SessionRef(q, t)])) in n'.out[|n.out|..]
            && l in n'.worlds && IsProper(n'.worlds[l].peers, p, s)
            && (EntryIn(n, l, q).None? ==> EntryIn(n', l, q).None?)
            && (EntryIn(n, l, q).Some? ==> SameSession(n, n', l, q))
  {
    MemberIsConnected(n, l, p);
    SJNAsksBack(n, p, l, s, r, refs, []);
    AskedFor(n, l, p, s, refs, SessionRef(q, t));
    StepKeepsNode(n, Recv(p, l, MSJN(s, r, refs), []));
    var n' := NodeStep(n, Recv(p, l, MSJN(s, r, refs), []));
    assert n'.out[|n.out|..] == Questions(n, l, p, s, refs);
  }

  /** The member that is asked introduces the two to each other. */
  lemma MemberMatches(n: Node, l: Uuid, p: PeerId, s: Uuid, r: Uuid, q: PeerId, t: Uuid)
    requires NodeInv(n) && l in n.worlds && IsProper(n.worlds[l].peers, p, s) && IsProper(n.worlds[l].peers, q, t) && q != p
    ensures var n' := NodeStep(n, Recv(p, l, MCRR(s, r, [SessionRef(q, t)]), []));
            && SentTo(n, n', p) == [MJNI(l, s, Member(q, t, TruncMs(n.worlds[l].peers[q].stamp)))]
            && SentTo(n, n', q) == [MJNI(l, t, Member(p, s, TruncMs(n.worlds[l].peers[p].stamp)))]
  {
    MemberIsConnected(n, l, p);
    MemberIsConnected(n, l, q);
    var refs := [SessionRef(q, t)];
    forall x | x in refs && x.peer in n.worlds[l].peers && n.worlds[l].peers[x.peer].session == x.session
      ensures n.worlds[l].peers[x.peer].linked {}
    CRROfOne(n, p, l, s, r, q, t, [], p);
    CRROfOne(n, p, l, s, r, q, t, [], q);
  }

  /**
   Host A has P and Q as members of its world a; host P has A as a member of its
   world b, and does not have Q's session.  Q is due, the timer of A runs, and
   its SJN, P's CRR and A's answer to P are delivered.  Then P has met Q: Q is
   in its peer map with a session no older than the one A has, it is being
   connected to if it was unknown, and P's application sees the request if it
   was idle.  And Q is told of P.
   */
  lemma GossipHeals(na: Node, a: Uuid, nb: Node, b: Uuid, q: PeerId, now: Time, order: seq<PeerId>, order2: seq<PeerId>, seed: nat, sjn: Msg)
    requires NodeInv(na) && a in na.worlds && NodeInv(nb) && b in nb.worlds
    requires Admissible(na, TimerExpire(a, now, order, order2, seed))
    requires IsProper(na.worlds[a].peers, nb.local, b) && IsProper(nb.worlds[b].peers, na.local, a)
    requires Due(na, a, q, now) && q != nb.local && !Current(nb, b, SessionRef(q, na.worlds[a].peers[q].session))
    requires sjn in SentTo(na, NodeStep(na, TimerExpire(a, now, order, order2, seed)), nb.local)
    ensures var A, P, t := na.local, nb.local, na.worlds[a].peers[q].session;
            var crr := MCRR(b, a, [SessionRef(q, t)]);
            var aboutQ := Member(q, t, TruncMs(na.worlds[a].peers[q].stamp));
            var aboutP := Member(P, b, TruncMs(na.worlds[a].peers[P].stamp));
            var na1 := NodeStep(na, TimerExpire(a, now, order, order2, seed));
            var nb1 := NodeStep(nb, Recv(A, b, sjn, []));
            var na2 := NodeStep(na1, Recv(P, a, crr, []));
            var nb2 := NodeStep(nb1, Recv(A, b, MJNI(a, b, aboutQ), []));
            && sjn.MSJN? && nb.out <= nb1.out && Send(A, crr) in nb1.out[|nb.out|..]
            && SentTo(na1, na2, P) == [MJNI(a, b, aboutQ)] && SentTo(na1, na2, q) == [MJNI(a, t, aboutP)]
            && b in nb1.worlds && b in nb2.worlds && nb1.events <= nb2.events
            && Met(b, q, EntryIn(nb1, b, q), EntryIn(nb2, b, q), nb2.events[|nb1.events|..], [aboutQ])
            && Listed([aboutQ], q)
            && (EntryIn(nb, b, q).None? ==> EntryIn(nb1, b, q).None?)
            && (EntryIn(nb, b, q).Some? ==> SameSession(nb, nb1, b, q))
  {
    var A, P, t := na.local, nb.local, na.worlds[a].peers[q].session;
    var aboutQ := Member(q, t, TruncMs(na.worlds[a].peers[q].stamp));
    TimerTells(na, a, now, order, order2, seed, P, q, sjn);
    MemberAsksBack(nb, b, A, a, sjn.recver, sjn.refs, q, t);
    var na1 := NodeStep(na, TimerExpire(a, now, order, order2, seed));
    var nb1 := NodeStep(nb, Recv(A, b, sjn, []));
    MemberMatches(na1, a, P, b, a, q, t);
    MemberIsConnected(nb1, b, A);
    MemberIntroducesPeer(nb1, A, b, a, b, aboutQ, []);
    assert [aboutQ][0].peer == q;
  }
}
