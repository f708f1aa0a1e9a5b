/**
 What the gossip among members must do to an AND instance: SJN asks back about
 unknown sessions, CRR brings two members together, and the timer tells every
 member which sessions are in the world.
 */
module Gossip {
  import opened Prelude
  import opened Abyss
  import opened PeerEntry
  import opened WorldModel
  import opened NodeModel
  import opened NodeInvariant
  import opened Broadcasts
  import opened Outcomes
  import opened Handlers

  // ---- CRR ----

  /** The session is that of an entry of another host. */
  predicate Held(n: Node, l: Uuid, r: SessionRef)
    requires l in n.worlds
  {
    r.peer != n.local && r.peer in n.worlds[l].peers && n.worlds[l].peers[r.peer].session == r.session
  }

  function InMs(p: PeerId, e: Entry): Member {
    Member(p, e.session, TruncMs(e.stamp))
  }

  /** The introductions of a CRR of member p: for each held session, p hears of its peer and its peer hears of p. */
  function Matchmaking(n: Node, l: Uuid, p: PeerId, refs: seq<SessionRef>): seq<Send>
    requires l in n.worlds && p in n.worlds[l].peers
  {
    if refs == [] then []
    else
      var r, peers := refs[|refs| - 1], n.worlds[l].peers;
      Matchmaking(n, l, p, refs[..|refs| - 1]) +
      if !Held(n, l, r) then []
      else [Send(p, MJNI(l, peers[p].session, InMs(r.peer, peers[r.peer]))), Send(r.peer, MJNI(l, r.session, InMs(p, peers[p])))]
  }

  lemma RelayStep(st: State, p: PeerId, r: SessionRef, more: seq<Send>)
    requires p in st.peers && (r.peer in st.peers && st.peers[r.peer].session == r.session ==> st.peers[r.peer].linked)
    requires more == if !(r.peer in st.peers && st.peers[r.peer].session == r.session) then [] else
                       [Send(p, MJNI(st.id.lsid, st.peers[p].session, InMs(r.peer, st.peers[r.peer]))),
                        Send(r.peer, MJNI(st.id.lsid, r.session, InMs(p, st.peers[p])))]
    ensures Do(st, On(r.peer, Relay(MemberOf(p, st.peers[p]), r.session))) == st.(out := st.out + more)
  {
    assert Put(st.peers, r.peer, Get(st.peers, r.peer)) == st.peers;
    assert st.events + [] == st.events;
  }

  lemma {:induction false} RelayAll(n: Node, l: Uuid, p: PeerId, refs: seq<SessionRef>)
    requires l in n.worlds && p in n.worlds[l].peers && n.worlds[l].id.lsid == l && n.worlds[l].id.local == n.local
    requires RelaysLinked(n.worlds[l].peers, refs)
    ensures var st := Inside(n, l);
            DoAll(st, PlanRelay(st.id, MemberOf(p, st.peers[p]), refs)) == st.(out := st.out + Matchmaking(n, l, p, refs))
    decreases |refs|
  {
    var st := Inside(n, l);
    if refs == [] {
      assert st.out + [] == st.out;
    } else {
      var init, r := refs[..|refs| - 1], refs[|refs| - 1];
      assert r in refs && forall x :: x in init ==> x in refs;
      RelayAll(n, l, p, init);
      RelayLast(n, l, p, init, r);
    }
  }

  lemma RelayLast(n: Node, l: Uuid, p: PeerId, init: seq<SessionRef>, r: SessionRef)
    requires l in n.worlds && p in n.worlds[l].peers && n.worlds[l].id.lsid == l && n.worlds[l].id.local == n.local
    requires RelaysLinked(n.worlds[l].peers, [r])
    requires var st := Inside(n, l);
             DoAll(st, PlanRelay(st.id, MemberOf(p, st.peers[p]), init)) == st.(out := st.out + Matchmaking(n, l, p, init))
    ensures var st := Inside(n, l);
            DoAll(st, PlanRelay(st.id, MemberOf(p, st.peers[p]), init + [r])) == st.(out := st.out + Matchmaking(n, l, p, init + [r]))
  {
    var st := Inside(n, l);
    var before := Matchmaking(n, l, p, init);
    assert (init + [r])[..|init|] == init && r in [r];
    var all := Matchmaking(n, l, p, init + [r]);
    var more := all[|before|..];
    assert all == before + more;
    var source := MemberOf(p, st.peers[p]);
    if r.peer == n.local {
      assert PlanRelay(st.id, source, init + [r]) == PlanRelay(st.id, source, init);
      assert more == [];
    } else {
      var m := On(r.peer, Relay(source, r.session));
      assert PlanRelay(st.id, source, init + [r]) == PlanRelay(st.id, source, init) + [m];
      DoAllAppend(st, PlanRelay(st.id, source, init), [m]);
      DoAllOne(st.(out := st.out + before), m);
      RelayStep(st.(out := st.out + before), p, r, more);
      Associate(st.out, before, more);
    }
  }

  /** What x hears of because of one session on the list. */
  function HearsOf(n: Node, l: Uuid, p: PeerId, r: SessionRef, x: PeerId): seq<Msg>
    requires l in n.worlds && p in n.worlds[l].peers
  {
    var peers := n.worlds[l].peers;
    if !Held(n, l, r) then []
    else
      (if x == p then [MJNI(l, peers[p].session, Member(r.peer, r.session, TruncMs(peers[r.peer].stamp)))] else []) +
      (if x == r.peer then [MJNI(l, r.session, Member(p, peers[p].session, TruncMs(peers[p].stamp)))] else [])
  }

  function HearsOfAll(n: Node, l: Uuid, p: PeerId, refs: seq<SessionRef>, x: PeerId): seq<Msg>
    requires l in n.worlds && p in n.worlds[l].peers
  {
    if refs == [] then [] else HearsOfAll(n, l, p, refs[..|refs| - 1], x) + HearsOf(n, l, p, refs[|refs| - 1], x)
  }

  lemma PairTo(a: Send, b: Send, x: PeerId)
    ensures To([a, b], x) == (if x == a.dst then [a.msg] else []) + (if x == b.dst then [b.msg] else [])
  {
    assert [a, b] == [a] + [b];
    ToCat([a], [b], x);
    ToOne(a, x);
    ToOne(b, x);
  }

  lemma MatchedTo(n: Node, l: Uuid, p: PeerId, r: SessionRef, x: PeerId, more: seq<Send>)
    requires l in n.worlds && p in n.worlds[l].peers
    requires var peers := n.worlds[l].peers;
             more == if !Held(n, l, r) then []
                     else [Send(p, MJNI(l, peers[p].session, InMs(r.peer, peers[r.peer]))), Send(r.peer, MJNI(l, r.session, InMs(p, peers[p])))]
    ensures To(more, x) == HearsOf(n, l, p, r, x)
  {
    if Held(n, l, r) { PairTo(more[0], more[1], x); }
  }

  /** The asking member hears of each peer it named, each such peer of the asking member, and nobody else of anybody. */
  lemma {:induction false} MatchmakingTo(n: Node, l: Uuid, p: PeerId, refs: seq<SessionRef>, x: PeerId)
    requires l in n.worlds && p in n.worlds[l].peers
    ensures To(Matchmaking(n, l, p, refs), x) == HearsOfAll(n, l, p, refs, x)
    decreases |refs|
  {
    if refs != [] {
      var before := Matchmaking(n, l, p, refs[..|refs| - 1]);
      MatchmakingTo(n, l, p, refs[..|refs| - 1], x);
      var more := Matchmaking(n, l, p, refs)[|before|..];
      assert Matchmaking(n, l, p, refs) == before + more;
      ToCat(before, more, x);
      MatchedTo(n, l, p, refs[|refs| - 1], x, more);
    }
  }

  /**
   A CRR from a member brings it together with every peer whose session it
   names and the world still holds: each of the two is told of the other.
   */
  lemma CRRIntroduces(n: Node, p: PeerId, l: Uuid, s: Uuid, r: Uuid, refs: seq<SessionRef>, sweep: seq<Uuid>)
    requires NodeInv(n) && l in n.worlds && Admissible(n, Recv(p, l, MCRR(s, r, refs), sweep)) && IsProper(n.worlds[l].peers, p, s)
    ensures var n' := NodeStep(n, Recv(p, l, MCRR(s, r, refs), sweep));
            && n' == n.(out := n.out + Matchmaking(n, l, p, refs))
            && forall x :: To(n'.out[|n.out|..], x) == HearsOfAll(n, l, p, refs, x)
  {
    assert Live(n, l, n.peers);
    var rest := PlanRelay(n.worlds[l].id, MemberOf(p, n.worlds[l].peers[p]), refs);
    VouchedPlan(n, l, p, s, rest);
    RelayAll(n, l, p, refs);
    assert n.worlds[l := n.worlds[l]] == n.worlds;
    assert (n.out + Matchmaking(n, l, p, refs))[|n.out|..] == Matchmaking(n, l, p, refs);
    forall x ensures To(Matchmaking(n, l, p, refs), x) == HearsOfAll(n, l, p, refs, x) { MatchmakingTo(n, l, p, refs, x); }
  }

  /** The case of one session: the two hear of each other, and nobody else hears anything. */
  lemma CRROfOne(n: Node, p: PeerId, l: Uuid, s: Uuid, r: Uuid, q: PeerId, t: Uuid, sweep: seq<Uuid>, x: PeerId)
    requires NodeInv(n) && l in n.worlds && Admissible(n, Recv(p, l, MCRR(s, r, [SessionRef(q, t)]), sweep))
    requires IsProper(n.worlds[l].peers, p, s) && q != p && Held(n, l, SessionRef(q, t))
    ensures var n' := NodeStep(n, Recv(p, l, MCRR(s, r, [SessionRef(q, t)]), sweep));
            var peers := n.worlds[l].peers;
            && n.out <= n'.out && n' == n.(out := n'.out)
            && To(n'.out[|n.out|..], x) ==
               if x == p then [MJNI(l, s, Member(q, t, TruncMs(peers[q].stamp)))]
               else if x == q then [MJNI(l, t, Member(p, s, TruncMs(peers[p].stamp)))]
               else []
  {
    CRRIntroduces(n, p, l, s, r, [SessionRef(q, t)], sweep);
    assert [SessionRef(q, t)][..0] == [];
    assert HearsOfAll(n, l, p, [SessionRef(q, t)], x) == [] + HearsOf(n, l, p, SessionRef(q, t), x);
  }

  // ---- SJN ----

  /** The member of the world has this session. */
  predicate Current(n: Node, l: Uuid, r: SessionRef)
    requires l in n.worlds
  {
    r.peer in n.worlds[l].peers && n.worlds[l].peers[r.peer].status.Mem? && n.worlds[l].peers[r.peer].session == r.session
  }

  /** What is asked back of p about an SJN: a CRR for each session that is not that of a member. */
  function Questions(n: Node, l: Uuid, p: PeerId, s: Uuid, refs: seq<SessionRef>): seq<Send>
    requires l in n.worlds
  {
    if refs == [] then []
    else
      var r := refs[|refs| - 1];
      Questions(n, l, p, s, refs[..|refs| - 1]) +
      if r.peer == n.local || Current(n, l, r) then [] else [Send(p, MCRR(l, s, [r]))]
  }

  /** How often the list confirms the session of member x. */
  function Confirms(n: Node, l: Uuid, refs: seq<SessionRef>, x: PeerId): nat
    requires l in n.worlds
  {
    if refs == [] then 0
    else
      var r := refs[|refs| - 1];
      Confirms(n, l, refs[..|refs| - 1], x) + if r.peer == x && r.peer != n.local && Current(n, l, r) then 1 else 0
  }

  function Counted(n: Node, l: Uuid, refs: seq<SessionRef>): Peers
    requires l in n.worlds
  {
    var peers := n.worlds[l].peers;
    map x | x in peers :: peers[x].(sjnc := peers[x].sjnc + Confirms(n, l, refs, x))
  }

  lemma {:induction false} GossipAll(n: Node, l: Uuid, p: PeerId, s: Uuid, refs: seq<SessionRef>)
    requires l in n.worlds && n.worlds[l].id.lsid == l && n.worlds[l].id.local == n.local
    ensures var st := Inside(n, l);
            DoAll(st, PlanGossip(st.id, SessionRef(p, s), refs))
            == st.(peers := Counted(n, l, refs), out := st.out + Questions(n, l, p, s, refs))
    decreases |refs|
  {
    var st := Inside(n, l);
    if refs == [] {
      assert st.out + [] == st.out && Counted(n, l, []) == st.peers;
    } else {
      GossipAll(n, l, p, s, refs[..|refs| - 1]);
      assert refs == refs[..|refs| - 1] + [refs[|refs| - 1]];
      GossipLast(n, l, p, s, refs[..|refs| - 1], refs[|refs| - 1]);
    }
  }

  lemma CountedSnoc(n: Node, l: Uuid, init: seq<SessionRef>, r: SessionRef)
    requires l in n.worlds
    ensures var before := Counted(n, l, init);
            Counted(n, l, init + [r]) ==
            if r.peer != n.local && Current(n, l, r) then before[r.peer := before[r.peer].(sjnc := before[r.peer].sjnc + 1)] else before
  {
    assert (init + [r])[..|init|] == init;
  }

  lemma GossipStep(st: State, p: PeerId, s: Uuid, r: SessionRef, current: bool)
    requires current <==> r.peer in st.peers && st.peers[r.peer].status.Mem? && st.peers[r.peer].session == r.session
    ensures Do(st, On(r.peer, Gossip(SessionRef(p, s), r.session))) ==
            if current then st.(peers := st.peers[r.peer := st.peers[r.peer].(sjnc := st.peers[r.peer].sjnc + 1)])
            else st.(out := st.out + [Send(p, MCRR(st.id.lsid, s, [r]))])
  {
    assert Put(st.peers, r.peer, Get(st.peers, r.peer)) == st.peers;
    assert st.events + [] == st.events && st.out + [] == st.out;
    assert SessionRef(r.peer, r.session) == r;
  }

  lemma GossipPlanSnoc(id: WorldId, origin: SessionRef, init: seq<SessionRef>, r: SessionRef)
    ensures PlanGossip(id, origin, init + [r]) ==
            if r.peer == id.local then PlanGossip(id, origin, init)
            else PlanGossip(id, origin, init) + [On(r.peer, Gossip(origin, r.session))]
  {
    assert (init + [r])[..|init|] == init;
  }

  lemma GossipOnce(n: Node, l: Uuid, p: PeerId, s: Uuid, init: seq<SessionRef>, r: SessionRef, st1: State)
    requires l in n.worlds && n.worlds[l].id.lsid == l && r.peer != n.local
    requires st1 == Inside(n, l).(peers := Counted(n, l, init), out := n.out + Questions(n, l, p, s, init))
    ensures Do(st1, On(r.peer, Gossip(SessionRef(p, s), r.session)))
            == Inside(n, l).(peers := Counted(n, l, init + [r]), out := n.out + Questions(n, l, p, s, init + [r]))
  {
    CountedSnoc(n, l, init, r);
    QuestionsSnoc(n, l, p, s, init, r, st1);
    GossipStep(st1, p, s, r, Current(n, l, r));
  }

  lemma GossipLast(n: Node, l: Uuid, p: PeerId, s: Uuid, init: seq<SessionRef>, r: SessionRef)
    requires l in n.worlds && n.worlds[l].id.lsid == l && n.worlds[l].id.local == n.local
    requires var st := Inside(n, l);
             DoAll(st, PlanGossip(st.id, SessionRef(p, s), init))
             == st.(peers := Counted(n, l, init), out := st.out + Questions(n, l, p, s, init))
    ensures var st := Inside(n, l);
            DoAll(st, PlanGossip(st.id, SessionRef(p, s), init + [r]))
            == st.(peers := Counted(n, l, init + [r]), out := st.out + Questions(n, l, p, s, init + [r]))
  {
    var st, origin := Inside(n, l), SessionRef(p, s);
    GossipPlanSnoc(st.id, origin, init, r);
    if r.peer == n.local {
      CountedSnoc(n, l, init, r);
      assert (init + [r])[..|init|] == init;
    } else {
      GossipOnce(n, l, p, s, init, r, DoAll(st, PlanGossip(st.id, origin, init)));
      PlanSnoc(st, PlanGossip(st.id, origin, init), On(r.peer, Gossip(origin, r.session)));
    }
  }

  lemma PlanSnoc(st: State, ms: seq<Micro>, m: Micro)
    ensures DoAll(st, ms + [m]) == Do(DoAll(st, ms), m)
  {
    assert (ms + [m])[..|ms|] == ms;
  }

  lemma QuestionsSnoc(n: Node, l: Uuid, p: PeerId, s: Uuid, init: seq<SessionRef>, r: SessionRef, st1: State)
    requires l in n.worlds && r.peer != n.local && st1.out == n.out + Questions(n, l, p, s, init)
    ensures n.out + Questions(n, l, p, s, init + [r]) == if Current(n, l, r) then st1.out else st1.out + [Send(p, MCRR(l, s, [r]))]
  {
    assert (init + [r])[..|init|] == init;
    var more := if Current(n, l, r) then [] else [Send(p, MCRR(l, s, [r]))];
    assert Questions(n, l, p, s, init + [r]) == Questions(n, l, p, s, init) + more;
    Associate(n.out, Questions(n, l, p, s, init), more);
  }

  /**
   An SJN from a member: each session that is not that of a member is asked for
   with a CRR of its own; each that is counts as one more listing of it.
   */
  lemma SJNAsksBack(n: Node, p: PeerId, l: Uuid, s: Uuid, r: Uuid, refs: seq<SessionRef>, sweep: seq<Uuid>)
    requires NodeInv(n) && l in n.worlds && IsProper(n.worlds[l].peers, p, s)
    ensures NodeStep(n, Recv(p, l, MSJN(s, r, refs), sweep))
            == n.(worlds := n.worlds[l := World(n.worlds[l].id, Counted(n, l, refs))], out := n.out + Questions(n, l, p, s, refs))
  {
    assert Live(n, l, n.peers);
    VouchedPlan(n, l, p, s, PlanGossip(n.worlds[l].id, SessionRef(p, s), refs));
    GossipAll(n, l, p, s, refs);
  }

  // ---- the timer ----

  /** The member has been there for a second, did not come with a JOK, and was listed at most three times. */
  predicate Due(n: Node, l: Uuid, q: PeerId, now: Time)
    requires l in n.worlds
  {
    q in n.worlds[l].peers &&
    var e := n.worlds[l].peers[q];
    e.status.Mem? && now - e.stamp >= 1_000_000_000 && !e.sjnp && e.sjnc <= 3
  }

  /** The list names each member that is due exactly once, with its session. */
  ghost predicate ListsDue(n: Node, l: Uuid, now: Time, refs: seq<SessionRef>)
    requires l in n.worlds
  {
    && (forall q :: Due(n, l, q, now) ==> SessionRef(q, n.worlds[l].peers[q].session) in refs)
    && (forall r :: r in refs ==> Due(n, l, r.peer, now) && r.session == n.worlds[l].peers[r.peer].session)
    && (forall i, j :: 0 <= i < j < |refs| ==> refs[i].peer != refs[j].peer)
  }

  /** Who was due has been listed once more. */
  ghost predicate DueCounted(n: Node, l: Uuid, now: Time, peers': Peers)
    requires l in n.worlds
  {
    var peers := n.worlds[l].peers;
    && peers'.Keys == peers.Keys
    && (forall q :: q in peers ==> peers'[q] == if Due(n, l, q, now) then peers[q].(sjnc := peers[q].sjnc + 1) else peers[q])
  }

  /** Every member is sent the list, unless it is empty, and nobody else anything. */
  ghost predicate ListSpread(n: Node, l: Uuid, refs: seq<SessionRef>, sends: seq<Send>)
    requires l in n.worlds
  {
    var peers := n.worlds[l].peers;
    forall q :: To(sends, q) == if refs != [] && q in peers && peers[q].status.Mem? then [MSJN(l, peers[q].session, refs)] else []
  }

  /** A tick: the due are counted, the list is spread, and the next timer is asked for. */
  ghost predicate Ticked(n: Node, n': Node, l: Uuid, now: Time, refs: seq<SessionRef>, sends: seq<Send>, ms: int)
    requires l in n.worlds
  {
    && ListsDue(n, l, now, refs) && ListSpread(n, l, refs, sends)
    && l in n'.worlds && DueCounted(n, l, now, n'.worlds[l].peers)
    && n' == n.(worlds := n.worlds[l := World(n.worlds[l].id, n'.worlds[l].peers)],
                events := n.events + [TimerRequest(l, ms)], out := n.out + sends)
  }

  lemma DueListed(n: Node, l: Uuid, now: Time, order: seq<PeerId>, listed: seq<PeerId>, q: PeerId)
    requires l in n.worlds && Enumerates(order, n.worlds[l].peers.Keys) && listed == ListableIn(n.worlds[l].peers, order, now)
    ensures q in listed <==> Due(n, l, q, now)
  {
    assert Due(n, l, q, now) <==> Listable(n.worlds[l].peers, q, now);
  }

  lemma DueAreListed(n: Node, l: Uuid, now: Time, listed: seq<PeerId>, refs: seq<SessionRef>)
    requires l in n.worlds && (forall q :: q in listed <==> Due(n, l, q, now))
    requires forall q :: q in listed ==> q in n.worlds[l].peers
    requires forall i, j :: 0 <= i < j < |listed| ==> listed[i] != listed[j]
    requires refs == RefList(n.worlds[l].peers, listed)
    ensures ListsDue(n, l, now, refs)
  {
    var peers := n.worlds[l].peers;
    forall q | Due(n, l, q, now) ensures SessionRef(q, peers[q].session) in refs {
      assert q in listed;
      var i :| 0 <= i < |listed| && listed[i] == q;
      assert refs[i] == SessionRef(q, peers[q].session);
    }
    forall r | r in refs ensures Due(n, l, r.peer, now) && r.session == peers[r.peer].session {
      var i :| 0 <= i < |refs| && refs[i] == r;
      assert listed[i] in listed;
    }
  }

  lemma SpreadTo(l: Uuid, peers: Peers, members: seq<PeerId>, refs: seq<SessionRef>, sends: seq<Send>, q: PeerId)
    requires |sends| == |members| && forall x :: x in members <==> IsMember(peers, x)
    requires forall i, j :: 0 <= i < j < |members| ==> members[i] != members[j]
    requires forall i :: 0 <= i < |members| ==> members[i] in peers && sends[i] == Send(members[i], MSJN(l, peers[members[i]].session, refs))
    ensures To(sends, q) == if IsMember(peers, q) then [MSJN(l, peers[q].session, refs)] else []
  {
    ToDistinct(sends, q);
    if IsMember(peers, q) {
      var i :| 0 <= i < |members| && members[i] == q;
      assert sends[i].dst == q && sends[i] in sends;
      assert sends[i] == Send(q, sends[i].msg);
      assert sends[i].msg in To(sends, q);
    } else {
      forall i | 0 <= i < |sends| ensures sends[i].dst != q { assert members[i] in members; }
    }
  }

  lemma BumpedDue(n: Node, l: Uuid, now: Time, listed: seq<PeerId>)
    requires l in n.worlds && forall q :: q in listed <==> Due(n, l, q, now)
    ensures DueCounted(n, l, now, Bumped(n.worlds[l].peers, listed))
  {
  }

  lemma ListsSpread(n: Node, l: Uuid, members: seq<PeerId>, order2: seq<PeerId>, refs: seq<SessionRef>, sends: seq<Send>)
    requires l in n.worlds && Enumerates(order2, n.worlds[l].peers.Keys) && members == MembersIn(n.worlds[l].peers, order2)
    requires |sends| == if refs == [] then 0 else |members|
    requires refs != [] ==> forall i :: 0 <= i < |members| ==>
               members[i] in n.worlds[l].peers && sends[i] == Send(members[i], MSJN(l, n.worlds[l].peers[members[i]].session, refs))
    ensures ListSpread(n, l, refs, sends)
  {
    var peers := n.worlds[l].peers;
    MembersDistinct(peers, order2);
    forall q ensures To(sends, q) == if refs != [] && IsMember(peers, q) then [MSJN(l, peers[q].session, refs)] else [] {
      if refs != [] { SpreadTo(l, peers, members, refs, sends, q); }
    }
  }

  lemma TickedNode(n: Node, l: Uuid, now: Time, order: seq<PeerId>, order2: seq<PeerId>, seed: nat, listed: seq<PeerId>, members: seq<PeerId>, ms: int)
    requires l in n.worlds && n.worlds[l].id.lsid == l && !n.fault && (forall i, j :: 0 <= i < j < |order| ==> order[i] != order[j])
    requires listed == ListableIn(n.worlds[l].peers, order, now) && members == MembersIn(n.worlds[l].peers, order2)
    requires ms == Delay(seed, |members|)
    ensures NodeStep(n, TimerExpire(l, now, order, order2, seed))
            == n.(worlds := n.worlds[l := World(n.worlds[l].id, Bumped(n.worlds[l].peers, listed))],
                  events := n.events + [TimerRequest(l, ms)],
                  out := n.out + SjnSends(n.worlds[l].id, n.worlds[l].peers, members, listed))
  {
    TimerOutcome(Inside(n, l), now, order, order2, seed);
    TimerIsPlan(n, l, now, order, order2, seed, TickDone(Inside(n, l), listed, members, ms));
  }

  lemma TimerIsPlan(n: Node, l: Uuid, now: Time, order: seq<PeerId>, order2: seq<PeerId>, seed: nat, st: State)
    requires l in n.worlds && st == DoAll(Inside(n, l), PlanTimer(n.worlds[l].id, n.worlds[l].peers, now, order, order2, seed))
    ensures NodeStep(n, TimerExpire(l, now, order, order2, seed)) == Store(n, l, st)
  {
  }

  lemma DueParts(n: Node, l: Uuid, now: Time, order: seq<PeerId>, listed: seq<PeerId>, refs: seq<SessionRef>)
    requires l in n.worlds && Enumerates(order, n.worlds[l].peers.Keys)
    requires listed == ListableIn(n.worlds[l].peers, order, now) && refs == RefList(n.worlds[l].peers, listed)
    ensures ListsDue(n, l, now, refs) && DueCounted(n, l, now, Bumped(n.worlds[l].peers, listed))
  {
    forall q ensures q in listed <==> Due(n, l, q, now) { DueListed(n, l, now, order, listed, q); }
    ListedDistinct(n.worlds[l].peers, order, now);
    DueAreListed(n, l, now, listed, refs);
    BumpedDue(n, l, now, listed);
  }

  lemma SpreadPart(n: Node, l: Uuid, order2: seq<PeerId>, listed: seq<PeerId>, members: seq<PeerId>, refs: seq<SessionRef>, sends: seq<Send>)
    requires l in n.worlds && n.worlds[l].id.lsid == l && Enumerates(order2, n.worlds[l].peers.Keys)
    requires members == MembersIn(n.worlds[l].peers, order2) && forall x :: x in listed ==> x in n.worlds[l].peers
    requires refs == RefList(n.worlds[l].peers, listed) && sends == SjnSends(n.worlds[l].id, n.worlds[l].peers, members, listed)
    ensures ListSpread(n, l, refs, sends)
  {
    ListsSpread(n, l, members, order2, refs, sends);
  }

  /** A timer tick of world l lists who is due, once, tells every member, and asks for the next timer within its range. */
  lemma TimerSpreads(n: Node, l: Uuid, now: Time, order: seq<PeerId>, order2: seq<PeerId>, seed: nat)
    returns (refs: seq<SessionRef>, sends: seq<Send>, ms: int)
    requires NodeInv(n) && l in n.worlds && Admissible(n, TimerExpire(l, now, order, order2, seed))
    ensures Ticked(n, NodeStep(n, TimerExpire(l, now, order, order2, seed)), l, now, refs, sends, ms)
    ensures 300 <= ms < 300 + 300 * (MemberCount(n.worlds[l].peers, order2) + 1)
  {
    assert Live(n, l, n.peers);
    var peers := n.worlds[l].peers;
    var listed, members := ListableIn(peers, order, now), MembersIn(peers, order2);
    refs, sends, ms := RefList(peers, listed), SjnSends(n.worlds[l].id, peers, members, listed), Delay(seed, |members|);
    TickedNode(n, l, now, order, order2, seed, listed, members, ms);
    DueParts(n, l, now, order, listed, refs);
    SpreadPart(n, l, order2, listed, members, refs, sends);
    SpreadForms(n.worlds[l].id, peers, order2, refs);
  }
}
