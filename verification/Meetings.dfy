/**
 How peers come to meet: what a JN and its acceptance set off, what the members
 listed in a JOK become, and how a join runs to its end on both sides.
 */
module Meetings {
  import opened Prelude
  import opened Abyss
  import opened PeerEntry
  import opened WorldModel
  import opened NodeModel
  import opened EntryInvariant
  import opened WorldInvariant
  import opened NodeInvariant
  import opened Broadcasts
  import opened Handlers

  // ---- a joiner and its acceptance ----

  /** The list names each member but p exactly once, with its session and its stamp in whole milliseconds. */
  ghost predicate ListsMembers(peers: Peers, p: PeerId, members: seq<Member>) {
    && (forall q :: q != p && q in peers && peers[q].status.Mem? ==> Member(q, peers[q].session, TruncMs(peers[q].stamp)) in members)
    && (forall m :: m in members ==>
          m.peer != p && m.peer in peers && peers[m.peer].status.Mem?
          && m == Member(m.peer, peers[m.peer].session, TruncMs(peers[m.peer].stamp)))
    && (forall i, j :: 0 <= i < j < |members| ==> members[i].peer != members[j].peer)
  }

  /** What q has been sent between n and n2. */
  function SentTo(n: Node, n2: Node, q: PeerId): seq<Msg> {
    if |n.out| <= |n2.out| then To(n2.out[|n.out|..], q) else []
  }

  /** One possible order of walking over the world's peers. */
  ghost predicate Walks(n: Node, l: Uuid, order: seq<PeerId>) {
    l in n.worlds ==> Enumerates(order, n.worlds[l].peers.Keys)
  }

  function Msgs(sends: seq<Send>): (r: seq<Msg>)
    ensures |r| == |sends| && forall i :: 0 <= i < |sends| ==> r[i] == sends[i].msg
  {
    seq(|sends|, i requires 0 <= i < |sends| => sends[i].msg)
  }

  lemma FarewellTo(l: Uuid, p: PeerId, e: Entry, q: PeerId)
    ensures To(Farewell(l, p, e), q) == if q == p then Msgs(Farewell(l, p, e)) else []
  {
    if Farewell(l, p, e) != [] { ToOne(Farewell(l, p, e)[0], q); }
  }

  /** What q is sent while world l accepts session s, created at t, of the joiner p. */
  function AnswerTo(n: Node, l: Uuid, p: PeerId, s: Uuid, t: Time, members: seq<Member>, q: PeerId): seq<Msg>
    requires l in n.worlds && p in n.worlds[l].peers
  {
    var w := n.worlds[l];
    if q == p then Msgs(Farewell(l, p, w.peers[p])) + [MJOK(l, s, TruncMs(w.id.stamp), w.id.url, members)]
    else if q in w.peers && w.peers[q].status.Mem? then [MJNI(l, w.peers[q].session, Member(p, s, TruncMs(t)))]
    else []
  }

  /** The state of the instance after the joiner has been accepted, but for what was sent. */
  ghost predicate Admits(n: Node, n2: Node, l: Uuid, p: PeerId, s: Uuid, t: Time)
    requires l in n.worlds && p in n.worlds[l].peers
  {
    var w := n.worlds[l];
    && n2 == n.(worlds := n2.worlds, events := n2.events, out := n2.out)
    && n2.worlds == n.worlds[l := World(w.id, w.peers[p := Entry(true, s, t, Tmem, false, 0)])]
    && n2.events == n.events + Ending(l, p, w.peers[p]) + [SessionRequest(l, p, s)]
    && n.out <= n2.out
  }

  lemma JoinerRequested(n: Node, n1: Node, p: PeerId, l: Uuid, s: Uuid, t: Time)
    requires NodeInv(n) && l in n.worlds && p in n.worlds[l].peers && n.worlds[l].id.lsid == l
    requires n1 == TakenOver(n, l, p, n.worlds[l].peers[p], s, t, Jn)
    ensures l in n1.worlds && n1.worlds[l].id == n.worlds[l].id && !n1.fault
    ensures n1.worlds[l].peers == n.worlds[l].peers[p := Entry(true, s, t, Jn, false, 0)]
    ensures n1.events == n.events + Ending(l, p, n.worlds[l].peers[p]) + [SessionRequest(l, p, s)]
    ensures n1.out == n.out + Farewell(l, p, n.worlds[l].peers[p])
    ensures n1 == n.(worlds := n.worlds[l := n1.worlds[l]], events := n1.events, out := n1.out)
  {
    assert (n.events + Ending(l, p, n.worlds[l].peers[p])) + [SessionRequest(l, p, s)]
        == n.events + (Ending(l, p, n.worlds[l].peers[p]) + [SessionRequest(l, p, s)]);
  }

  lemma RosterLists(peers: Peers, p: PeerId, peers1: Peers, members: seq<Member>)
    requires p in peers && p in peers1 && peers1 == peers[p := peers1[p]] && !peers1[p].status.Mem? && IsRoster(peers1, members)
    ensures ListsMembers(peers, p, members)
  {
    forall q | q != p && q in peers && peers[q].status.Mem?
      ensures Member(q, peers[q].session, TruncMs(peers[q].stamp)) in members {
      assert IsMember(peers1, q);
    }
  }

  lemma AcceptIsPlan(n1: Node, l: Uuid, p: PeerId, s: Uuid, order: seq<PeerId>, st: State)
    requires l in n1.worlds && !n1.fault && !st.fault && st.id == n1.worlds[l].id && st.events == n1.events
    requires st == DoAll(Inside(n1, l), PlanAccept(n1.worlds[l].id, n1.worlds[l].peers, p, s, order))
    ensures NodeStep(n1, AcceptSession(l, p, s, order)) == n1.(worlds := n1.worlds[l := World(st.id, st.peers)], out := st.out)
  {
  }

  lemma AcceptOfJoiner(n1: Node, l: Uuid, p: PeerId, s: Uuid, order: seq<PeerId>, members: seq<Member>, n2: Node)
    requires l in n1.worlds && !n1.fault && p in n1.worlds[l].peers && n1.worlds[l].peers[p].status.Jn? && n1.worlds[l].peers[p].session == s
    requires Enumerates(order, n1.worlds[l].peers.Keys)
    requires members == MemberList(n1.worlds[l].peers, MembersIn(n1.worlds[l].peers, order))
    requires n2 == NodeStep(n1, AcceptSession(l, p, s, order))
    ensures IsRoster(n1.worlds[l].peers, members) && n1.out <= n2.out
    ensures forall q :: SentTo(n1, n2, q) == Owed(n1.worlds[l].id, n1.worlds[l].peers, p, members, q)
    ensures n2 == n1.(worlds := n1.worlds[l := World(n1.worlds[l].id, n1.worlds[l].peers[p := n1.worlds[l].peers[p].(status := Tmem)])],
                      out := n2.out)
  {
    var plan := PlanAccept(n1.worlds[l].id, n1.worlds[l].peers, p, s, order);
    AcceptFanOut(Inside(n1, l), p, s, order);
    DoAllKeepsId(Inside(n1, l), plan);
    AcceptIsPlan(n1, l, p, s, order, DoAll(Inside(n1, l), plan));
  }

  /**
   A JN that is taken up and then accepted: the joiner gets exactly one JOK, for
   its session, with the members of the world; every member gets exactly one
   JNI about the joiner; nobody else gets anything; and the application saw the
   request, after the end of the session it replaces, if that was ready.
   */
  lemma JoinerIsAnswered(n: Node, p: PeerId, l: Uuid, s: Uuid, path: string, t: Time, sweep: seq<Uuid>, order: seq<PeerId>)
    requires NodeInv(n) && l in n.worlds && Admissible(n, Recv(p, l, MJN(s, path, t), sweep))
    requires Walks(n, l, order)
    requires p in n.worlds[l].peers && (n.worlds[l].peers[p].status.Cc? || n.worlds[l].peers[p].stamp < t)
    ensures var n2 := NodeStep(NodeStep(n, Recv(p, l, MJN(s, path, t), sweep)), AcceptSession(l, p, s, order));
            Admits(n, n2, l, p, s, t) && Answered(n, n2, l, p, s, t)
  {
    KnownPeer(n, l, p);
    JNIsAnswered(n, p, l, s, path, t, sweep);
    var n1 := NodeStep(n, Recv(p, l, MJN(s, path, t), sweep));
    JoinerAdmitted(n, n1, p, l, s, t, order, NodeStep(n1, AcceptSession(l, p, s, order)));
  }

  ghost predicate Answered(n: Node, n2: Node, l: Uuid, p: PeerId, s: Uuid, t: Time)
    requires l in n.worlds && p in n.worlds[l].peers && n.out <= n2.out
  {
    exists members :: ListsMembers(n.worlds[l].peers, p, members)
      && forall q :: SentTo(n, n2, q) == AnswerTo(n, l, p, s, t, members, q)
  }

  lemma JoinerAdmitted(n: Node, n1: Node, p: PeerId, l: Uuid, s: Uuid, t: Time, order: seq<PeerId>, n2: Node)
    requires NodeInv(n) && l in n.worlds && p in n.worlds[l].peers && n.worlds[l].id.lsid == l
    requires n1 == TakenOver(n, l, p, n.worlds[l].peers[p], s, t, Jn)
    requires Walks(n, l, order) && n2 == NodeStep(n1, AcceptSession(l, p, s, order))
    ensures Admits(n, n2, l, p, s, t) && Answered(n, n2, l, p, s, t)
  {
    JoinerRequested(n, n1, p, l, s, t);
    var peers1 := n1.worlds[l].peers;
    assert peers1.Keys == n.worlds[l].peers.Keys;
    var members := MemberList(peers1, MembersIn(peers1, order));
    AcceptOfJoiner(n1, l, p, s, order, members, n2);
    RosterLists(n.worlds[l].peers, p, peers1, members);
    AdmitsAfter(n, n1, p, l, s, t, n2);
    forall q ensures SentTo(n, n2, q) == AnswerTo(n, l, p, s, t, members, q) {
      AnswersAdd(n, n1, n2, l, p, s, t, members, q);
    }
  }

  lemma AdmitsAfter(n: Node, n1: Node, p: PeerId, l: Uuid, s: Uuid, t: Time, n2: Node)
    requires l in n.worlds && p in n.worlds[l].peers && l in n1.worlds && n1.worlds[l].id == n.worlds[l].id
    requires n1.worlds[l].peers == n.worlds[l].peers[p := Entry(true, s, t, Jn, false, 0)]
    requires n1.events == n.events + Ending(l, p, n.worlds[l].peers[p]) + [SessionRequest(l, p, s)] && n.out <= n1.out <= n2.out
    requires n1 == n.(worlds := n.worlds[l := n1.worlds[l]], events := n1.events, out := n1.out)
    requires n2 == n1.(worlds := n1.worlds[l := World(n1.worlds[l].id, n1.worlds[l].peers[p := n1.worlds[l].peers[p].(status := Tmem)])],
                       out := n2.out)
    ensures Admits(n, n2, l, p, s, t)
  {
    assert n1.worlds[l].peers[p := n1.worlds[l].peers[p].(status := Tmem)] == n.worlds[l].peers[p := Entry(true, s, t, Tmem, false, 0)];
  }

  lemma AnswersAdd(n: Node, n1: Node, n2: Node, l: Uuid, p: PeerId, s: Uuid, t: Time, members: seq<Member>, q: PeerId)
    requires l in n.worlds && p in n.worlds[l].peers && n.worlds[l].id.lsid == l
    requires l in n1.worlds && n1.worlds[l].id == n.worlds[l].id
    requires n1.worlds[l].peers == n.worlds[l].peers[p := Entry(true, s, t, Jn, false, 0)]
    requires n1.out == n.out + Farewell(l, p, n.worlds[l].peers[p]) && n1.out <= n2.out
    requires SentTo(n1, n2, q) == Owed(n1.worlds[l].id, n1.worlds[l].peers, p, members, q)
    ensures SentTo(n, n2, q) == AnswerTo(n, l, p, s, t, members, q)
  {
    var farewell := Farewell(l, p, n.worlds[l].peers[p]);
    assert n2.out[|n.out|..] == farewell + n2.out[|n1.out|..];
    ToCat(farewell, n2.out[|n1.out|..], q);
    FarewellTo(l, p, n.worlds[l].peers[p], q);
  }

  // ---- the members listed in a JOK ----

  /** One introduction after the other. */
  function IntroducedAll(n: Node, l: Uuid, members: seq<Member>): (r: Node)
    requires l in n.worlds
    ensures l in r.worlds
  {
    if members == [] then n else Introduced(IntroducedAll(n, l, members[..|members| - 1]), l, members[|members| - 1])
  }

  /** Nobody in the world is being joined, and who is connected has a linked entry. */
  ghost predicate Receptive(n: Node, l: Uuid)
    requires l in n.worlds
  {
    && !n.fault && n.worlds[l].id.lsid == l && n.worlds[l].id.local == n.local
    && forall q :: q in n.worlds[l].peers ==>
         var e := n.worlds[l].peers[q]; !Targeted(e.status) && Shape(n.worlds[l].id, q, e, !e.status.DcJni?)
  }

  lemma StaysReceptive(n: Node, l: Uuid, m: Member)
    requires l in n.worlds && Receptive(n, l)
    ensures Receptive(Introduced(n, l, m), l)
  {
  }

  lemma OneMoreIntroduced(n: Node, l: Uuid, m: Member)
    requires l in n.worlds && Receptive(n, l)
    ensures OnWorld(n, l, PlanIntroductions(n.local, [m])) == Introduced(n, l, m)
  {
    OneIntroduction(n.local, m);
    if m.peer == n.local {
      NoPlan(n, l);
    } else {
      var op := Introduce(m.session, m.stamp);
      var o := Step(n.worlds[l].id, m.peer, EntryIn(n, l, m.peer), op);
      IntroduceStep(n.worlds[l].id, EntryIn(n, l, m.peer), m, o);
      OneStep(n, l, m.peer, op, o);
    }
  }

  lemma OnWorldTwice(n: Node, l: Uuid, a: seq<Micro>, b: seq<Micro>)
    requires l in n.worlds && !OnWorld(n, l, a).fault
    ensures l in OnWorld(n, l, a).worlds && OnWorld(n, l, a + b) == OnWorld(OnWorld(n, l, a), l, b)
  {
    DoAllAppend(Inside(n, l), a, b);
    FaultMonotone(Inside(n, l), a);
    assert Inside(OnWorld(n, l, a), l) == DoAll(Inside(n, l), a);
    FaultMonotone(DoAll(Inside(n, l), a), b);
  }

  lemma {:induction false} AllIntroduced(n: Node, l: Uuid, members: seq<Member>)
    requires l in n.worlds && Receptive(n, l)
    ensures Receptive(IntroducedAll(n, l, members), l) && IntroducedAll(n, l, members).local == n.local
    ensures OnWorld(n, l, PlanIntroductions(n.local, members)) == IntroducedAll(n, l, members)
    decreases |members|
  {
    if members == [] {
      NoPlan(n, l);
    } else {
      var init, m := members[..|members| - 1], members[|members| - 1];
      AllIntroduced(n, l, init);
      var n1 := IntroducedAll(n, l, init);
      StaysReceptive(n1, l, m);
      OneMoreIntroduced(n1, l, m);
      OneIntroduction(n.local, m);
      assert PlanIntroductions(n.local, members) == PlanIntroductions(n.local, init) + PlanIntroductions(n.local, [m]);
      OnWorldTwice(n, l, PlanIntroductions(n.local, init), PlanIntroductions(n.local, [m]));
    }
  }

  /** The world after its JOK has come, before the listed members are looked at. */
  function Welcomed(n: Node, l: Uuid, p: PeerId, s: Uuid, t: Time, url: string): Node
    requires l in n.worlds
  {
    With(n, l, p, Some(Entry(true, s, t, Rmem, true, 0)), [JoinSuccess(l, url), SessionRequest(l, p, s)], [])
  }

  lemma OnlyTarget(n: Node, l: Uuid, p: PeerId)
    requires NodeInv(n) && l in n.worlds && p in n.worlds[l].peers && n.worlds[l].peers[p].status.Jt?
    ensures n.worlds[l].id.joinHash == p
    ensures forall q :: q in n.worlds[l].peers && q != p ==>
              var e := n.worlds[l].peers[q]; !Targeted(e.status) && Shape(n.worlds[l].id, q, e, !e.status.DcJni?)
  {
    assert Live(n, l, n.peers);
    assert PeerInv(Inside(n, l), n.peers, p);
    forall q | q in n.worlds[l].peers && q != p
      ensures var e := n.worlds[l].peers[q]; !Targeted(e.status) && Shape(n.worlds[l].id, q, e, !e.status.DcJni?) {
      assert PeerInv(Inside(n, l), n.peers, q);
    }
  }

  lemma TargetWelcomed(n: Node, l: Uuid, p: PeerId, s: Uuid, t: Time, url: string)
    requires NodeInv(n) && l in n.worlds && p in n.worlds[l].peers && n.worlds[l].peers[p].status.Jt?
    ensures OnWorld(n, l, [On(p, RecvJOK(s, t, url))]) == Welcomed(n, l, p, s, t, url) && Receptive(Welcomed(n, l, p, s, t, url), l)
  {
    OnlyTarget(n, l, p);
    assert Live(n, l, n.peers);
    assert PeerInv(Inside(n, l), n.peers, p);
    var o := Step(n.worlds[l].id, p, EntryIn(n, l, p), RecvJOK(s, t, url));
    OneStep(n, l, p, RecvJOK(s, t, url), o);
  }

  /** A JOK from the peer the world waits for: the join has succeeded, and every listed member is introduced in turn. */
  lemma JOKWelcomes(n: Node, p: PeerId, l: Uuid, s: Uuid, r: Uuid, t: Time, url: string, members: seq<Member>, sweep: seq<Uuid>)
    requires NodeInv(n) && l in n.worlds && p in n.worlds[l].peers && n.worlds[l].peers[p].status.Jt?
    ensures NodeStep(n, Recv(p, l, MJOK(s, r, t, url, members), sweep)) == IntroducedAll(Welcomed(n, l, p, s, t, url), l, members)
  {
    OnlyTarget(n, l, p);
    assert Live(n, l, n.peers);
    TargetWelcomed(n, l, p, s, t, url);
    AllIntroduced(Welcomed(n, l, p, s, t, url), l, members);
    OnWorldTwice(n, l, [On(p, RecvJOK(s, t, url))], PlanIntroductions(n.local, members));
  }

  /** A JOK from anybody else, or in any other state, is reset and changes nothing. */
  lemma JOKRefused(n: Node, p: PeerId, l: Uuid, s: Uuid, r: Uuid, t: Time, url: string, members: seq<Member>, sweep: seq<Uuid>)
    requires NodeInv(n) && l in n.worlds && p in n.peers && !(p in n.worlds[l].peers && n.worlds[l].peers[p].status.Jt?)
    ensures NodeStep(n, Recv(p, l, MJOK(s, r, t, url, members), sweep)) == n.(out := n.out + [Send(p, MRST(l, s))])
  {
    KnownPeer(n, l, p);
    var op := RecvJOK(s, t, url);
    var plan := PlanJOK(n.worlds[l].id, n.worlds[l].peers, p, s, t, url, members);
    assert plan == [On(p, op)];
    ObjectsOnly(n, l, p, [], [Send(p, MRST(l, s))]);
    OneStep(n, l, p, op, Step(n.worlds[l].id, p, EntryIn(n, l, p), op));
  }

  // ---- what being listed comes to ----

  ghost predicate Listed(members: seq<Member>, q: PeerId) {
    exists i :: 0 <= i < |members| && members[i].peer == q
  }

  /** What has become of the entry of q, and what the application has learned, when the listed members have been introduced. */
  ghost predicate Met(l: Uuid, q: PeerId, was: Option<Entry>, now: Option<Entry>, news: seq<Event>, members: seq<Member>) {
    if !Listed(members, q) then now == was
    else
      && now.Some? && !Idling(now.value.status)
      && (forall m :: m in members && m.peer == q ==> now.value.stamp >= m.stamp)
      && (was.None? ==> now.value.status.DcJni? && Member(q, now.value.session, now.value.stamp) in members
                        && PeerRegister(q) in news && ConnectRequest(q) in news)
      && (was.Some? && was.value.status.Cc? ==>
            now.value.status.Jni? && Member(q, now.value.session, now.value.stamp) in members
            && SessionRequest(l, q, now.value.session) in news)
  }

  lemma ListedSnoc(members: seq<Member>, m: Member, q: PeerId)
    ensures Listed(members + [m], q) <==> Listed(members, q) || m.peer == q
    ensures forall x :: x in members + [m] <==> x in members || x == m
  {
    if Listed(members, q) {
      var i :| 0 <= i < |members| && members[i].peer == q;
      assert (members + [m])[i].peer == q;
    }
    if m.peer == q { assert (members + [m])[|members|].peer == q; }
  }

  /** One more introduction, of another peer. */
  lemma MetOther(l: Uuid, q: PeerId, was: Option<Entry>, now: Option<Entry>, news: seq<Event>, members: seq<Member>, m: Member, es: seq<Event>)
    requires Met(l, q, was, now, news, members) && m.peer != q
    ensures Met(l, q, was, now, news + es, members + [m])
  {
    ListedSnoc(members, m, q);
  }

  /** The first introduction of the peer. */
  lemma MetFirst(l: Uuid, was: Option<Entry>, news: seq<Event>, members: seq<Member>, m: Member)
    requires !Listed(members, m.peer) && (was.Some? ==> !Targeted(was.value.status))
    ensures Met(l, m.peer, was, Some(Acquainted(was, m)), news + News(l, was, m), members + [m])
  {
    ListedSnoc(members, m, m.peer);
    assert forall i :: 0 <= i < |members| ==> members[i].peer != m.peer;
    var es := News(l, was, m);
    if was.None? {
      assert es[0] in es && es[1] in es;
    } else if was.value.status.Cc? {
      assert es[|es| - 1] in es;
    }
  }

  /** A further introduction of a peer that has been met. */
  lemma MetAgain(l: Uuid, was: Option<Entry>, now: Option<Entry>, news: seq<Event>, members: seq<Member>, m: Member)
    requires Listed(members, m.peer) && Met(l, m.peer, was, now, news, members)
    ensures Met(l, m.peer, was, Some(Acquainted(now, m)), news + News(l, now, m), members + [m])
  {
    ListedSnoc(members, m, m.peer);
    var es := News(l, now, m);
    if es != [] { assert es[|es| - 1] in es; }
  }

  lemma IntroducedEntry(n: Node, l: Uuid, m: Member, q: PeerId)
    requires l in n.worlds && q != n.local
    ensures var n' := Introduced(n, l, m);
            && EntryIn(n', l, q) == (if m.peer == q then Some(Acquainted(EntryIn(n, l, q), m)) else EntryIn(n, l, q))
            && n'.events == n.events + (if m.peer == n.local then [] else News(l, EntryIn(n, l, m.peer), m))
  {
  }

  /** Whatever is listed, in whatever order and how often: every listed peer is met, and nobody else. */
  lemma {:induction false} AllMet(n: Node, l: Uuid, members: seq<Member>, q: PeerId) returns (news: seq<Event>)
    requires l in n.worlds && Receptive(n, l) && q != n.local
    ensures var n' := IntroducedAll(n, l, members);
            n'.events == n.events + news && Met(l, q, EntryIn(n, l, q), EntryIn(n', l, q), news, members)
    decreases |members|
  {
    if members == [] {
      news := [];
    } else {
      var init, m := members[..|members| - 1], members[|members| - 1];
      var n1 := IntroducedAll(n, l, init);
      assert members == init + [m];
      var before := AllMet(n, l, init, q);
      AllIntroduced(n, l, init);
      IntroducedEntry(n1, l, m, q);
      var es := if m.peer == n1.local then [] else News(l, EntryIn(n1, l, m.peer), m);
      Associate(n.events, before, es);
      news := before + es;
      if m.peer != q {
        MetOther(l, q, EntryIn(n, l, q), EntryIn(n1, l, q), before, init, m, es);
      } else if Listed(init, q) {
        MetAgain(l, EntryIn(n, l, q), EntryIn(n1, l, q), before, init, m);
      } else {
        MetFirst(l, EntryIn(n, l, q), before, init, m);
      }
    }
  }

  /**
   The joiner meets everybody: when the JOK of its target has come, each listed
   host but itself is in the peer map with a session no older than any listed
   for it; who was unknown is being connected to, who was idle is reported as a
   request; and who is not listed is as before.
   */
  lemma JoinerMeetsMembers(n: Node, p: PeerId, l: Uuid, s: Uuid, r: Uuid, t: Time, url: string, members: seq<Member>, sweep: seq<Uuid>, q: PeerId)
    requires NodeInv(n) && l in n.worlds && p in n.worlds[l].peers && n.worlds[l].peers[p].status.Jt? && q != n.local
    ensures var n' := NodeStep(n, Recv(p, l, MJOK(s, r, t, url, members), sweep));
            var e := if q == p then Some(Entry(true, s, t, Rmem, true, 0)) else EntryIn(n, l, q);
            && l in n'.worlds
            && n.events + [JoinSuccess(l, url), SessionRequest(l, p, s)] <= n'.events
            && Met(l, q, e, EntryIn(n', l, q), n'.events[|n.events| + 2..], members)
  {
    TargetWelcomed(n, l, p, s, t, url);
    JOKWelcomes(n, p, l, s, r, t, url, members, sweep);
    var n0 := Welcomed(n, l, p, s, t, url);
    var news := AllMet(n0, l, members, q);
    var n' := IntroducedAll(n0, l, members);
    assert n'.events[|n.events| + 2..] == news;
  }

  /** The same for the one peer that a member's JNI names. */
  lemma MemberIntroducesPeer(n: Node, p: PeerId, l: Uuid, s: Uuid, r: Uuid, m: Member, sweep: seq<Uuid>)
    requires NodeInv(n) && l in n.worlds && p in n.peers && IsProper(n.worlds[l].peers, p, s) && m.peer != n.local
    ensures var n' := NodeStep(n, Recv(p, l, MJNI(s, r, m), sweep));
            && l in n'.worlds && n.events <= n'.events
            && Met(l, m.peer, EntryIn(n, l, m.peer), EntryIn(n', l, m.peer), n'.events[|n.events|..], [m])
  {
    JNIIntroduces(n, p, l, s, r, m, sweep);
    ProperMeansJoined(Inside(n, l), n.peers, p);
    assert PeerInv(Inside(n, l), n.peers, m.peer);
    IntroducedEntry(n, l, m, m.peer);
    var es := News(l, EntryIn(n, l, m.peer), m);
    MetFirst(l, EntryIn(n, l, m.peer), [], [], m);
    assert [] + es == es && [] + [m] == [m];
    assert NodeStep(n, Recv(p, l, MJNI(s, r, m), sweep)).events[|n.events|..] == es;
  }

  // ---- a join from end to end ----

  lemma Requested(n: Node, l: Uuid, p: PeerId, s: Uuid, n1: Node)
    requires n1.events == n.events + [SessionRequest(l, p, s)]
    ensures SessionRequest(l, p, s) in n1.events
  {
    assert n1.events[|n.events|] == SessionRequest(l, p, s);
  }

  /** The side that was asked: it answers, and the joiner's MEM makes the joiner a member. */
  lemma AskedSide(n: Node, p: PeerId, l: Uuid, s: Uuid, path: string, t: Time, order: seq<PeerId>, n2: Node, jok: Msg, r: Uuid)
    requires NodeInv(n) && l in n.worlds && Admissible(n, Recv(p, l, MJN(s, path, t), [])) && Walks(n, l, order)
    requires p in n.worlds[l].peers && (n.worlds[l].peers[p].status.Cc? || n.worlds[l].peers[p].stamp < t)
    requires n2 == NodeStep(NodeStep(n, Recv(p, l, MJN(s, path, t), [])), AcceptSession(l, p, s, order))
    requires jok in SentTo(n, n2, p) && jok.MJOK?
    ensures l in n2.worlds
    ensures jok.sender == l && jok.recver == s && jok.stamp == TruncMs(n.worlds[l].id.stamp)
    ensures forall m :: m in jok.members ==> m.peer != n.local
    ensures var n3 := NodeStep(n2, Recv(p, l, MMEM(s, r, t), []));
            && l in n3.worlds && EntryIn(n3, l, p) == Some(Entry(true, s, t, Mem, false, 0))
            && n3.events == n2.events + [SessionReady(l, p, s)]
  {
    JoinerIsAnswered(n, p, l, s, path, t, [], order);
    JokOfJoiner(n, n2, l, p, s, t, jok);
    KnownPeer(n, l, p);
    AcceptedKeeps(n, p, l, s, path, t, order);
    MEMIsWeighed(n2, p, l, s, r, t, []);
  }

  lemma JokOfJoiner(n: Node, n2: Node, l: Uuid, p: PeerId, s: Uuid, t: Time, jok: Msg)
    requires NodeInv(n) && l in n.worlds && p in n.worlds[l].peers && n.out <= n2.out && Answered(n, n2, l, p, s, t)
    requires jok in SentTo(n, n2, p) && jok.MJOK?
    ensures jok.sender == l && jok.recver == s && jok.stamp == TruncMs(n.worlds[l].id.stamp)
    ensures forall m :: m in jok.members ==> m.peer != n.local
  {
    assert Live(n, l, n.peers);
    var members :| ListsMembers(n.worlds[l].peers, p, members) && forall q :: SentTo(n, n2, q) == AnswerTo(n, l, p, s, t, members, q);
    assert jok in AnswerTo(n, l, p, s, t, members, p);
    NoJokInFarewell(l, p, n.worlds[l].peers[p]);
    assert jok.members == members;
  }

  lemma NoJokInFarewell(l: Uuid, p: PeerId, e: Entry)
    ensures forall m :: m in Msgs(Farewell(l, p, e)) ==> !m.MJOK?
  {
  }

  lemma AcceptedKeeps(n: Node, p: PeerId, l: Uuid, s: Uuid, path: string, t: Time, order: seq<PeerId>)
    requires NodeInv(n) && l in n.worlds && Admissible(n, Recv(p, l, MJN(s, path, t), [])) && Walks(n, l, order)
    requires p in n.worlds[l].peers && (n.worlds[l].peers[p].status.Cc? || n.worlds[l].peers[p].stamp < t)
    ensures var n2 := NodeStep(NodeStep(n, Recv(p, l, MJN(s, path, t), [])), AcceptSession(l, p, s, order));
            NodeInv(n2) && n2.peers == n.peers
  {
    var n1 := NodeStep(n, Recv(p, l, MJN(s, path, t), []));
    KnownPeer(n, l, p);
    JNIsAnswered(n, p, l, s, path, t, []);
    JoinerRequested(n, n1, p, l, s, t);
    StepKeepsNode(n, Recv(p, l, MJN(s, path, t), []));
    assert n1.worlds[l].peers.Keys == n.worlds[l].peers.Keys;
    assert n1.events[|n1.events| - 1] == SessionRequest(l, p, s);
    StepKeepsNode(n1, AcceptSession(l, p, s, order));
    JoinerAdmitted(n, n1, p, l, s, t, order, NodeStep(n1, AcceptSession(l, p, s, order)));
  }

  /** The joining side: once its application accepts, the host it joined is a member. */
  lemma JoiningSide(n: Node, p: PeerId, l: Uuid, s: Uuid, u: Time, url: string, members: seq<Member>, order: seq<PeerId>)
    requires NodeInv(n) && l in n.worlds && p in n.worlds[l].peers && n.worlds[l].peers[p].status.Jt?
    requires forall m :: m in members ==> m.peer != p
    requires Walks(NodeStep(n, Recv(p, l, MJOK(s, l, u, url, members), [])), l, order)
    ensures var n1 := NodeStep(n, Recv(p, l, MJOK(s, l, u, url, members), []));
            var n2 := NodeStep(n1, AcceptSession(l, p, s, order));
            && l in n1.worlds && SessionRequest(l, p, s) in n1.events
            && l in n2.worlds && EntryIn(n2, l, p) == Some(Entry(true, s, u, Mem, true, 0))
            && n2.events == n1.events + [SessionReady(l, p, s)]
            && n2.out == n1.out + [Send(p, MMEM(l, s, TruncMs(n.worlds[l].id.stamp)))]
  {
    var n1 := NodeStep(n, Recv(p, l, MJOK(s, l, u, url, members), []));
    assert Live(n, l, n.peers);
    assert PeerInv(Inside(n, l), n.peers, p);
    JoinerMeetsMembers(n, p, l, s, l, u, url, members, [], p);
    assert !Listed(members, p);
    assert n1.events[|n.events| + 1] == SessionRequest(l, p, s);
    StepKeepsNode(n, Recv(p, l, MJOK(s, l, u, url, members), []));
    IdKept(n, p, l, MJOK(s, l, u, url, members));
    AcceptCompletes(n1, l, p, s, order);
  }

  lemma IdKept(n: Node, p: PeerId, l: Uuid, m: Msg)
    requires l in n.worlds && l != NIL
    ensures var n' := NodeStep(n, Recv(p, l, m, [])); l in n'.worlds && n'.worlds[l].id == n.worlds[l].id
  {
    DoAllKeepsId(Inside(n, l), PlanRecv(n.worlds[l].id, n.worlds[l].peers, p, m));
  }

  /**
   A join runs to its end: host A has world a, in which B is idle; host B waits
   with world b for A.  B's JN is delivered, A accepts, A's JOK is delivered,
   B accepts, B's MEM is delivered.  Then each is a member for the other, with
   the session it was told, and both applications have seen it become ready.
   */
  lemma JoinCompletes(na: Node, a: Uuid, nb: Node, b: Uuid, path: string, jok: Msg, orderA: seq<PeerId>, orderB: seq<PeerId>)
    requires NodeInv(na) && a in na.worlds && NodeInv(nb) && b in nb.worlds
    requires var A, B, t := na.local, nb.local, TruncMs(nb.worlds[b].id.stamp);
             && Admissible(na, Recv(B, a, MJN(b, path, t), [])) && Walks(na, a, orderA)
             && B in na.worlds[a].peers && na.worlds[a].peers[B].status.Cc?
             && A in nb.worlds[b].peers && nb.worlds[b].peers[A].status.Jt?
    requires var A, B, t := na.local, nb.local, TruncMs(nb.worlds[b].id.stamp);
             var na2 := NodeStep(NodeStep(na, Recv(B, a, MJN(b, path, t), [])), AcceptSession(a, B, b, orderA));
             jok in SentTo(na, na2, B) && jok.MJOK?
    requires Walks(NodeStep(nb, Recv(na.local, b, jok, [])), b, orderB)
    ensures var A, B, t := na.local, nb.local, TruncMs(nb.worlds[b].id.stamp);
            var na2 := NodeStep(NodeStep(na, Recv(B, a, MJN(b, path, t), [])), AcceptSession(a, B, b, orderA));
            var nb1 := NodeStep(nb, Recv(A, b, jok, []));
            var nb2 := NodeStep(nb1, AcceptSession(b, A, a, orderB));
            var na3 := NodeStep(na2, Recv(B, a, MMEM(b, a, t), []));
            && a in na3.worlds && b in nb2.worlds
            && nb2.out == nb1.out + [Send(A, MMEM(b, a, t))]
            && EntryIn(na3, a, B) == Some(Entry(true, b, t, Mem, false, 0))
            && EntryIn(nb2, b, A) == Some(Entry(true, a, TruncMs(na.worlds[a].id.stamp), Mem, true, 0))
            && na3.events == na2.events + [SessionReady(a, B, b)]
            && nb2.events == nb1.events + [SessionReady(b, A, a)]
  {
    var A, B, t := na.local, nb.local, TruncMs(nb.worlds[b].id.stamp);
    var na2 := NodeStep(NodeStep(na, Recv(B, a, MJN(b, path, t), [])), AcceptSession(a, B, b, orderA));
    AskedSide(na, B, a, b, path, t, orderA, na2, jok, a);
    JoiningSide(nb, A, b, a, jok.stamp, jok.url, jok.members, orderB);
  }
}
