/** Mutual acceptance, time stamp agreement and freedom from panics in every run of the whole system. */
module SystemSafety {
  import opened Prelude
  import opened Abyss
  import opened PeerEntry
  import opened WorldModel
  import opened NodeModel
  import opened EntryInvariant
  import opened WorldInvariant
  import opened NodeInvariant
  import opened SystemModel

  // ---- one entry step ----

  /** What the message or call behind an entry step has already established. */
  ghost predicate OpGood(s: Sys, A: PeerId, l: Uuid, p: PeerId, op: Op) {
    && A in s && p in s
    && match op
       case RecvJN(se, t) => Genuine(s, Member(p, se, t))
       case RecvJOK(se, t, _) => Genuine(s, Member(p, se, t)) && Vowed(s, p, se, A, l)
       case RecvMEM(se, t) => Genuine(s, Member(p, se, t)) && Vowed(s, p, se, A, l)
       case Introduce(se, t) => Genuine(s, Member(p, se, t))
       case Gossip(origin, se) => origin.peer in s && se != NIL && p in s[origin.peer].peers
       case Relay(source, se) => Genuine(s, source) && se != NIL
       case Tell(m) => SendGood(s, A, Send(p, m))
       case Accept(_, members) => forall m :: m in members ==> Genuine(s, m)
       case _ => true
  }

  ghost predicate IdGood(s: Sys, A: PeerId, w: WorldId) {
    A in s && w.local == A && Genuine(s, Member(A, w.lsid, TruncMs(w.stamp)))
  }

  /** EntryGood where the acceptance may be among the messages the step itself sends. */
  ghost predicate EntryAfter(s: Sys, A: PeerId, l: Uuid, p: PeerId, e: Entry, sends: seq<Send>) {
    && p in s
    && (if Idling(e.status) then e.session == NIL else Genuine(s, Member(p, e.session, e.stamp)))
    && (e.status.Tmem? || e.status.Mem? ==>
          Vowed(s, A, l, p, e.session) || exists x :: x in sends && x.dst == p && IsVow(x.msg, l, e.session))
    && (e.status.RmemNjni? || e.status.Rmem? || e.status.Mem? ==> Vowed(s, p, e.session, A, l))
  }

  lemma TruncTwice(t: Time)
    ensures TruncMs(TruncMs(t)) == TruncMs(t)
  {
  }

  lemma StepEntryGood(s: Sys, A: PeerId, w: WorldId, p: PeerId, e: Option<Entry>, op: Op)
    requires IdGood(s, A, w) && OpGood(s, A, w.lsid, p, op)
    requires e.Some? ==> EntryGood(s, A, w.lsid, p, e.value)
    ensures var o := Step(w, p, e, op); o.entry.Some? ==> EntryAfter(s, A, w.lsid, p, o.entry.value, o.sends)
  {
    if op.Accept? {
      AcceptEntryGood(s, A, w, p, e, op);
    } else if op.RecvJN? || op.RecvJOK? || op.RecvMEM? || op.Introduce? {
      MessageEntryGood(s, A, w, p, e, op);
    } else {
      OtherEntryGood(s, A, w, p, e, op);
    }
  }

  lemma MessageEntryGood(s: Sys, A: PeerId, w: WorldId, p: PeerId, e: Option<Entry>, op: Op)
    requires IdGood(s, A, w) && OpGood(s, A, w.lsid, p, op) && (op.RecvJN? || op.RecvJOK? || op.RecvMEM? || op.Introduce?)
    requires e.Some? ==> EntryGood(s, A, w.lsid, p, e.value)
    ensures var o := Step(w, p, e, op); o.entry.Some? ==> EntryAfter(s, A, w.lsid, p, o.entry.value, o.sends)
  {
    match op
    case RecvJN(se, t) => JNEntryGood(s, A, w, p, e, se, t);
    case RecvJOK(se, t, url) => JOKEntryGood(s, A, w, p, e, se, t, url);
    case RecvMEM(se, t) => MEMEntryGood(s, A, w, p, e, se, t);
    case Introduce(se, t) => IntroducedEntryGood(s, A, w, p, e, se, t);
  }

  lemma JNEntryGood(s: Sys, A: PeerId, w: WorldId, p: PeerId, e: Option<Entry>, se: Uuid, t: Time)
    requires OpGood(s, A, w.lsid, p, RecvJN(se, t)) && (e.Some? ==> EntryGood(s, A, w.lsid, p, e.value))
    ensures var o := OnJN(w, p, e, se, t); o.entry.Some? ==> EntryAfter(s, A, w.lsid, p, o.entry.value, o.sends)
  {
  }

  lemma JOKEntryGood(s: Sys, A: PeerId, w: WorldId, p: PeerId, e: Option<Entry>, se: Uuid, t: Time, url: string)
    requires OpGood(s, A, w.lsid, p, RecvJOK(se, t, url)) && (e.Some? ==> EntryGood(s, A, w.lsid, p, e.value))
    ensures var o := OnJOK(w, p, e, se, t, url); o.entry.Some? ==> EntryAfter(s, A, w.lsid, p, o.entry.value, o.sends)
  {
  }

  lemma MEMEntryGood(s: Sys, A: PeerId, w: WorldId, p: PeerId, e: Option<Entry>, se: Uuid, t: Time)
    requires OpGood(s, A, w.lsid, p, RecvMEM(se, t)) && (e.Some? ==> EntryGood(s, A, w.lsid, p, e.value))
    ensures var o := OnMEM(w, p, e, se, t); o.entry.Some? ==> EntryAfter(s, A, w.lsid, p, o.entry.value, o.sends)
  {
  }

  lemma IntroducedEntryGood(s: Sys, A: PeerId, w: WorldId, p: PeerId, e: Option<Entry>, se: Uuid, t: Time)
    requires OpGood(s, A, w.lsid, p, Introduce(se, t)) && (e.Some? ==> EntryGood(s, A, w.lsid, p, e.value))
    ensures var o := OnIntroduce(w, p, e, se, t); o.entry.Some? ==> EntryAfter(s, A, w.lsid, p, o.entry.value, o.sends)
  {
  }

  lemma OtherEntryGood(s: Sys, A: PeerId, w: WorldId, p: PeerId, e: Option<Entry>, op: Op)
    requires IdGood(s, A, w) && OpGood(s, A, w.lsid, p, op)
    requires !op.Accept? && !op.RecvJN? && !op.RecvJOK? && !op.RecvMEM? && !op.Introduce?
    requires e.Some? ==> EntryGood(s, A, w.lsid, p, e.value)
    ensures var o := Step(w, p, e, op); o.entry.Some? ==> EntryAfter(s, A, w.lsid, p, o.entry.value, o.sends)
  {
  }

  lemma AcceptEntryGood(s: Sys, A: PeerId, w: WorldId, p: PeerId, e: Option<Entry>, op: Op)
    requires IdGood(s, A, w) && OpGood(s, A, w.lsid, p, op) && op.Accept?
    requires e.Some? ==> EntryGood(s, A, w.lsid, p, e.value)
    ensures var o := Step(w, p, e, op); o.entry.Some? ==> EntryAfter(s, A, w.lsid, p, o.entry.value, o.sends)
  {
    var o := Step(w, p, e, op);
    if e.Some? && o.sends != [] { assert o.sends[0] in o.sends; }
  }

  lemma StepSendsGood(s: Sys, A: PeerId, w: WorldId, p: PeerId, e: Option<Entry>, op: Op)
    requires IdGood(s, A, w) && OpGood(s, A, w.lsid, p, op)
    requires e.Some? ==> EntryGood(s, A, w.lsid, p, e.value)
    ensures forall x :: x in Step(w, p, e, op).sends ==> SendGood(s, A, x)
  {
    if op.Relay? {
      RelaySendsGood(s, A, w, p, e, op);
    } else if op.Accept? {
      AcceptSendsGood(s, A, w, p, e, op);
    } else {
      OtherSendsGood(s, A, w, p, e, op);
    }
  }

  lemma OtherSendsGood(s: Sys, A: PeerId, w: WorldId, p: PeerId, e: Option<Entry>, op: Op)
    requires IdGood(s, A, w) && OpGood(s, A, w.lsid, p, op) && !op.Relay? && !op.Accept?
    ensures forall x :: x in Step(w, p, e, op).sends ==> SendGood(s, A, x)
  {
    forall x | x in Step(w, p, e, op).sends ensures SendGood(s, A, x) {
      PlainSends(w, p, e, op, x);
    }
  }

  /** Every other step answers the peer it is about, tells it what it was given, or asks the gossiping peer back. */
  lemma PlainSends(w: WorldId, p: PeerId, e: Option<Entry>, op: Op, x: Send)
    requires x in Step(w, p, e, op).sends && !op.Relay? && !op.Accept?
    ensures match op
            case Tell(m) => x == Send(p, m)
            case Gossip(origin, se) => x == Send(origin.peer, MCRR(w.lsid, origin.session, [SessionRef(p, se)]))
            case _ => x.dst == p && (x.msg.MRST? || x.msg.MJDN? || x.msg == MJN(w.lsid, w.joinPath, TruncMs(w.stamp)))
  {
  }

  lemma AcceptSendsGood(s: Sys, A: PeerId, w: WorldId, p: PeerId, e: Option<Entry>, op: Op)
    requires IdGood(s, A, w) && OpGood(s, A, w.lsid, p, op) && op.Accept?
    requires e.Some? ==> EntryGood(s, A, w.lsid, p, e.value)
    ensures forall x :: x in Step(w, p, e, op).sends ==> SendGood(s, A, x)
  {
  }

  lemma RelaySendsGood(s: Sys, A: PeerId, w: WorldId, p: PeerId, e: Option<Entry>, op: Op)
    requires IdGood(s, A, w) && OpGood(s, A, w.lsid, p, op) && op.Relay?
    requires e.Some? ==> EntryGood(s, A, w.lsid, p, e.value)
    ensures forall x :: x in Step(w, p, e, op).sends ==> SendGood(s, A, x)
  {
    if e.Some? { TruncTwice(e.value.stamp); GenuineTrunc(s, p, e.value); }
  }

  lemma GenuineTrunc(s: Sys, p: PeerId, e: Entry)
    ensures Genuine(s, Member(p, e.session, e.stamp)) ==> Genuine(s, MemberOf(p, e))
  {
    if Genuine(s, Member(p, e.session, e.stamp)) { TruncTwice(s[p].born[e.session]); }
  }

  // ---- one micro step at one host ----

  ghost predicate MicroGood(s: Sys, A: PeerId, l: Uuid, m: Micro) {
    m.On? ==> OpGood(s, A, l, m.peer, m.op)
  }

  lemma OpGrows(s: Sys, s': Sys, A: PeerId, l: Uuid, m: Micro)
    requires Grows(s, s') && MicroGood(s, A, l, m)
    ensures MicroGood(s', A, l, m)
  {
    if m.On? {
      match m.op
      case RecvJOK(se, t, _) => VowedGrows(s, s', m.peer, se, A, l);
      case RecvMEM(se, t) => VowedGrows(s, s', m.peer, se, A, l);
      case Tell(msg) => SendGrows(s, s', A, Send(m.peer, msg));
      case _ =>
    }
  }

  lemma OutGrows(s: Sys, A: PeerId, n: Node)
    requires A in s && n.peers == s[A].peers && n.born == s[A].born && s[A].out <= n.out
    ensures Grows(s, s[A := n])
  {
  }

  lemma MicroKeepsSys(s: Sys, A: PeerId, l: Uuid, m: Micro)
    requires SysGood(s) && A in s && l in s[A].worlds && MicroGood(s, A, l, m)
    ensures var n := OnWorld(s[A], l, [m]); Grows(s, s[A := n]) && SysGood(s[A := n])
  {
    var st := Inside(s[A], l);
    DoAllOne(st, m);
    var n := OnWorld(s[A], l, [m]);
    var s' := s[A := n];
    assert HostGood(s, A);
    assert WorldGood(s, A, l, s[A].worlds[l]);
    OutGrows(s, A, n);
    forall l' | l' in n.worlds ensures WorldGood(s', A, l', n.worlds[l']) {
      assert WorldGood(s, A, l', s[A].worlds[l']);
      if l' != l || m.Emit? { WorldGrows(s, s', A, l', s[A].worlds[l']); } else { MovedWorldGood(s, A, l, m); }
    }
    if m.On? {
      StepSendsGood(s, A, st.id, m.peer, Get(st.peers, m.peer), m.op);
      forall i | |s[A].out| <= i < |n.out| ensures SendGood(s', A, n.out[i]) {
        assert n.out[i] in Step(st.id, m.peer, Get(st.peers, m.peer), m.op).sends;
        SendGrows(s, s', A, n.out[i]);
      }
    }
    HostReplaced(s, A, n);
  }

  lemma MovedWorldGood(s: Sys, A: PeerId, l: Uuid, m: Micro)
    requires SysGood(s) && A in s && l in s[A].worlds && m.On? && MicroGood(s, A, l, m)
    requires Grows(s, s[A := OnWorld(s[A], l, [m])])
    ensures var n := OnWorld(s[A], l, [m]); WorldGood(s[A := n], A, l, n.worlds[l])
  {
    var st := Inside(s[A], l);
    var n := OnWorld(s[A], l, [m]);
    var s' := s[A := n];
    DoAllOne(st, m);
    assert HostGood(s, A) && WorldGood(s, A, l, s[A].worlds[l]);
    var o := Step(st.id, m.peer, Get(st.peers, m.peer), m.op);
    assert n.out == s[A].out + o.sends;
    StepEntryGood(s, A, st.id, m.peer, Get(st.peers, m.peer), m.op);
    forall p | p in n.worlds[l].peers ensures EntryGood(s', A, l, p, n.worlds[l].peers[p]) {
      if p != m.peer {
        EntryGrows(s, s', A, l, p, st.peers[p]);
      } else {
        FreshVow(s, s', A, l, p, o.entry.value, o.sends);
      }
    }
  }

  lemma FreshVow(s: Sys, s': Sys, A: PeerId, l: Uuid, p: PeerId, e: Entry, sends: seq<Send>)
    requires Grows(s, s') && A in s && EntryAfter(s, A, l, p, e, sends) && s'[A].out == s[A].out + sends
    ensures EntryGood(s', A, l, p, e)
  {
    if e.status.RmemNjni? || e.status.Rmem? || e.status.Mem? { VowedGrows(s, s', p, e.session, A, l); }
    if e.status.Tmem? || e.status.Mem? {
      if Vowed(s, A, l, p, e.session) {
        VowedGrows(s, s', A, l, p, e.session);
      } else {
        var x :| x in sends && x.dst == p && IsVow(x.msg, l, e.session);
        var k :| 0 <= k < |sends| && sends[k] == x;
        assert s'[A].out[|s[A].out| + k] == x;
      }
    }
  }

  // ---- whole plans ----

  lemma GrowsTrans(s: Sys, s1: Sys, s2: Sys)
    requires Grows(s, s1) && Grows(s1, s2)
    ensures Grows(s, s2)
  {
  }

  lemma {:induction false} PlanKeepsSys(s: Sys, A: PeerId, l: Uuid, ms: seq<Micro>)
    requires SysGood(s) && A in s && l in s[A].worlds
    requires forall m :: m in ms ==> MicroGood(s, A, l, m)
    ensures var n := OnWorld(s[A], l, ms); Grows(s, s[A := n]) && SysGood(s[A := n])
    decreases |ms|
  {
    if ms == [] {
      var n := s[A];
      assert n.worlds[l := n.worlds[l]] == n.worlds;
      assert OnWorld(n, l, ms) == n;
      assert s[A := n] == s;
    } else {
      var init, m := ms[..|ms| - 1], ms[|ms| - 1];
      PlanKeepsSys(s, A, l, init);
      var n1 := OnWorld(s[A], l, init);
      var s1 := s[A := n1];
      assert m in ms;
      OpGrows(s, s1, A, l, m);
      MicroKeepsSys(s1, A, l, m);
      OnWorldSnoc(s[A], l, init, m);
      assert ms == init + [m];
      GrowsTrans(s, s1, s1[A := OnWorld(n1, l, [m])]);
      assert s1[A := OnWorld(n1, l, [m])] == s[A := OnWorld(s[A], l, ms)];
    }
  }

  lemma OnWorldSnoc(n: Node, l: Uuid, ms: seq<Micro>, m: Micro)
    requires l in n.worlds
    ensures OnWorld(n, l, ms + [m]) == OnWorld(OnWorld(n, l, ms), l, [m])
  {
    var n1 := OnWorld(n, l, ms);
    DoAllAppend(Inside(n, l), ms, [m]);
    DoAllOne(DoAll(Inside(n, l), ms), m);
    FaultMonotone(Inside(n, l), ms);
    assert Inside(n1, l) == DoAll(Inside(n, l), ms);
    DoAllOne(Inside(n1, l), m);
  }

  lemma {:induction false} SweepKeepsSys(s: Sys, A: PeerId, sweep: seq<Uuid>, m: Micro)
    requires SysGood(s) && A in s && m.On? && (m.op.Connect? || m.op.RecvRST?) && m.peer in s
    ensures var n := OnEach(s[A], sweep, m); Grows(s, s[A := n]) && SysGood(s[A := n])
    decreases |sweep|
  {
    if sweep == [] {
      assert s[A := OnEach(s[A], sweep, m)] == s;
    } else {
      var init, l := sweep[..|sweep| - 1], sweep[|sweep| - 1];
      SweepKeepsSys(s, A, init, m);
      SweepOn(s, A, OnEach(s[A], init, m), l, m);
    }
  }

  lemma SweepOn(s: Sys, A: PeerId, n: Node, l: Uuid, m: Micro)
    requires A in s && Grows(s, s[A := n]) && SysGood(s[A := n])
    requires m.On? && (m.op.Connect? || m.op.RecvRST?) && m.peer in s
    ensures var n' := OnWorld(n, l, [m]); Grows(s, s[A := n']) && SysGood(s[A := n'])
  {
    var s1 := s[A := n];
    if l in n.worlds {
      var n' := OnWorld(n, l, [m]);
      MicroKeepsSys(s1, A, l, m);
      GrowsTrans(s, s1, s1[A := n']);
      assert s1[A := n'] == s[A := n'];
    }
  }

  // ---- messages and calls make good plans ----

  lemma {:induction false} IntroductionsGood(s: Sys, A: PeerId, l: Uuid, members: seq<Member>)
    requires A in s && forall m :: m in members ==> Genuine(s, m)
    ensures forall x :: x in PlanIntroductions(A, members) ==> MicroGood(s, A, l, x)
    decreases |members|
  {
    if members != [] {
      IntroductionsGood(s, A, l, members[..|members| - 1]);
      assert members[|members| - 1] in members;
    }
  }

  lemma {:induction false} GossipGood(s: Sys, A: PeerId, id: WorldId, origin: SessionRef, refs: seq<SessionRef>)
    requires A in s && origin.peer in s && s[origin.peer].peers <= s.Keys
    requires forall r :: r in refs ==> r.session != NIL && r.peer in s[origin.peer].peers
    ensures forall x :: x in PlanGossip(id, origin, refs) ==> MicroGood(s, A, id.lsid, x)
    decreases |refs|
  {
    if refs != [] {
      GossipGood(s, A, id, origin, refs[..|refs| - 1]);
      assert refs[|refs| - 1] in refs;
    }
  }

  lemma {:induction false} RelayGood(s: Sys, A: PeerId, id: WorldId, source: Member, refs: seq<SessionRef>)
    requires A in s && Genuine(s, source) && s[A].peers <= s.Keys
    requires forall r :: r in refs ==> r.session != NIL && r.peer in s[A].peers
    ensures forall x :: x in PlanRelay(id, source, refs) ==> MicroGood(s, A, id.lsid, x)
    decreases |refs|
  {
    if refs != [] {
      RelayGood(s, A, id, source, refs[..|refs| - 1]);
      assert refs[|refs| - 1] in refs;
    }
  }

  lemma SentIsGood(s: Sys, src: PeerId, dst: PeerId, msg: Msg)
    requires SysGood(s) && WasSent(s, src, dst, msg) && dst in s
    ensures SendGood(s, src, Send(dst, msg))
    ensures msg.MJOK? || msg.MMEM? ==> Vowed(s, src, msg.sender, dst, msg.recver)
  {
    assert HostGood(s, src);
    if !msg.MSOA? && !msg.MSOD? {
      var i :| 0 <= i < |s[src].out| && s[src].out[i] == Send(dst, msg);
      assert SendGood(s, src, s[src].out[i]);
    }
  }

  /** Every delivered message makes a good plan. */
  lemma DeliveryGood(s: Sys, src: PeerId, A: PeerId, l: Uuid, msg: Msg)
    requires SysGood(s) && A in s && l in s[A].worlds && WasSent(s, src, A, msg)
    requires !msg.MJN? ==> l == msg.recver
    ensures forall x :: x in PlanRecv(s[A].worlds[l].id, s[A].worlds[l].peers, src, msg) ==> MicroGood(s, A, l, x)
  {
    var w := s[A].worlds[l];
    SentIsGood(s, src, A, msg);
    assert HostGood(s, A) && HostGood(s, src) && WorldGood(s, A, l, w);
    match msg
    case MJOK(se, _, t, _, members) => IntroductionsGood(s, A, l, members);
    case MJNI(se, _, member) => IntroductionsGood(s, A, l, [member]);
    case MSJN(se, _, refs) => GossipGood(s, A, w.id, SessionRef(src, se), refs);
    case MCRR(se, _, refs) =>
      if IsProper(w.peers, src, se) {
        assert EntryGood(s, A, l, src, w.peers[src]);
        GenuineTrunc(s, src, w.peers[src]);
        RelayGood(s, A, w.id, MemberOf(src, w.peers[src]), refs);
      }
    case _ =>
  }

  lemma MemberEntryGood(s: Sys, A: PeerId, l: Uuid, q: PeerId)
    requires SysGood(s) && A in s && l in s[A].worlds && IsMember(s[A].worlds[l].peers, q)
    ensures q in s && Genuine(s, MemberOf(q, s[A].worlds[l].peers[q]))
  {
    var w := s[A].worlds[l];
    assert HostGood(s, A) && WorldGood(s, A, l, w) && EntryGood(s, A, l, q, w.peers[q]);
    GenuineTrunc(s, q, w.peers[q]);
  }

  lemma FanOutGood(s: Sys, A: PeerId, l: Uuid, ms: seq<PeerId>, joiner: Member)
    requires SysGood(s) && A in s && l in s[A].worlds && Genuine(s, joiner)
    requires forall q :: q in ms ==> q in s[A].worlds[l].peers && IsMember(s[A].worlds[l].peers, q)
    ensures forall x :: x in PlanFanOut(s[A].worlds[l].id, s[A].worlds[l].peers, ms, joiner) ==> MicroGood(s, A, l, x)
  {
    var w := s[A].worlds[l];
    forall x | x in PlanFanOut(w.id, w.peers, ms, joiner) ensures MicroGood(s, A, l, x) {
      var i :| 0 <= i < |ms| && PlanFanOut(w.id, w.peers, ms, joiner)[i] == x;
      assert ms[i] in ms;
      MemberEntryGood(s, A, l, ms[i]);
    }
  }

  lemma MemberListGood(s: Sys, A: PeerId, l: Uuid, ms: seq<PeerId>)
    requires SysGood(s) && A in s && l in s[A].worlds
    requires forall q :: q in ms ==> q in s[A].worlds[l].peers && IsMember(s[A].worlds[l].peers, q)
    ensures forall m :: m in MemberList(s[A].worlds[l].peers, ms) ==> Genuine(s, m)
  {
    var peers := s[A].worlds[l].peers;
    forall m | m in MemberList(peers, ms) ensures Genuine(s, m) {
      var i :| 0 <= i < |ms| && MemberList(peers, ms)[i] == m;
      assert ms[i] in ms;
      MemberEntryGood(s, A, l, ms[i]);
    }
  }

  lemma AcceptGood(s: Sys, A: PeerId, l: Uuid, p: PeerId, se: Uuid, order: seq<PeerId>)
    requires SysGood(s) && A in s && l in s[A].worlds && p in s
    ensures forall x :: x in PlanAccept(s[A].worlds[l].id, s[A].worlds[l].peers, p, se, order) ==> MicroGood(s, A, l, x)
  {
    var w := s[A].worlds[l];
    if p in w.peers && w.peers[p].status.Jn? && w.peers[p].session == se {
      var ms := MembersIn(w.peers, order);
      assert HostGood(s, A) && WorldGood(s, A, l, w) && EntryGood(s, A, l, p, w.peers[p]);
      GenuineTrunc(s, p, w.peers[p]);
      FanOutGood(s, A, l, ms, MemberOf(p, w.peers[p]));
      MemberListGood(s, A, l, ms);
    }
  }

  lemma MemberConnected(s: Sys, A: PeerId, l: Uuid, q: PeerId)
    requires SysGood(s) && A in s && l in s[A].worlds && NodeInv(s[A]) && IsMember(s[A].worlds[l].peers, q)
    ensures q in s && s[A].worlds[l].peers[q].session != NIL && q in s[A].peers
  {
    MemberEntryGood(s, A, l, q);
    assert Live(s[A], l, s[A].peers);
    assert PeerInv(Inside(s[A], l), s[A].peers, q);
  }

  lemma RefListGood(s: Sys, A: PeerId, l: Uuid, listed: seq<PeerId>)
    requires SysGood(s) && A in s && l in s[A].worlds && NodeInv(s[A])
    requires forall q :: q in listed ==> q in s[A].worlds[l].peers && IsMember(s[A].worlds[l].peers, q)
    ensures forall r :: r in RefList(s[A].worlds[l].peers, listed) ==> r.session != NIL && r.peer in s[A].peers
  {
    var peers := s[A].worlds[l].peers;
    forall r | r in RefList(peers, listed) ensures r.session != NIL && r.peer in s[A].peers {
      var i :| 0 <= i < |listed| && RefList(peers, listed)[i] == r;
      assert listed[i] in listed;
      MemberConnected(s, A, l, listed[i]);
    }
  }

  lemma CountGood(s: Sys, A: PeerId, l: Uuid, listed: seq<PeerId>)
    requires SysGood(s) && A in s && l in s[A].worlds && NodeInv(s[A])
    requires forall q :: q in listed ==> q in s[A].worlds[l].peers && IsMember(s[A].worlds[l].peers, q)
    ensures forall x :: x in PlanCount(listed) ==> MicroGood(s, A, l, x)
  {
    forall x | x in PlanCount(listed) ensures MicroGood(s, A, l, x) {
      var i :| 0 <= i < |listed| && PlanCount(listed)[i] == x;
      assert listed[i] in listed;
      MemberConnected(s, A, l, listed[i]);
    }
  }

  lemma SpreadGood(s: Sys, A: PeerId, l: Uuid, members: seq<PeerId>, listed: seq<PeerId>)
    requires SysGood(s) && A in s && l in s[A].worlds && NodeInv(s[A])
    requires forall q :: q in listed ==> q in s[A].worlds[l].peers && IsMember(s[A].worlds[l].peers, q)
    requires forall q :: q in members ==> q in s[A].worlds[l].peers && IsMember(s[A].worlds[l].peers, q)
    ensures var w := s[A].worlds[l];
            forall x :: x in PlanSpread(w.id, w.peers, members, RefList(w.peers, listed)) ==> MicroGood(s, A, l, x)
  {
    var w := s[A].worlds[l];
    var refs := RefList(w.peers, listed);
    RefListGood(s, A, l, listed);
    forall i | 0 <= i < |members| ensures MicroGood(s, A, l, PlanSpread(w.id, w.peers, members, refs)[i]) {
      assert members[i] in members;
      TellGood(s, A, l, members[i], refs);
    }
  }

  lemma TellGood(s: Sys, A: PeerId, l: Uuid, q: PeerId, refs: seq<SessionRef>)
    requires SysGood(s) && A in s && l in s[A].worlds && NodeInv(s[A]) && IsMember(s[A].worlds[l].peers, q)
    requires forall r :: r in refs ==> r.session != NIL && r.peer in s[A].peers
    ensures MicroGood(s, A, l, On(q, Tell(MSJN(s[A].worlds[l].id.lsid, s[A].worlds[l].peers[q].session, refs))))
  {
    MemberConnected(s, A, l, q);
  }

  lemma TimerGood(s: Sys, A: PeerId, l: Uuid, now: Time, order: seq<PeerId>, order2: seq<PeerId>, seed: nat)
    requires SysGood(s) && A in s && l in s[A].worlds && NodeInv(s[A])
    ensures var w := s[A].worlds[l];
            forall x :: x in PlanTimer(w.id, w.peers, now, order, order2, seed) ==> MicroGood(s, A, l, x)
  {
    var w := s[A].worlds[l];
    SpreadGood(s, A, l, MembersIn(w.peers, order2), ListableIn(w.peers, order, now));
    CountGood(s, A, l, ListableIn(w.peers, order, now));
  }

  // ---- every action, every run ----

  ghost predicate SysInv(s: Sys) {
    SysGood(s) && forall A :: A in s ==> NodeInv(s[A])
  }

  /** The connections named by a delivered CRR are there: no host ever dereferences a missing peer. */
  lemma DeliveryAdmissible(s: Sys, src: PeerId, A: PeerId, target: Uuid, msg: Msg, sweep: seq<Uuid>)
    requires SysInv(s) && Possible(s, Deliver(src, A, target, msg, sweep))
    ensures Admissible(s[A], Recv(src, target, msg, sweep))
  {
    if msg.MCRR? && target in s[A].worlds {
      SentIsGood(s, src, A, msg);
      assert Live(s[A], target, s[A].peers);
      var peers := s[A].worlds[target].peers;
      forall r | r in msg.refs && r.peer in peers && peers[r.peer].session == r.session ensures peers[r.peer].linked {
        assert PeerInv(Inside(s[A], target), s[A].peers, r.peer);
      }
    }
  }

  lemma DeliverKeepsSys(s: Sys, src: PeerId, A: PeerId, target: Uuid, msg: Msg, sweep: seq<Uuid>)
    requires SysInv(s) && Possible(s, Deliver(src, A, target, msg, sweep))
    ensures SysGood(s[A := NodeStep(s[A], Recv(src, target, msg, sweep))])
  {
    if msg.MRST? && target == NIL {
      DeliverToAll(s, src, A, msg, sweep);
    } else if target in s[A].worlds {
      DeliverToOne(s, src, A, target, msg, sweep);
    } else {
      assert s[A := s[A]] == s;
    }
  }

  lemma DeliverToAll(s: Sys, src: PeerId, A: PeerId, msg: Msg, sweep: seq<Uuid>)
    requires SysGood(s) && A in s && src in s && msg.MRST?
    ensures SysGood(s[A := NodeStep(s[A], Recv(src, NIL, msg, sweep))])
  {
    SweepKeepsSys(s, A, sweep, On(src, RecvRST));
  }

  lemma DeliverToOne(s: Sys, src: PeerId, A: PeerId, l: Uuid, msg: Msg, sweep: seq<Uuid>)
    requires SysGood(s) && A in s && l in s[A].worlds && WasSent(s, src, A, msg)
    requires (!msg.MJN? ==> l == msg.recver) && (msg.MRST? ==> l != NIL)
    ensures SysGood(s[A := NodeStep(s[A], Recv(src, l, msg, sweep))])
  {
    var ms := PlanRecv(s[A].worlds[l].id, s[A].worlds[l].peers, src, msg);
    DeliverToWorld(s, src, A, l, msg, ms);
  }

  lemma DeliverToWorld(s: Sys, src: PeerId, A: PeerId, l: Uuid, msg: Msg, ms: seq<Micro>)
    requires SysGood(s) && A in s && l in s[A].worlds && WasSent(s, src, A, msg)
    requires !msg.MJN? ==> l == msg.recver
    requires ms == PlanRecv(s[A].worlds[l].id, s[A].worlds[l].peers, src, msg)
    ensures SysGood(s[A := OnWorld(s[A], l, ms)])
  {
    DeliveryGood(s, src, A, l, msg);
    PlanKeepsSys(s, A, l, ms);
  }

  lemma OpenKeepsSys(s: Sys, A: PeerId, l: Uuid, url: string, now: Time)
    requires SysInv(s) && A in s && l !in s[A].born && l != NIL
    ensures SysGood(s[A := NodeStep(s[A], OpenWorld(l, url, now))])
  {
    var n := NodeStep(s[A], OpenWorld(l, url, now));
    assert HostGood(s, A);
    CreatedKeepsSys(s, A, l, now, n);
  }

  lemma JoinKeepsSys(s: Sys, A: PeerId, l: Uuid, target: PeerId, path: string, now: Time)
    requires SysInv(s) && A in s && l !in s[A].born && l != NIL && target in s
    ensures SysGood(s[A := NodeStep(s[A], JoinWorld(l, target, path, now))])
  {
    var n := NodeStep(s[A], JoinWorld(l, target, path, now));
    assert HostGood(s, A);
    CreatedKeepsSys(s, A, l, now, n);
  }

  lemma CreatedKeepsSys(s: Sys, A: PeerId, l: Uuid, now: Time, n: Node)
    requires SysGood(s) && A in s && l !in s[A].born && l != NIL
    requires n.local == A && n.peers == s[A].peers && n.born == s[A].born[l := now]
    requires n.out == s[A].out || exists p, path :: p in s && n.out == s[A].out + [Send(p, MJN(l, path, TruncMs(now)))]
    requires l in n.worlds && n.worlds == s[A].worlds[l := n.worlds[l]]
    requires n.worlds[l].id.lsid == l && n.worlds[l].id.local == A && n.worlds[l].id.stamp == now
    requires forall p :: p in n.worlds[l].peers ==> p in s && Idling(n.worlds[l].peers[p].status) && n.worlds[l].peers[p].session == NIL
    ensures SysGood(s[A := n])
  {
    var s' := s[A := n];
    assert HostGood(s, A);
    assert Grows(s, s');
    forall l' | l' in n.worlds ensures WorldGood(s', A, l', n.worlds[l']) {
      if l' != l { WorldGrows(s, s', A, l', s[A].worlds[l']); }
    }
    HostReplaced(s, A, n);
  }

  lemma RegisterKeepsSys(s: Sys, A: PeerId, p: PeerId)
    requires SysInv(s) && A in s && p in s
    ensures SysGood(s[A := s[A].(peers := s[A].peers + {p})])
  {
    var n0 := s[A].(peers := s[A].peers + {p});
    var s0 := s[A := n0];
    assert HostGood(s, A);
    assert Grows(s, s0);
    forall l | l in n0.worlds ensures WorldGood(s0, A, l, n0.worlds[l]) { WorldGrows(s, s0, A, l, s[A].worlds[l]); }
    HostReplaced(s, A, n0);
  }

  lemma ConnectKeepsSys(s: Sys, A: PeerId, p: PeerId, sweep: seq<Uuid>)
    requires SysInv(s) && A in s && p in s
    ensures SysGood(s[A := NodeStep(s[A], PeerConnected(p, sweep))])
  {
    var n0 := s[A].(peers := s[A].peers + {p});
    var s0 := s[A := n0];
    RegisterKeepsSys(s, A, p);
    SweepKeepsSys(s0, A, sweep, On(p, Connect));
    assert s0[A := OnEach(n0, sweep, On(p, Connect))] == s[A := OnEach(n0, sweep, On(p, Connect))];
  }

  lemma {:induction false} ShutGood(s: Sys, A: PeerId, l: Uuid, order: seq<PeerId>)
    requires A in s && forall p :: p in order ==> p in s
    ensures forall x :: x in PlanShut(order) ==> MicroGood(s, A, l, x)
  {
    forall x | x in PlanShut(order) ensures MicroGood(s, A, l, x) {
      var i :| 0 <= i < |order| && PlanShut(order)[i] == x;
      assert order[i] in order;
    }
  }

  lemma DropKeepsSys(s: Sys, A: PeerId, l: Uuid, n1: Node)
    requires A in s && SysGood(s[A := n1])
    ensures SysGood(s[A := n1.(worlds := n1.worlds - {l})])
  {
    var s1 := s[A := n1];
    var n2 := n1.(worlds := n1.worlds - {l});
    var s2 := s1[A := n2];
    assert HostGood(s1, A);
    assert Grows(s1, s2);
    forall l' | l' in n2.worlds ensures WorldGood(s2, A, l', n2.worlds[l']) { WorldGrows(s1, s2, A, l', n1.worlds[l']); }
    HostReplaced(s1, A, n2);
    assert s2 == s[A := n2];
  }

  lemma CloseKeepsSys(s: Sys, A: PeerId, l: Uuid, order: seq<PeerId>)
    requires SysInv(s) && Possible(s, Call(A, CloseWorld(l, order))) && l in s[A].worlds
    ensures SysGood(s[A := NodeStep(s[A], CloseWorld(l, order))])
  {
    var w := s[A].worlds[l];
    assert HostGood(s, A) && WorldGood(s, A, l, w);
    forall p | p in order ensures p in s { assert EntryGood(s, A, l, p, w.peers[p]); }
    ShutGood(s, A, l, order);
    PlanKeepsSys(s, A, l, PlanClose(w.id, order));
    DropKeepsSys(s, A, l, OnWorld(s[A], l, PlanClose(w.id, order)));
  }

  lemma CallKeepsSys(s: Sys, A: PeerId, call: Input)
    requires SysInv(s) && Possible(s, Call(A, call))
    ensures SysGood(s[A := NodeStep(s[A], call)])
  {
    assert s[A := s[A]] == s;
    match call
    case PeerConnected(p, sweep) => ConnectKeepsSys(s, A, p, sweep);
    case OpenWorld(l, url, now) => OpenKeepsSys(s, A, l, url, now);
    case JoinWorld(l, target, path, now) => JoinKeepsSys(s, A, l, target, path, now);
    case CloseWorld(l, order) => if l in s[A].worlds { CloseKeepsSys(s, A, l, order); }
    case AcceptSession(l, p, se, order) =>
      if l in s[A].worlds {
        AcceptGood(s, A, l, p, se, order);
        PlanKeepsSys(s, A, l, PlanFor(s[A], l, call));
      }
    case DeclineSession(l, p, se) => if l in s[A].worlds { PlanKeepsSys(s, A, l, PlanFor(s[A], l, call)); }
    case TimerExpire(l, now, order, order2, seed) =>
      if l in s[A].worlds {
        TimerGood(s, A, l, now, order, order2, seed);
        PlanKeepsSys(s, A, l, PlanFor(s[A], l, call));
      }
  }

  lemma RefuseKeepsSys(s: Sys, A: PeerId, src: PeerId, msg: Msg)
    requires SysInv(s) && Possible(s, Refuse(A, src, msg))
    ensures SysInv(SysStep(s, Refuse(A, src, msg)))
  {
    var n := s[A].(out := s[A].out + [Send(src, MJDN(msg.sender, CODE_NOT_FOUND))]);
    var s' := s[A := n];
    assert HostGood(s, A);
    assert Grows(s, s');
    forall l | l in n.worlds ensures WorldGood(s', A, l, n.worlds[l]) { WorldGrows(s, s', A, l, s[A].worlds[l]); }
    HostReplaced(s, A, n);
    RefuseKeepsNode(s[A], n);
  }

  lemma RefuseKeepsNode(n: Node, n': Node)
    requires NodeInv(n) && n' == n.(out := n'.out)
    ensures NodeInv(n')
  {
    forall l | l in n'.worlds ensures Live(n', l, n'.peers) {
      assert Live(n, l, n.peers);
      forall p ensures PeerInv(Inside(n', l), n'.peers, p) { assert PeerInv(Inside(n, l), n.peers, p); }
    }
    forall l | l !in n'.worlds ensures Gone(n', l) { assert Gone(n, l); }
  }

  lemma ActionKeepsSys(s: Sys, a: Action)
    requires SysInv(s) && Possible(s, a)
    ensures SysInv(SysStep(s, a))
  {
    match a
    case Call(at, call) =>
      CallKeepsSys(s, at, call);
      StepKeepsNode(s[at], call);
    case Deliver(src, dst, target, msg, sweep) =>
      DeliverKeepsSys(s, src, dst, target, msg, sweep);
      DeliveryAdmissible(s, src, dst, target, msg, sweep);
      StepKeepsNode(s[dst], Recv(src, target, msg, sweep));
    case Refuse(at, src, msg) => RefuseKeepsSys(s, at, src, msg);
  }

  lemma BootGood(hosts: set<PeerId>)
    ensures SysInv(Boot(hosts))
  {
    var s := Boot(hosts);
    forall A | A in s ensures HostGood(s, A) && NodeInv(s[A]) {
      forall l ensures Gone(s[A], l) {}
    }
  }

  lemma {:induction false} SysAlways(hosts: set<PeerId>, acts: seq<Action>)
    requires SysLegal(hosts, acts)
    ensures SysInv(SysExec(hosts, acts))
    decreases |acts|
  {
    if acts == [] {
      BootGood(hosts);
    } else {
      SysAlways(hosts, acts[..|acts| - 1]);
      ActionKeepsSys(SysExec(hosts, acts[..|acts| - 1]), acts[|acts| - 1]);
    }
  }

  // ---- acceptances come from accept calls ----

  ghost predicate Accepted(acts: seq<Action>, A: PeerId, a: Uuid, B: PeerId, b: Uuid) {
    exists i :: 0 <= i < |acts| && acts[i].Call? && acts[i].at == A && IsAcceptOf(acts[i].call, a, B, b)
  }

  predicate IsAcceptOf(call: Input, a: Uuid, B: PeerId, b: Uuid) {
    call.AcceptSession? && call.lsid == a && call.peer == B && call.session == b
  }

  /** Only an accept step sends a vow, and it vows the session it was given. */
  lemma VowNeedsAccept(w: WorldId, p: PeerId, e: Option<Entry>, op: Op, x: Send)
    requires x in Step(w, p, e, op).sends && (x.msg.MJOK? || x.msg.MMEM?)
    ensures op.Tell? || (op.Accept? && x.dst == p && IsVow(x.msg, w.lsid, op.session))
  {
  }

  predicate MayVow(m: Micro, p: PeerId, se: Uuid) {
    m.On? && (m.op.Tell? ==> !m.op.msg.MJOK? && !m.op.msg.MMEM?) && (m.op.Accept? ==> m.peer == p && m.op.session == se)
  }

  /** The messages sent on the way from st to st' that accept a session accept se of p for world l. */
  ghost predicate OnlyVows(st: State, st': State, l: Uuid, p: PeerId, se: Uuid) {
    && st.out <= st'.out
    && forall i :: |st.out| <= i < |st'.out| ==>
         var x := st'.out[i]; x.msg.MJOK? || x.msg.MMEM? ==> x.dst == p && IsVow(x.msg, l, se)
  }

  lemma MicroVows(st: State, st1: State, m: Micro, p: PeerId, se: Uuid, st2: State)
    requires OnlyVows(st, st1, st1.id.lsid, p, se) && (m.Emit? || MayVow(m, p, se)) && st2 == Do(st1, m)
    ensures OnlyVows(st, st2, st1.id.lsid, p, se)
  {
    if m.On? {
      var o := Step(st1.id, m.peer, Get(st1.peers, m.peer), m.op);
      forall x | x in o.sends && (x.msg.MJOK? || x.msg.MMEM?) ensures x.dst == p && IsVow(x.msg, st1.id.lsid, se) {
        VowNeedsAccept(st1.id, m.peer, Get(st1.peers, m.peer), m.op, x);
      }
      SendsVow(st, st1, st1.id.lsid, p, se, st2, o.sends);
    }
  }

  lemma SendsVow(st: State, st1: State, l: Uuid, p: PeerId, se: Uuid, st2: State, sends: seq<Send>)
    requires OnlyVows(st, st1, l, p, se) && st2.out == st1.out + sends
    requires forall x :: x in sends && (x.msg.MJOK? || x.msg.MMEM?) ==> x.dst == p && IsVow(x.msg, l, se)
    ensures OnlyVows(st, st2, l, p, se)
  {
  }

  lemma {:induction false} PlanVows(st: State, ms: seq<Micro>, p: PeerId, se: Uuid)
    requires forall m :: m in ms ==> m.Emit? || MayVow(m, p, se)
    ensures OnlyVows(st, DoAll(st, ms), st.id.lsid, p, se)
    decreases |ms|
  {
    if ms != [] {
      var init, m := ms[..|ms| - 1], ms[|ms| - 1];
      PlanVows(st, init, p, se);
      DoAllKeepsId(st, init);
      assert m in ms;
      MicroVows(st, DoAll(st, init), m, p, se, Do(DoAll(st, init), m));
    }
  }

  /** A plan without accept steps sends no vow. */
  lemma PlanSilent(st: State, ms: seq<Micro>)
    requires forall m :: m in ms ==> m.Emit? || (MayVow(m, "", 0) && !m.op.Accept?)
    ensures st.out <= DoAll(st, ms).out
    ensures forall i :: |st.out| <= i < |DoAll(st, ms).out| ==> !DoAll(st, ms).out[i].msg.MJOK? && !DoAll(st, ms).out[i].msg.MMEM?
  {
    PlanVows(st, ms, "", 0);
    forall m | m in ms ensures m.Emit? || MayVow(m, "other", 0) {}
    PlanVows(st, ms, "other", 0);
  }

  lemma {:induction false} RecvSilent(id: WorldId, peers: Peers, p: PeerId, msg: Msg)
    ensures forall m :: m in PlanRecv(id, peers, p, msg) ==> m.On? && !m.op.Accept? && !m.op.Tell?
  {
    match msg
    case MJOK(se, _, _, _, members) => ListsSilent(id, SessionRef(p, se), Member(p, se, 0), members, []);
    case MJNI(se, _, member) => ListsSilent(id, SessionRef(p, se), Member(p, se, 0), [member], []);
    case MSJN(se, _, refs) => ListsSilent(id, SessionRef(p, se), Member(p, se, 0), [], refs);
    case MCRR(se, _, refs) =>
      if p in peers { ListsSilent(id, SessionRef(p, se), MemberOf(p, peers[p]), [], refs); }
    case _ =>
  }

  lemma {:induction false} ListsSilent(id: WorldId, origin: SessionRef, source: Member, members: seq<Member>, refs: seq<SessionRef>)
    ensures forall x :: x in PlanIntroductions(id.local, members) ==> x.On? && x.op.Introduce?
    ensures forall x :: x in PlanGossip(id, origin, refs) ==> x.On? && x.op.Gossip?
    ensures forall x :: x in PlanRelay(id, source, refs) ==> x.On? && x.op.Relay?
    decreases |members| + |refs|
  {
    if members != [] { ListsSilent(id, origin, source, members[..|members| - 1], refs); }
    if refs != [] { ListsSilent(id, origin, source, members, refs[..|refs| - 1]); }
  }

  lemma {:induction false} SweepSilent(n: Node, sweep: seq<Uuid>, m: Micro)
    requires m.On? && (m.op.Connect? || m.op.RecvRST? || m.op.Remove?)
    ensures n.out <= OnEach(n, sweep, m).out
    ensures forall i :: |n.out| <= i < |OnEach(n, sweep, m).out| ==>
              !OnEach(n, sweep, m).out[i].msg.MJOK? && !OnEach(n, sweep, m).out[i].msg.MMEM?
    decreases |sweep|
  {
    if sweep != [] {
      var n1 := OnEach(n, sweep[..|sweep| - 1], m);
      var l := sweep[|sweep| - 1];
      SweepSilent(n, sweep[..|sweep| - 1], m);
      if l in n1.worlds { PlanSilent(Inside(n1, l), [m]); }
    }
  }

  predicate VowOf(x: Send, call: Input) {
    x.msg.MJOK? || x.msg.MMEM? ==> call.AcceptSession? && x.dst == call.peer && IsVow(x.msg, call.lsid, call.session)
  }

  ghost predicate NewVows(n: Node, n': Node, call: Input) {
    n.out <= n'.out && forall i :: |n.out| <= i < |n'.out| ==> VowOf(n'.out[i], call)
  }

  lemma AcceptVows(n: Node, l: Uuid, p: PeerId, se: Uuid, order: seq<PeerId>)
    requires NodeInv(n) && l in n.worlds
    ensures NewVows(n, NodeStep(n, AcceptSession(l, p, se, order)), AcceptSession(l, p, se, order))
  {
    assert Live(n, l, n.peers);
    PlanVows(Inside(n, l), PlanAccept(n.worlds[l].id, n.worlds[l].peers, p, se, order), p, se);
  }

  lemma WorldCallVows(n: Node, l: Uuid, call: Input)
    requires NodeInv(n) && l in n.worlds
    requires call.DeclineSession? || call.CloseWorld? || call.TimerExpire? || call.Recv?
    ensures NewVows(n, OnWorld(n, l, PlanFor(n, l, call)), call)
  {
    var w := n.worlds[l];
    var plan := PlanFor(n, l, call);
    match call {
      case TimerExpire(_, now, order, order2, seed) =>
        TimerSilent(w.id, w.peers, now, order, order2, seed);
      case Recv(p, _, msg, _) => RecvSilent(w.id, w.peers, p, msg);
      case _ =>
    }
    PlanSilent(Inside(n, l), plan);
  }

  lemma TimerSilent(id: WorldId, peers: Peers, now: Time, order: seq<PeerId>, order2: seq<PeerId>, seed: nat)
    ensures forall m :: m in PlanTimer(id, peers, now, order, order2, seed) ==> m.Emit? || (MayVow(m, "", 0) && !m.op.Accept?)
  {
    var listed := ListableIn(peers, order, now);
    var members := MembersIn(peers, order2);
    var refs := RefList(peers, listed);
    forall m | m in PlanSpread(id, peers, members, refs) ensures MayVow(m, "", 0) && !m.op.Accept? {
      var i :| 0 <= i < |members| && PlanSpread(id, peers, members, refs)[i] == m;
    }
  }

  lemma CallVows(n: Node, call: Input)
    requires NodeInv(n)
    ensures NewVows(n, NodeStep(n, call), call)
  {
    match call
    case PeerConnected(p, sweep) => SweepSilent(n.(peers := n.peers + {p}), sweep, On(p, Connect));
    case PeerClose(p, sweep) => SweepSilent(n, sweep, On(p, Remove));
    case OpenWorld(_, _, _) =>
    case JoinWorld(_, _, _, _) =>
    case AcceptSession(l, p, se, order) => if l in n.worlds { AcceptVows(n, l, p, se, order); }
    case Recv(p, l, m, sweep) =>
      if m.MRST? && l == NIL { SweepSilent(n, sweep, On(p, RecvRST)); }
      else if l in n.worlds { WorldCallVows(n, l, call); }
    case _ => if call.lsid in n.worlds { WorldCallVows(n, call.lsid, call); }
  }

  lemma AcceptedLater(acts: seq<Action>, more: seq<Action>, A: PeerId, a: Uuid, B: PeerId, b: Uuid)
    requires Accepted(acts, A, a, B, b) && acts <= more
    ensures Accepted(more, A, a, B, b)
  {
    var i :| 0 <= i < |acts| && acts[i].Call? && acts[i].at == A && IsAcceptOf(acts[i].call, a, B, b);
    assert more[i] == acts[i];
  }

  lemma {:induction false} VowsWereAccepted(hosts: set<PeerId>, acts: seq<Action>, A: PeerId, i: nat)
    requires SysLegal(hosts, acts)
    requires A in SysExec(hosts, acts) && i < |SysExec(hosts, acts)[A].out|
    requires var m := SysExec(hosts, acts)[A].out[i].msg; m.MJOK? || m.MMEM?
    ensures var x := SysExec(hosts, acts)[A].out[i]; Accepted(acts, A, x.msg.sender, x.dst, x.msg.recver)
    decreases |acts|
  {
    if acts != [] {
      var init, act := acts[..|acts| - 1], acts[|acts| - 1];
      var s, s' := SysExec(hosts, init), SysExec(hosts, acts);
      SysAlways(hosts, init);
      var x := s'[A].out[i];
      if i < |s[A].out| && s[A].out[i] == x {
        VowsWereAccepted(hosts, init, A, i);
        AcceptedLater(init, acts, A, x.msg.sender, x.dst, x.msg.recver);
      } else {
        NewVowIsCall(s, act, A, i);
        assert acts[|acts| - 1] == act;
      }
    }
  }

  lemma NewVowIsCall(s: Sys, act: Action, A: PeerId, i: nat)
    requires SysInv(s) && Possible(s, act) && A in s && i < |SysStep(s, act)[A].out|
    requires !(i < |s[A].out| && s[A].out[i] == SysStep(s, act)[A].out[i])
    requires var m := SysStep(s, act)[A].out[i].msg; m.MJOK? || m.MMEM?
    ensures var x := SysStep(s, act)[A].out[i];
            act.Call? && act.at == A && IsAcceptOf(act.call, x.msg.sender, x.dst, x.msg.recver)
  {
    match act
    case Call(at, call) => CallVows(s[at], call);
    case Deliver(src, dst, target, msg, sweep) => CallVows(s[dst], Recv(src, target, msg, sweep));
    case Refuse(at, src, msg) =>
  }

  // ---- theorems ----

  lemma VowedMeansAccepted(hosts: set<PeerId>, acts: seq<Action>, A: PeerId, a: Uuid, B: PeerId, b: Uuid)
    requires SysLegal(hosts, acts) && Vowed(SysExec(hosts, acts), A, a, B, b)
    ensures Accepted(acts, A, a, B, b)
  {
    var s := SysExec(hosts, acts);
    var i :| 0 <= i < |s[A].out| && s[A].out[i].dst == B && IsVow(s[A].out[i].msg, a, b);
    VowsWereAccepted(hosts, acts, A, i);
  }

  /**
   Mutual acceptance: when world a of host A holds host B as a member with
   session b, then A's application accepted session b for a and A has sent B
   the JOK or MEM that says so, and B's application accepted session a for b
   and B has sent A the JOK or MEM that says so.
   */
  lemma MutualAcceptance(hosts: set<PeerId>, acts: seq<Action>, A: PeerId, a: Uuid, B: PeerId)
    requires SysLegal(hosts, acts)
    requires var s := SysExec(hosts, acts); A in s && a in s[A].worlds && IsMember(s[A].worlds[a].peers, B)
    ensures var b := SysExec(hosts, acts)[A].worlds[a].peers[B].session;
            && Accepted(acts, A, a, B, b) && Vowed(SysExec(hosts, acts), A, a, B, b)
            && Accepted(acts, B, b, A, a) && Vowed(SysExec(hosts, acts), B, b, A, a)
  {
    SysAlways(hosts, acts);
    var s := SysExec(hosts, acts);
    var w := s[A].worlds[a];
    assert HostGood(s, A) && WorldGood(s, A, a, w) && EntryGood(s, A, a, B, w.peers[B]);
    VowedMeansAccepted(hosts, acts, A, a, B, w.peers[B].session);
    VowedMeansAccepted(hosts, acts, B, w.peers[B].session, A, a);
  }

  /** No host of the system ever panics, whatever is delivered, however often and in whatever order. */
  lemma NoHostPanics(hosts: set<PeerId>, acts: seq<Action>, A: PeerId)
    requires SysLegal(hosts, acts) && A in SysExec(hosts, acts)
    ensures !SysExec(hosts, acts)[A].fault
  {
    SysAlways(hosts, acts);
  }

  /** The sessions a message names, with the stamps it gives them. */
  function NamedBy(src: PeerId, m: Msg): seq<Member> {
    match m
    case MJN(se, _, t) => [Member(src, se, t)]
    case MJOK(se, _, t, _, members) => [Member(src, se, t)] + members
    case MMEM(se, _, t) => [Member(src, se, t)]
    case MJNI(_, _, member) => [member]
    case _ => []
  }

  /**
   Time stamp agreement: every stored session and every session named in a
   message that was ever sent carries the creation time of that world, cut to
   milliseconds.
   */
  lemma StampsAgree(hosts: set<PeerId>, acts: seq<Action>)
    requires SysLegal(hosts, acts)
    ensures var s := SysExec(hosts, acts);
            forall A, l, p :: A in s && l in s[A].worlds && p in s[A].worlds[l].peers ==>
              var e := s[A].worlds[l].peers[p];
              if e.session == NIL then e.stamp == ZERO_TIME && Idling(e.status) else Genuine(s, Member(p, e.session, e.stamp))
    ensures var s := SysExec(hosts, acts);
            forall A, i, m :: A in s && 0 <= i < |s[A].out| && m in NamedBy(A, s[A].out[i].msg) ==> Genuine(s, m)
  {
    SysAlways(hosts, acts);
    var s := SysExec(hosts, acts);
    forall A, l, p | A in s && l in s[A].worlds && p in s[A].worlds[l].peers
      ensures var e := s[A].worlds[l].peers[p];
              if e.session == NIL then e.stamp == ZERO_TIME && Idling(e.status) else Genuine(s, Member(p, e.session, e.stamp)) {
      assert HostGood(s, A) && WorldGood(s, A, l, s[A].worlds[l]);
      assert EntryGood(s, A, l, p, s[A].worlds[l].peers[p]);
      assert Live(s[A], l, s[A].peers);
      assert PeerInv(Inside(s[A], l), s[A].peers, p);
    }
    forall A, i, m | A in s && 0 <= i < |s[A].out| && m in NamedBy(A, s[A].out[i].msg) ensures Genuine(s, m) {
      assert HostGood(s, A);
      assert SendGood(s, A, s[A].out[i]);
    }
  }

  /** The entry steps by which a message names a session of the entry's peer. */
  predicate Names(op: Op, m: Member) {
    op == RecvJN(m.session, m.stamp) || op == Introduce(m.session, m.stamp) || op == RecvMEM(m.session, m.stamp)
  }

  /** The entry still holds its session, and neither the application nor the peer is told that it ended. */
  predicate Untouched(e: Entry, o: Outcome) {
    && o.entry.Some? && o.entry.value.session == e.session && o.entry.value.stamp == e.stamp
    && (forall ev :: ev in o.events ==> !ev.SessionClose?)
    && (forall x :: x in o.sends ==> !x.msg.MRST?)
  }

  lemma NamingStep(w: WorldId, e: Entry, m: Member, op: Op)
    requires Names(op, m) && !Idling(e.status)
    ensures var o := Step(w, m.peer, Some(e), op);
            if e.stamp < m.stamp && !o.fault then o.entry.Some? && o.entry.value.session == m.session && o.entry.value.stamp == m.stamp
            else Untouched(e, o)
  {
  }

  /**
   Any message ever sent that names the session an entry already stores, whether as JN, MEM or introduction,
   leaves that session alone; one that replaces it names a world of the same host created strictly later.
   */
  lemma StoredSessionIsNeverReset(hosts: set<PeerId>, acts: seq<Action>, A: PeerId, l: Uuid, src: PeerId, i: nat, m: Member, op: Op)
    requires SysLegal(hosts, acts) && Names(op, m)
    requires var s := SysExec(hosts, acts);
             && A in s && l in s[A].worlds && m.peer in s[A].worlds[l].peers && s[A].worlds[l].peers[m.peer].session != NIL
             && src in s && i < |s[src].out| && m in NamedBy(src, s[src].out[i].msg)
    ensures var s := SysExec(hosts, acts);
            var e := s[A].worlds[l].peers[m.peer];
            var o := Step(s[A].worlds[l].id, m.peer, Some(e), op);
            && m.peer in s && m.session in s[m.peer].born && e.session in s[m.peer].born
            && (e.session == m.session ==> Untouched(e, o))
            && (!Untouched(e, o) ==> s[m.peer].born[e.session] < s[m.peer].born[m.session]
                                     && o.entry.Some? && o.entry.value.session == m.session && o.entry.value.stamp == m.stamp)
  {
    var s := SysExec(hosts, acts);
    var e := s[A].worlds[l].peers[m.peer];
    StampsAgree(hosts, acts);
    BusyWhileStored(hosts, acts, A, l, m.peer);
    assert Genuine(s, Member(m.peer, e.session, e.stamp));
    assert Genuine(s, m);
    TruncMonotone(s[m.peer].born[e.session], s[m.peer].born[m.session]);
    NamingStep(s[A].worlds[l].id, e, m, op);
  }

  lemma BusyWhileStored(hosts: set<PeerId>, acts: seq<Action>, A: PeerId, l: Uuid, p: PeerId)
    requires SysLegal(hosts, acts)
    requires var s := SysExec(hosts, acts); A in s && l in s[A].worlds && p in s[A].worlds[l].peers && s[A].worlds[l].peers[p].session != NIL
    ensures !Idling(SysExec(hosts, acts)[A].worlds[l].peers[p].status)
  {
    SysAlways(hosts, acts);
    var s := SysExec(hosts, acts);
    assert HostGood(s, A) && WorldGood(s, A, l, s[A].worlds[l]);
    assert EntryGood(s, A, l, p, s[A].worlds[l].peers[p]);
  }

  lemma TruncMonotone(t: Time, u: Time)
    ensures t >= u ==> TruncMs(t) >= TruncMs(u)
  {
  }
}
