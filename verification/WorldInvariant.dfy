/** What every handler of a world keeps. */
module WorldInvariant {
  import opened Prelude
  import opened Abyss
  import opened PeerEntry
  import opened WorldModel
  import opened EventOrder
  import opened EntryInvariant

  ghost predicate PeerInv(st: State, connected: set<PeerId>, p: PeerId) {
    Before(st.id, p, Get(st.peers, p), p in connected, PhaseOf(st.events, st.id.lsid, p), StageOf(st.events, st.id.lsid))
  }

  ghost predicate WorldInv(st: State, connected: set<PeerId>) {
    && !st.fault
    && st.id.local !in st.peers
    && (forall p :: PeerInv(st, connected, p))
  }

  function After(connected: set<PeerId>, m: Micro): set<PeerId> {
    if m.Emit? then connected
    else if m.op.Connect? then connected + {m.peer}
    else if m.op.Remove? then connected - {m.peer}
    else connected
  }

  ghost predicate MicroOk(st: State, connected: set<PeerId>, m: Micro) {
    match m
    case Emit(ev) => ev.TimerRequest? && ev.lsid == st.id.lsid
    case On(p, op) =>
      && (op.Connect? || op.Introduce? ==> p != st.id.local)
      && Allowed(st.id, p, Get(st.peers, p), op, p in connected, StageOf(st.events, st.id.lsid))
  }

  lemma {:induction false} BystanderPhase(w: WorldId, p: PeerId, e: Option<Entry>, op: Op, es: seq<Event>, ph: Phase, q: PeerId)
    requires q != p && (forall ev :: ev in es ==> ev in Step(w, p, e, op).events)
    ensures PhaseFrom(ph, es, w.lsid, q) == ph
    decreases |es|
  {
    if es != [] {
      BystanderPhase(w, p, e, op, es[..|es| - 1], ph, q);
      StepNamesPeer(w, p, e, op);
      assert es[|es| - 1] in es;
    }
  }

  lemma EmitKeeps(st: State, connected: set<PeerId>, m: Micro)
    requires WorldInv(st, connected) && MicroOk(st, connected, m) && m.Emit?
    ensures WorldInv(Do(st, m), connected)
    ensures StageOf(st.events, st.id.lsid).Joined? ==> StageOf(Do(st, m).events, st.id.lsid).Joined?
  {
    var l, ev, st' := st.id.lsid, m.event, Do(st, m);
    assert PeerInv(st, connected, st.id.joinHash);
    forall p ensures PeerInv(st', connected, p) {
      assert PeerInv(st, connected, p);
      PhaseCat(Idle, st.events, [ev], l, p);
      StageCat(Fresh, st.events, [ev], l);
      Unroll(PhaseOf(st.events, l, p), StageOf(st.events, l), ev, ev, l, p);
    }
    StageCat(Fresh, st.events, [ev], l);
    Unroll(Idle, StageOf(st.events, l), ev, ev, l, "");
  }

  lemma EntryStepKeeps(st: State, connected: set<PeerId>, m: Micro)
    requires WorldInv(st, connected) && MicroOk(st, connected, m) && m.On?
    ensures WorldInv(Do(st, m), After(connected, m))
    ensures StageOf(st.events, st.id.lsid).Joined? ==> StageOf(Do(st, m).events, st.id.lsid).Joined?
  {
    var l, p, op, st' := st.id.lsid, m.peer, m.op, Do(st, m);
    assert PeerInv(st, connected, st.id.joinHash);
    var e := Get(st.peers, p);
    var o := Step(st.id, p, e, op);
    var stage := StageOf(st.events, l);
    assert PeerInv(st, connected, p);
    StepKeeps(st.id, p, e, op, p in connected, PhaseOf(st.events, l, p), stage);
    StageCat(Fresh, st.events, o.events, l);
    PhaseCat(Idle, st.events, o.events, l, p);
    assert PeerInv(st', After(connected, m), p);
    forall q | q != p ensures PeerInv(st', After(connected, m), q) {
      assert PeerInv(st, connected, q);
      PhaseCat(Idle, st.events, o.events, l, q);
      BystanderPhase(st.id, p, e, op, o.events, PhaseOf(st.events, l, q), q);
      if StageOf(st'.events, l) != stage {
        Bystander(st.id, q, Get(st.peers, q), stage, StageOf(st'.events, l));
      }
    }
  }

  /** One micro step keeps the world invariant. */
  lemma DoKeeps(st: State, connected: set<PeerId>, m: Micro)
    requires WorldInv(st, connected) && MicroOk(st, connected, m)
    ensures WorldInv(Do(st, m), After(connected, m))
    ensures StageOf(st.events, st.id.lsid).Joined? ==> StageOf(Do(st, m).events, st.id.lsid).Joined?
  {
    if m.Emit? { EmitKeeps(st, connected, m); } else { EntryStepKeeps(st, connected, m); }
  }

  lemma Bystander(w: WorldId, q: PeerId, e: Option<Entry>, stage: Stage, stage': Stage)
    requires q != w.joinHash && stage.Fresh? && Fits(w, q, e, stage) && (stage'.Joined? || stage'.Failed?)
    ensures Fits(w, q, e, stage')
  {
  }

  // ---- plans ----

  lemma {:induction false} IntroductionsKeep(st: State, connected: set<PeerId>, members: seq<Member>)
    requires WorldInv(st, connected) && StageOf(st.events, st.id.lsid).Joined?
    ensures WorldInv(DoAll(st, PlanIntroductions(st.id.local, members)), connected)
    ensures StageOf(DoAll(st, PlanIntroductions(st.id.local, members)).events, st.id.lsid).Joined?
    decreases |members|
  {
    if members != [] {
      var init := members[..|members| - 1];
      var m := members[|members| - 1];
      IntroductionsKeep(st, connected, init);
      DoAllKeepsId(st, PlanIntroductions(st.id.local, init));
      if m.peer != st.id.local {
        var micro := On(m.peer, Introduce(m.session, m.stamp));
        DoAllAppend(st, PlanIntroductions(st.id.local, init), [micro]);
        DoAllOne(DoAll(st, PlanIntroductions(st.id.local, init)), micro);
        DoKeeps(DoAll(st, PlanIntroductions(st.id.local, init)), connected, micro);
      } else {
        assert PlanIntroductions(st.id.local, members) == PlanIntroductions(st.id.local, init);
      }
    }
  }

  /** Micro steps that leave every status, session and stamp alone and can always be taken in the given world. */
  ghost predicate Harmless(peers: Peers, m: Micro) {
    m.On? &&
    match m.op
    case Gossip(_, _) => true
    case Tell(_) => true
    case Relay(_, s) => m.peer in peers && peers[m.peer].session == s ==> peers[m.peer].linked
    case Count => IsMember(peers, m.peer)
    case _ => false
  }

  predicate SameBut(a: Entry, b: Entry) {
    a.(sjnc := 0) == b.(sjnc := 0)
  }

  ghost predicate SameStatuses(a: Peers, b: Peers) {
    a.Keys == b.Keys && forall p :: p in a ==> SameBut(a[p], b[p])
  }

  lemma HarmlessStep(st1: State, connected: set<PeerId>, peers: Peers, m: Micro, st2: State)
    requires WorldInv(st1, connected) && SameStatuses(peers, st1.peers) && Harmless(peers, m) && st2 == Do(st1, m)
    ensures WorldInv(st2, connected) && st2.events == st1.events && SameStatuses(peers, st2.peers)
  {
    assert MicroOk(st1, connected, m);
    DoKeeps(st1, connected, m);
  }

  lemma {:induction false} HarmlessKeep(st: State, connected: set<PeerId>, ms: seq<Micro>, st': State)
    requires WorldInv(st, connected) && (forall m :: m in ms ==> Harmless(st.peers, m)) && st' == DoAll(st, ms)
    ensures WorldInv(st', connected) && st'.events == st.events && SameStatuses(st.peers, st'.peers)
    decreases |ms|
  {
    if ms != [] {
      var init, m := ms[..|ms| - 1], ms[|ms| - 1];
      var st1 := DoAll(st, init);
      HarmlessKeep(st, connected, init, st1);
      assert m in ms;
      HarmlessStep(st1, connected, st.peers, m, st');
    }
  }

  lemma {:induction false} GossipHarmless(id: WorldId, peers: Peers, origin: SessionRef, refs: seq<SessionRef>)
    ensures forall m :: m in PlanGossip(id, origin, refs) ==> Harmless(peers, m)
    decreases |refs|
  {
    if refs != [] { GossipHarmless(id, peers, origin, refs[..|refs| - 1]); }
  }

  lemma {:induction false} RelayHarmless(id: WorldId, peers: Peers, source: Member, refs: seq<SessionRef>)
    requires forall r :: r in refs && r.peer in peers && peers[r.peer].session == r.session ==> peers[r.peer].linked
    ensures forall m :: m in PlanRelay(id, source, refs) ==> Harmless(peers, m)
    decreases |refs|
  {
    if refs != [] { RelayHarmless(id, peers, source, refs[..|refs| - 1]); }
  }

  /** A plan that starts at the sender's own entry. */
  lemma HeadKeeps(st: State, connected: set<PeerId>, m: Micro, rest: seq<Micro>)
    requires WorldInv(st, connected) && MicroOk(st, connected, m) && After(connected, m) == connected
    ensures DoAll(st, [m] + rest) == DoAll(Do(st, m), rest)
    ensures WorldInv(Do(st, m), connected)
  {
    DoAllAppend(st, [m], rest);
    DoAllOne(st, m);
    DoKeeps(st, connected, m);
  }

  lemma ProperSenderStays(st: State, p: PeerId, session: Uuid)
    requires IsProper(st.peers, p, session)
    ensures Do(st, On(p, Vouch(session))) == st
  {
    assert st.events + [] == st.events && st.out + [] == st.out;
    assert st.peers[p := st.peers[p]] == st.peers;
  }

  lemma ProperMeansJoined(st: State, connected: set<PeerId>, p: PeerId)
    requires WorldInv(st, connected) && IsMember(st.peers, p)
    ensures StageOf(st.events, st.id.lsid).Joined? && p in connected
  {
    assert PeerInv(st, connected, p);
    assert PeerInv(st, connected, st.id.joinHash);
  }

  lemma JokKeeps(st: State, connected: set<PeerId>, p: PeerId, s: Uuid, t: Time, url: string, members: seq<Member>)
    requires WorldInv(st, connected) && p in connected
    ensures WorldInv(DoAll(st, PlanJOK(st.id, st.peers, p, s, t, url, members)), connected)
  {
    var head, plan := On(p, RecvJOK(s, t, url)), PlanJOK(st.id, st.peers, p, s, t, url, members);
    var rest := plan[1..];
    assert plan == [head] + rest;
    HeadKeeps(st, connected, head, rest);
    if rest != [] {
      assert PeerInv(Do(st, head), connected, p);
      IntroductionsKeep(Do(st, head), connected, members);
    }
  }

  /** After a vouched head, the rest of the plan runs in the unchanged world. */
  lemma VouchKeeps(st: State, connected: set<PeerId>, p: PeerId, s: Uuid, rest: seq<Micro>)
    requires WorldInv(st, connected) && p in connected && (!IsProper(st.peers, p, s) ==> rest == [])
    requires IsProper(st.peers, p, s) ==> WorldInv(DoAll(st, rest), connected)
    ensures WorldInv(DoAll(st, [On(p, Vouch(s))] + rest), connected)
  {
    HeadKeeps(st, connected, On(p, Vouch(s)), rest);
    if IsProper(st.peers, p, s) { ProperSenderStays(st, p, s); }
  }

  lemma JniKeeps(st: State, connected: set<PeerId>, p: PeerId, s: Uuid, member: Member)
    requires WorldInv(st, connected) && p in connected
    ensures WorldInv(DoAll(st, PlanJNI(st.id, st.peers, p, s, member)), connected)
  {
    var rest := if IsProper(st.peers, p, s) then PlanIntroductions(st.id.local, [member]) else [];
    if IsProper(st.peers, p, s) {
      ProperMeansJoined(st, connected, p);
      IntroductionsKeep(st, connected, [member]);
    }
    VouchKeeps(st, connected, p, s, rest);
  }

  lemma SjnKeeps(st: State, connected: set<PeerId>, p: PeerId, s: Uuid, refs: seq<SessionRef>)
    requires WorldInv(st, connected) && p in connected
    ensures WorldInv(DoAll(st, PlanSJN(st.id, st.peers, p, s, refs)), connected)
  {
    var rest := if IsProper(st.peers, p, s) then PlanGossip(st.id, SessionRef(p, s), refs) else [];
    if IsProper(st.peers, p, s) {
      GossipHarmless(st.id, st.peers, SessionRef(p, s), refs);
      HarmlessKeep(st, connected, rest, DoAll(st, rest));
    }
    VouchKeeps(st, connected, p, s, rest);
  }

  lemma CrrKeeps(st: State, connected: set<PeerId>, p: PeerId, s: Uuid, refs: seq<SessionRef>)
    requires WorldInv(st, connected) && p in connected
    requires forall r :: r in refs && r.peer in st.peers && st.peers[r.peer].session == r.session ==> st.peers[r.peer].linked
    ensures WorldInv(DoAll(st, PlanCRR(st.id, st.peers, p, s, refs)), connected)
  {
    var rest := if IsProper(st.peers, p, s) then PlanRelay(st.id, MemberOf(p, st.peers[p]), refs) else [];
    if IsProper(st.peers, p, s) {
      RelayHarmless(st.id, st.peers, MemberOf(p, st.peers[p]), refs);
      HarmlessKeep(st, connected, rest, DoAll(st, rest));
    }
    VouchKeeps(st, connected, p, s, rest);
  }

  lemma OneKeeps(st: State, connected: set<PeerId>, p: PeerId, op: Op)
    requires WorldInv(st, connected) && MicroOk(st, connected, On(p, op)) && !op.Connect? && !op.Remove?
    ensures WorldInv(DoAll(st, [On(p, op)]), connected)
  {
    DoAllOne(st, On(p, op));
    DoKeeps(st, connected, On(p, op));
  }

  /** Every message from a connected peer keeps the world invariant. */
  lemma RecvKeeps(st: State, connected: set<PeerId>, p: PeerId, m: Msg)
    requires WorldInv(st, connected) && p in connected
    requires m.MJN? ==> StageOf(st.events, st.id.lsid).Joined?
    requires m.MCRR? ==>
      forall r :: r in m.refs && r.peer in st.peers && st.peers[r.peer].session == r.session ==> st.peers[r.peer].linked
    ensures WorldInv(DoAll(st, PlanRecv(st.id, st.peers, p, m)), connected)
  {
    match m
    case MJN(s, _, t) => OneKeeps(st, connected, p, RecvJN(s, t));
    case MJOK(s, _, t, url, members) => JokKeeps(st, connected, p, s, t, url, members);
    case MJDN(_, code) => OneKeeps(st, connected, p, RecvJDN(code));
    case MJNI(s, _, member) => JniKeeps(st, connected, p, s, member);
    case MMEM(s, _, t) => OneKeeps(st, connected, p, RecvMEM(s, t));
    case MSJN(s, _, refs) => SjnKeeps(st, connected, p, s, refs);
    case MCRR(s, _, refs) => CrrKeeps(st, connected, p, s, refs);
    case MRST(_, _) => OneKeeps(st, connected, p, RecvRST);
    case MSOA(s, _, objects) => OneKeeps(st, connected, p, RecvSOA(s, objects));
    case MSOD(s, _, objects) => OneKeeps(st, connected, p, RecvSOD(s, objects));
  }

  /** Harmless work followed by one allowed step. */
  lemma WorkKeeps(st: State, connected: set<PeerId>, work: seq<Micro>, last: Micro)
    requires WorldInv(st, connected) && forall m :: m in work ==> Harmless(st.peers, m)
    requires After(connected, last) == connected
    requires forall st1: State :: st1.id == st.id && st1.events == st.events && WorldInv(st1, connected) ==> MicroOk(st1, connected, last)
    ensures WorldInv(DoAll(st, work + [last]), connected)
  {
    HarmlessKeep(st, connected, work, DoAll(st, work));
    DoAllKeepsId(st, work);
    DoAllAppend(st, work, [last]);
    LastKeeps(DoAll(st, work), connected, last);
  }

  lemma LastKeeps(st: State, connected: set<PeerId>, last: Micro)
    requires WorldInv(st, connected) && MicroOk(st, connected, last) && After(connected, last) == connected
    ensures WorldInv(DoAll(st, [last]), connected)
  {
    DoAllOne(st, last);
    DoKeeps(st, connected, last);
  }

  lemma FanHarmless(st: State, fan: seq<Micro>)
    requires forall i :: 0 <= i < |fan| ==> fan[i].On? && fan[i].op.Tell?
    ensures forall m :: m in fan ==> Harmless(st.peers, m)
  {
  }

  lemma AcceptOk(st: State, connected: set<PeerId>, p: PeerId, session: Uuid, members: seq<Member>)
    requires StageOf(st.events, st.id.lsid).Joined?
    ensures forall st1: State :: st1.id == st.id && st1.events == st.events && WorldInv(st1, connected)
              ==> MicroOk(st1, connected, On(p, Accept(session, members)))
  {
  }

  lemma AcceptKeeps(st: State, connected: set<PeerId>, p: PeerId, session: Uuid, order: seq<PeerId>)
    requires WorldInv(st, connected) && StageOf(st.events, st.id.lsid).Joined?
    ensures WorldInv(DoAll(st, PlanAccept(st.id, st.peers, p, session, order)), connected)
  {
    if p in st.peers && st.peers[p].status.Jn? && st.peers[p].session == session {
      var ms := MembersIn(st.peers, order);
      var fan := PlanFanOut(st.id, st.peers, ms, MemberOf(p, st.peers[p]));
      FanHarmless(st, fan);
      AcceptOk(st, connected, p, session, MemberList(st.peers, ms));
      WorkKeeps(st, connected, fan, On(p, Accept(session, MemberList(st.peers, ms))));
    } else {
      OneKeeps(st, connected, p, Accept(session, []));
    }
  }

  lemma TimerHarmless(id: WorldId, peers: Peers, now: Time, order: seq<PeerId>, order2: seq<PeerId>, seed: nat, work: seq<Micro>)
    requires var plan := PlanTimer(id, peers, now, order, order2, seed); work == plan[..|plan| - 1]
    ensures forall m :: m in work ==> Harmless(peers, m)
  {
    var listed := ListableIn(peers, order, now);
    var members := MembersIn(peers, order2);
    var spread := if listed == [] then [] else PlanSpread(id, peers, members, RefList(peers, listed));
    assert work == PlanCount(listed) + spread;
    forall i | 0 <= i < |listed| ensures Harmless(peers, PlanCount(listed)[i]) {
      assert listed[i] in listed;
    }
    forall m | m in work ensures Harmless(peers, m) {
      var i :| 0 <= i < |work| && work[i] == m;
      if i < |listed| { assert m == PlanCount(listed)[i]; } else { assert m == spread[i - |listed|]; }
    }
  }

  lemma TimerKeeps(st: State, connected: set<PeerId>, now: Time, order: seq<PeerId>, order2: seq<PeerId>, seed: nat)
    requires WorldInv(st, connected)
    ensures WorldInv(DoAll(st, PlanTimer(st.id, st.peers, now, order, order2, seed)), connected)
  {
    var plan := PlanTimer(st.id, st.peers, now, order, order2, seed);
    var work, last := plan[..|plan| - 1], plan[|plan| - 1];
    assert plan == work + [last];
    TimerHarmless(st.id, st.peers, now, order, order2, seed, work);
    WorkKeeps(st, connected, work, last);
  }

  // ---- closing ----

  /** Part of the world invariant that survives while Close works through the entries. */
  ghost predicate ClosingInv(st: State) {
    && !st.fault
    && (forall p :: Agrees(Get(st.peers, p), PhaseOf(st.events, st.id.lsid, p)))
    && (forall p :: p in st.peers ==> (st.peers[p].status.Jt? ==> p == st.id.joinHash && StageOf(st.events, st.id.lsid).Fresh?)
                                      && (st.peers[p].status.Mem? ==> StageOf(st.events, st.id.lsid).Joined?))
  }

  /** `early`: the world has never reached its join target. */
  predicate Early(id: WorldId, peers: Peers) {
    id.joinHash in peers && peers[id.joinHash].status.DcJt?
  }

  ghost predicate ClosingStage(id: WorldId, peers: Peers, left: Peers, stage: Stage) {
    && (stage.Fresh? || stage.Joined? || stage.Failed?)
    && (stage.Fresh? <==> Early(id, peers) || (id.joinHash in left && left[id.joinHash].status.Jt?))
  }

  lemma ShutEntry(w: WorldId, p: PeerId, e: Entry, ph: Phase, stage: Stage)
    requires Agrees(Some(e), ph) && (e.status.Jt? ==> stage.Fresh?) && (e.status.Mem? ==> stage.Joined?)
    ensures var o := OnShut(w, p, e);
            && o.entry == None && !o.fault
            && Agrees(None, PhaseFrom(ph, o.events, w.lsid, p))
            && StageFrom(stage, o.events, w.lsid) == if e.status.Jt? then Failed else stage
  {
    Unrolled(w, p, ph, stage);
  }

  lemma ShutDo(st: State, p: PeerId, o: Outcome)
    requires p in st.peers && o == OnShut(st.id, p, st.peers[p])
    ensures o.entry == None && !o.fault && o.events == Step(st.id, p, Some(st.peers[p]), Shut).events
    ensures Do(st, On(p, Shut)) == State(st.id, st.peers - {p}, st.events + o.events, st.out + o.sends, st.fault)
  {
  }

  lemma ShutOthers(st: State, p: PeerId, es: seq<Event>, q: PeerId)
    requires p in st.peers && q != p && es == Step(st.id, p, Some(st.peers[p]), Shut).events
    ensures PhaseOf(st.events + es, st.id.lsid, q) == PhaseOf(st.events, st.id.lsid, q)
  {
    PhaseCat(Idle, st.events, es, st.id.lsid, q);
    BystanderPhase(st.id, p, Some(st.peers[p]), Shut, es, PhaseOf(st.events, st.id.lsid, q), q);
  }

  lemma ShutOne(st: State, p: PeerId, peers: Peers, st': State)
    requires ClosingInv(st) && ClosingStage(st.id, peers, st.peers, StageOf(st.events, st.id.lsid))
    requires p in st.peers && p in peers && peers[p] == st.peers[p] && st' == Do(st, On(p, Shut))
    ensures st'.id == st.id && st'.peers == st.peers - {p} && ClosingInv(st')
    ensures ClosingStage(st.id, peers, st'.peers, StageOf(st'.events, st.id.lsid))
  {
    var l, e := st.id.lsid, st.peers[p];
    var o := OnShut(st.id, p, e);
    ShutDo(st, p, o);
    assert Agrees(Get(st.peers, p), PhaseOf(st.events, l, p));
    ShutEntry(st.id, p, e, PhaseOf(st.events, l, p), StageOf(st.events, l));
    StageCat(Fresh, st.events, o.events, l);
    PhaseCat(Idle, st.events, o.events, l, p);
    ShutRest(st, p, o.events, st');
  }

  lemma ShutRest(st: State, p: PeerId, es: seq<Event>, st': State)
    requires ClosingInv(st) && p in st.peers && es == Step(st.id, p, Some(st.peers[p]), Shut).events
    requires st'.id == st.id && st'.peers == st.peers - {p} && st'.events == st.events + es && !st'.fault
    requires Agrees(None, PhaseOf(st'.events, st.id.lsid, p))
    requires StageOf(st'.events, st.id.lsid) == if st.peers[p].status.Jt? then Failed else StageOf(st.events, st.id.lsid)
    ensures ClosingInv(st')
  {
    forall q ensures Agrees(Get(st'.peers, q), PhaseOf(st'.events, st.id.lsid, q)) {
      assert Agrees(Get(st.peers, q), PhaseOf(st.events, st.id.lsid, q));
      if q != p { ShutOthers(st, p, es, q); }
    }
  }

  ghost predicate Remaining(peers: Peers, left: Peers, gone: seq<PeerId>) {
    && (forall q :: q in left <==> q in peers && q !in gone)
    && (forall q :: q in left ==> left[q] == peers[q])
  }

  ghost predicate PartlyShut(st: State, st': State, gone: seq<PeerId>) {
    && st'.id == st.id
    && ClosingInv(st')
    && Remaining(st.peers, st'.peers, gone)
    && ClosingStage(st.id, st.peers, st'.peers, StageOf(st'.events, st.id.lsid))
  }

  lemma ShutStep(st: State, st1: State, init: seq<PeerId>, p: PeerId, st2: State)
    requires PartlyShut(st, st1, init) && p in st.peers && p !in init && st2 == Do(st1, On(p, Shut))
    ensures PartlyShut(st, st2, init + [p])
  {
    ShutOne(st1, p, st.peers, st2);
    assert forall q :: q in init + [p] <==> q in init || q == p;
  }

  lemma PlanShutSnoc(st: State, order: seq<PeerId>, p: PeerId)
    ensures DoAll(st, PlanShut(order + [p])) == Do(DoAll(st, PlanShut(order)), On(p, Shut))
  {
    assert (order + [p])[..|order|] == order;
    assert PlanShut(order + [p]) == PlanShut(order) + [On(p, Shut)];
    DoAllAppend(st, PlanShut(order), [On(p, Shut)]);
    DoAllOne(DoAll(st, PlanShut(order)), On(p, Shut));
  }

  /** Different peers of the world, in some order. */
  ghost predicate Distinct(order: seq<PeerId>, peers: Peers) {
    && (forall i :: 0 <= i < |order| ==> order[i] in peers)
    && (forall i, j :: 0 <= i < j < |order| ==> order[i] != order[j])
  }

  lemma DistinctLast(order: seq<PeerId>, peers: Peers)
    requires order != [] && Distinct(order, peers)
    ensures var init, p := order[..|order| - 1], order[|order| - 1];
            order == init + [p] && Distinct(init, peers) && p in peers && p !in init
  {
  }

  lemma ShutNone(st: State)
    requires ClosingInv(st) && ClosingStage(st.id, st.peers, st.peers, StageOf(st.events, st.id.lsid))
    ensures PartlyShut(st, st, [])
  {
  }

  lemma {:induction false} ShutAll(st: State, order: seq<PeerId>, st': State)
    requires ClosingInv(st) && ClosingStage(st.id, st.peers, st.peers, StageOf(st.events, st.id.lsid))
    requires Distinct(order, st.peers) && st' == DoAll(st, PlanShut(order))
    ensures PartlyShut(st, st', order)
    decreases |order|
  {
    if order == [] {
      ShutNone(st);
    } else {
      var init, p := order[..|order| - 1], order[|order| - 1];
      var st1 := DoAll(st, PlanShut(init));
      DistinctLast(order, st.peers);
      ShutAll(st, init, st1);
      PlanShutSnoc(st, init, p);
      ShutStep(st, st1, init, p, st');
    }
  }

  lemma ReadyToClose(st: State, connected: set<PeerId>)
    requires WorldInv(st, connected)
    ensures ClosingInv(st) && ClosingStage(st.id, st.peers, st.peers, StageOf(st.events, st.id.lsid))
  {
    forall p ensures Agrees(Get(st.peers, p), PhaseOf(st.events, st.id.lsid, p)) { assert PeerInv(st, connected, p); }
    assert PeerInv(st, connected, st.id.joinHash);
    forall p | p in st.peers
      ensures (st.peers[p].status.Jt? ==> p == st.id.joinHash && StageOf(st.events, st.id.lsid).Fresh?)
              && (st.peers[p].status.Mem? ==> StageOf(st.events, st.id.lsid).Joined?) {
      assert PeerInv(st, connected, p);
    }
  }

  lemma LeaveLast(st: State)
    requires ClosingInv(st) && st.peers == map[]
    ensures var log := st.events + [WorldLeave(st.id.lsid)];
            && StageOf(log, st.id.lsid) == NextStage(StageOf(st.events, st.id.lsid), WorldLeave(st.id.lsid), st.id.lsid)
            && (forall p :: var ph := PhaseOf(log, st.id.lsid, p); !ph.Ready? && !ph.Broken?)
  {
    var l := st.id.lsid;
    StageCat(Fresh, st.events, [WorldLeave(l)], l);
    Unrolled(st.id, "", Idle, StageOf(st.events, l));
    forall p ensures var ph := PhaseOf(st.events + [WorldLeave(l)], l, p); !ph.Ready? && !ph.Broken? {
      assert Agrees(Get(st.peers, p), PhaseOf(st.events, l, p));
      PhaseCat(Idle, st.events, [WorldLeave(l)], l, p);
      Unrolled(st.id, p, PhaseOf(st.events, l, p), Fresh);
    }
  }

  /** After Close no session is left ready, and the world leaves early exactly when its target was never reached. */
  lemma CloseKeeps(st: State, connected: set<PeerId>, order: seq<PeerId>)
    requires WorldInv(st, connected) && Enumerates(order, st.peers.Keys)
    ensures var st' := DoAll(st, PlanClose(st.id, order));
            && !st'.fault
            && (forall p :: var ph := PhaseOf(st'.events, st.id.lsid, p); !ph.Ready? && !ph.Broken?)
            && StageOf(st'.events, st.id.lsid) == if Early(st.id, st.peers) then LeftEarly else Left
  {
    ReadyToClose(st, connected);
    ShutAll(st, order, DoAll(st, PlanShut(order)));
    DoAllAppend(st, PlanShut(order), [Emit(WorldLeave(st.id.lsid))]);
    CloseEnds(st, DoAll(st, PlanShut(order)), order);
  }

  lemma CloseEnds(st: State, st1: State, order: seq<PeerId>)
    requires PartlyShut(st, st1, order) && Enumerates(order, st.peers.Keys)
    ensures var st' := DoAll(st1, [Emit(WorldLeave(st.id.lsid))]);
            && !st'.fault
            && (forall p :: var ph := PhaseOf(st'.events, st.id.lsid, p); !ph.Ready? && !ph.Broken?)
            && StageOf(st'.events, st.id.lsid) == if Early(st.id, st.peers) then LeftEarly else Left
  {
    assert st1.peers == map[];
    DoAllOne(st1, Emit(WorldLeave(st.id.lsid)));
    LeaveLast(st1);
  }
}
