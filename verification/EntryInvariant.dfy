/** What every entry step keeps, seen from one world and one peer. */
module EntryInvariant {
  import opened Prelude
  import opened Abyss
  import opened PeerEntry
  import opened EventOrder

  predicate Idling(s: Status) {
    s.Cc? || s.Jt? || s.DcJt?
  }

  predicate Targeted(s: Status) {
    s.Jt? || s.DcJt?
  }

  predicate Pending(s: Status) {
    s.Jn? || s.Jni? || s.Rmem? || s.Tmem?
  }

  /** Peer is set exactly for connected peers; idle entries carry no session; only members are counted. */
  predicate Shape(w: WorldId, p: PeerId, e: Entry, connected: bool) {
    && (e.linked <==> connected)
    && (e.linked <==> !Disconnected(e.status))
    && (Idling(e.status) ==> e.session == NIL && e.stamp == ZERO_TIME && !e.sjnp)
    && (!e.status.Mem? ==> e.sjnc == 0)
    && (Targeted(e.status) ==> p == w.joinHash)
  }

  predicate ShapeOpt(w: WorldId, p: PeerId, e: Option<Entry>, connected: bool) {
    if e.None? then !connected else Shape(w, p, e.value, connected)
  }

  /** The entry agrees with the events the application has seen. */
  predicate Agrees(e: Option<Entry>, ph: Phase) {
    && !ph.Broken?
    && (ph.Ready? <==> e.Some? && e.value.status.Mem?)
    && (e.Some? && Pending(e.value.status) ==> ph == Requested(e.value.session))
    && (e.Some? && e.value.status.Mem? ==> ph == Ready(e.value.session))
  }

  /** Status of an entry in a world at the given stage. */
  predicate Fits(w: WorldId, p: PeerId, e: Option<Entry>, stage: Stage) {
    match stage
    case Fresh => if p == w.joinHash then e.Some? && Targeted(e.value.status)
                  else e.None? || e.value.status.Cc? || e.value.status.RmemNjni?
    case Joined => e.None? || !Targeted(e.value.status)
    case Failed => e.None? || e.value.status.Cc? || e.value.status.RmemNjni?
    case _ => false
  }

  /** When the step may be taken; `connected` is the state of the connection before it. */
  predicate Allowed(w: WorldId, p: PeerId, e: Option<Entry>, op: Op, connected: bool, stage: Stage) {
    match op
    case Connect => !connected
    case RecvJN(_, _) => connected && stage.Joined?
    case Introduce(_, _) => stage.Joined?
    case Relay(_, s) => e.Some? && e.value.session == s ==> e.value.linked
    case Gossip(_, _) => true
    case Accept(_, _) => stage.Joined?
    case Decline(_) => stage.Joined?
    case Count => e.Some? && e.value.status.Mem?
    case Tell(_) => true
    case Shut => false
    case _ => connected
  }

  function ConnectedAfter(op: Op, connected: bool): bool {
    if op.Connect? then true else if op.Remove? then false else connected
  }

  /** The event is about world l and about no peer but p. */
  ghost predicate AboutOnly(ev: Event, l: Uuid, p: PeerId) {
    Within(ev, l) && forall p', ph :: p' != p ==> NextPhase(ph, ev, l, p') == ph
  }

  lemma OwnEvent(ev: Event, l: Uuid, p: PeerId)
    requires ev.ConnectRequest? || ev.PeerRegister? || ev.lsid == l
    requires ev.SessionRequest? || ev.SessionReady? || ev.SessionClose? || ev.ObjectAppend? || ev.ObjectDelete? ==> ev.peer == p
    ensures AboutOnly(ev, l, p)
  {
  }

  /** Every event of an entry step names its own world and its own peer. */
  lemma StepNamesPeer(w: WorldId, p: PeerId, e: Option<Entry>, op: Op)
    ensures forall ev :: ev in Step(w, p, e, op).events ==>
              Within(ev, w.lsid) && (forall p', ph :: p' != p ==> NextPhase(ph, ev, w.lsid, p') == ph)
  {
    forall ev | ev in Step(w, p, e, op).events ensures AboutOnly(ev, w.lsid, p) {
      StepOwns(w, p, e, op, ev);
      OwnEvent(ev, w.lsid, p);
    }
  }

  predicate Own(ev: Event, w: WorldId, p: PeerId) {
    && (ev.ConnectRequest? || ev.PeerRegister? || ev.lsid == w.lsid)
    && (ev.SessionRequest? || ev.SessionReady? || ev.SessionClose? || ev.ObjectAppend? || ev.ObjectDelete? ==> ev.peer == p)
  }

  lemma StepOwns(w: WorldId, p: PeerId, e: Option<Entry>, op: Op, ev: Event)
    requires ev in Step(w, p, e, op).events
    ensures Own(ev, w, p)
  {
    if op.RecvJN? || op.Introduce? || op.RecvMEM? {
      NewSessionOwns(w, p, e, op, ev);
    } else if op.Connect? || op.RecvJOK? || op.RecvJDN? || op.Accept? || op.RecvSOA? || op.RecvSOD? {
      AnswerOwns(w, p, e, op, ev);
    } else {
      ClearingOwns(w, p, e, op, ev);
    }
  }

  lemma ClearedOwns(w: WorldId, p: PeerId, e: Entry, ev: Event)
    requires ev in Cleared(w, p, e).events
    ensures Own(ev, w, p)
  {
  }

  lemma NewSessionOwns(w: WorldId, p: PeerId, e: Option<Entry>, op: Op, ev: Event)
    requires (op.RecvJN? || op.Introduce? || op.RecvMEM?) && ev in Step(w, p, e, op).events
    ensures Own(ev, w, p)
  {
    if e.Some? && ev in Cleared(w, p, e.value).events { ClearedOwns(w, p, e.value, ev); }
  }

  lemma AnswerOwns(w: WorldId, p: PeerId, e: Option<Entry>, op: Op, ev: Event)
    requires op.Connect? || op.RecvJOK? || op.RecvJDN? || op.Accept? || op.RecvSOA? || op.RecvSOD?
    requires ev in Step(w, p, e, op).events
    ensures Own(ev, w, p)
  {
  }

  lemma ClearingOwns(w: WorldId, p: PeerId, e: Option<Entry>, op: Op, ev: Event)
    requires op.Vouch? || op.Gossip? || op.Relay? || op.RecvRST? || op.Decline? || op.Count? || op.Tell? || op.Remove? || op.Shut?
    requires ev in Step(w, p, e, op).events
    ensures Own(ev, w, p)
  {
  }

  predicate GoodStep(w: WorldId, p: PeerId, o: Outcome, connected: bool, ph: Phase, stage: Stage) {
    && !o.fault
    && ShapeOpt(w, p, o.entry, connected)
    && Agrees(o.entry, PhaseFrom(ph, o.events, w.lsid, p))
    && Fits(w, p, o.entry, StageFrom(stage, o.events, w.lsid))
    && (StageFrom(stage, o.events, w.lsid) != stage ==> stage.Fresh? && p == w.joinHash)
  }

  predicate Before(w: WorldId, p: PeerId, e: Option<Entry>, connected: bool, ph: Phase, stage: Stage) {
    ShapeOpt(w, p, e, connected) && Agrees(e, ph) && Fits(w, p, e, stage)
  }

  lemma Unrolled(w: WorldId, p: PeerId, ph: Phase, stage: Stage)
    ensures forall a :: PhaseFrom(ph, [a], w.lsid, p) == NextPhase(ph, a, w.lsid, p)
    ensures forall a :: StageFrom(stage, [a], w.lsid) == NextStage(stage, a, w.lsid)
    ensures forall a, b :: PhaseFrom(ph, [a, b], w.lsid, p) == NextPhase(NextPhase(ph, a, w.lsid, p), b, w.lsid, p)
    ensures forall a, b :: StageFrom(stage, [a, b], w.lsid) == NextStage(NextStage(stage, a, w.lsid), b, w.lsid)
  {
    forall a { Unroll(ph, stage, a, a, w.lsid, p); }
    forall a, b { Unroll(ph, stage, a, b, w.lsid, p); }
  }

  lemma ClearKeeps(w: WorldId, p: PeerId, e: Entry, connected: bool, ph: Phase, stage: Stage)
    requires Before(w, p, Some(e), connected, ph, stage) && (connected || stage.Joined?)
    ensures GoodStep(w, p, Cleared(w, p, e), connected, ph, stage)
  {
    Unrolled(w, p, ph, stage);
  }

  lemma RenewKeeps(w: WorldId, p: PeerId, e: Entry, session: Uuid, stamp: Time, status: Status, request: bool,
                   connected: bool, ph: Phase, stage: Stage)
    requires Before(w, p, Some(e), connected, ph, stage) && connected && !Idling(e.status)
    requires status.RmemNjni? || (stage.Joined? && (status.Jn? || status.Jni?))
    requires request <==> !status.RmemNjni?
    ensures GoodStep(w, p, Renewed(w, p, e, session, stamp, status, request), connected, ph, stage)
  {
    Unrolled(w, p, ph, stage);
    var o := Cleared(w, p, e);
    assert !o.fault && o.entry == Some(IDLE);
    ClearKeeps(w, p, e, connected, ph, stage);
    if request {
      PhaseCat(ph, o.events, [SessionRequest(w.lsid, p, session)], w.lsid, p);
      StageCat(stage, o.events, [SessionRequest(w.lsid, p, session)], w.lsid);
      Unrolled(w, p, PhaseFrom(ph, o.events, w.lsid, p), stage);
    } else {
      assert o.events + [] == o.events;
    }
  }

  lemma JNKeeps(w: WorldId, p: PeerId, e: Option<Entry>, op: Op, connected: bool, ph: Phase, stage: Stage)
    requires Before(w, p, e, connected, ph, stage) && Allowed(w, p, e, op, connected, stage) && op.RecvJN?
    ensures GoodStep(w, p, Step(w, p, e, op), connected, ph, stage)
  {
    Unrolled(w, p, ph, stage);
    if e.Some? && !Idling(e.value.status) && !Disconnected(e.value.status) && e.value.stamp < op.stamp {
      RenewKeeps(w, p, e.value, op.session, op.stamp, Jn, true, connected, ph, stage);
    }
  }

  lemma IntroduceKeeps(w: WorldId, p: PeerId, e: Option<Entry>, op: Op, connected: bool, ph: Phase, stage: Stage)
    requires Before(w, p, e, connected, ph, stage) && Allowed(w, p, e, op, connected, stage) && op.Introduce?
    ensures GoodStep(w, p, Step(w, p, e, op), connected, ph, stage)
  {
    Unrolled(w, p, ph, stage);
    if e.Some? && !Idling(e.value.status) && !Disconnected(e.value.status) && e.value.stamp < op.stamp {
      RenewKeeps(w, p, e.value, op.session, op.stamp, Jni, true, connected, ph, stage);
    }
  }

  lemma MEMKeeps(w: WorldId, p: PeerId, e: Option<Entry>, op: Op, connected: bool, ph: Phase, stage: Stage)
    requires Before(w, p, e, connected, ph, stage) && Allowed(w, p, e, op, connected, stage) && op.RecvMEM?
    ensures GoodStep(w, p, Step(w, p, e, op), connected, ph, stage)
  {
    Unrolled(w, p, ph, stage);
    if e.Some? && !Idling(e.value.status) && !Disconnected(e.value.status) && e.value.stamp < op.stamp {
      RenewKeeps(w, p, e.value, op.session, op.stamp, RmemNjni, false, connected, ph, stage);
    } else if e.Some? && e.value.status.Jt? {
      ClearKeeps(w, p, e.value, connected, ph, stage);
    }
  }

  lemma JoinReplyKeeps(w: WorldId, p: PeerId, e: Option<Entry>, op: Op, connected: bool, ph: Phase, stage: Stage)
    requires Before(w, p, e, connected, ph, stage) && Allowed(w, p, e, op, connected, stage)
    requires op.RecvJOK? || op.RecvJDN?
    ensures GoodStep(w, p, Step(w, p, e, op), connected, ph, stage)
  {
    Unrolled(w, p, ph, stage);
  }

  lemma ConnectKeeps(w: WorldId, p: PeerId, e: Option<Entry>, connected: bool, ph: Phase, stage: Stage)
    requires Before(w, p, e, connected, ph, stage) && Allowed(w, p, e, Connect, connected, stage)
    ensures GoodStep(w, p, Step(w, p, e, Connect), true, ph, stage)
  {
    Unrolled(w, p, ph, stage);
  }

  lemma EntryAcceptKeeps(w: WorldId, p: PeerId, e: Option<Entry>, op: Op, connected: bool, ph: Phase, stage: Stage)
    requires Before(w, p, e, connected, ph, stage) && Allowed(w, p, e, op, connected, stage) && op.Accept?
    ensures GoodStep(w, p, Step(w, p, e, op), connected, ph, stage)
  {
    Unrolled(w, p, ph, stage);
  }

  lemma ObjectsKeep(w: WorldId, p: PeerId, e: Option<Entry>, op: Op, connected: bool, ph: Phase, stage: Stage)
    requires Before(w, p, e, connected, ph, stage) && Allowed(w, p, e, op, connected, stage)
    requires op.RecvSOA? || op.RecvSOD?
    ensures GoodStep(w, p, Step(w, p, e, op), connected, ph, stage)
  {
    Unrolled(w, p, ph, stage);
  }

  /** Steps that report no event. */
  lemma SilentKeeps(w: WorldId, p: PeerId, e: Option<Entry>, op: Op, connected: bool, ph: Phase, stage: Stage)
    requires Before(w, p, e, connected, ph, stage) && Allowed(w, p, e, op, connected, stage)
    requires op.Gossip? || op.Relay? || op.Count? || op.Tell?
    ensures GoodStep(w, p, Step(w, p, e, op), connected, ph, stage)
  {
  }

  lemma ResetKeeps(w: WorldId, p: PeerId, e: Option<Entry>, op: Op, connected: bool, ph: Phase, stage: Stage)
    requires Before(w, p, e, connected, ph, stage) && Allowed(w, p, e, op, connected, stage)
    requires op.RecvRST? || op.Vouch? || op.Decline? || op.Remove?
    ensures GoodStep(w, p, Step(w, p, e, op), ConnectedAfter(op, connected), ph, stage)
  {
    if e.Some? {
      ClearKeeps(w, p, e.value, connected, ph, stage);
    }
  }

  /** Every allowed entry step is free of panics and keeps the entry in line with the event log. */
  lemma StepKeeps(w: WorldId, p: PeerId, e: Option<Entry>, op: Op, connected: bool, ph: Phase, stage: Stage)
    requires Before(w, p, e, connected, ph, stage) && Allowed(w, p, e, op, connected, stage)
    ensures GoodStep(w, p, Step(w, p, e, op), ConnectedAfter(op, connected), ph, stage)
  {
    match op
    case RecvJN(_, _) => JNKeeps(w, p, e, op, connected, ph, stage);
    case Introduce(_, _) => IntroduceKeeps(w, p, e, op, connected, ph, stage);
    case RecvMEM(_, _) => MEMKeeps(w, p, e, op, connected, ph, stage);
    case RecvJOK(_, _, _) => JoinReplyKeeps(w, p, e, op, connected, ph, stage);
    case RecvJDN(_) => JoinReplyKeeps(w, p, e, op, connected, ph, stage);
    case RecvRST => ResetKeeps(w, p, e, op, connected, ph, stage);
    case Vouch(_) => ResetKeeps(w, p, e, op, connected, ph, stage);
    case Decline(_) => ResetKeeps(w, p, e, op, connected, ph, stage);
    case Remove => ResetKeeps(w, p, e, op, connected, ph, stage);
    case Connect => ConnectKeeps(w, p, e, connected, ph, stage);
    case Accept(_, _) => EntryAcceptKeeps(w, p, e, op, connected, ph, stage);
    case RecvSOA(_, _) => ObjectsKeep(w, p, e, op, connected, ph, stage);
    case RecvSOD(_, _) => ObjectsKeep(w, p, e, op, connected, ph, stage);
    case _ => SilentKeeps(w, p, e, op, connected, ph, stage);
  }
}
