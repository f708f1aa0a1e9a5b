/**
 What the event channel promises, read off the log alone.

 `Phase` follows one peer of one world: a session is requested, becomes ready,
 carries objects and is closed.  `Stage` follows one world: it joins or fails,
 and leaves last.  `Broken` means the log is out of order.
 */
module EventOrder {
  import opened Abyss

  datatype Phase = Idle | Requested(session: Uuid) | Ready(session: Uuid) | Broken

  function NextPhase(ph: Phase, ev: Event, l: Uuid, p: PeerId): Phase {
    match ev
    case SessionRequest(l', p', s) =>
      if l' != l || p' != p then ph else if ph.Idle? || ph.Requested? then Requested(s) else Broken
    case SessionReady(l', p', s) =>
      if l' != l || p' != p then ph else if ph == Requested(s) then Ready(s) else Broken
    case SessionClose(l', p', s) =>
      if l' != l || p' != p then ph else if ph == Ready(s) then Idle else Broken
    case ObjectAppend(l', p', s, _) => if l' != l || p' != p || ph == Ready(s) then ph else Broken
    case ObjectDelete(l', p', s, _) => if l' != l || p' != p || ph == Ready(s) then ph else Broken
    case _ => ph
  }

  function PhaseFrom(ph: Phase, log: seq<Event>, l: Uuid, p: PeerId): Phase {
    if log == [] then ph else NextPhase(PhaseFrom(ph, log[..|log| - 1], l, p), log[|log| - 1], l, p)
  }

  function PhaseOf(log: seq<Event>, l: Uuid, p: PeerId): Phase {
    PhaseFrom(Idle, log, l, p)
  }

  /** LeftEarly: the world left without ever reporting a join result. */
  datatype Stage = Fresh | Joined | Failed | Left | LeftEarly | Disordered

  function NextStage(st: Stage, ev: Event, l: Uuid): Stage {
    match ev
    case ConnectRequest(_) => st
    case PeerRegister(_) => st
    case TimerRequest(l', _) => if l' != l || st.Fresh? || st.Joined? || st.Failed? then st else Disordered
    case JoinSuccess(l', _) => if l' != l then st else if st.Fresh? then Joined else Disordered
    case JoinFail(l', _) => if l' != l then st else if st.Fresh? then Failed else Disordered
    case WorldLeave(l') =>
      if l' != l then st else if st.Joined? || st.Failed? then Left else if st.Fresh? then LeftEarly else Disordered
    case _ => if ev.lsid != l || st.Joined? then st else Disordered
  }

  function StageFrom(st: Stage, log: seq<Event>, l: Uuid): Stage {
    if log == [] then st else NextStage(StageFrom(st, log[..|log| - 1], l), log[|log| - 1], l)
  }

  function StageOf(log: seq<Event>, l: Uuid): Stage {
    StageFrom(Fresh, log, l)
  }

  // ---- composition ----

  lemma {:induction false} PhaseCat(ph: Phase, a: seq<Event>, b: seq<Event>, l: Uuid, p: PeerId)
    ensures PhaseFrom(ph, a + b, l, p) == PhaseFrom(PhaseFrom(ph, a, l, p), b, l, p)
    decreases |b|
  {
    if b == [] {
      assert a + b == a;
    } else {
      assert (a + b)[..|a + b| - 1] == a + b[..|b| - 1];
      PhaseCat(ph, a, b[..|b| - 1], l, p);
    }
  }

  lemma {:induction false} StageCat(st: Stage, a: seq<Event>, b: seq<Event>, l: Uuid)
    ensures StageFrom(st, a + b, l) == StageFrom(StageFrom(st, a, l), b, l)
    decreases |b|
  {
    if b == [] {
      assert a + b == a;
    } else {
      assert (a + b)[..|a + b| - 1] == a + b[..|b| - 1];
      StageCat(st, a, b[..|b| - 1], l);
    }
  }

  lemma Unroll(ph: Phase, st: Stage, a: Event, b: Event, l: Uuid, p: PeerId)
    ensures PhaseFrom(ph, [a], l, p) == NextPhase(ph, a, l, p)
    ensures StageFrom(st, [a], l) == NextStage(st, a, l)
    ensures PhaseFrom(ph, [a, b], l, p) == NextPhase(NextPhase(ph, a, l, p), b, l, p)
    ensures StageFrom(st, [a, b], l) == NextStage(NextStage(st, a, l), b, l)
  {
    assert [a][..0] == [];
    assert [a, b][..1] == [a];
  }

  /** The event belongs to no other world than l. */
  predicate Within(ev: Event, l: Uuid) {
    ev.ConnectRequest? || ev.PeerRegister? || ev.lsid == l
  }

  lemma {:induction false} OtherWorldUntouched(ph: Phase, st: Stage, es: seq<Event>, l: Uuid, l': Uuid, p: PeerId)
    requires l != l' && forall ev :: ev in es ==> Within(ev, l)
    ensures PhaseFrom(ph, es, l', p) == ph && StageFrom(st, es, l') == st
    decreases |es|
  {
    if es != [] {
      OtherWorldUntouched(ph, st, es[..|es| - 1], l, l', p);
      assert es[|es| - 1] in es;
    }
  }
}
