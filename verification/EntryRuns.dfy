/** One entry over any sequence of steps, and how it sits in a world with many peers. */
module EntryRuns {
  import opened Prelude
  import opened Abyss
  import opened PeerEntry
  import opened WorldModel
  import opened EntryInvariant

  function Run(w: WorldId, p: PeerId, e: Option<Entry>, ops: seq<Op>): Option<Entry> {
    if ops == [] then e else Step(w, p, Run(w, p, e, ops[..|ops| - 1]), ops[|ops| - 1]).entry
  }

  function RunEvents(w: WorldId, p: PeerId, e: Option<Entry>, ops: seq<Op>): seq<Event> {
    if ops == [] then []
    else RunEvents(w, p, e, ops[..|ops| - 1]) + Step(w, p, Run(w, p, e, ops[..|ops| - 1]), ops[|ops| - 1]).events
  }

  /** The steps of a plan that concern one peer. */
  function OpsOn(ms: seq<Micro>, p: PeerId): seq<Op> {
    if ms == [] then []
    else
      var m := ms[|ms| - 1];
      OpsOn(ms[..|ms| - 1], p) + (if m.On? && m.peer == p then [m.op] else [])
  }

  /** The session and object events of one peer in one world. */
  predicate About(ev: Event, l: Uuid, p: PeerId) {
    (ev.SessionRequest? || ev.SessionReady? || ev.SessionClose? || ev.ObjectAppend? || ev.ObjectDelete?)
    && ev.lsid == l && ev.peer == p
  }

  function Only(log: seq<Event>, l: Uuid, p: PeerId): seq<Event> {
    if log == [] then []
    else Only(log[..|log| - 1], l, p) + (if About(log[|log| - 1], l, p) then [log[|log| - 1]] else [])
  }

  lemma {:induction false} OnlyCat(a: seq<Event>, b: seq<Event>, l: Uuid, p: PeerId)
    ensures Only(a + b, l, p) == Only(a, l, p) + Only(b, l, p)
    decreases |b|
  {
    if b == [] {
      assert a + b == a;
    } else {
      assert (a + b)[..|a + b| - 1] == a + b[..|b| - 1];
      OnlyCat(a, b[..|b| - 1], l, p);
    }
  }

  lemma {:induction false} OnlyNothing(log: seq<Event>, l: Uuid, p: PeerId)
    requires forall ev :: ev in log ==> !About(ev, l, p)
    ensures Only(log, l, p) == []
    decreases |log|
  {
    if log != [] {
      assert log[|log| - 1] in log;
      OnlyNothing(log[..|log| - 1], l, p);
    }
  }

  lemma OpsSnoc(ms: seq<Micro>, m: Micro, p: PeerId)
    ensures OpsOn(ms + [m], p) == if m.On? && m.peer == p then OpsOn(ms, p) + [m.op] else OpsOn(ms, p)
  {
    assert (ms + [m])[..|ms|] == ms;
  }

  lemma {:induction false} EntryAlone(st: State, ms: seq<Micro>, p: PeerId)
    requires forall m :: m in ms && m.Emit? ==> !About(m.event, st.id.lsid, p)
    ensures Get(DoAll(st, ms).peers, p) == Run(st.id, p, Get(st.peers, p), OpsOn(ms, p))
    decreases |ms|
  {
    if ms != [] {
      var init, m := ms[..|ms| - 1], ms[|ms| - 1];
      assert m in ms && ms == init + [m];
      EntryAlone(st, init, p);
      DoAllKeepsId(st, init);
      OpsSnoc(init, m, p);
      OneMoreStep(DoAll(st, init), m, p);
      if m.On? && m.peer == p { RunSnoc(st.id, p, Get(st.peers, p), OpsOn(init, p), m.op); }
    }
  }

  /**
   Entries are independent: whatever else a world does, a peer's entry and its
   events are those of the steps taken on that entry alone.
   */
  lemma {:induction false} EntriesAreIndependent(st: State, ms: seq<Micro>, p: PeerId)
    requires forall m :: m in ms && m.Emit? ==> !About(m.event, st.id.lsid, p)
    ensures Get(DoAll(st, ms).peers, p) == Run(st.id, p, Get(st.peers, p), OpsOn(ms, p))
    ensures Only(DoAll(st, ms).events, st.id.lsid, p)
            == Only(st.events, st.id.lsid, p) + Only(RunEvents(st.id, p, Get(st.peers, p), OpsOn(ms, p)), st.id.lsid, p)
    decreases |ms|
  {
    EntryAlone(st, ms, p);
    if ms == [] {
      assert Only([], st.id.lsid, p) == [];
    } else {
      var init, m := ms[..|ms| - 1], ms[|ms| - 1];
      assert m in ms && ms == init + [m];
      EntriesAreIndependent(st, init, p);
      DoAllKeepsId(st, init);
      IndependentStep(st.id, Get(st.peers, p), OpsOn(init, p), DoAll(st, init), m, p, Only(st.events, st.id.lsid, p));
      OpsSnoc(init, m, p);
    }
  }

  lemma IndependentStep(w: WorldId, e: Option<Entry>, ops: seq<Op>, st1: State, m: Micro, p: PeerId, before: seq<Event>)
    requires st1.id == w && Get(st1.peers, p) == Run(w, p, e, ops) && (m.Emit? ==> !About(m.event, w.lsid, p))
    requires Only(st1.events, w.lsid, p) == before + Only(RunEvents(w, p, e, ops), w.lsid, p)
    ensures var ops' := if m.On? && m.peer == p then ops + [m.op] else ops;
            Only(Do(st1, m).events, w.lsid, p) == before + Only(RunEvents(w, p, e, ops'), w.lsid, p)
  {
    OneMoreStep(st1, m, p);
    if m.On? && m.peer == p {
      RunSnoc(w, p, e, ops, m.op);
      Associate(before, Only(RunEvents(w, p, e, ops), w.lsid, p), Only(Step(w, p, Run(w, p, e, ops), m.op).events, w.lsid, p));
    }
  }

  lemma RunSnoc(w: WorldId, p: PeerId, e: Option<Entry>, ops: seq<Op>, op: Op)
    ensures Run(w, p, e, ops + [op]) == Step(w, p, Run(w, p, e, ops), op).entry
    ensures Only(RunEvents(w, p, e, ops + [op]), w.lsid, p)
            == Only(RunEvents(w, p, e, ops), w.lsid, p) + Only(Step(w, p, Run(w, p, e, ops), op).events, w.lsid, p)
  {
    assert (ops + [op])[..|ops|] == ops;
    OnlyCat(RunEvents(w, p, e, ops), Step(w, p, Run(w, p, e, ops), op).events, w.lsid, p);
  }

  lemma OneMoreStep(st: State, m: Micro, p: PeerId)
    requires m.Emit? ==> !About(m.event, st.id.lsid, p)
    ensures m.On? && m.peer == p ==>
              var o := Step(st.id, p, Get(st.peers, p), m.op);
              Get(Do(st, m).peers, p) == o.entry
              && Only(Do(st, m).events, st.id.lsid, p) == Only(st.events, st.id.lsid, p) + Only(o.events, st.id.lsid, p)
    ensures m.Emit? || m.peer != p ==>
              Get(Do(st, m).peers, p) == Get(st.peers, p)
              && Only(Do(st, m).events, st.id.lsid, p) == Only(st.events, st.id.lsid, p)
  {
    var l := st.id.lsid;
    if m.On? {
      var o := Step(st.id, m.peer, Get(st.peers, m.peer), m.op);
      OnlyCat(st.events, o.events, l, p);
      if m.peer != p {
        StepAbout(st.id, m.peer, Get(st.peers, m.peer), m.op, p);
        OnlyNothing(o.events, l, p);
      }
    } else {
      OnlyCat(st.events, [m.event], l, p);
      OnlyNothing([m.event], l, p);
    }
  }

  lemma StepAbout(w: WorldId, q: PeerId, e: Option<Entry>, op: Op, p: PeerId)
    requires q != p
    ensures forall ev :: ev in Step(w, q, e, op).events ==> !About(ev, w.lsid, p)
  {
  }

  // ---- introduction in any order ----

  /** The four things that can have happened, and how often the member has been listed in an SJN since all have. */
  datatype Flags = Flags(connected: bool, introduced: bool, vowed: bool, accepted: bool, listed: nat)

  /** A peer that is already connected starts with an idle entry, any other with none. */
  function StartFlags(known: bool): Flags {
    Flags(known, false, false, false, 0)
  }

  function FlagsOf(known: bool, ops: seq<Op>, s: Uuid): Flags {
    if ops == [] then StartFlags(known) else NextFlags(FlagsOf(known, ops[..|ops| - 1], s), ops[|ops| - 1], s)
  }

  /**
   JNI, MEM, one connect and accept-after-request, in any order and any number, about one session, mixed
   with the steps that other peers and the timer cause on the entry.
   */
  predicate Introduction(known: bool, ops: seq<Op>, s: Uuid, t: Time) {
    ops == [] ||
    (Introduction(known, ops[..|ops| - 1], s, t) &&
     IntroducedBy(FlagsOf(known, ops[..|ops| - 1], s), ops[|ops| - 1], s, t))
  }

  predicate Complete(f: Flags) {
    f.connected && f.introduced && f.vowed && f.accepted
  }

  function EntryFor(f: Flags, s: Uuid, t: Time): Option<Entry> {
    if !f.connected then (if f.introduced then Some(Entry(false, s, t, DcJni, false, 0)) else None)
    else if !f.introduced then Some(if f.vowed then Entry(true, s, t, RmemNjni, false, 0) else IDLE)
    else Some(Entry(true, s, t, if f.accepted then (if f.vowed then Mem else Tmem) else (if f.vowed then Rmem else Jni),
                    false, f.listed))
  }

  function EventsFor(f: Flags, l: Uuid, p: PeerId, s: Uuid): seq<Event> {
    (if f.connected && f.introduced then [SessionRequest(l, p, s)] else []) +
    (if Complete(f) then [SessionReady(l, p, s)] else [])
  }

  /** Of at most two events, those about the peer. */
  lemma OnlySmall(es: seq<Event>, l: Uuid, p: PeerId)
    requires |es| <= 2
    ensures es == [] ==> Only(es, l, p) == []
    ensures |es| == 1 ==> Only(es, l, p) == if About(es[0], l, p) then es else []
    ensures |es| == 2 && !About(es[0], l, p) && !About(es[1], l, p) ==> Only(es, l, p) == []
  {
    if |es| == 1 { assert es[..0] == []; }
    if |es| == 2 { assert es[..1] == [es[0]]; assert es[..1][..0] == []; }
  }

  function NextFlags(f: Flags, op: Op, s: Uuid): Flags {
    match op
    case Connect => f.(connected := true)
    case Introduce(_, _) => f.(introduced := true)
    case RecvMEM(_, _) => f.(vowed := true)
    case Accept(_, _) => f.(accepted := true)
    case Count => f.(listed := f.listed + 1)
    case Gossip(_, s') => if s' == s && Complete(f) then f.(listed := f.listed + 1) else f
    case _ => f
  }

  predicate Possible(f: Flags) {
    (f.vowed ==> f.connected) && (f.accepted ==> f.connected && f.introduced) && (!Complete(f) ==> f.listed == 0)
  }

  predicate IntroducedBy(f: Flags, op: Op, s: Uuid, t: Time) {
    match op
    case Connect => !f.connected
    case Introduce(s', t') => s' == s && t' == t
    case RecvMEM(s', t') => s' == s && t' == t && f.connected
    case Accept(s', _) => s' == s && f.connected && f.introduced
    case Vouch(s') => s' == s && Complete(f)
    case Count => Complete(f)
    case Gossip(_, _) => true
    case Relay(_, _) => true
    case Tell(_) => true
    case _ => false
  }

  lemma IntroductionOutcome(w: WorldId, p: PeerId, f: Flags, op: Op, s: Uuid, t: Time)
    requires Possible(f) && IntroducedBy(f, op, s, t)
    ensures var o := Step(w, p, EntryFor(f, s, t), op);
            && o.entry == EntryFor(NextFlags(f, op, s), s, t) && |o.events| <= 2
            && (|o.events| == 2 ==> !About(o.events[0], w.lsid, p) && !About(o.events[1], w.lsid, p))
            && EventsFor(f, w.lsid, p, s) + (if |o.events| == 1 then o.events else []) == EventsFor(NextFlags(f, op, s), w.lsid, p, s)
            && (|o.events| == 1 ==> About(o.events[0], w.lsid, p))
  {
    match op
    case Connect => {}
    case Introduce(_, _) => {}
    case RecvMEM(_, _) => {}
    case Accept(_, _) => {}
    case _ => {}
  }

  lemma IntroductionStep(w: WorldId, p: PeerId, f: Flags, op: Op, s: Uuid, t: Time, o: Outcome)
    requires Possible(f) && IntroducedBy(f, op, s, t) && o == Step(w, p, EntryFor(f, s, t), op)
    ensures o.entry == EntryFor(NextFlags(f, op, s), s, t)
    ensures EventsFor(f, w.lsid, p, s) + Only(o.events, w.lsid, p) == EventsFor(NextFlags(f, op, s), w.lsid, p, s)
  {
    IntroductionOutcome(w, p, f, op, s, t);
    OnlySmall(o.events, w.lsid, p);
  }

  lemma OrderStep(w: WorldId, p: PeerId, e: Option<Entry>, ops: seq<Op>, op: Op, f: Flags, s: Uuid, t: Time)
    requires Possible(f) && IntroducedBy(f, op, s, t)
    requires Run(w, p, e, ops) == EntryFor(f, s, t)
    requires Only(RunEvents(w, p, e, ops), w.lsid, p) == EventsFor(f, w.lsid, p, s)
    ensures Run(w, p, e, ops + [op]) == EntryFor(NextFlags(f, op, s), s, t)
    ensures Only(RunEvents(w, p, e, ops + [op]), w.lsid, p) == EventsFor(NextFlags(f, op, s), w.lsid, p, s)
  {
    RunSnoc(w, p, e, ops, op);
    IntroductionStep(w, p, f, op, s, t, Step(w, p, EntryFor(f, s, t), op));
  }

  lemma {:induction false} IntroductionPossible(known: bool, ops: seq<Op>, s: Uuid, t: Time)
    requires Introduction(known, ops, s, t)
    ensures Possible(FlagsOf(known, ops, s))
    decreases |ops|
  {
    if ops != [] { IntroductionPossible(known, ops[..|ops| - 1], s, t); }
  }

  /** The entry of a peer before any introduction. */
  function Unmet(known: bool): Option<Entry> {
    if known then Some(IDLE) else None
  }

  /** The outcome of an introduction depends only on which of the four things have happened. */
  lemma {:induction false} OrderDoesNotMatter(w: WorldId, p: PeerId, known: bool, ops: seq<Op>, s: Uuid, t: Time)
    requires Introduction(known, ops, s, t)
    ensures Run(w, p, Unmet(known), ops) == EntryFor(FlagsOf(known, ops, s), s, t)
    ensures Only(RunEvents(w, p, Unmet(known), ops), w.lsid, p) == EventsFor(FlagsOf(known, ops, s), w.lsid, p, s)
    decreases |ops|
  {
    if ops != [] {
      var init, op := ops[..|ops| - 1], ops[|ops| - 1];
      assert ops == init + [op] && FlagsOf(known, ops, s) == NextFlags(FlagsOf(known, init, s), op, s);
      OrderDoesNotMatter(w, p, known, init, s, t);
      IntroductionPossible(known, init, s, t);
      OrderStep(w, p, Unmet(known), init, op, FlagsOf(known, init, s), s, t);
    }
  }

  /** The same inside a world that is busy with other peers. */
  lemma OrderDoesNotMatterInWorld(st: State, ms: seq<Micro>, p: PeerId, known: bool, s: Uuid, t: Time)
    requires Get(st.peers, p) == Unmet(known) && Introduction(known, OpsOn(ms, p), s, t)
    requires forall m :: m in ms && m.Emit? ==> !About(m.event, st.id.lsid, p)
    ensures Get(DoAll(st, ms).peers, p) == EntryFor(FlagsOf(known, OpsOn(ms, p), s), s, t)
    ensures Only(DoAll(st, ms).events, st.id.lsid, p)
            == Only(st.events, st.id.lsid, p) + EventsFor(FlagsOf(known, OpsOn(ms, p), s), st.id.lsid, p, s)
  {
    EntriesAreIndependent(st, ms, p);
    OrderDoesNotMatter(st.id, p, known, OpsOn(ms, p), s, t);
  }

  // ---- the newest session wins ----

  predicate IdleOrGone(e: Option<Entry>) {
    e.None? || Idling(e.value.status)
  }

  /** No step of the run panics; by the world invariant this holds in every legal run. */
  predicate Faultless(w: WorldId, p: PeerId, e: Option<Entry>, ops: seq<Op>) {
    ops == [] ||
    (Faultless(w, p, e, ops[..|ops| - 1]) && !Step(w, p, Run(w, p, e, ops[..|ops| - 1]), ops[|ops| - 1]).fault)
  }

  /** The entry takes the stamp of the step into account. */
  predicate Weighs(w: WorldId, p: PeerId, e: Option<Entry>, op: Op) {
    op.RecvJN? || op.Introduce? || op.RecvMEM? || (op.RecvJOK? && p == w.joinHash && e.Some? && e.value.status.Jt?)
  }

  function Max(a: Time, b: Time): Time { if a < b then b else a }

  /** The largest stamp weighed since the entry was last idle or absent. */
  function Newest(w: WorldId, p: PeerId, e: Option<Entry>, ops: seq<Op>): Option<Time> {
    if ops == [] || IdleOrGone(Run(w, p, e, ops)) then None
    else
      var init, op := ops[..|ops| - 1], ops[|ops| - 1];
      var before := Newest(w, p, e, init);
      if !Weighs(w, p, Run(w, p, e, init), op) then before
      else if before.None? then Some(op.stamp) else Some(Max(before.value, op.stamp))
  }

  /** Whatever the order of arrival, the stored stamp is the newest one weighed. */
  lemma {:induction false} NewestWins(w: WorldId, p: PeerId, e: Option<Entry>, ops: seq<Op>)
    requires IdleOrGone(e) && Faultless(w, p, e, ops)
    ensures var r := Run(w, p, e, ops);
            Newest(w, p, e, ops) == if IdleOrGone(r) then None else Some(r.value.stamp)
    decreases |ops|
  {
    if ops != [] {
      NewestWins(w, p, e, ops[..|ops| - 1]);
      StampStep(w, p, Run(w, p, e, ops[..|ops| - 1]), ops[|ops| - 1]);
    }
  }

  lemma StampStep(w: WorldId, p: PeerId, e: Option<Entry>, op: Op)
    requires !Step(w, p, e, op).fault
    ensures var r := Step(w, p, e, op).entry;
            !IdleOrGone(r) ==>
              if IdleOrGone(e) then Weighs(w, p, e, op) && r.value.stamp == op.stamp
              else r.value.stamp == if Weighs(w, p, e, op) then Max(e.value.stamp, op.stamp) else e.value.stamp
  {
  }

  /** A stored session gives way only to a session with a strictly later stamp. */
  lemma ReplacedOnlyByLater(w: WorldId, p: PeerId, e: Entry, op: Op)
    requires !Idling(e.status)
    ensures var r := Step(w, p, Some(e), op).entry;
            !IdleOrGone(r) && r.value.session != e.session ==> e.stamp < r.value.stamp
  {
  }

  // ---- gossip about one member ----

  /** TimerExpire lists only members that are not suppressed and counted at most three times. */
  ghost predicate Fair(w: WorldId, p: PeerId, e: Option<Entry>, ops: seq<Op>) {
    ops == [] ||
    (Fair(w, p, e, ops[..|ops| - 1]) &&
     (ops[|ops| - 1].Count? ==>
        var x := Run(w, p, e, ops[..|ops| - 1]);
        x.Some? && x.value.status.Mem? && !x.value.sjnp && x.value.sjnc <= 3))
  }

  predicate InMembership(e: Option<Entry>) {
    e.Some? && e.value.status.Mem?
  }

  /** How often the peer has been listed in the current membership. */
  function Listed(w: WorldId, p: PeerId, e: Option<Entry>, ops: seq<Op>): nat {
    if ops == [] || !InMembership(Run(w, p, e, ops)) then 0
    else Listed(w, p, e, ops[..|ops| - 1]) + if ops[|ops| - 1].Count? then 1 else 0
  }

  /** The current session came with a JOK. */
  function ThroughJOK(w: WorldId, p: PeerId, e: Option<Entry>, ops: seq<Op>): bool {
    if ops == [] || IdleOrGone(Run(w, p, e, ops)) then false
    else
      var before := Run(w, p, e, ops[..|ops| - 1]);
      if ops[|ops| - 1].RecvJOK? && before.Some? && before.value.status.Jt? then true
      else ThroughJOK(w, p, e, ops[..|ops| - 1]) && before.value.session == Run(w, p, e, ops).value.session
           && before.value.stamp == Run(w, p, e, ops).value.stamp
  }

  predicate Quiescent(e: Option<Entry>) {
    e.None? || (Idling(e.value.status) && !e.value.sjnp && e.value.sjnc == 0)
  }

  predicate Counted(e: Option<Entry>, listed: nat, jok: bool) {
    && (e.Some? && !e.value.status.Mem? ==> e.value.sjnc == 0)
    && (IdleOrGone(e) && e.Some? ==> !e.value.sjnp)
    && (!IdleOrGone(e) ==> e.value.sjnp == jok)
    && (e.Some? && e.value.status.DcJni? ==> !jok)
    && (InMembership(e) ==> listed <= e.value.sjnc)
    && listed <= 4
    && (jok ==> listed == 0)
  }

  lemma CountedStep(w: WorldId, p: PeerId, e: Option<Entry>, op: Op, listed: nat, jok: bool)
    requires Counted(e, listed, jok)
    requires op.Count? ==> e.Some? && e.value.status.Mem? && !e.value.sjnp && e.value.sjnc <= 3
    requires !InMembership(e) ==> listed == 0
    requires IdleOrGone(e) ==> !jok
    ensures var r := Step(w, p, e, op).entry;
            var listed' := if !InMembership(r) then 0 else listed + if op.Count? then 1 else 0;
            var jok' := !IdleOrGone(r) && ((op.RecvJOK? && e.Some? && e.value.status.Jt?) ||
                        (jok && e.value.session == r.value.session && e.value.stamp == r.value.stamp));
            Counted(r, listed', jok')
  {
  }

  /** A member is listed at most four times per membership, and never when its session came with a JOK. */
  lemma {:induction false} ListedAtMostFour(w: WorldId, p: PeerId, e: Option<Entry>, ops: seq<Op>)
    requires Quiescent(e) && Fair(w, p, e, ops)
    ensures Counted(Run(w, p, e, ops), Listed(w, p, e, ops), ThroughJOK(w, p, e, ops))
    decreases |ops|
  {
    if ops != [] {
      var init, op := ops[..|ops| - 1], ops[|ops| - 1];
      ListedAtMostFour(w, p, e, init);
      CountedStep(w, p, Run(w, p, e, init), op, Listed(w, p, e, init), ThroughJOK(w, p, e, init));
    }
  }
}
