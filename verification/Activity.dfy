/**
 net_service/peer_context.go: the activity record of a peer, updated without a
 lock.  Activate, Renew and Deactivate each load the record, build the next
 one and try a compare-and-swap, starting over when it fails.  Threads
 interleave between the load and the swap.
 */
module Activity {

  datatype Record = Record(count: int, last: int) // active_cnt, LastActivity

  datatype Call = Activate | Renew | Deactivate

  datatype Pc =
    | Idle
    | Loading(call: Call)
    | Swapping(call: Call, prev: Record, seen: nat) // seen: the number of successful swaps at the load

  type Thread = nat

  /** `swaps` counts successful swaps; `finished` lists those of Activate and Deactivate, in order. */
  datatype State = State(cell: Record, pc: map<Thread, Pc>, swaps: nat, finished: seq<Call>, panicked: bool)

  datatype Act =
    | Begin(thread: Thread, call: Call)
    | Load(thread: Thread)
    | Swap(thread: Thread, now: int)

  function PcOf(s: State, t: Thread): Pc {
    if t in s.pc then s.pc[t] else Idle
  }

  function Delta(c: Call): int {
    match c
    case Activate => 1
    case Renew => 0
    case Deactivate => -1
  }

  function Counted(c: Call): seq<Call> {
    if c.Renew? then [] else [c]
  }

  function Step(s: State, a: Act): State {
    match a
    case Begin(t, c) => s.(pc := s.pc[t := Loading(c)])
    case Load(t) =>
      var pc := PcOf(s, t);
      if !pc.Loading? then s
      else if pc.call.Deactivate? && s.cell.count - 1 < 0 then s.(panicked := true)
      else s.(pc := s.pc[t := Swapping(pc.call, s.cell, s.swaps)])
    case Swap(t, now) =>
      var pc := PcOf(s, t);
      if !pc.Swapping? then s
      else if s.cell == pc.prev then
        s.(cell := Record(pc.prev.count + Delta(pc.call), now), pc := s.pc[t := Idle], swaps := s.swaps + 1,
           finished := s.finished + Counted(pc.call))
      else s.(pc := s.pc[t := Loading(pc.call)])
  }

  predicate Enabled(s: State, a: Act) {
    && !s.panicked
    && match a
       case Begin(t, _) => PcOf(s, t).Idle?
       case Load(t) => PcOf(s, t).Loading?
       case Swap(t, _) => PcOf(s, t).Swapping?
  }

  /** Append stores a zero count with the time of creation. */
  function Start(now: int): State {
    State(Record(0, now), map[], 0, [], false)
  }

  function Run(now: int, acts: seq<Act>): State {
    if acts == [] then Start(now) else Step(Run(now, acts[..|acts| - 1]), acts[|acts| - 1])
  }

  predicate Possible(now: int, acts: seq<Act>) {
    acts == [] || (Possible(now, acts[..|acts| - 1]) && Enabled(Run(now, acts[..|acts| - 1]), acts[|acts| - 1]))
  }

  /** Activations minus deactivations. */
  function Balance(calls: seq<Call>): int {
    if calls == [] then 0 else Balance(calls[..|calls| - 1]) + Delta(calls[|calls| - 1])
  }

  lemma BalanceSnoc(calls: seq<Call>, c: Call)
    ensures Balance(calls + Counted(c)) == Balance(calls) + Delta(c)
  {
    if c.Renew? {
      assert calls + [] == calls;
    } else {
      assert (calls + [c])[..|calls|] == calls;
    }
  }

  /** What a thread that has loaded knows: the record it saw, and that nothing changed if no swap succeeded since. */
  ghost predicate Fresh(s: State, t: Thread) {
    var pc := PcOf(s, t);
    pc.Swapping? ==>
      && pc.seen <= s.swaps
      && (pc.seen == s.swaps ==> pc.prev == s.cell)
      && (pc.call.Deactivate? ==> pc.prev.count >= 1)
  }

  ghost predicate Inv(s: State) {
    && s.cell.count == Balance(s.finished) && s.cell.count >= 0
    && forall t :: Fresh(s, t)
  }

  /** Only the acting thread moves. */
  lemma OthersStay(s: State, a: Act, t: Thread)
    requires t != a.thread
    ensures PcOf(Step(s, a), t) == PcOf(s, t)
  {
  }

  lemma ThreadKeeps(s: State, a: Act)
    requires Fresh(s, a.thread) && Enabled(s, a)
    ensures Fresh(Step(s, a), a.thread)
  {
  }

  lemma CellKeeps(s: State, a: Act)
    requires Fresh(s, a.thread) && s.cell.count == Balance(s.finished) >= 0 && Enabled(s, a)
    ensures var s' := Step(s, a); s'.cell.count == Balance(s'.finished) >= 0
    ensures var s' := Step(s, a); s'.swaps > s.swaps || (s'.swaps == s.swaps && s'.cell == s.cell)
  {
    if a.Swap? { BalanceSnoc(s.finished, PcOf(s, a.thread).call); }
  }

  lemma StepKeeps(s: State, a: Act, s': State)
    requires Inv(s) && Enabled(s, a) && s' == Step(s, a)
    ensures Inv(s')
  {
    assert Fresh(s, a.thread);
    CellKeeps(s, a);
    forall t ensures Fresh(s', t) {
      if t == a.thread {
        ThreadKeeps(s, a);
      } else {
        assert Fresh(s, t);
        OthersStay(s, a, t);
      }
    }
  }

  /** In every interleaving the count is the balance of the finished calls, and it is never negative. */
  lemma {:induction false} CountIsBalance(now: int, acts: seq<Act>)
    requires Possible(now, acts)
    ensures Inv(Run(now, acts))
    ensures var s := Run(now, acts); s.cell.count == Balance(s.finished) >= 0
    decreases |acts|
  {
    if acts != [] {
      var init := acts[..|acts| - 1];
      CountIsBalance(now, init);
      StepKeeps(Run(now, init), acts[|acts| - 1], Run(now, acts));
    }
  }

  /** A swap fails only if another call finished after the load: some thread always makes progress. */
  lemma FailedSwapMeansProgress(now: int, acts: seq<Act>, t: Thread, at: int)
    requires Possible(now, acts) && Enabled(Run(now, acts), Swap(t, at))
    ensures var s := Run(now, acts);
            Step(s, Swap(t, at)).swaps == s.swaps ==> PcOf(s, t).seen < s.swaps
  {
    CountIsBalance(now, acts);
    assert Fresh(Run(now, acts), t);
  }

  /** The time of the last swap that went through, or of the creation. */
  function LastTouch(now: int, acts: seq<Act>): int {
    if acts == [] then now
    else
      var init, a := acts[..|acts| - 1], acts[|acts| - 1];
      if a.Swap? && Run(now, acts).swaps > Run(now, init).swaps then a.now else LastTouch(now, init)
  }

  /** Every call that goes through, renewal or not, stamps the record with its time. */
  lemma {:induction false} ActivityIsLastTouch(now: int, acts: seq<Act>)
    ensures Run(now, acts).cell.last == LastTouch(now, acts)
    decreases |acts|
  {
    if acts != [] { ActivityIsLastTouch(now, acts[..|acts| - 1]); }
  }

  // ---- one thread activates and deactivates, as the host's event loop does; any others only renew ----

  ghost predicate OnlyRenews(acts: seq<Act>, host: Thread) {
    forall i :: 0 <= i < |acts| && acts[i].Begin? && acts[i].thread != host ==> acts[i].call.Renew?
  }

  /** The calls of the host that matter for the count, in program order. */
  function Program(acts: seq<Act>, host: Thread): seq<Call> {
    if acts == [] then [] else
      var a := acts[|acts| - 1];
      Program(acts[..|acts| - 1], host) + if a.Begin? && a.thread == host then Counted(a.call) else []
  }

  /** The host's call that is still running, if it changes the count. */
  function Running(s: State, host: Thread): seq<Call> {
    var pc := PcOf(s, host);
    if pc.Idle? then [] else Counted(pc.call)
  }

  predicate Renewing(pc: Pc) {
    pc.Idle? || pc.call.Renew?
  }

  ghost predicate HostInv(s: State, program: seq<Call>, host: Thread) {
    && Inv(s)
    && (forall t :: t != host ==> Renewing(PcOf(s, t)))
    && program == s.finished + Running(s, host)
    && (PcOf(s, host).Swapping? ==> PcOf(s, host).prev.count == s.cell.count)
    && (s.panicked ==> PcOf(s, host) == Loading(Deactivate) && s.cell.count == 0)
  }

  lemma ProgramStep(s: State, program: seq<Call>, host: Thread, a: Act, s': State)
    requires program == s.finished + Running(s, host) && Enabled(s, a) && s' == Step(s, a)
    requires a.thread != host ==> Renewing(PcOf(s, a.thread)) && (a.Begin? ==> a.call.Renew?)
    ensures program + (if a.Begin? && a.thread == host then Counted(a.call) else []) == s'.finished + Running(s', host)
  {
    match a
    case Begin(t, c) => {
      assert s'.finished == s.finished;
      if t == host { assert Running(s, host) == []; }
    }
    case Load(t) => {
      assert s'.finished == s.finished && Running(s', host) == Running(s, host);
    }
    case Swap(t, now) => {
      if s'.swaps == s.swaps || t != host {
        assert s'.finished == s.finished && Running(s', host) == Running(s, host);
      } else {
        assert s'.finished == s.finished + Running(s, host) && Running(s', host) == [];
      }
    }
  }

  lemma HostStepKeeps(s: State, program: seq<Call>, host: Thread, a: Act, s': State, program': seq<Call>)
    requires HostInv(s, program, host) && Enabled(s, a) && s' == Step(s, a)
    requires a.Begin? && a.thread != host ==> a.call.Renew?
    requires program' == program + if a.Begin? && a.thread == host then Counted(a.call) else []
    ensures HostInv(s', program', host)
  {
    StepKeeps(s, a, s');
    assert a.thread != host ==> Renewing(PcOf(s, a.thread));
    ProgramStep(s, program, host, a, s');
    forall t | t != host ensures Renewing(PcOf(s', t)) {
      assert Renewing(PcOf(s, t));
      if t != a.thread { OthersStay(s, a, t); }
    }
    if a.thread != host { OthersStay(s, a, host); }
  }

  lemma {:induction false} HostRun(now: int, acts: seq<Act>, host: Thread)
    requires Possible(now, acts) && OnlyRenews(acts, host)
    ensures HostInv(Run(now, acts), Program(acts, host), host)
    decreases |acts|
  {
    if acts != [] {
      var init := acts[..|acts| - 1];
      assert OnlyRenews(init, host);
      HostRun(now, init, host);
      HostStepKeeps(Run(now, init), Program(init, host), host, acts[|acts| - 1], Run(now, acts), Program(acts, host));
    }
  }

  /**
   For the event loop the counter behaves like a plain variable: its value is the balance of the calls it has
   made, less the one that is running, whatever renewals interleave.
   */
  lemma CounterIsSequential(now: int, acts: seq<Act>, host: Thread)
    requires Possible(now, acts) && OnlyRenews(acts, host)
    ensures var s, program := Run(now, acts), Program(acts, host);
            && |Running(s, host)| <= |program| && program[|program| - |Running(s, host)|..] == Running(s, host)
            && s.cell.count == Balance(program[..|program| - |Running(s, host)|])
  {
    HostRun(now, acts, host);
    var s, program := Run(now, acts), Program(acts, host);
    assert program[..|program| - |Running(s, host)|] == s.finished;
  }

  /** A Deactivate of the event loop panics at its next load exactly when the calls before it balance out. */
  lemma PanicsExactlyAtZero(now: int, acts: seq<Act>, host: Thread)
    requires Possible(now, acts) && OnlyRenews(acts, host)
    requires Enabled(Run(now, acts), Load(host)) && PcOf(Run(now, acts), host) == Loading(Deactivate)
    ensures var program := Program(acts, host);
            && program != [] && program[|program| - 1] == Deactivate
            && (Step(Run(now, acts), Load(host)).panicked <==> Balance(program[..|program| - 1]) == 0)
  {
    HostRun(now, acts, host);
    CounterIsSequential(now, acts, host);
  }
}
