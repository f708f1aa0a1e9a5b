/**
 The event loop and the lock-free activity record together: the calls that
 handling the event log makes on one peer's record, and what the record then
 holds in every interleaving with renewing threads.
 */
module ActivityRefinement {
  import opened Abyss
  import opened NodeModel
  import opened NodeInvariant
  import opened HostModel
  import opened HostSafety
  import Activity

  /** What handling one event calls on the record of peer p. */
  function CallFor(ev: Event, p: PeerId): seq<Activity.Call> {
    if ev.SessionReady? && ev.peer == p then [Activity.Activate]
    else if ev.SessionClose? && ev.peer == p then [Activity.Deactivate]
    else []
  }

  function CallsFor(log: seq<Event>, p: PeerId): seq<Activity.Call> {
    if log == [] then [] else CallsFor(log[..|log| - 1], p) + CallFor(log[|log| - 1], p)
  }

  lemma BalanceOfCall(calls: seq<Activity.Call>, ev: Event, p: PeerId)
    ensures Activity.Balance(calls + CallFor(ev, p)) == Activity.Balance(calls) + Activity.Balance(CallFor(ev, p))
    ensures Activity.Balance(CallFor(ev, p)) ==
            if ev.SessionReady? && ev.peer == p then 1 else if ev.SessionClose? && ev.peer == p then -1 else 0
  {
    if ev.SessionReady? && ev.peer == p {
      Activity.BalanceSnoc(calls, Activity.Activate);
      Activity.BalanceSnoc([], Activity.Activate);
    } else if ev.SessionClose? && ev.peer == p {
      Activity.BalanceSnoc(calls, Activity.Deactivate);
      Activity.BalanceSnoc([], Activity.Deactivate);
    } else {
      assert calls + [] == calls;
    }
  }

  /** Handling a prefix of the log activates as often as it deactivates, but for the worlds left ready. */
  lemma {:induction false} BalanceIsReadiness(n: Node, k: nat, p: PeerId)
    requires NodeInv(n) && k <= |n.events|
    ensures Activity.Balance(CallsFor(n.events[..k], p)) == |ReadyWorlds(n.events[..k], p)|
    decreases k
  {
    if k == 0 {
      assert ReadyWorlds([], p) == {};
    } else {
      var log, ev := n.events[..k - 1], n.events[k - 1];
      assert n.events[..k] == log + [ev] && n.events[..k][..k - 1] == log;
      BalanceIsReadiness(n, k - 1, p);
      PrefixInOrder(n, k - 1);
      PrefixInOrder(n, k);
      NextReady(log, ev, p);
      BalanceOfCall(CallsFor(log, p), ev, p);
    }
  }

  lemma BalanceOfTwo(done: seq<Activity.Call>, pc: Activity.Pc)
    requires !pc.Idle?
    ensures Activity.Balance(done + Activity.Counted(pc.call)) == Activity.Balance(done) + Activity.Delta(pc.call)
    ensures Activity.Balance(Activity.Counted(pc.call)) == Activity.Delta(pc.call)
  {
    Activity.BalanceSnoc(done, pc.call);
    Activity.BalanceSnoc([], pc.call);
    assert [] + Activity.Counted(pc.call) == Activity.Counted(pc.call);
  }

  lemma RunningBalance(r: Activity.State, program: seq<Activity.Call>, loop: Activity.Thread)
    requires program == r.finished + Activity.Running(r, loop) && r.cell.count == Activity.Balance(r.finished)
    ensures r.cell.count + Activity.Balance(Activity.Running(r, loop)) == Activity.Balance(program)
  {
    var pc := Activity.PcOf(r, loop);
    if pc.Idle? {
      assert program == r.finished;
    } else {
      BalanceOfTwo(r.finished, pc);
    }
  }

  lemma HandledBalance(local: PeerId, acts: seq<Act>, k: nat, p: PeerId)
    requires PairLegal(local, acts) && k <= |PairExec(local, acts).node.events|
    ensures var log := PairExec(local, acts).node.events[..k];
            Activity.Balance(CallsFor(log, p)) == |ReadyWorlds(log, p)|
  {
    PairAlways(local, acts);
    BalanceIsReadiness(PairExec(local, acts).node, k, p);
  }

  lemma RecordFollows(now: int, steps: seq<Activity.Act>, loop: Activity.Thread)
    requires Activity.Possible(now, steps) && Activity.OnlyRenews(steps, loop)
    requires Activity.Balance(Activity.Program(steps, loop)) >= 0
    ensures var r := Activity.Run(now, steps);
            && r.cell.count + Activity.Balance(Activity.Running(r, loop)) == Activity.Balance(Activity.Program(steps, loop))
            && !r.panicked && forall t :: !Activity.Step(r, Activity.Load(t)).panicked
  {
    var r := Activity.Run(now, steps);
    Activity.HostRun(now, steps, loop);
    RunningBalance(r, Activity.Program(steps, loop), loop);
    forall t ensures !r.panicked && !Activity.Step(r, Activity.Load(t)).panicked {
      LoadIsSafe(r, loop, t);
    }
  }

  /** A Deactivate of the loop that is about to load finds a positive count. */
  lemma LoadIsSafe(r: Activity.State, loop: Activity.Thread, t: Activity.Thread)
    requires t != loop ==> Activity.Renewing(Activity.PcOf(r, t))
    requires r.cell.count + Activity.Balance(Activity.Running(r, loop)) >= 0
    requires r.panicked ==> Activity.PcOf(r, loop) == Activity.Loading(Activity.Deactivate) && r.cell.count == 0
    ensures !r.panicked && !Activity.Step(r, Activity.Load(t)).panicked
  {
    var pc := Activity.PcOf(r, loop);
    if !pc.Idle? { BalanceOfTwo([], pc); }
  }

  /**
   In every run of AND and the host, and in every interleaving in which the event loop has made the calls of
   the first k events on p's record while other threads only renew it: nothing panics, and the record counts
   the worlds p is ready in, but for the call that is still running.
   */
  lemma RecordIsReadiness(local: PeerId, acts: seq<Act>, k: nat, p: PeerId, now: int, steps: seq<Activity.Act>, loop: Activity.Thread)
    requires PairLegal(local, acts) && k <= |PairExec(local, acts).node.events|
    requires Activity.Possible(now, steps) && Activity.OnlyRenews(steps, loop)
    requires Activity.Program(steps, loop) == CallsFor(PairExec(local, acts).node.events[..k], p)
    ensures var r := Activity.Run(now, steps);
            var ready := ReadyWorlds(PairExec(local, acts).node.events[..k], p);
            && !r.panicked
            && r.cell.count + Activity.Balance(Activity.Running(r, loop)) == |ready|
            && (Activity.PcOf(r, loop).Idle? ==> r.cell.count == |ready|)
    ensures forall t :: !Activity.Step(Activity.Run(now, steps), Activity.Load(t)).panicked
    ensures var s, r := PairExec(local, acts), Activity.Run(now, steps);
            k == s.done && !s.host.fault && Activity.PcOf(r, loop).Idle? ==> r.cell.count == ActiveCount(s.host, p)
  {
    var s, r := PairExec(local, acts), Activity.Run(now, steps);
    HandledBalance(local, acts, k, p);
    RecordFollows(now, steps, loop);
    if !s.host.fault { ActivityIsReadiness(local, acts, p); }
  }
}
