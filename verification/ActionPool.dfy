/**
 tools/dacp: a pool of actions, some of which wait for another action (their
 precursor) to be taken out first.
 */
module ActionPool {

  datatype Action = Action(id: int, precursor: int)

  datatype Pool = Pool(ready: seq<Action>, pending: seq<Action>)

  predicate HasId(s: seq<Action>, id: int) {
    exists i :: 0 <= i < |s| && s[i].id == id
  }

  function Freed(s: seq<Action>, id: int): seq<Action> {
    if s == [] then [] else Freed(s[..|s| - 1], id) + if s[|s| - 1].precursor == id then [s[|s| - 1]] else []
  }

  function Held(s: seq<Action>, id: int): seq<Action> {
    if s == [] then [] else Held(s[..|s| - 1], id) + if s[|s| - 1].precursor == id then [] else [s[|s| - 1]]
  }

  function Without(s: seq<Action>, i: nat): seq<Action>
    requires i < |s|
  {
    s[..i] + s[i + 1..]
  }

  function Pop(p: Pool, i: nat): Pool
    requires i < |p.ready|
  {
    Pool(Without(p.ready, i) + Freed(p.pending, p.ready[i].id), Held(p.pending, p.ready[i].id))
  }

  function Add(p: Pool, a: Action): Pool {
    if HasId(p.ready, a.precursor) || HasId(p.pending, a.precursor) then p.(pending := p.pending + [a])
    else p.(ready := p.ready + [a])
  }

  function Size(p: Pool): nat {
    |p.ready| + |p.pending|
  }

  function Pooled(p: Pool): multiset<Action> {
    multiset(p.ready) + multiset(p.pending)
  }

  // ---- the pool as the program keeps it ----

  class DiscreteActionPool {
    var ready: seq<Action>
    var pending: seq<Action>

    ghost function View(): Pool
      reads this
    {
      Pool(ready, pending)
    }

    constructor ()
      ensures View() == Pool([], [])
    {
      ready, pending := [], [];
    }

    method PopAction(index: nat) returns (result: Action)
      requires index < |ready|
      modifies this
      ensures result == old(ready[index]) && View() == Pop(old(View()), index)
    {
      result := ready[index];
      ready := ready[..index] + ready[index + 1..];
      var still := [];
      ghost var kept := ready;
      var i := 0;
      while i < |pending|
        invariant i <= |pending| && pending == old(pending)
        invariant ready == kept + Freed(pending[..i], result.id)
        invariant still == Held(pending[..i], result.id)
      {
        assert pending[..i + 1][..i] == pending[..i];
        if pending[i].precursor == result.id {
          ready := ready + [pending[i]];
        } else {
          still := still + [pending[i]];
        }
        i := i + 1;
      }
      assert pending[..i] == pending;
      pending := still;
    }

    method Search(s: seq<Action>, id: int) returns (found: bool)
      ensures found <==> HasId(s, id)
    {
      var i := 0;
      while i < |s| && s[i].id != id
        invariant i <= |s| && forall j :: 0 <= j < i ==> s[j].id != id
      {
        i := i + 1;
      }
      found := i < |s|;
    }

    method AddAction(a: Action) returns (id: int)
      modifies this
      ensures id == a.id && View() == Add(old(View()), a)
    {
      id := a.id;
      var inReady := Search(ready, a.precursor);
      if inReady {
        pending := pending + [a];
        return;
      }
      var inPending := Search(pending, a.precursor);
      if inPending {
        pending := pending + [a];
        return;
      }
      ready := ready + [a];
    }

    /** Popping as long as something is ready, always the last: ends after exactly Size pops with nothing left. */
    method Drain() returns (taken: seq<Action>)
      requires Fed(View())
      modifies this
      ensures View() == Pool([], []) && |taken| == old(Size(View())) && multiset(taken) == old(Pooled(View()))
    {
      taken := [];
      ghost var p0 := View();
      ghost var p := p0;
      AccountStart(p0);
      while |ready| != 0
        invariant View() == p && Account(p, taken, p0)
        decreases |ready| + |pending|
      {
        ghost var i := |ready| - 1;
        AccountStep(p, taken, p0, i);
        PopConserves(p, i);
        var a := PopAction(|ready| - 1);
        p, taken := Pop(p, i), taken + [a];
      }
      AccountEnd(p, taken, p0);
    }
  }

  // ---- one step ----

  /** Every pending action waits for one that is ready or stands earlier in the pending list. */
  ghost predicate Fed(p: Pool) {
    forall i :: 0 <= i < |p.pending| ==> HasId(p.ready, p.pending[i].precursor) || HasId(p.pending[..i], p.pending[i].precursor)
  }

  lemma PendingNeedsReady(p: Pool)
    requires Fed(p)
    ensures p.ready == [] ==> p.pending == []
  {
    if p.pending != [] { assert p.pending[..0] == []; }
  }

  lemma {:induction false} FreedAndHeldCount(s: seq<Action>, id: int)
    ensures multiset(Freed(s, id)) + multiset(Held(s, id)) == multiset(s)
    ensures |Freed(s, id)| + |Held(s, id)| == |s|
    decreases |s|
  {
    if s != [] {
      var init, x := s[..|s| - 1], s[|s| - 1];
      FreedAndHeldCount(init, id);
      assert s == init + [x];
      if x.precursor == id {
        assert Freed(s, id) == Freed(init, id) + [x] && Held(s, id) == Held(init, id);
      } else {
        assert Freed(s, id) == Freed(init, id) && Held(s, id) == Held(init, id) + [x];
      }
    }
  }

  lemma {:induction false} FreedAndHeld(s: seq<Action>, id: int)
    ensures forall x :: x in Freed(s, id) <==> x in s && x.precursor == id
    ensures forall x :: x in Held(s, id) <==> x in s && x.precursor != id
    decreases |s|
  {
    if s != [] {
      FreedAndHeld(s[..|s| - 1], id);
      assert forall x :: x in s <==> x in s[..|s| - 1] || x == s[|s| - 1];
    }
  }

  lemma WithoutCount(s: seq<Action>, i: nat)
    requires i < |s|
    ensures multiset(Without(s, i)) + multiset{s[i]} == multiset(s)
  {
    assert s == s[..i] + [s[i]] + s[i + 1..];
  }

  lemma PopConserves(p: Pool, i: nat)
    requires i < |p.ready|
    ensures Pooled(Pop(p, i)) + multiset{p.ready[i]} == Pooled(p) && Size(Pop(p, i)) + 1 == Size(p)
  {
    FreedAndHeldCount(p.pending, p.ready[i].id);
    WithoutCount(p.ready, i);
  }

  lemma AddConserves(p: Pool, a: Action)
    ensures Pooled(Add(p, a)) == Pooled(p) + multiset{a} && Size(Add(p, a)) == Size(p) + 1
  {
  }

  lemma HasIdOf(s: seq<Action>, x: Action)
    requires x in s
    ensures HasId(s, x.id)
  {
  }

  /** The pending prefix that is still pending comes from the pending prefix before. */
  lemma {:induction false} HeldPrefix(s: seq<Action>, id: int, k: nat) returns (j: nat)
    requires k < |Held(s, id)|
    ensures j < |s| && s[j] == Held(s, id)[k] && Held(s[..j], id) == Held(s, id)[..k]
    decreases |s|
  {
    var init := s[..|s| - 1];
    if k < |Held(init, id)| {
      j := HeldPrefix(init, id, k);
      assert init[..j] == s[..j];
    } else {
      j := |s| - 1;
    }
  }

  lemma PopFeeds(p: Pool, i: nat)
    requires Fed(p) && i < |p.ready|
    ensures Fed(Pop(p, i))
  {
    var id, q := p.ready[i].id, Pop(p, i);
    FreedAndHeld(p.pending, id);
    forall k | 0 <= k < |q.pending| ensures HasId(q.ready, q.pending[k].precursor) || HasId(q.pending[..k], q.pending[k].precursor) {
      var j := HeldPrefix(p.pending, id, k);
      var b := p.pending[j];
      assert b in q.pending;
      if HasId(p.ready, b.precursor) {
        var r :| 0 <= r < |p.ready| && p.ready[r].id == b.precursor;
        assert p.ready[r] in Without(p.ready, i) by {
          assert if r < i then Without(p.ready, i)[r] == p.ready[r] else Without(p.ready, i)[r - 1] == p.ready[r];
        }
        HasIdOf(q.ready, p.ready[r]);
      } else {
        var r :| 0 <= r < j && p.pending[..j][r].id == b.precursor;
        var x := p.pending[r];
        FreedAndHeld(p.pending[..j], id);
        assert x in p.pending[..j];
        if x.precursor == id {
          HasIdOf(q.ready, x);
        } else {
          HasIdOf(q.pending[..k], x);
        }
      }
    }
  }

  lemma AddFeeds(p: Pool, a: Action)
    requires Fed(p)
    ensures Fed(Add(p, a))
  {
    var q := Add(p, a);
    forall k | 0 <= k < |q.pending| ensures HasId(q.ready, q.pending[k].precursor) || HasId(q.pending[..k], q.pending[k].precursor) {
      if k < |p.pending| {
        assert q.pending[..k] == p.pending[..k];
        if HasId(p.ready, p.pending[k].precursor) {
          var r :| 0 <= r < |p.ready| && p.ready[r].id == p.pending[k].precursor;
          assert q.ready[r] == p.ready[r];
        }
      } else {
        assert q.pending[..k] == p.pending;
      }
    }
  }

  /** What has been taken out of p0 on the way to p. */
  ghost predicate Account(p: Pool, taken: seq<Action>, p0: Pool) {
    Fed(p) && |taken| + Size(p) == Size(p0) && multiset(taken) + Pooled(p) == Pooled(p0)
  }

  lemma AccountStart(p: Pool)
    requires Fed(p)
    ensures Account(p, [], p)
  {
  }

  lemma AccountEnd(p: Pool, taken: seq<Action>, p0: Pool)
    requires Account(p, taken, p0) && p.ready == []
    ensures p == Pool([], []) && |taken| == Size(p0) && multiset(taken) == Pooled(p0)
  {
    PendingNeedsReady(p);
  }

  lemma AccountStep(p: Pool, taken: seq<Action>, p0: Pool, i: nat)
    requires Account(p, taken, p0) && i < |p.ready|
    ensures Account(Pop(p, i), taken + [p.ready[i]], p0)
  {
    PopConserves(p, i);
    PopFeeds(p, i);
  }

  // ---- runs ----

  datatype Op = AddOp(action: Action) | PopOp(index: nat)

  datatype State = State(pool: Pool, added: seq<Action>, popped: seq<Action>)

  function Step(s: State, op: Op): State {
    match op
    case AddOp(a) => State(Add(s.pool, a), s.added + [a], s.popped)
    case PopOp(i) => if i < |s.pool.ready| then State(Pop(s.pool, i), s.added, s.popped + [s.pool.ready[i]]) else s
  }

  function Run(ops: seq<Op>): State {
    if ops == [] then State(Pool([], []), [], []) else Step(Run(ops[..|ops| - 1]), ops[|ops| - 1])
  }

  /** The counter that numbers actions never repeats an id. */
  ghost predicate FreshIds(added: seq<Action>) {
    forall i, j :: 0 <= i < j < |added| ==> added[i].id != added[j].id
  }

  /** In every run the added actions are those popped and those still pooled, and no wait is stuck. */
  lemma {:induction false} NothingIsLost(ops: seq<Op>)
    ensures var s := Run(ops);
            && multiset(s.added) == Pooled(s.pool) + multiset(s.popped)
            && Fed(s.pool) && (s.pool.ready == [] ==> s.pool.pending == [])
    decreases |ops|
  {
    if ops != [] {
      var s, op := Run(ops[..|ops| - 1]), ops[|ops| - 1];
      NothingIsLost(ops[..|ops| - 1]);
      if op.AddOp? {
        AddConserves(s.pool, op.action);
        AddFeeds(s.pool, op.action);
      } else if op.index < |s.pool.ready| {
        PopConserves(s.pool, op.index);
        PopFeeds(s.pool, op.index);
      }
    }
    PendingNeedsReady(Run(ops).pool);
  }

  /** b is still held back, or its precursor was popped, and before b. */
  ghost predicate InOrder(s: State, b: Action) {
    || b in s.pool.pending
    || exists i :: 0 <= i < |s.popped| && s.popped[i].id == b.precursor && b !in s.popped[..i + 1]
  }

  lemma {:induction false} OneOfEach(added: seq<Action>, x: Action)
    requires FreshIds(added)
    ensures multiset(added)[x] <= 1
    decreases |added|
  {
    if added != [] {
      OneOfEach(added[..|added| - 1], x);
      assert added == added[..|added| - 1] + [added[|added| - 1]];
    }
  }

  lemma {:induction false} AddedGrows(ops: seq<Op>, k: nat)
    requires k <= |ops|
    ensures Run(ops[..k]).added <= Run(ops).added
    decreases |ops|
  {
    if k == |ops| {
      assert ops[..k] == ops;
    } else {
      assert ops[..|ops| - 1][..k] == ops[..k];
      AddedGrows(ops[..|ops| - 1], k);
    }
  }

  lemma OnlyPending(s: State, b: Action, i: nat)
    requires multiset(s.added) == Pooled(s.pool) + multiset(s.popped) && multiset(s.added)[b] <= 1
    requires b in s.pool.pending && i < |s.pool.ready|
    ensures b !in s.popped && b != s.pool.ready[i]
  {
    assert b in multiset(s.pool.pending);
    assert b in s.popped ==> b in multiset(s.popped);
    assert s.pool.ready[i] in multiset(s.pool.ready);
  }

  lemma PopStaysInOrder(s: State, b: Action, i: nat)
    requires i < |s.pool.ready| && InOrder(s, b)
    requires b in s.pool.pending ==> b !in s.popped && b != s.pool.ready[i]
    ensures InOrder(Step(s, PopOp(i)), b)
  {
    var x := s.pool.ready[i];
    var t := Step(s, PopOp(i));
    FreedAndHeld(s.pool.pending, x.id);
    if b in s.pool.pending {
      if b.precursor == x.id {
        assert t.popped[|s.popped|] == x && t.popped[..|s.popped| + 1] == s.popped + [x];
      }
    } else {
      var j :| 0 <= j < |s.popped| && s.popped[j].id == b.precursor && b !in s.popped[..j + 1];
      assert t.popped[..j + 1] == s.popped[..j + 1] && t.popped[j] == s.popped[j];
    }
  }

  /** An action added while its precursor was in the pool is never popped before it. */
  lemma {:induction false} PrecursorFirst(ops: seq<Op>, k: nat)
    requires k < |ops| && ops[k].AddOp? && FreshIds(Run(ops).added)
    requires var p := Run(ops[..k]).pool; HasId(p.ready, ops[k].action.precursor) || HasId(p.pending, ops[k].action.precursor)
    ensures InOrder(Run(ops), ops[k].action)
    decreases |ops|
  {
    var init, op, b := ops[..|ops| - 1], ops[|ops| - 1], ops[k].action;
    var s := Run(init);
    if k < |init| {
      assert init[..k] == ops[..k];
      AddedGrows(ops, |init|);
      PrecursorFirst(init, k);
      if op.PopOp? && op.index < |s.pool.ready| {
        NothingIsLost(init);
        OneOfEach(s.added, b);
        if b in s.pool.pending { OnlyPending(s, b, op.index); }
        PopStaysInOrder(s, b, op.index);
      }
    }
  }

  /** Popping at these positions, one after the other, leads from p to q. */
  ghost predicate Pops(p: Pool, positions: seq<nat>, q: Pool)
    decreases |positions|
  {
    if positions == [] then q == p
    else positions[0] < |p.ready| && Pops(Pop(p, positions[0]), positions[1..], q)
  }

  /** Whichever ready actions are taken, a pool is empty after exactly as many pops as it held actions. */
  lemma {:induction false} PopsDrain(p: Pool, positions: seq<nat>, q: Pool)
    requires Fed(p) && Pops(p, positions, q)
    ensures |positions| + Size(q) == Size(p)
    ensures q.ready == [] <==> |positions| == Size(p)
    decreases |positions|
  {
    if positions == [] {
      PendingNeedsReady(p);
    } else {
      PopConserves(p, positions[0]);
      PopFeeds(p, positions[0]);
      PopsDrain(Pop(p, positions[0]), positions[1..], q);
    }
  }
}
