/** Finite decision trees and the order in which their leaves are searched. */
module DecisionTree {
  import opened Prelude

  datatype Tree = Tree(kids: seq<Tree>)

  type Path = seq<nat>

  predicate IsPath(t: Tree, p: Path)
    decreases |p|
  {
    p == [] || (p[0] < |t.kids| && IsPath(t.kids[p[0]], p[1..]))
  }

  function Sub(t: Tree, p: Path): Tree
    requires IsPath(t, p)
    decreases |p|
  {
    if p == [] then t else Sub(t.kids[p[0]], p[1..])
  }

  /** A complete scenario: a path from the root to a leaf. */
  predicate IsLeaf(t: Tree, p: Path) {
    IsPath(t, p) && Sub(t, p).kids == []
  }

  /** Lexicographic order; a path does not precede its own extensions. */
  predicate Before(p: Path, q: Path)
    decreases |p|
  {
    p != [] && q != [] && (p[0] < q[0] || (p[0] == q[0] && Before(p[1..], q[1..])))
  }

  function First(t: Tree): (p: Path)
    ensures IsLeaf(t, p)
  {
    if t.kids == [] then [] else [0] + First(t.kids[0])
  }

  /** The leaf that follows p, if any. */
  function Next(t: Tree, p: Path): (r: Option<Path>)
    requires IsLeaf(t, p)
    ensures r.Some? ==> IsLeaf(t, r.value) && Before(p, r.value)
    decreases |p|
  {
    if p == [] then None
    else
      var i := p[0];
      var r := Next(t.kids[i], p[1..]);
      if r.Some? then Some([i] + r.value)
      else if i + 1 < |t.kids| then Some([i + 1] + First(t.kids[i + 1]))
      else None
  }

  // ---- number of leaves ----

  function Count(t: Tree): nat
    ensures Count(t) >= 1
    decreases t, |t.kids| + 2
  {
    if t.kids == [] then 1 else CountFrom(t, 0)
  }

  function CountFrom(t: Tree, i: nat): nat
    requires i <= |t.kids|
    ensures i < |t.kids| ==> CountFrom(t, i) >= 1
    decreases t, |t.kids| - i + 1
  {
    if i == |t.kids| then 0 else Count(t.kids[i]) + CountFrom(t, i + 1)
  }

  /** Leaves that come after p. */
  function Remaining(t: Tree, p: Path): nat
    requires IsLeaf(t, p)
    decreases |p|
  {
    if p == [] then 0 else Remaining(t.kids[p[0]], p[1..]) + CountFrom(t, p[0] + 1)
  }

  lemma {:induction false} FirstRemaining(t: Tree)
    ensures Remaining(t, First(t)) + 1 == Count(t)
    decreases t
  {
    if t.kids != [] { FirstRemaining(t.kids[0]); }
  }

  lemma {:induction false} NextRemaining(t: Tree, p: Path)
    requires IsLeaf(t, p)
    ensures Next(t, p).Some? <==> Remaining(t, p) > 0
    ensures Next(t, p).Some? ==> Remaining(t, Next(t, p).value) == Remaining(t, p) - 1
    decreases |p|
  {
    if p != [] {
      var i := p[0];
      NextRemaining(t.kids[i], p[1..]);
      if Next(t.kids[i], p[1..]).None? && i + 1 < |t.kids| { FirstRemaining(t.kids[i + 1]); }
    }
  }

  // ---- every leaf is reached ----

  lemma {:induction false} FirstIsFirst(t: Tree, q: Path)
    requires IsLeaf(t, q)
    ensures q == First(t) || Before(First(t), q)
    decreases |q|
  {
    if q != [] && q[0] == 0 {
      FirstIsFirst(t.kids[0], q[1..]);
      assert q == [0] + q[1..];
    }
  }

  /** Nothing lies between a leaf and the next one. */
  lemma {:induction false} NextIsNext(t: Tree, p: Path, q: Path)
    requires IsLeaf(t, p) && IsLeaf(t, q) && Before(p, q)
    ensures Next(t, p).Some? && (q == Next(t, p).value || Before(Next(t, p).value, q))
    decreases |p|
  {
    var i := p[0];
    if q[0] == i {
      NextIsNext(t.kids[i], p[1..], q[1..]);
    } else if Next(t.kids[i], p[1..]).None? && q[0] == i + 1 {
      FirstIsFirst(t.kids[i + 1], q[1..]);
    }
  }

  lemma {:induction false} LeavesCompare(t: Tree, p: Path, q: Path)
    requires IsLeaf(t, p) && IsLeaf(t, q)
    ensures p == q || Before(p, q) || Before(q, p)
    decreases |p|
  {
    if p != [] && q != [] && p[0] == q[0] {
      LeavesCompare(t.kids[p[0]], p[1..], q[1..]);
      if p[1..] == q[1..] { assert p == [p[0]] + p[1..] && q == [q[0]] + q[1..]; }
    }
  }

  lemma {:induction false} BeforeTrans(p: Path, q: Path, r: Path)
    requires Before(p, q) && Before(q, r)
    ensures Before(p, r)
    decreases |p|
  {
    if p[0] == q[0] == r[0] { BeforeTrans(p[1..], q[1..], r[1..]); }
  }

  lemma {:induction false} BeforeIrreflexive(p: Path)
    ensures !Before(p, p)
    decreases |p|
  {
    if p != [] { BeforeIrreflexive(p[1..]); }
  }

  // ---- what moving on to the next leaf completes ----

  /** Everything below p has been searched when the next leaf is `next`. */
  predicate Passed(next: Option<Path>, p: Path) {
    next.None? || Before(p, next.value)
  }

  /** Every step of the path takes the last branch. */
  predicate AllLast(t: Tree, p: Path)
    requires IsPath(t, p)
    decreases |p|
  {
    p == [] || (p[0] + 1 == |t.kids| && AllLast(t.kids[p[0]], p[1..]))
  }

  lemma {:induction false} NoNextMeansLast(t: Tree, p: Path)
    requires IsLeaf(t, p)
    ensures Next(t, p).None? <==> AllLast(t, p)
    decreases |p|
  {
    if p != [] { NoNextMeansLast(t.kids[p[0]], p[1..]); }
  }

  lemma {:induction false} SubPath(t: Tree, p: Path, q: Path)
    requires IsPath(t, p) && p <= q
    ensures IsPath(t, q) <==> IsPath(Sub(t, p), q[|p|..])
    ensures IsPath(t, q) ==> Sub(t, q) == Sub(Sub(t, p), q[|p|..])
    decreases |p|
  {
    if p == [] {
      assert q[0..] == q;
    } else {
      assert p[1..] <= q[1..];
      assert q[1..][|p| - 1..] == q[|p|..];
      SubPath(t.kids[p[0]], p[1..], q[1..]);
    }
  }

  lemma {:induction false} NothingBeforeFirst(t: Tree, p: Path)
    requires IsPath(t, p)
    ensures !Before(p, First(t))
    decreases |p|
  {
    if p != [] && p[0] == 0 { NothingBeforeFirst(t.kids[0], p[1..]); }
  }

  /** Moving on from leaf q completes exactly the prefixes of q below which q was the last leaf. */
  lemma {:induction false} MovingOn(t: Tree, q: Path, p: Path)
    requires IsLeaf(t, q) && IsPath(t, p) && p != []
    ensures Passed(Next(t, q), p) <==>
            Before(p, q) || (p <= q && IsPath(Sub(t, p), q[|p|..]) && AllLast(Sub(t, p), q[|p|..]))
    decreases |p|
  {
    var i := p[0];
    NoNextMeansLast(t, q);
    if q != [] {
      var r := Next(t.kids[q[0]], q[1..]);
      if i == q[0] {
        assert p <= q <==> p[1..] <= q[1..];
        assert p <= q ==> q[|p|..] == q[1..][|p| - 1..];
        if |p| > 1 {
          MovingOn(t.kids[i], q[1..], p[1..]);
        } else {
          assert p == [i] && p[1..] == [];
          assert Sub(t, p) == Sub(t.kids[i], p[1..]) == t.kids[i];
          NoNextMeansLast(t.kids[i], q[1..]);
          assert p <= q && q[|p|..] == q[1..];
          assert AllLast(Sub(t, p), q[|p|..]) <==> r.None?;
          assert !Before(p, q);
          if r.Some? {
            var n := [i] + r.value;
            assert Next(t, q) == Some(n) && n[0] == i && !Before(p[1..], n[1..]);
          } else if i + 1 < |t.kids| {
            assert Next(t, q).value[0] == i + 1;
          }
        }
      } else if r.None? && q[0] + 1 < |t.kids| && i == q[0] + 1 {
        NothingBeforeFirst(t.kids[i], p[1..]);
      }
    }
  }

  lemma {:induction false} FirstFrom(t: Tree, p: Path)
    requires p <= First(t)
    ensures IsPath(t, p) && First(t)[|p|..] == First(Sub(t, p))
    decreases |p|
  {
    if p == [] {
      assert First(t)[0..] == First(t);
    } else {
      assert First(t)[1..] == First(t.kids[0]);
      FirstFrom(t.kids[0], p[1..]);
      assert First(t)[|p|..] == First(t)[1..][|p| - 1..];
    }
  }

  /** Below the point where it leaves the path to q, the leaf after q takes first branches only. */
  lemma {:induction false} NextFirst(t: Tree, q: Path, p: Path)
    requires IsLeaf(t, q) && Next(t, q).Some? && p <= Next(t, q).value && !(p <= q)
    ensures IsPath(t, p) && Next(t, q).value[|p|..] == First(Sub(t, p))
    decreases |p|
  {
    var i, n := q[0], Next(t, q).value;
    var r := Next(t.kids[i], q[1..]);
    assert n[|p|..] == n[1..][|p| - 1..];
    if r.Some? {
      assert n[1..] == r.value;
      assert !(p[1..] <= q[1..]);
      NextFirst(t.kids[i], q[1..], p[1..]);
    } else {
      assert n[1..] == First(t.kids[i + 1]);
      FirstFrom(t.kids[i + 1], p[1..]);
    }
  }
}
