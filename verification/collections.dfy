/** Facts about the small integer sequences both schedulers keep: lists of
    process indices (ready queue contents, sleep list) and columns of process
    states. */
module Collections {

  /** No index occurs twice. */
  predicate Distinct(xs: seq<int>) {
    forall i, j :: 0 <= i < j < |xs| ==> xs[i] != xs[j]
  }

  /** Every entry is a valid index into a table of `n` entries. */
  predicate InRange(xs: seq<int>, n: int) {
    forall x :: x in xs ==> 0 <= x < n
  }

  /** Number of occurrences of `v` in `xs`. */
  function Count<T(==)>(xs: seq<T>, v: T): (n: nat)
    ensures n <= |xs|
    ensures n == 0 <==> v !in xs
    ensures n == |xs| <==> forall i :: 0 <= i < |xs| ==> xs[i] == v
  {
    if xs == [] then 0
    else
      assert forall i :: 1 <= i < |xs| ==> xs[i] == xs[1..][i - 1];
      (if xs[0] == v then 1 else 0) + Count(xs[1..], v)
  }

  /** Overwriting one position moves the count by at most one, in the
      direction the old and new values dictate. */
  lemma {:induction false} CountUpdate<T>(xs: seq<T>, i: int, x: T, v: T)
    requires 0 <= i < |xs|
    ensures Count(xs[i := x], v)
            == Count(xs, v) - (if xs[i] == v then 1 else 0) + (if x == v then 1 else 0)
  {
    if i == 0 {
      assert xs[i := x][1..] == xs[1..];
    } else {
      CountUpdate(xs[1..], i - 1, x, v);
      assert xs[i := x][1..] == xs[1..][i - 1 := x];
    }
  }

  /** Two columns that agree, position by position, on whether they hold `v`
      hold it equally often. */
  lemma {:induction false} CountSame<T>(xs: seq<T>, ys: seq<T>, v: T)
    requires |xs| == |ys|
    requires forall i :: 0 <= i < |xs| ==> (xs[i] == v <==> ys[i] == v)
    ensures Count(xs, v) == Count(ys, v)
  {
    if xs != [] {
      assert forall i :: 1 <= i < |xs| ==> xs[1..][i - 1] == xs[i] && ys[1..][i - 1] == ys[i];
      CountSame(xs[1..], ys[1..], v);
    }
  }

  /** Appending a fresh element keeps a list duplicate-free, and nothing else does. */
  lemma DistinctAppend(xs: seq<int>, x: int)
    ensures Distinct(xs + [x]) <==> Distinct(xs) && x !in xs
  {
    assert forall i :: 0 <= i < |xs| ==> (xs + [x])[i] == xs[i];
    if x in xs {
      var k :| 0 <= k < |xs| && xs[k] == x;
      assert (xs + [x])[k] == (xs + [x])[|xs|];
    }
  }

  /** A concatenation is duplicate-free exactly when both parts are and they
      share no entry. */
  lemma DistinctConcat(xs: seq<int>, ys: seq<int>)
    ensures Distinct(xs + ys) <==> Distinct(xs) && Distinct(ys) && forall x :: x in xs ==> x !in ys
  {
    var zs := xs + ys;
    assert forall i :: 0 <= i < |xs| ==> zs[i] == xs[i];
    assert forall i :: 0 <= i < |ys| ==> zs[|xs| + i] == ys[i];
    if Distinct(xs) && Distinct(ys) && forall x :: x in xs ==> x !in ys {
      forall i, j | 0 <= i < j < |zs|
        ensures zs[i] != zs[j]
      {
        if j >= |xs| && i < |xs| {
          assert zs[i] in xs && zs[j] in ys;
        }
      }
    }
  }

  /** `xs` with every occurrence of `x` removed, the others kept in order. */
  function Without(xs: seq<int>, x: int): (ys: seq<int>)
    ensures forall y :: y in ys <==> y in xs && y != x
    ensures |ys| <= |xs|
    ensures x !in xs ==> ys == xs
    ensures Distinct(xs) ==> Distinct(ys)
    ensures Distinct(xs) && x in xs ==> |ys| == |xs| - 1
  {
    if xs == [] then []
    else
      assert xs == [xs[0]] + xs[1..];
      if xs[0] == x then Without(xs[1..], x)
      else
        var rest := Without(xs[1..], x);
        assert Distinct(xs) ==> xs[0] !in xs[1..];
        assert forall i :: 1 <= i < |[xs[0]] + rest| ==> ([xs[0]] + rest)[i] == rest[i - 1];
        [xs[0]] + rest
  }

  /** Pigeonhole: a duplicate-free list of indices below `n` has at most `n`
      entries. This is what keeps the schedulers' bounded queues from
      overflowing. */
  lemma {:induction false} DistinctBound(xs: seq<int>, n: nat)
    requires Distinct(xs) && InRange(xs, n)
    ensures |xs| <= n
    decreases n
  {
    if xs != [] {
      assert xs[0] in xs;
      var ys := Without(xs, n - 1);
      DistinctBound(ys, n - 1);
    }
  }

  /** Dropping the head of a duplicate-free queue removes exactly that entry. */
  lemma TailMembers(q: seq<int>)
    requires q != [] && Distinct(q)
    ensures Distinct(q[1..])
    ensures forall x :: x in q[1..] <==> x in q && x != q[0]
  {
    forall x | x in q && x != q[0]
      ensures x in q[1..]
    {
      var j :| 0 <= j < |q| && q[j] == x;
      assert q[1..][j - 1] == x;
    }
    forall x | x in q[1..]
      ensures x != q[0]
    {
      var j :| 0 <= j < |q[1..]| && q[1..][j] == x;
      assert q[j + 1] == x;
    }
  }

  /** `0, 1, ..., n-1`: each index once, in order. */
  lemma Identity(q: seq<int>, n: nat)
    requires q == seq(n, j => j)
    ensures Distinct(q) && InRange(q, n)
    ensures forall j :: 0 <= j < n ==> j in q
    ensures 0 < n ==> q[0] == 0 && q[1..] == seq(n - 1, j => j + 1)
  {
    forall j | 0 <= j < n
      ensures j in q
    {
      assert q[j] == j;
    }
  }
}
