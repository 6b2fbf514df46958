/** Small shared vocabulary: durations that may be unbounded, the Python errors the
    core raises, Python-style list indexing and a few folds over reals. */
module Common {

  /** A duration or bound that may be Python's `math.inf`. */
  datatype Ext = Fin(value: real) | Inf

  /** `a <= b` on extended reals. */
  predicate ExtLe(a: Ext, b: Ext) {
    match (a, b)
    case (_, Inf) => true
    case (Inf, Fin(_)) => false
    case (Fin(x), Fin(y)) => x <= y
  }

  /** `min(a, b)` where `b` may be infinite; the result is finite. */
  function MinFin(a: real, b: Ext): (r: real)
    ensures r <= a && ExtLe(Fin(r), b)
    ensures r == a || b == Fin(r)
  {
    match b
    case Inf => a
    case Fin(y) => if a <= y then a else y
  }

  function ExtMin(a: Ext, b: Ext): (r: Ext)
    ensures ExtLe(r, a) && ExtLe(r, b)
    ensures r == a || r == b
  {
    match a
    case Inf => b
    case Fin(x) => Fin(MinFin(x, b))
  }

  function ExtMax(a: Ext, b: Ext): (r: Ext)
    ensures ExtLe(a, r) && ExtLe(b, r)
    ensures r == a || r == b
  {
    match (a, b)
    case (Inf, _) => Inf
    case (_, Inf) => Inf
    case (Fin(x), Fin(y)) => Fin(Max(x, y))
  }

  /** `a - x` for a finite `x`; infinity absorbs it. */
  function ExtSub(a: Ext, x: real): Ext {
    match a
    case Inf => Inf
    case Fin(y) => Fin(y - x)
  }

  /** `a / n` for a positive integer `n`; infinity absorbs it. */
  function ExtDiv(a: Ext, n: int): Ext
    requires n > 0
  {
    match a
    case Inf => Inf
    case Fin(y) => Fin(y / (n as real))
  }

  function Max(a: real, b: real): (r: real)
    ensures a <= r && b <= r && (r == a || r == b)
  {
    if a >= b then a else b
  }

  function Min(a: real, b: real): (r: real)
    ensures r <= a && r <= b && (r == a || r == b)
  {
    if a <= b then a else b
  }

  /** The exceptions the modelled code can raise. */
  datatype Error = IndexError | KeyError | ValueError | ZeroDivisionError

  datatype Option<+T> = None | Some(value: T) {
    function GetOr(default: T): T {
      match this
      case Some(v) => v
      case None => default
    }
  }

  datatype Result<+T> = Ok(value: T) | Err(error: Error)

  /** Result of an operation that returns nothing (Python `None`) or raises. */
  datatype Outcome = Pass | Fail(error: Error)

  /** Python's `xs[i]` for a list of length `n`: negative indices count from the end;
      anything outside `-n <= i < n` raises IndexError. */
  function PyIndex(i: int, n: nat): (r: Option<nat>)
    ensures r.Some? <==> -(n as int) <= i < n
    ensures r.Some? ==> r.value < n && (if i >= 0 then r.value == i else r.value == n + i)
  {
    if 0 <= i < n then Some(i) else if -(n as int) <= i < 0 then Some(n + i) else None
  }

  /** Python's `list.insert(i, x)` position for a list of length `n`: the index is
      resolved like a subscript and then clamped into `[0, n]`; it never raises. */
  function PyInsertPosition(i: int, n: nat): (r: nat)
    ensures r <= n
    ensures 0 <= i <= n ==> r == i
    ensures -(n as int) <= i < 0 ==> r == n + i
  {
    if i < 0 then (if n + i < 0 then 0 else n + i) else if i > n then n else i
  }

  /** Python's `xs[i:j]`: each bound resolves like an insert position, and a slice
      whose start is not before its end is empty. */
  function PySlice<T>(xs: seq<T>, i: int, j: int): (r: seq<T>)
    ensures 0 <= i <= j <= |xs| ==> r == xs[i..j]
  {
    var lo, hi := PyInsertPosition(i, |xs|), PyInsertPosition(j, |xs|);
    if lo < hi then xs[lo..hi] else []
  }

  /** A negative end counts from the end of the list: `xs[i:-k]` drops the last `k`
      elements. */
  lemma PySliceNegativeEnd<T>(xs: seq<T>, i: nat, k: nat)
    requires 0 < k && i + k <= |xs|
    ensures PySlice(xs, i, -(k as int)) == xs[i..|xs| - k]
  {
  }

  /** An end at or before the start gives the empty slice, unless it is negative. */
  lemma PySliceEmpty<T>(xs: seq<T>, i: nat, j: int)
    requires 0 <= j <= i
    ensures PySlice(xs, i, j) == []
  {
  }

  /** Python's `sum(xs)` over a list of reals. */
  function Sum(xs: seq<real>): real {
    if xs == [] then 0.0 else Sum(xs[..|xs| - 1]) + xs[|xs| - 1]
  }

  /** The running sums `[sum(xs[:0]), sum(xs[:1]), ...]`. */
  function PrefixSums(xs: seq<real>): (r: seq<real>)
    ensures |r| == |xs|
    ensures forall i :: 0 <= i < |xs| ==> r[i] == Sum(xs[..i])
    decreases |xs|
  {
    if xs == [] then []
    else
      var n := |xs| - 1;
      var r := PrefixSums(xs[..n]) + [Sum(xs[..n])];
      assert forall i :: 0 <= i < n ==> xs[..n][..i] == xs[..i];
      r
  }

  lemma {:induction false} SumAppend(xs: seq<real>, ys: seq<real>)
    ensures Sum(xs + ys) == Sum(xs) + Sum(ys)
  {
    if ys == [] {
      assert xs + ys == xs;
    } else {
      var zs := ys[..|ys| - 1];
      assert (xs + ys)[..|xs + ys| - 1] == xs + zs;
      SumAppend(xs, zs);
    }
  }

  /** Overwriting one element changes the sum by the difference. */
  lemma {:induction false} SumUpdate(xs: seq<real>, k: nat, v: real)
    requires k < |xs|
    ensures Sum(xs[k := v]) == Sum(xs) - xs[k] + v
  {
    var ys := xs[k := v];
    assert xs == xs[..k] + [xs[k]] + xs[k + 1..];
    assert ys == xs[..k] + [v] + xs[k + 1..];
    SumAppend(xs[..k] + [xs[k]], xs[k + 1..]);
    SumAppend(xs[..k], [xs[k]]);
    SumAppend(xs[..k] + [v], xs[k + 1..]);
    SumAppend(xs[..k], [v]);
    assert Sum([xs[k]]) == xs[k] by { assert [xs[k]][..0] == []; }
    assert Sum([v]) == v by { assert [v][..0] == []; }
  }

  /** A non-empty set has an element (stated per element type, so that a following
      `:|` over the set finds it). */
  lemma NonEmptyReals(s: set<real>)
    requires s != {}
    ensures exists y :: y in s
  {
    if forall y :: y !in s {
      assert false;
    }
  }

  /** The same fact for sets of channels: a lemma generic in the element type does not
      give the `:|` its witness. */
  lemma NonEmptyInts(s: set<int>)
    requires s != {}
    ensures exists y :: y in s
  {
    if forall y :: y !in s {
      assert false;
    }
  }

  /** `m` is the largest element of `s`. */
  ghost predicate IsMaxOf(m: real, s: set<real>) {
    m in s && forall y :: y in s ==> y <= m
  }

  lemma {:induction false} MaxExists(s: set<real>)
    requires s != {}
    ensures exists m :: IsMaxOf(m, s)
    decreases |s|
  {
    NonEmptyReals(s);
    var x :| x in s;
    if s != {x} {
      MaxExists(s - {x});
      var m :| IsMaxOf(m, s - {x});
      forall y | y in s ensures y <= Max(x, m) {
        if y != x { assert y in s - {x}; }
      }
      assert IsMaxOf(Max(x, m), s);
    } else {
      assert IsMaxOf(x, s);
    }
  }

  /** The largest element of a non-empty finite set of reals (Python's `max`). */
  ghost function SetMax(s: set<real>): (m: real)
    requires s != {}
    ensures IsMaxOf(m, s)
  {
    MaxExists(s);
    var m :| IsMaxOf(m, s); m
  }

  /** A maximum is unique. */
  lemma MaxUnique(m1: real, m2: real, s: set<real>)
    requires IsMaxOf(m1, s) && IsMaxOf(m2, s)
    ensures m1 == m2
  {
  }

  /** Adding one element to a set moves its maximum to the larger of the two. */
  lemma MaxInsert(m: real, s: set<real>, x: real)
    requires IsMaxOf(m, s)
    ensures IsMaxOf(Max(m, x), s + {x})
  {
  }
}
