/** Star-column expansion (`GridLayoutManager._expand_column_width` in
    pulsegen_client/runner/_layout.py): the extra duration `remaining` is poured into the
    star columns of a column range like water, lowest width-per-star first, until every
    filled column sits at one common level of width per star. */
module GridColumns {
  import opened Common
  import opened Schedule

  predicate IsStar(g: GridLength) {
    g.unit == Star
  }

  /** A star column considered for expansion: its index and its width per star. */
  type Candidate = (nat, real)

  predicate IndexIncreasing(cs: seq<Candidate>) {
    forall p, q :: 0 <= p < q < |cs| ==> cs[p].0 < cs[q].0
  }

  predicate DistinctIndices(cs: seq<Candidate>) {
    forall p, q :: 0 <= p < q < |cs| ==> cs[p].0 != cs[q].0
  }

  predicate IndicesBelow(cs: seq<Candidate>, n: nat) {
    forall p :: 0 <= p < |cs| ==> cs[p].0 < n
  }

  /** The column range `range(column, column + span)` cut at the end of the width list,
      as the half-open interval `[RangeLo, RangeHi)`. */
  function RangeLo(column: nat, n: nat): (lo: nat)
    ensures lo <= n
  {
    if column < n then column else n
  }

  function RangeHi(column: nat, span: int, n: nat): (hi: nat)
    ensures RangeLo(column, n) <= hi <= n
    ensures column < n && column < column + span <= n ==> hi == column + span
  {
    var lo := RangeLo(column, n);
    if column + span <= lo then lo else if column + span <= n then column + span else n
  }

  /** `c` is the entry the first loop records for a star column in `[lo, hi)`. */
  predicate CandidateIn(columns: seq<GridLength>, w: seq<real>, c: Candidate, lo: nat, hi: nat)
    requires |columns| == |w| && hi <= |w|
  {
    lo <= c.0 < hi && IsStar(columns[c.0]) && columns[c.0].value != 0.0 && c.1 == w[c.0] / columns[c.0].value
  }

  /** The candidate list built by the first loop over `[lo, i)`: every star column with
      its width per star, in column order. A star column of weight 0 divides by zero. */
  function Candidates(columns: seq<GridLength>, w: seq<real>, lo: nat, i: nat): (r: Result<seq<Candidate>>)
    requires |columns| == |w| && lo <= i <= |w|
    ensures r.Err? ==> r.error == ZeroDivisionError
    ensures r.Ok? ==> IndexIncreasing(r.value)
    ensures r.Ok? ==> forall p :: 0 <= p < |r.value| ==> CandidateIn(columns, w, r.value[p], lo, i)
    decreases i - lo
  {
    if i == lo then Ok([])
    else
      match Candidates(columns, w, lo, i - 1)
      case Err(e) => Err(e)
      case Ok(cs) =>
        var k := i - 1;
        if !IsStar(columns[k]) then Ok(cs)
        else if columns[k].value == 0.0 then Err(ZeroDivisionError)
        else Ok(cs + [(k, w[k] / columns[k].value)])
  }

  /** The first loop raises exactly when the range holds a star column of weight 0,
      and otherwise records every star column of the range. */
  lemma {:induction false} CandidatesComplete(columns: seq<GridLength>, w: seq<real>, lo: nat, i: nat)
    requires |columns| == |w| && lo <= i <= |w|
    ensures Candidates(columns, w, lo, i).Err? <==>
      exists k :: lo <= k < i && IsStar(columns[k]) && columns[k].value == 0.0
    ensures Candidates(columns, w, lo, i).Ok? ==> forall k :: lo <= k < i && IsStar(columns[k]) ==>
      exists p :: 0 <= p < |Candidates(columns, w, lo, i).value| && Candidates(columns, w, lo, i).value[p].0 == k
    decreases i - lo
  {
    if i > lo {
      CandidatesComplete(columns, w, lo, i - 1);
      var r := Candidates(columns, w, lo, i);
      if r.Ok? {
        var cs := Candidates(columns, w, lo, i - 1).value;
        forall k | lo <= k < i && IsStar(columns[k])
          ensures exists p :: 0 <= p < |r.value| && r.value[p].0 == k
        {
          if k == i - 1 {
            assert r.value[|cs|].0 == k;
          } else {
            var p :| 0 <= p < |cs| && cs[p].0 == k;
            assert r.value[p] == cs[p];
          }
        }
      }
    }
  }

  /** Once the first loop has raised it stays raised. */
  lemma {:induction false} CandidatesFailed(columns: seq<GridLength>, w: seq<real>, lo: nat, i: nat, hi: nat)
    requires |columns| == |w| && lo <= i <= hi <= |w|
    requires Candidates(columns, w, lo, i).Err?
    ensures Candidates(columns, w, lo, hi).Err?
    decreases hi - i
  {
    if i < hi {
      CandidatesFailed(columns, w, lo, i + 1, hi);
    }
  }

  // ---------------------------------------------------------------- sorting

  predicate SortedByRatio(cs: seq<Candidate>) {
    forall p, q :: 0 <= p < q < |cs| ==> cs[p].1 <= cs[q].1
  }

  /** Where `x` goes in a list sorted by ratio so that it precedes every element of the
      same ratio (which keeps `sorted` stable when `x` came first). */
  function InsertPos(x: Candidate, s: seq<Candidate>): (p: nat)
    ensures p <= |s|
    ensures forall j :: 0 <= j < p ==> s[j].1 < x.1
    ensures p < |s| ==> s[p].1 >= x.1
  {
    if s == [] || s[0].1 >= x.1 then 0 else 1 + InsertPos(x, s[1..])
  }

  function Insert(x: Candidate, s: seq<Candidate>): seq<Candidate> {
    var p := InsertPos(x, s);
    s[..p] + [x] + s[p..]
  }

  /** Python's `sorted(cols, key=lambda x: x[1])`. */
  function SortByRatio(cs: seq<Candidate>): (r: seq<Candidate>)
    ensures |r| == |cs|
  {
    if cs == [] then [] else Insert(cs[0], SortByRatio(cs[1..]))
  }

  /** Inserting adds the one element. */
  lemma InsertPermutes(x: Candidate, s: seq<Candidate>)
    ensures multiset(Insert(x, s)) == multiset(s) + multiset{x}
  {
    var p := InsertPos(x, s);
    assert s == s[..p] + s[p..];
    assert Insert(x, s) == s[..p] + ([x] + s[p..]);
  }

  /** Sorting permutes its input. */
  lemma {:induction false} SortByRatioPermutes(cs: seq<Candidate>)
    ensures multiset(SortByRatio(cs)) == multiset(cs)
  {
    if cs != [] {
      SortByRatioPermutes(cs[1..]);
      InsertPermutes(cs[0], SortByRatio(cs[1..]));
      assert cs == [cs[0]] + cs[1..];
    }
  }

  /** The sorted list is ordered by ratio. */
  lemma {:induction false} SortByRatioSorted(cs: seq<Candidate>)
    ensures SortedByRatio(SortByRatio(cs))
  {
    if cs != [] {
      var x, rest := cs[0], SortByRatio(cs[1..]);
      SortByRatioSorted(cs[1..]);
      var p, r := InsertPos(x, rest), SortByRatio(cs);
      InsertShape(x, rest);
      assert r == Insert(x, rest);
      forall i, j | 0 <= i < j < |r| ensures r[i].1 <= r[j].1 {
        if j < p {
          assert r[i] == rest[i] && r[j] == rest[j];
        } else if i > p {
          assert r[i] == rest[i - 1] && r[j] == rest[j - 1];
        } else if i == p {
          assert r[j] == rest[j - 1];
        } else if j == p {
          assert r[i] == rest[i];
        } else {
          assert r[i] == rest[i] && r[j] == rest[j - 1];
        }
      }
    }
  }

  /** Sorting keeps exactly the elements it was given. */
  lemma {:induction false} SortByRatioElements(cs: seq<Candidate>)
    ensures forall x :: x in SortByRatio(cs) <==> x in cs
  {
    if cs != [] {
      SortByRatioElements(cs[1..]);
      var rest := SortByRatio(cs[1..]);
      var p := InsertPos(cs[0], rest);
      assert SortByRatio(cs) == rest[..p] + [cs[0]] + rest[p..];
      assert rest == rest[..p] + rest[p..];
      assert cs == [cs[0]] + cs[1..];
    }
  }

  /** Equal ratios appear in column order. */
  predicate StableByIndex(cs: seq<Candidate>) {
    forall p, q :: 0 <= p < q < |cs| && cs[p].1 == cs[q].1 ==> cs[p].0 < cs[q].0
  }

  /** Where each element of `Insert(x, rest)` comes from. */
  lemma InsertShape(x: Candidate, rest: seq<Candidate>)
    ensures var p, r := InsertPos(x, rest), Insert(x, rest);
      |r| == |rest| + 1 && r[p] == x &&
      (forall i :: 0 <= i < p ==> r[i] == rest[i]) &&
      (forall i :: p < i < |r| ==> r[i] == rest[i - 1])
  {
  }

  /** Inserting a candidate whose index precedes every other keeps the indices
      distinct. */
  lemma InsertDistinct(x: Candidate, rest: seq<Candidate>)
    requires DistinctIndices(rest)
    requires forall y :: y in rest ==> y.0 > x.0
    ensures DistinctIndices(Insert(x, rest))
  {
    var p, r := InsertPos(x, rest), Insert(x, rest);
    InsertShape(x, rest);
    forall i, j | 0 <= i < j < |r| ensures r[i].0 != r[j].0 {
      if i == p {
        assert rest[j - 1] in rest;
      } else if j == p {
        assert rest[i] in rest;
      }
    }
  }

  /** ... and keeps equal ratios in column order. */
  lemma InsertStable(x: Candidate, rest: seq<Candidate>)
    requires StableByIndex(rest)
    requires forall y :: y in rest ==> y.0 > x.0
    ensures StableByIndex(Insert(x, rest))
  {
    var p, r := InsertPos(x, rest), Insert(x, rest);
    InsertShape(x, rest);
    forall i, j | 0 <= i < j < |r| && r[i].1 == r[j].1 ensures r[i].0 < r[j].0 {
      if i == p {
        assert rest[j - 1] in rest;
      }
    }
  }

  /** Sorting is stable: among candidates in column order, equal ratios stay in column
      order; and their indices stay distinct. */
  lemma {:induction false} SortByRatioStable(cs: seq<Candidate>)
    requires IndexIncreasing(cs)
    ensures StableByIndex(SortByRatio(cs))
    ensures DistinctIndices(SortByRatio(cs))
  {
    if cs != [] {
      var rest := SortByRatio(cs[1..]);
      SortByRatioStable(cs[1..]);
      SortByRatioElements(cs[1..]);
      forall y | y in rest ensures y.0 > cs[0].0 {
        var q :| 0 <= q < |cs[1..]| && cs[1..][q] == y;
        assert cs[q + 1] == y;
      }
      InsertStable(cs[0], rest);
      InsertDistinct(cs[0], rest);
    }
  }

  /** Sorting keeps the indices in range. */
  lemma SortByRatioBelow(cs: seq<Candidate>, n: nat)
    requires IndicesBelow(cs, n)
    ensures IndicesBelow(SortByRatio(cs), n)
  {
    SortByRatioElements(cs);
    var r := SortByRatio(cs);
    forall p | 0 <= p < |r| ensures r[p].0 < n {
      assert r[p] in cs;
    }
  }

  // ---------------------------------------------------------------- the water level

  /** `new_ratio < next_ratio` where the next ratio is infinite after the last column. */
  predicate BelowNext(x: real, next: Ext) {
    next.Inf? || x < next.value
  }

  function NextRatio(cs: seq<Candidate>, i: nat): Ext {
    if i + 1 < |cs| then Fin(cs[i + 1].1) else Inf
  }

  /** Total star weight of the first `k` candidates. */
  function StarSum(columns: seq<GridLength>, cs: seq<Candidate>, k: nat): real
    requires IndicesBelow(cs, |columns|) && k <= |cs|
  {
    if k == 0 then 0.0 else StarSum(columns, cs, k - 1) + columns[cs[k - 1].0].value
  }

  /** Total width of the first `k` candidates. */
  function WidthSum(w: seq<real>, cs: seq<Candidate>, k: nat): real
    requires IndicesBelow(cs, |w|) && k <= |cs|
  {
    if k == 0 then 0.0 else WidthSum(w, cs, k - 1) + w[cs[k - 1].0]
  }

  /** The second loop from position `i` with the running `stars` and `remaining`: the
      number of columns filled and their level when the loop breaks, or None when it
      runs to the end. A running star total of 0 divides by zero. */
  function Level(columns: seq<GridLength>, w: seq<real>, cs: seq<Candidate>, i: nat,
                 stars: real, remaining: real): (r: Result<Option<(nat, real)>>)
    requires |columns| == |w| && IndicesBelow(cs, |w|) && i <= |cs|
    ensures r.Err? ==> r.error == ZeroDivisionError
    ensures r.Ok? && r.value.Some? ==> i < r.value.value.0 <= |cs|
    ensures r.Ok? && i < |cs| ==> r.value.Some?
    decreases |cs| - i
  {
    if i == |cs| then Ok(None)
    else
      var index := cs[i].0;
      var stars' := stars + columns[index].value;
      var remaining' := remaining + w[index];
      if stars' == 0.0 then Err(ZeroDivisionError)
      else
        var level := remaining' / stars';
        if BelowNext(level, NextRatio(cs, i)) then Ok(Some((i + 1, level)))
        else Level(columns, w, cs, i + 1, stars', remaining')
  }

  /** The state of the second loop when it breaks after `k` columns at `level`: their
      total star weight is not 0, the level times that weight is the extra duration
      plus their old widths, and the level lies below the next ratio. */
  predicate Balanced(columns: seq<GridLength>, w: seq<real>, cs: seq<Candidate>, k: nat, level: real, remaining0: real)
    requires |columns| == |w| && IndicesBelow(cs, |w|) && 0 < k <= |cs|
  {
    StarSum(columns, cs, k) != 0.0 &&
    level * StarSum(columns, cs, k) == remaining0 + WidthSum(w, cs, k) &&
    BelowNext(level, NextRatio(cs, k - 1))
  }

  lemma {:induction false} LevelBalance(columns: seq<GridLength>, w: seq<real>, cs: seq<Candidate>,
                                        i: nat, remaining0: real)
    requires |columns| == |w| && IndicesBelow(cs, |w|) && i <= |cs|
    requires Level(columns, w, cs, i, StarSum(columns, cs, i), remaining0 + WidthSum(w, cs, i)).Ok?
    ensures var r := Level(columns, w, cs, i, StarSum(columns, cs, i), remaining0 + WidthSum(w, cs, i));
      r.value.Some? ==> Balanced(columns, w, cs, r.value.value.0, r.value.value.1, remaining0)
    decreases |cs| - i
  {
    if i < |cs| {
      var stars' := StarSum(columns, cs, i + 1);
      var remaining' := remaining0 + WidthSum(w, cs, i + 1);
      if stars' != 0.0 && !BelowNext(remaining' / stars', NextRatio(cs, i)) {
        LevelBalance(columns, w, cs, i + 1, remaining0);
      }
    }
  }

  /** `column_width` with the first `k` candidates raised to `level` width per star. */
  function Rewrite(columns: seq<GridLength>, w: seq<real>, cs: seq<Candidate>, k: nat, level: real): (r: seq<real>)
    requires IndicesBelow(cs, |w|) && |columns| == |w| && k <= |cs|
    ensures |r| == |w|
  {
    if k == 0 then w
    else Rewrite(columns, w, cs, k - 1, level)[cs[k - 1].0 := level * columns[cs[k - 1].0].value]
  }

  /** The rewritten columns hold the level times their weight; the others keep their
      width. */
  lemma {:induction false} RewriteValues(columns: seq<GridLength>, w: seq<real>, cs: seq<Candidate>, k: nat, level: real)
    requires IndicesBelow(cs, |w|) && |columns| == |w| && k <= |cs|
    ensures forall p :: 0 <= p < k ==> Rewrite(columns, w, cs, k, level)[cs[p].0] == level * columns[cs[p].0].value
    ensures forall c :: 0 <= c < |w| && (forall p :: 0 <= p < k ==> cs[p].0 != c) ==> Rewrite(columns, w, cs, k, level)[c] == w[c]
  {
    if k > 0 {
      RewriteValues(columns, w, cs, k - 1, level);
    }
  }

  lemma RewriteStep(columns: seq<GridLength>, w: seq<real>, cs: seq<Candidate>, j: nat, level: real)
    requires IndicesBelow(cs, |w|) && |columns| == |w| && j < |cs|
    ensures Rewrite(columns, w, cs, j + 1, level) == Rewrite(columns, w, cs, j, level)[cs[j].0 := level * columns[cs[j].0].value]
  {
  }

  /** Total width of the first `k` candidates once raised to `level`. */
  function RaisedSum(columns: seq<GridLength>, cs: seq<Candidate>, k: nat, level: real): real
    requires IndicesBelow(cs, |columns|) && k <= |cs|
  {
    if k == 0 then 0.0 else RaisedSum(columns, cs, k - 1, level) + level * columns[cs[k - 1].0].value
  }

  lemma {:induction false} RaisedSumScales(columns: seq<GridLength>, cs: seq<Candidate>, k: nat, level: real)
    requires IndicesBelow(cs, |columns|) && k <= |cs|
    ensures RaisedSum(columns, cs, k, level) == level * StarSum(columns, cs, k)
  {
    if k > 0 {
      RaisedSumScales(columns, cs, k - 1, level);
      var s0 := StarSum(columns, cs, k - 1);
      var v := columns[cs[k - 1].0].value;
      assert level * (s0 + v) == level * s0 + level * v;
    }
  }

  /** Raising distinct columns changes the total width by their new widths less their
      old ones. */
  lemma {:induction false} RewriteSum(columns: seq<GridLength>, w: seq<real>, cs: seq<Candidate>, k: nat, level: real)
    requires IndicesBelow(cs, |w|) && |columns| == |w| && k <= |cs| && DistinctIndices(cs)
    ensures Sum(Rewrite(columns, w, cs, k, level)) == Sum(w) + RaisedSum(columns, cs, k, level) - WidthSum(w, cs, k)
  {
    if k > 0 {
      var prev := Rewrite(columns, w, cs, k - 1, level);
      RewriteSum(columns, w, cs, k - 1, level);
      RewriteValues(columns, w, cs, k - 1, level);
      assert prev[cs[k - 1].0] == w[cs[k - 1].0];
      SumUpdate(prev, cs[k - 1].0, level * columns[cs[k - 1].0].value);
    }
  }

  // ---------------------------------------------------------------- the whole expansion

  /** The candidates of the range, sorted by ratio. */
  function SortedCandidates(columns: seq<GridLength>, w: seq<real>, column: nat, span: int): Result<seq<Candidate>>
    requires |columns| == |w|
  {
    var lo := RangeLo(column, |w|);
    var hi := RangeHi(column, span, |w|);
    match Candidates(columns, w, lo, hi)
    case Err(e) => Err(e)
    case Ok(cs) => Ok(SortByRatio(cs))
  }

  lemma SortedCandidatesFacts(columns: seq<GridLength>, w: seq<real>, column: nat, span: int)
    requires |columns| == |w|
    requires SortedCandidates(columns, w, column, span).Ok?
    ensures var cs := SortedCandidates(columns, w, column, span).value;
      SortedByRatio(cs) && DistinctIndices(cs) && IndicesBelow(cs, |w|)
  {
    var cs := Candidates(columns, w, RangeLo(column, |w|), RangeHi(column, span, |w|)).value;
    SortByRatioSorted(cs);
    SortByRatioStable(cs);
    SortByRatioBelow(cs, |w|);
  }

  /** A sorted candidate is a star column of the range, and every star column of the
      range is a sorted candidate (unless the range raises). */
  lemma SortedCandidatesRange(columns: seq<GridLength>, w: seq<real>, column: nat, span: int)
    requires |columns| == |w|
    ensures var lo, hi := RangeLo(column, |w|), RangeHi(column, span, |w|);
      var r := SortedCandidates(columns, w, column, span);
      (r.Err? <==> exists k :: lo <= k < hi && IsStar(columns[k]) && columns[k].value == 0.0) &&
      (r.Err? ==> r.error == ZeroDivisionError) &&
      (r.Ok? ==> forall p :: 0 <= p < |r.value| ==> CandidateIn(columns, w, r.value[p], lo, hi)) &&
      (r.Ok? ==> forall k :: lo <= k < hi && IsStar(columns[k]) ==> exists p :: 0 <= p < |r.value| && r.value[p].0 == k)
  {
    var lo, hi := RangeLo(column, |w|), RangeHi(column, span, |w|);
    CandidatesComplete(columns, w, lo, hi);
    var r := SortedCandidates(columns, w, column, span);
    if r.Ok? {
      var cs := Candidates(columns, w, lo, hi).value;
      SortByRatioElements(cs);
      forall p | 0 <= p < |r.value| ensures CandidateIn(columns, w, r.value[p], lo, hi) {
        assert r.value[p] in cs;
      }
      forall k | lo <= k < hi && IsStar(columns[k]) ensures exists p :: 0 <= p < |r.value| && r.value[p].0 == k {
        var q :| 0 <= q < |cs| && cs[q].0 == k;
        assert cs[q] in r.value;
      }
    }
  }

  /** What `_expand_column_width` decides: the sorted candidates, how many of them to
      raise and to which level, or None when the range holds no star column. */
  function Expansion(columns: seq<GridLength>, w: seq<real>, column: nat, span: int, remaining: real)
    : (r: Result<Option<(seq<Candidate>, nat, real)>>)
    requires |columns| == |w|
    ensures r.Ok? && r.value.Some? ==>
      var (cs, k, _) := r.value.value;
      IndicesBelow(cs, |w|) && DistinctIndices(cs) && 0 < k <= |cs|
  {
    match SortedCandidates(columns, w, column, span)
    case Err(e) => Err(e)
    case Ok(cs) =>
      SortedCandidatesFacts(columns, w, column, span);
      match Level(columns, w, cs, 0, 0.0, remaining)
      case Err(e) => Err(e)
      case Ok(None) => Ok(None)
      case Ok(Some((k, level))) => Ok(Some((cs, k, level)))
  }

  /** The column widths after `_expand_column_width(column_width, column, span, remaining)`. */
  function Expanded(columns: seq<GridLength>, w: seq<real>, column: nat, span: int, remaining: real)
    : (r: Result<seq<real>>)
    requires |columns| == |w|
    ensures r.Ok? ==> |r.value| == |w|
  {
    match Expansion(columns, w, column, span, remaining)
    case Err(e) => Err(e)
    case Ok(None) => Ok(w)
    case Ok(Some((cs, k, level))) => Ok(Rewrite(columns, w, cs, k, level))
  }

  /** The only error is a division by zero, and a star column of weight 0 in the range
      always causes one. */
  lemma ExpandedErrors(columns: seq<GridLength>, w: seq<real>, column: nat, span: int, remaining: real)
    requires |columns| == |w|
    ensures var r := Expanded(columns, w, column, span, remaining);
      r.Err? ==> r.error == ZeroDivisionError
    ensures (exists k :: RangeLo(column, |w|) <= k < RangeHi(column, span, |w|) && IsStar(columns[k]) && columns[k].value == 0.0)
      ==> Expanded(columns, w, column, span, remaining).Err?
  {
    SortedCandidatesRange(columns, w, column, span);
  }

  /** Nothing outside the star columns of the range changes. */
  lemma ExpandedFrame(columns: seq<GridLength>, w: seq<real>, column: nat, span: int, remaining: real)
    requires |columns| == |w|
    requires Expanded(columns, w, column, span, remaining).Ok?
    ensures var w' := Expanded(columns, w, column, span, remaining).value;
      forall c :: 0 <= c < |w| && !(RangeLo(column, |w|) <= c < RangeHi(column, span, |w|) && IsStar(columns[c]))
        ==> w'[c] == w[c]
  {
    var e := Expansion(columns, w, column, span, remaining).value;
    if e.Some? {
      var (cs, k, level) := e.value;
      SortedCandidatesRange(columns, w, column, span);
      RewriteValues(columns, w, cs, k, level);
    }
  }

  /** The decision's level balances the raised columns' weight against the extra
      duration plus their old widths. */
  lemma ExpansionBalanced(columns: seq<GridLength>, w: seq<real>, column: nat, span: int, remaining: real,
                          cs: seq<Candidate>, k: nat, level: real)
    requires |columns| == |w|
    requires Expansion(columns, w, column, span, remaining) == Ok(Some((cs, k, level)))
    ensures SortedByRatio(cs) && DistinctIndices(cs) && IndicesBelow(cs, |w|) && 0 < k <= |cs|
    ensures Balanced(columns, w, cs, k, level, remaining)
  {
    SortedCandidatesFacts(columns, w, column, span);
    assert StarSum(columns, cs, 0) == 0.0;
    assert remaining + WidthSum(w, cs, 0) == remaining;
    LevelBalance(columns, w, cs, 0, remaining);
  }

  /** Some columns are raised exactly when the range holds a star column. */
  lemma ExpansionRaises(columns: seq<GridLength>, w: seq<real>, column: nat, span: int, remaining: real)
    requires |columns| == |w|
    requires Expansion(columns, w, column, span, remaining).Ok?
    ensures Expansion(columns, w, column, span, remaining).value.Some? <==>
      exists c :: RangeLo(column, |w|) <= c < RangeHi(column, span, |w|) && IsStar(columns[c])
  {
    var lo, hi := RangeLo(column, |w|), RangeHi(column, span, |w|);
    SortedCandidatesRange(columns, w, column, span);
    var cs := SortedCandidates(columns, w, column, span).value;
    if Expansion(columns, w, column, span, remaining).value.Some? {
      assert CandidateIn(columns, w, cs[0], lo, hi);
    }
  }

  /** A sorted candidate past the raised ones lies above the level. */
  lemma AboveLevel(cs: seq<Candidate>, k: nat, level: real, q: nat)
    requires SortedByRatio(cs) && 0 < k <= q < |cs|
    requires BelowNext(level, NextRatio(cs, k - 1))
    ensures cs[q].1 > level
  {
    assert cs[k].1 <= cs[q].1;
  }

  /** The water-filling property: the raised columns all sit at one level of width per
      star, and every star column of the range left alone already has more width per
      star than that level. */
  lemma ExpandedLevel(columns: seq<GridLength>, w: seq<real>, column: nat, span: int, remaining: real,
                      cs: seq<Candidate>, k: nat, level: real)
    requires |columns| == |w|
    requires Expansion(columns, w, column, span, remaining) == Ok(Some((cs, k, level)))
    ensures Expanded(columns, w, column, span, remaining).Ok?
    ensures forall p :: 0 <= p < k ==>
      Expanded(columns, w, column, span, remaining).value[cs[p].0] == level * columns[cs[p].0].value
    ensures forall c ::
      RangeLo(column, |w|) <= c < RangeHi(column, span, |w|) && IsStar(columns[c]) &&
      (forall p :: 0 <= p < k ==> cs[p].0 != c) ==>
      columns[c].value != 0.0 && w[c] / columns[c].value > level
  {
    var lo, hi := RangeLo(column, |w|), RangeHi(column, span, |w|);
    ExpansionBalanced(columns, w, column, span, remaining, cs, k, level);
    assert Expanded(columns, w, column, span, remaining) == Ok(Rewrite(columns, w, cs, k, level));
    RewriteValues(columns, w, cs, k, level);
    SortedCandidatesRange(columns, w, column, span);
    forall c | lo <= c < hi && IsStar(columns[c]) && (forall p :: 0 <= p < k ==> cs[p].0 != c)
      ensures columns[c].value != 0.0 && w[c] / columns[c].value > level
    {
      var q :| 0 <= q < |cs| && cs[q].0 == c;
      assert CandidateIn(columns, w, cs[q], lo, hi);
      AboveLevel(cs, k, level, q);
    }
  }

  /** Raising balanced candidates adds exactly the extra duration to the total width. */
  lemma BalancedConserves(columns: seq<GridLength>, w: seq<real>, cs: seq<Candidate>, k: nat, level: real, remaining: real)
    requires |columns| == |w| && IndicesBelow(cs, |w|) && DistinctIndices(cs) && 0 < k <= |cs|
    requires Balanced(columns, w, cs, k, level, remaining)
    ensures Sum(Rewrite(columns, w, cs, k, level)) == Sum(w) + remaining
  {
    RewriteSum(columns, w, cs, k, level);
    RaisedSumScales(columns, cs, k, level);
  }

  /** The extra duration is absorbed exactly: raising the first `k` sorted candidates
      to the level grows the widths in total by `remaining`. */
  lemma ExpansionConserves(columns: seq<GridLength>, w: seq<real>, column: nat, span: int, remaining: real,
                           cs: seq<Candidate>, k: nat, level: real)
    requires |columns| == |w|
    requires Expansion(columns, w, column, span, remaining) == Ok(Some((cs, k, level)))
    ensures Sum(Rewrite(columns, w, cs, k, level)) == Sum(w) + remaining
  {
    ExpansionBalanced(columns, w, column, span, remaining, cs, k, level);
    BalancedConserves(columns, w, cs, k, level, remaining);
  }

  /** Hence, whenever the range holds a star column, the widths grow in total by
      `remaining`. */
  lemma ExpandedConserves(columns: seq<GridLength>, w: seq<real>, column: nat, span: int, remaining: real)
    requires |columns| == |w|
    requires Expanded(columns, w, column, span, remaining).Ok?
    requires exists c :: RangeLo(column, |w|) <= c < RangeHi(column, span, |w|) && IsStar(columns[c])
    ensures Sum(Expanded(columns, w, column, span, remaining).value) == Sum(w) + remaining
  {
    ExpansionRaises(columns, w, column, span, remaining);
    var e := Expansion(columns, w, column, span, remaining).value.value;
    ExpansionConserves(columns, w, column, span, remaining, e.0, e.1, e.2);
    assert Expanded(columns, w, column, span, remaining) == Ok(Rewrite(columns, w, e.0, e.1, e.2));
  }

  // ---------------------------------------------------------------- the method

  /** The first loop of `_expand_column_width`: collects the star columns of `[lo, hi)`
      with their width per star, or fails on a star column of weight 0. */
  method CollectCandidates(columns: seq<GridLength>, a: array<real>, lo: nat, hi: nat)
    returns (r: Result<seq<Candidate>>)
    requires |columns| == a.Length && lo <= hi <= a.Length
    ensures r == Candidates(columns, a[..], lo, hi)
  {
    var cols: seq<Candidate> := [];
    var i := lo;
    while i < hi
      invariant lo <= i <= hi
      invariant Candidates(columns, a[..], lo, i) == Ok(cols)
    {
      if IsStar(columns[i]) {
        if columns[i].value == 0.0 {
          CandidatesFailed(columns, a[..], lo, i + 1, hi);
          return Err(ZeroDivisionError);
        }
        cols := cols + [(i, a[i] / columns[i].value)];
      }
      i := i + 1;
    }
    return Ok(cols);
  }

  /** The write loop of `_expand_column_width`: the first `n` candidates' columns are
      set to `level` times their weight. */
  method RaiseColumns(columns: seq<GridLength>, a: array<real>, cs: seq<Candidate>, n: nat, level: real)
    requires |columns| == a.Length && IndicesBelow(cs, a.Length) && n <= |cs|
    modifies a
    ensures a[..] == Rewrite(columns, old(a[..]), cs, n, level)
  {
    ghost var w := a[..];
    var j := 0;
    while j < n
      invariant j <= n
      invariant a[..] == Rewrite(columns, w, cs, j, level)
    {
      ghost var before := a[..];
      a[cs[j].0] := level * columns[cs[j].0].value;
      assert a[..] == before[cs[j].0 := level * columns[cs[j].0].value];
      RewriteStep(columns, w, cs, j, level);
      j := j + 1;
    }
  }

  /** `_expand_column_width`: widens the star columns of the range in place. It raises
      before writing anything, so on an error the widths are unchanged. */
  method ExpandColumnWidth(columns: seq<GridLength>, a: array<real>, column: nat, span: int, remaining: real)
    returns (o: Outcome)
    requires |columns| == a.Length
    modifies a
    ensures var r := Expanded(columns, old(a[..]), column, span, remaining);
      if r.Ok? then o == Pass && a[..] == r.value else o == Fail(r.error) && a[..] == old(a[..])
  {
    ghost var w := a[..];
    var found := CollectCandidates(columns, a, RangeLo(column, a.Length), RangeHi(column, span, a.Length));
    if found.Err? {
      return Fail(found.error);
    }
    var cols := found.value;
    var sorted := SortByRatio(cols);
    SortedCandidatesFacts(columns, w, column, span);
    var stars := 0.0;
    var rem := remaining;
    var k := 0;
    ghost var goal := Level(columns, w, sorted, 0, 0.0, remaining);
    while k < |sorted|
      invariant k <= |sorted|
      invariant a[..] == w
      invariant goal == Level(columns, w, sorted, k, stars, rem)
    {
      var next := NextRatio(sorted, k);
      var index := sorted[k].0;
      stars := stars + columns[index].value;
      rem := rem + a[index];
      if stars == 0.0 {
        return Fail(ZeroDivisionError);
      }
      var newRatio := rem / stars;
      if BelowNext(newRatio, next) {
        RaiseColumns(columns, a, sorted, k + 1, newRatio);
        return Pass;
      }
      k := k + 1;
    }
    return Pass;
  }
}
