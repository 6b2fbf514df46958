/** The column arithmetic of `GridLayoutManager` (pulsegen_client/runner/_layout.py):
    how a child's column and span are clamped, how measure sizes the columns from the
    children's desired durations, and where arrange places each child. */
module GridLayout {
  import opened Common
  import opened Schedule
  import opened GridColumns

  /** The column list a grid measures with: its own, or a single `star(1)` column that
      measure appends when the list is empty. */
  function EffectiveColumns(columns: seq<GridLength>): (r: seq<GridLength>)
    ensures |r| > 0
    ensures columns != [] ==> r == columns
    ensures columns == [] ==> r == [StarLength(1.0)]
  {
    if columns == [] then [StarLength(1.0)] else columns
  }

  /** `min(column, len(colsizes) - 1)`. */
  function ActualColumn(column: nat, n: nat): (c: nat)
    requires n > 0
    ensures c < n
  {
    if column < n - 1 then column else n - 1
  }

  /** `min(span, len(colsizes) - actual_column)`. */
  function ActualSpan(column: nat, span: int, n: nat): (s: int)
    requires n > 0
    ensures s <= n - ActualColumn(column, n)
  {
    var room := n - ActualColumn(column, n);
    if span < room then span else room
  }

  /** A column index past the end is the last column, and the span is cut to the
      columns from there on; a span of at least one stays at least one. */
  lemma ClampedIndices(column: nat, span: int, n: nat)
    requires n > 0
    ensures var c, s := ActualColumn(column, n), ActualSpan(column, span, n);
      (column < n ==> c == column) && (column >= n ==> c == n - 1) &&
      (span <= n - c ==> s == span) && (span > n - c ==> s == n - c) &&
      (span >= 1 ==> 1 <= s) && c + s <= n
  {
  }

  // ------------------------------------------------------------------ measure

  /** The widths measure starts from: fixed columns at their length, the others at 0. */
  function BaseSizes(columns: seq<GridLength>): (r: seq<real>)
    ensures |r| == |columns|
    ensures forall i :: 0 <= i < |columns| ==>
      r[i] == if columns[i].unit == Second then columns[i].value else 0.0
  {
    seq(|columns|, i requires 0 <= i < |columns| => if columns[i].unit == Second then columns[i].value else 0.0)
  }

  /** The first pass widens a child's column when the child spans at most one column
      and that column is not fixed. */
  predicate Widens(columns: seq<GridLength>, g: GridEntry)
    requires |columns| > 0
  {
    ActualSpan(g.column, g.span, |columns|) <= 1 && columns[ActualColumn(g.column, |columns|)].unit != Second
  }

  /** The widths after the first pass over the first `k` children, of desired
      durations `ds`. */
  function Widen(columns: seq<GridLength>, sizes: seq<real>, entries: seq<GridEntry>, ds: seq<real>, k: nat)
    : (r: seq<real>)
    requires 0 < |columns| == |sizes| && |entries| == |ds| && k <= |entries|
    ensures |r| == |sizes|
  {
    if k == 0 then sizes
    else
      var s := Widen(columns, sizes, entries, ds, k - 1);
      var c := ActualColumn(entries[k - 1].column, |columns|);
      if Widens(columns, entries[k - 1]) then s[c := Max(s[c], ds[k - 1])] else s
  }

  /** The first pass makes each column the largest of its starting width and the
      desired durations of the children it widens for: at least each of them, and
      equal to one of them. Fixed columns keep their width. */
  lemma {:induction false} WidenMax(columns: seq<GridLength>, sizes: seq<real>, entries: seq<GridEntry>, ds: seq<real>,
                                    k: nat, i: nat)
    requires 0 < |columns| == |sizes| && |entries| == |ds| && k <= |entries| && i < |sizes|
    ensures var r := Widen(columns, sizes, entries, ds, k);
      r[i] >= sizes[i] &&
      (forall p :: 0 <= p < k && Widens(columns, entries[p]) && ActualColumn(entries[p].column, |columns|) == i
         ==> r[i] >= ds[p]) &&
      (r[i] == sizes[i] ||
       exists p :: 0 <= p < k && Widens(columns, entries[p]) && ActualColumn(entries[p].column, |columns|) == i &&
                   r[i] == ds[p])
    ensures columns[i].unit == Second ==> Widen(columns, sizes, entries, ds, k)[i] == sizes[i]
  {
    if k > 0 {
      WidenMax(columns, sizes, entries, ds, k - 1, i);
    }
  }

  /** The number of columns in `[lo, hi)` of the given unit. */
  function CountUnit(columns: seq<GridLength>, lo: nat, hi: int, u: GridLengthUnit): nat
    requires hi <= |columns|
    decreases hi - lo
  {
    if hi <= lo then 0
    else CountUnit(columns, lo, hi - 1, u) + (if columns[hi - 1].unit == u then 1 else 0)
  }

  /** The widths with `inc` added to every automatic column of `[lo, hi)`. */
  function AddToAuto(columns: seq<GridLength>, sizes: seq<real>, lo: nat, hi: int, inc: real): (r: seq<real>)
    requires |columns| == |sizes|
    ensures |r| == |sizes|
  {
    seq(|sizes|, i requires 0 <= i < |sizes| =>
      if lo <= i < hi && columns[i].unit == Auto then sizes[i] + inc else sizes[i])
  }

  /** The second pass for one child of desired duration `d` spanning the `sp` columns
      from column `c`: a child spanning other than one column whose span is short of
      `d` hands the shortfall to the span's star columns by water-filling, or, without
      stars, shares it equally among the span's automatic columns. */
  function SpanFill(columns: seq<GridLength>, sizes: seq<real>, c: nat, sp: int, d: real): (r: Result<seq<real>>)
    requires |columns| == |sizes| && c + sp <= |sizes|
    ensures r.Ok? ==> |r.value| == |sizes|
  {
    if sp == 1 then Ok(sizes)
    else
      var have := Sum(PySlice(sizes, c, c + sp));
      if have > d then Ok(sizes) else ShortFill(columns, sizes, c, sp, d - have)
  }

  /** A span short of its child by `extra`: water-filling over its star columns, or an
      equal share for each automatic column when it has no star column. */
  function ShortFill(columns: seq<GridLength>, sizes: seq<real>, c: nat, sp: int, extra: real): (r: Result<seq<real>>)
    requires |columns| == |sizes| && c + sp <= |sizes|
    ensures r.Ok? ==> |r.value| == |sizes|
  {
    if CountUnit(columns, c, c + sp, Star) == 0 then
      var autos := CountUnit(columns, c, c + sp, Auto);
      if autos == 0 then Ok(sizes)
      else Ok(AddToAuto(columns, sizes, c, c + sp, extra / autos as real))
    else Expanded(columns, sizes, c, sp, extra)
  }

  /** `k` copies of `x` added up. */
  function Times(k: nat, x: real): real {
    if k == 0 then 0.0 else Times(k - 1, x) + x
  }

  lemma {:induction false} TimesShare(k: nat, x: real)
    requires k > 0
    ensures Times(k, x / k as real) == x
  {
    TimesIsProduct(k, x / k as real);
  }

  lemma {:induction false} TimesIsProduct(k: nat, y: real)
    ensures Times(k, y) == k as real * y
  {
    if k > 0 {
      TimesIsProduct(k - 1, y);
      assert (k - 1) as real * y + y == k as real * y;
    }
  }

  lemma {:induction false} SumAddToAuto(columns: seq<GridLength>, sizes: seq<real>, lo: nat, hi: nat, inc: real)
    requires |columns| == |sizes| && lo <= hi <= |sizes|
    ensures Sum(AddToAuto(columns, sizes, lo, hi, inc)[lo..hi]) == Sum(sizes[lo..hi]) + Times(CountUnit(columns, lo, hi, Auto), inc)
    decreases hi - lo
  {
    if hi > lo {
      var r := AddToAuto(columns, sizes, lo, hi, inc);
      var r' := AddToAuto(columns, sizes, lo, hi - 1, inc);
      SumAddToAuto(columns, sizes, lo, hi - 1, inc);
      var xs, ys := r[lo..hi], sizes[lo..hi];
      assert forall i :: lo <= i < hi - 1 ==> r[i] == r'[i];
      assert xs[..|xs| - 1] == r'[lo..hi - 1];
      assert ys[..|ys| - 1] == sizes[lo..hi - 1];
      assert xs[|xs| - 1] == r[hi - 1] && ys[|ys| - 1] == sizes[hi - 1];
      assert r[hi - 1] == sizes[hi - 1] + (if columns[hi - 1].unit == Auto then inc else 0.0);
    }
  }

  /** The sum of `xs[lo:hi]` as the whole sum less what lies outside. */
  lemma SumSplit(xs: seq<real>, lo: nat, hi: nat)
    requires lo <= hi <= |xs|
    ensures Sum(xs) == Sum(xs[..lo]) + Sum(xs[lo..hi]) + Sum(xs[hi..])
  {
    var a, b, c := xs[..lo], xs[lo..hi], xs[hi..];
    calc {
      Sum(xs);
      { assert xs == (a + b) + c; }
      Sum((a + b) + c);
      { SumAppend(a + b, c); }
      Sum(a + b) + Sum(c);
      { SumAppend(a, b); }
      Sum(a) + Sum(b) + Sum(c);
    }
  }

  /** Water-filling a span that holds a star column adds exactly the extra duration
      to the span's total width. */
  lemma ExpandedFillsSpan(columns: seq<GridLength>, sizes: seq<real>, c: nat, sp: nat, extra: real, r: seq<real>)
    requires |columns| == |sizes| && 0 < sp && c + sp <= |sizes|
    requires Expanded(columns, sizes, c, sp, extra) == Ok(r)
    requires exists i :: c <= i < c + sp && IsStar(columns[i])
    ensures Sum(r[c..c + sp]) == Sum(sizes[c..c + sp]) + extra
  {
    ExpandedOutside(columns, sizes, c, sp, extra, r);
    ExpandedConserves(columns, sizes, c, sp, extra);
    SpanSum(sizes, r, c, c + sp, extra);
  }

  /** Widths that agree outside `[lo, hi)` and whose total grew by `extra` grew by
      `extra` inside it. */
  lemma SpanSum(sizes: seq<real>, r: seq<real>, lo: nat, hi: nat, extra: real)
    requires lo <= hi <= |sizes| == |r|
    requires Sum(r) == Sum(sizes) + extra && r[..lo] == sizes[..lo] && r[hi..] == sizes[hi..]
    ensures Sum(r[lo..hi]) == Sum(sizes[lo..hi]) + extra
  {
    SumSplit(sizes, lo, hi);
    SumSplit(r, lo, hi);
  }

  /** Water-filling a span leaves the widths before and after it alone. */
  lemma ExpandedOutside(columns: seq<GridLength>, sizes: seq<real>, c: nat, sp: nat, extra: real, r: seq<real>)
    requires |columns| == |sizes| && 0 < sp && c + sp <= |sizes|
    requires Expanded(columns, sizes, c, sp, extra) == Ok(r)
    ensures r[..c] == sizes[..c] && r[c + sp..] == sizes[c + sp..]
  {
    assert RangeLo(c, |sizes|) == c && RangeHi(c, sp, |sizes|) == c + sp;
    ExpandedFrame(columns, sizes, c, sp, extra);
    assert r[..c] == sizes[..c];
    assert r[c + sp..] == sizes[c + sp..];
  }

  /** Sharing `extra` among a span's automatic columns adds exactly `extra` to the
      span's total width. */
  lemma AutoFillsSpan(columns: seq<GridLength>, sizes: seq<real>, lo: nat, hi: nat, extra: real)
    requires |columns| == |sizes| && lo <= hi <= |sizes| && CountUnit(columns, lo, hi, Auto) > 0
    ensures Sum(AddToAuto(columns, sizes, lo, hi, extra / CountUnit(columns, lo, hi, Auto) as real)[lo..hi])
         == Sum(sizes[lo..hi]) + extra
  {
    var autos := CountUnit(columns, lo, hi, Auto);
    SumAddToAuto(columns, sizes, lo, hi, extra / autos as real);
    TimesShare(autos, extra);
  }

  /** The second pass for one child leaves every column outside the child's span, and
      every fixed column, as it was. */
  lemma SpanFillFrame(columns: seq<GridLength>, sizes: seq<real>, c: nat, sp: int, d: real)
    requires |columns| == |sizes| && c + sp <= |sizes|
    requires SpanFill(columns, sizes, c, sp, d).Ok?
    ensures var r := SpanFill(columns, sizes, c, sp, d).value;
      forall i :: 0 <= i < |sizes| && (!(c <= i < c + sp) || columns[i].unit == Second) ==> r[i] == sizes[i]
  {
    if sp != 1 && Sum(PySlice(sizes, c, c + sp)) <= d && CountUnit(columns, c, c + sp, Star) > 0 {
      ExpandedFrame(columns, sizes, c, sp, d - Sum(PySlice(sizes, c, c + sp)));
    }
  }

  /** When a child's span falls short of its desired duration and holds a star or an
      automatic column, the second pass makes the span's total width exactly the
      desired duration. */
  lemma SpanFillFills(columns: seq<GridLength>, sizes: seq<real>, c: nat, sp: int, d: real, r: seq<real>)
    requires |columns| == |sizes| && c + sp <= |sizes|
    requires SpanFill(columns, sizes, c, sp, d) == Ok(r)
    requires sp != 1 && Sum(PySlice(sizes, c, c + sp)) <= d
    requires CountUnit(columns, c, c + sp, Star) > 0 || CountUnit(columns, c, c + sp, Auto) > 0
    ensures Sum(PySlice(r, c, c + sp)) == d
  {
    var have := Sum(PySlice(sizes, c, c + sp));
    if CountUnit(columns, c, c + sp, Star) > 0 {
      StarsFill(columns, sizes, c, sp, have, d, r);
    } else {
      AutosFill(columns, sizes, c, sp, have, d, r);
    }
  }

  lemma StarsFill(columns: seq<GridLength>, sizes: seq<real>, c: nat, sp: int, have: real, d: real, r: seq<real>)
    requires |columns| == |sizes| && c + sp <= |sizes|
    requires have == Sum(PySlice(sizes, c, c + sp)) && CountUnit(columns, c, c + sp, Star) > 0
    requires Expanded(columns, sizes, c, sp, d - have) == Ok(r)
    ensures Sum(PySlice(r, c, c + sp)) == d
  {
    CountedSpan(columns, c, c + sp, Star);
    assert PySlice(sizes, c, c + sp) == sizes[c..c + sp];
    assert PySlice(r, c, c + sp) == r[c..c + sp];
    StarInRange(columns, c, c + sp);
    ExpandedFillsSpan(columns, sizes, c, sp, d - have, r);
  }

  lemma AutosFill(columns: seq<GridLength>, sizes: seq<real>, c: nat, sp: int, have: real, d: real, r: seq<real>)
    requires |columns| == |sizes| && c + sp <= |sizes|
    requires have == Sum(PySlice(sizes, c, c + sp)) && CountUnit(columns, c, c + sp, Auto) > 0
    requires r == AddToAuto(columns, sizes, c, c + sp, (d - have) / CountUnit(columns, c, c + sp, Auto) as real)
    ensures Sum(PySlice(r, c, c + sp)) == d
  {
    CountedSpan(columns, c, c + sp, Auto);
    assert PySlice(sizes, c, c + sp) == sizes[c..c + sp];
    assert PySlice(r, c, c + sp) == r[c..c + sp];
    AutoFillsSpan(columns, sizes, c, c + sp, d - have);
  }

  /** A range holding a column of some unit is not empty. */
  lemma CountedSpan(columns: seq<GridLength>, lo: nat, hi: int, u: GridLengthUnit)
    requires hi <= |columns| && CountUnit(columns, lo, hi, u) > 0
    ensures lo < hi
  {
  }

  /** A positive count of star columns names one. */
  lemma {:induction false} StarInRange(columns: seq<GridLength>, lo: nat, hi: int)
    requires hi <= |columns| && CountUnit(columns, lo, hi, Star) > 0
    ensures exists c :: lo <= c < hi && IsStar(columns[c])
    decreases hi - lo
  {
    if columns[hi - 1].unit != Star {
      StarInRange(columns, lo, hi - 1);
    }
  }
  /** The second pass over the first `k` children, in child order. */
  function SpanPass(columns: seq<GridLength>, sizes: seq<real>, entries: seq<GridEntry>, ds: seq<real>, k: nat)
    : (r: Result<seq<real>>)
    requires 0 < |columns| == |sizes| && |entries| == |ds| && k <= |entries|
    ensures r.Ok? ==> |r.value| == |sizes|
  {
    if k == 0 then Ok(sizes)
    else
      match SpanPass(columns, sizes, entries, ds, k - 1)
      case Err(e) => Err(e)
      case Ok(s) =>
        var g, n := entries[k - 1], |columns|;
        SpanFill(columns, s, ActualColumn(g.column, n), ActualSpan(g.column, g.span, n), ds[k - 1])
  }

  /** Fixed columns keep their width through the second pass, and the pass can only
      fail by dividing by zero. */
  lemma {:induction false} SpanPassFixed(columns: seq<GridLength>, sizes: seq<real>, entries: seq<GridEntry>,
                                         ds: seq<real>, k: nat)
    requires 0 < |columns| == |sizes| && |entries| == |ds| && k <= |entries|
    ensures var r := SpanPass(columns, sizes, entries, ds, k);
      (r.Err? ==> r.error == ZeroDivisionError) &&
      (r.Ok? ==> forall i :: 0 <= i < |sizes| && columns[i].unit == Second ==> r.value[i] == sizes[i])
  {
    if k > 0 {
      SpanPassFixed(columns, sizes, entries, ds, k - 1);
      var prev := SpanPass(columns, sizes, entries, ds, k - 1);
      if prev.Ok? {
        var g, n := entries[k - 1], |columns|;
        SpanFillFixed(columns, prev.value, ActualColumn(g.column, n), ActualSpan(g.column, g.span, n), ds[k - 1]);
      }
    }
  }

  /** One child's step of the second pass keeps the fixed columns and can only fail
      by dividing by zero. */
  lemma SpanFillFixed(columns: seq<GridLength>, sizes: seq<real>, c: nat, sp: int, d: real)
    requires |columns| == |sizes| && c + sp <= |sizes|
    ensures var r := SpanFill(columns, sizes, c, sp, d);
      (r.Err? ==> r.error == ZeroDivisionError) &&
      (r.Ok? ==> forall i :: 0 <= i < |sizes| && columns[i].unit == Second ==> r.value[i] == sizes[i])
  {
    var have := Sum(PySlice(sizes, c, c + sp));
    if sp != 1 && have <= d && CountUnit(columns, c, c + sp, Star) > 0 {
      ExpandedErrors(columns, sizes, c, sp, d - have);
    }
    if SpanFill(columns, sizes, c, sp, d).Ok? {
      SpanFillFrame(columns, sizes, c, sp, d);
    }
  }

  /** The minimum column widths measure computes from the children's desired
      durations `ds`: the first pass over single-column children, then the second
      pass over the others. */
  function MinColumnWidths(columns: seq<GridLength>, entries: seq<GridEntry>, ds: seq<real>): (r: Result<seq<real>>)
    requires |columns| > 0 && |entries| == |ds|
    ensures r.Ok? ==> |r.value| == |columns|
  {
    SpanPass(columns, Widen(columns, BaseSizes(columns), entries, ds, |entries|), entries, ds, |entries|)
  }

  /** A fixed column is exactly its length wide, and measuring can only fail by
      dividing by zero. */
  lemma MinColumnWidthsFixed(columns: seq<GridLength>, entries: seq<GridEntry>, ds: seq<real>)
    requires |columns| > 0 && |entries| == |ds|
    ensures var r := MinColumnWidths(columns, entries, ds);
      (r.Err? ==> r.error == ZeroDivisionError) &&
      (r.Ok? ==> forall i :: 0 <= i < |columns| && columns[i].unit == Second ==> r.value[i] == columns[i].value)
  {
    var w := Widen(columns, BaseSizes(columns), entries, ds, |entries|);
    SpanPassFixed(columns, w, entries, ds, |entries|);
    forall i | 0 <= i < |columns| && columns[i].unit == Second
      ensures w[i] == columns[i].value
    {
      WidenMax(columns, BaseSizes(columns), entries, ds, |entries|, i);
    }
  }

  /** Without a child spanning several columns the minimum widths are those of the
      first pass: every non-fixed column is at least as wide as each child placed in
      it alone. */
  lemma MinColumnWidthsSingle(columns: seq<GridLength>, entries: seq<GridEntry>, ds: seq<real>, p: nat)
    requires |columns| > 0 && |entries| == |ds| && p < |entries|
    requires forall q :: 0 <= q < |entries| ==> ActualSpan(entries[q].column, entries[q].span, |columns|) == 1
    requires columns[ActualColumn(entries[p].column, |columns|)].unit != Second
    ensures MinColumnWidths(columns, entries, ds).Ok?
    ensures MinColumnWidths(columns, entries, ds).value[ActualColumn(entries[p].column, |columns|)] >= ds[p]
  {
    var w := Widen(columns, BaseSizes(columns), entries, ds, |entries|);
    SinglePassIdentity(columns, w, entries, ds, |entries|);
    WidenMax(columns, BaseSizes(columns), entries, ds, |entries|, ActualColumn(entries[p].column, |columns|));
  }

  lemma {:induction false} SinglePassIdentity(columns: seq<GridLength>, sizes: seq<real>, entries: seq<GridEntry>,
                                              ds: seq<real>, k: nat)
    requires 0 < |columns| == |sizes| && |entries| == |ds| && k <= |entries|
    requires forall q :: 0 <= q < |entries| ==> ActualSpan(entries[q].column, entries[q].span, |columns|) == 1
    ensures SpanPass(columns, sizes, entries, ds, k) == Ok(sizes)
  {
    if k > 0 {
      SinglePassIdentity(columns, sizes, entries, ds, k - 1);
    }
  }

  // ------------------------------------------------------------------ arrange

  /** The column widths arrange uses for a final content duration: the minimum widths
      with the difference poured into all star columns. */
  function ArrangedWidths(columns: seq<GridLength>, minWidths: seq<real>, final: real): (r: Result<seq<real>>)
    requires |columns| == |minWidths|
    ensures r.Ok? ==> |r.value| == |minWidths|
  {
    Expanded(columns, minWidths, 0, |minWidths|, final - Sum(minWidths))
  }

  /** With a star column the arranged widths add up to exactly the final duration;
      without one they are the minimum widths. */
  lemma ArrangedWidthsFill(columns: seq<GridLength>, minWidths: seq<real>, final: real)
    requires |columns| == |minWidths|
    requires ArrangedWidths(columns, minWidths, final).Ok?
    ensures (exists c :: 0 <= c < |columns| && IsStar(columns[c])) ==>
      Sum(ArrangedWidths(columns, minWidths, final).value) == final
    ensures (forall c :: 0 <= c < |columns| ==> !IsStar(columns[c])) ==>
      ArrangedWidths(columns, minWidths, final).value == minWidths
  {
    var n := |minWidths|;
    assert RangeLo(0, n) == 0 && RangeHi(0, n, n) == n;
    ExpansionRaises(columns, minWidths, 0, n, final - Sum(minWidths));
    if exists c :: 0 <= c < n && IsStar(columns[c]) {
      ExpandedConserves(columns, minWidths, 0, n, final - Sum(minWidths));
    }
  }

  /** Where arrange places a child of desired duration `desired` and alignment `align`
      in a grid of column widths `widths` starting at `starts`: its time and duration. */
  function Place(widths: seq<real>, starts: seq<real>, g: GridEntry, align: Alignment, desired: real): (r: (real, real))
    requires 0 < |widths| == |starts|
  {
    var n := |widths|;
    var c, sp := ActualColumn(g.column, n), ActualSpan(g.column, g.span, n);
    var spanDuration := Sum(PySlice(widths, c, c + sp));
    var childDuration := if align != Stretch then desired else spanDuration;
    var actual := Min(childDuration, spanDuration);
    var time := match align
      case Start => starts[c]
      case End => starts[c] + spanDuration - actual
      case Center => starts[c] + (spanDuration - actual) / 2.0
      case Stretch => starts[c];
    (time, actual)
  }

  /** A placed child lies within its span: a stretched child fills it, any other gets
      its desired duration cut to the span; START and STRETCH children begin at the
      span's start, END children finish at its end, and CENTER children leave equal
      room on both sides. */
  lemma PlaceFacts(widths: seq<real>, starts: seq<real>, g: GridEntry, align: Alignment, desired: real)
    requires 0 < |widths| == |starts|
    ensures var n := |widths|;
      var c, sp := ActualColumn(g.column, n), ActualSpan(g.column, g.span, n);
      var start, spanDuration := starts[c], Sum(PySlice(widths, c, c + sp));
      var (time, duration) := Place(widths, starts, g, align, desired);
      start <= time && time + duration <= start + spanDuration &&
      (align == Stretch ==> duration == spanDuration) &&
      (align != Stretch ==> duration == desired || (duration == spanDuration && spanDuration < desired)) &&
      (align != Stretch ==> duration <= desired) &&
      (align == Start || align == Stretch ==> time == start) &&
      (align == End ==> time + duration == start + spanDuration) &&
      (align == Center ==> time - start == start + spanDuration - (time + duration))
  {
  }

  // ------------------------------------------------------------------ the loops

  /** The loop adding `inc` to every automatic column of `[lo, hi)`. */
  method AddAutoWidths(columns: seq<GridLength>, a: array<real>, lo: nat, hi: int, inc: real)
    requires |columns| == a.Length && hi <= a.Length
    modifies a
    ensures a[..] == AddToAuto(columns, old(a[..]), lo, hi, inc)
  {
    ghost var w := a[..];
    var i := lo;
    while i < hi
      invariant lo <= i && (lo <= hi ==> i <= hi) && (hi < lo ==> i == lo)
      invariant forall k :: 0 <= k < a.Length ==>
        a[k] == if lo <= k < i && columns[k].unit == Auto then w[k] + inc else w[k]
    {
      if columns[i].unit == Auto {
        a[i] := a[i] + inc;
      }
      i := i + 1;
    }
    assert a[..] == AddToAuto(columns, w, lo, hi, inc);
  }

  /** The second pass for one child, on the widths in place. */
  method SpanFillAt(columns: seq<GridLength>, a: array<real>, c: nat, sp: int, d: real) returns (o: Outcome)
    requires |columns| == a.Length && c + sp <= a.Length
    modifies a
    ensures var r := SpanFill(columns, old(a[..]), c, sp, d);
      if r.Ok? then o == Pass && a[..] == r.value else o == Fail(r.error)
  {
    if sp == 1 {
      return Pass;
    }
    var have := Sum(PySlice(a[..], c, c + sp));
    if have > d {
      return Pass;
    }
    o := ShortFillAt(columns, a, c, sp, d - have);
  }

  /** ShortFill on the widths in place. */
  method ShortFillAt(columns: seq<GridLength>, a: array<real>, c: nat, sp: int, extra: real) returns (o: Outcome)
    requires |columns| == a.Length && c + sp <= a.Length
    modifies a
    ensures var r := ShortFill(columns, old(a[..]), c, sp, extra);
      if r.Ok? then o == Pass && a[..] == r.value else o == Fail(r.error)
  {
    var stars := CountUnit(columns, c, c + sp, Star);
    if stars == 0 {
      var autos := CountUnit(columns, c, c + sp, Auto);
      if autos == 0 {
        return Pass;
      }
      AddAutoWidths(columns, a, c, c + sp, extra / autos as real);
      return Pass;
    }
    o := ExpandColumnWidth(columns, a, c, sp, extra);
  }

  /** The measure loops of a grid: the column widths start from the fixed lengths, the
      first loop widens columns for single-column children and the second spreads the
      others over their spans. */
  method MeasureColumns(columns: seq<GridLength>, entries: seq<GridEntry>, ds: seq<real>) returns (r: Result<seq<real>>)
    requires |columns| > 0 && |entries| == |ds|
    ensures r == MinColumnWidths(columns, entries, ds)
  {
    var n := |columns|;
    var a := new real[n](i requires 0 <= i < n => if columns[i].unit == Second then columns[i].value else 0.0);
    assert a[..] == BaseSizes(columns);
    WidenAt(columns, a, entries, ds);
    r := SpanPassAt(columns, a, entries, ds);
  }

  /** The first pass, on the widths in place. */
  method WidenAt(columns: seq<GridLength>, a: array<real>, entries: seq<GridEntry>, ds: seq<real>)
    requires 0 < |columns| == a.Length && |entries| == |ds|
    modifies a
    ensures a[..] == Widen(columns, old(a[..]), entries, ds, |entries|)
  {
    ghost var w := a[..];
    var n := a.Length;
    var k := 0;
    while k < |entries|
      invariant k <= |entries|
      invariant a[..] == Widen(columns, w, entries, ds, k)
    {
      var c := ActualColumn(entries[k].column, n);
      if Widens(columns, entries[k]) {
        a[c] := Max(a[c], ds[k]);
      }
      k := k + 1;
    }
  }

  /** The second pass, on the widths in place. */
  method SpanPassAt(columns: seq<GridLength>, a: array<real>, entries: seq<GridEntry>, ds: seq<real>)
    returns (r: Result<seq<real>>)
    requires 0 < |columns| == a.Length && |entries| == |ds|
    modifies a
    ensures r == SpanPass(columns, old(a[..]), entries, ds, |entries|)
  {
    ghost var w := a[..];
    var n := a.Length;
    var k := 0;
    while k < |entries|
      invariant k <= |entries|
      invariant SpanPass(columns, w, entries, ds, k) == Ok(a[..])
    {
      var g := entries[k];
      var o := SpanFillAt(columns, a, ActualColumn(g.column, n), ActualSpan(g.column, g.span, n), ds[k]);
      if o.Fail? {
        FailStops(columns, w, entries, ds, k + 1);
        return Err(o.error);
      }
      k := k + 1;
    }
    return Ok(a[..]);
  }

  /** Once the second pass fails it stays failed with the same error. */
  lemma {:induction false} FailStops(columns: seq<GridLength>, sizes: seq<real>, entries: seq<GridEntry>,
                                     ds: seq<real>, k: nat)
    requires 0 < |columns| == |sizes| && |entries| == |ds| && k <= |entries|
    requires SpanPass(columns, sizes, entries, ds, k).Err?
    ensures SpanPass(columns, sizes, entries, ds, |entries|) == SpanPass(columns, sizes, entries, ds, k)
    decreases |entries| - k
  {
    if k < |entries| {
      FailStops(columns, sizes, entries, ds, k + 1);
    }
  }

  /** The loop computing each column's start: the running sum of the widths before it. */
  method ColumnStarts(widths: seq<real>) returns (starts: seq<real>)
    requires |widths| > 0
    ensures |starts| == |widths|
    ensures forall i :: 0 <= i < |widths| ==> starts[i] == Sum(widths[..i])
  {
    starts := [0.0];
    var i := 0;
    while i < |widths| - 1
      invariant i <= |widths| - 1 && |starts| == i + 1
      invariant forall j :: 0 <= j <= i ==> starts[j] == Sum(widths[..j])
    {
      SumAppend(widths[..i], [widths[i]]);
      assert widths[..i + 1] == widths[..i] + [widths[i]];
      starts := starts + [starts[|starts| - 1] + widths[i]];
      i := i + 1;
    }
  }

  /** The arrange of a grid's columns: the arranged widths and their starts. */
  method ArrangeColumns(columns: seq<GridLength>, minWidths: seq<real>, final: real)
    returns (r: Result<(seq<real>, seq<real>)>)
    requires 0 < |columns| == |minWidths|
    ensures var w := ArrangedWidths(columns, minWidths, final);
      (r.Err? <==> w.Err?) && (r.Err? ==> r.error == w.error) &&
      (r.Ok? ==> r.value == (w.value, PrefixSums(w.value)))
  {
    var n := |minWidths|;
    var a := new real[n](i requires 0 <= i < n => minWidths[i]);
    assert a[..] == minWidths;
    var minDuration := Sum(minWidths);
    var o := ExpandColumnWidth(columns, a, 0, n, final - minDuration);
    if o.Fail? {
      return Err(o.error);
    }
    var starts := ColumnStarts(a[..]);
    assert starts == PrefixSums(a[..]);
    return Ok((a[..], starts));
  }
}
