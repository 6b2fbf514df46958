/** The duration clamping every layout node shares (`LayoutManager.measure`, `arrange`
    and `_minmax` in pulsegen_client/runner/_layout.py), as functions of an element's
    attributes. */
module LayoutBounds {
  import opened Common
  import opened Schedule

  /** Python's `element.duration or default`: a missing duration and a duration of 0
      both fall back to the default. */
  predicate DurationUnset(a: Attributes) {
    a.duration.None? || a.duration.value == 0.0
  }

  /** `max(min(x, hi), lo)` on reals with a possibly infinite upper bound. */
  function Clamp(x: real, lo: real, hi: Ext): (r: real)
    ensures r >= lo
    ensures ExtLe(Fin(lo), hi) ==> ExtLe(Fin(r), hi)
    ensures ExtLe(Fin(lo), hi) && lo <= x && ExtLe(Fin(x), hi) ==> r == x
  {
    Max(MinFin(x, hi), lo)
  }

  /** The same on extended reals. */
  function ClampExt(x: Ext, lo: real, hi: Ext): (r: Ext)
    ensures ExtLe(Fin(lo), r)
    ensures ExtLe(Fin(lo), hi) ==> ExtLe(r, hi)
  {
    ExtMax(ExtMin(x, hi), Fin(lo))
  }

  /** `_minmax`: the bounds a node's content duration is clamped to. */
  function MinMax(a: Attributes): (r: (real, Ext))
    ensures ExtLe(Fin(r.0), r.1)
    ensures r.0 >= a.minDuration && ExtLe(Fin(a.minDuration), r.1)
    ensures DurationUnset(a) ==>
      r.0 == Max(MinFin(0.0, a.maxDuration), a.minDuration) && r.1 == ExtMax(a.maxDuration, Fin(a.minDuration))
    ensures !DurationUnset(a) ==>
      r.1 == Fin(r.0) && r.0 == Max(MinFin(a.duration.value, a.maxDuration), a.minDuration)
  {
    var maxDuration := if DurationUnset(a) then Inf else Fin(a.duration.value);
    var maxDuration := ExtMax(ExtMin(maxDuration, a.maxDuration), Fin(a.minDuration));
    var minDuration := if DurationUnset(a) then 0.0 else a.duration.value;
    var minDuration := Max(MinFin(minDuration, a.maxDuration), a.minDuration);
    (minDuration, maxDuration)
  }

  /** With the default attributes a node is unconstrained: bounds (0, infinity). */
  lemma MinMaxDefault()
    ensures MinMax(DefaultAttributes()) == (0.0, Inf)
  {
  }

  /** A minimum that exceeds the maximum wins: both bounds collapse onto it. */
  lemma MinDurationWins(a: Attributes)
    requires a.maxDuration.Fin? && a.minDuration >= a.maxDuration.value
    ensures MinMax(a) == (a.minDuration, Fin(a.minDuration))
  {
  }

  function MarginSum(a: Attributes): real {
    a.margin.0 + a.margin.1
  }

  /** The duration `measure(available)` offers to the node's own content: the available
      duration less the margins, at least 0, clamped to the bounds. */
  function ContentAvailable(a: Attributes, available: Ext): (r: Ext)
    ensures ExtLe(Fin(MinMax(a).0), r) && ExtLe(r, MinMax(a).1)
  {
    var (lo, hi) := MinMax(a);
    ClampExt(ExtMax(ExtSub(available, MarginSum(a)), Fin(0.0)), lo, hi)
  }

  /** The desired duration `measure` records for a content measurement `measured`: the
      clamped content plus margins, clipped to the available duration and to 0. */
  function Desired(a: Attributes, available: Ext, measured: real): real {
    var (lo, hi) := MinMax(a);
    Max(MinFin(Clamp(measured, lo, hi) + MarginSum(a), available), 0.0)
  }

  /** The unclipped duration `measure` records. */
  function Unclipped(a: Attributes, measured: real): (r: real)
    ensures r >= 0.0 && r >= measured + MarginSum(a)
    ensures r == measured + MarginSum(a) || r == 0.0
  {
    Max(measured + MarginSum(a), 0.0)
  }

  /** Measuring never overflows: a node's desired duration lies between 0 and a
      non-negative available duration, and it is the clamped content plus margins
      whenever that already fits. */
  lemma DesiredBounds(a: Attributes, available: Ext, measured: real)
    ensures Desired(a, available, measured) >= 0.0
    ensures ExtLe(Fin(0.0), available) ==> ExtLe(Fin(Desired(a, available, measured)), available)
    ensures var (lo, hi) := MinMax(a); var d := Clamp(measured, lo, hi) + MarginSum(a);
      0.0 <= d && ExtLe(Fin(d), available) ==> Desired(a, available, measured) == d
  {
  }

  /** The content duration `arrange(time, final)` hands to the node's own content: the
      final duration less margins, at least 0, clamped to the bounds. */
  function ArrangeContent(a: Attributes, final: real): (r: real)
    ensures r >= MinMax(a).0 && ExtLe(Fin(r), MinMax(a).1)
  {
    var (lo, hi) := MinMax(a);
    Clamp(Max(final - MarginSum(a), 0.0), lo, hi)
  }

  /** Without bounds or margins the content gets exactly the final duration. */
  lemma ArrangeContentDefault(final: real)
    requires final >= 0.0
    ensures ArrangeContent(DefaultAttributes(), final) == final
  {
  }
}
