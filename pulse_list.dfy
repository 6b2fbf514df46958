/** The per-channel pulse list the phase tracker appends to
    (pulsegen_client/runner/_pulse_list.py). */
module PulseLists {
  import opened Common
  import opened Instructions

  /** Complex numbers as pairs of reals. */
  datatype Complex = Complex(re: real, im: real)

  function Mul(a: Complex, b: Complex): Complex {
    Complex(a.re * b.re - a.im * b.im, a.re * b.im + a.im * b.re)
  }

  /** The imaginary unit `1j`. */
  const I: Complex := Complex(0.0, 1.0)

  /** A real number as a complex one. */
  function Real(x: real): Complex {
    Complex(x, 0.0)
  }

  lemma MulCommutes(a: Complex, b: Complex)
    ensures Mul(a, b) == Mul(b, a)
  {
  }

  lemma MulAssociates(a: Complex, b: Complex, c: Complex)
    ensures Mul(Mul(a, b), c) == Mul(a, Mul(b, c))
  {
    assert (a.re * b.re - a.im * b.im) * c.re - (a.re * b.im + a.im * b.re) * c.im
        == a.re * (b.re * c.re - b.im * c.im) - a.im * (b.re * c.im + b.im * c.re);
    assert (a.re * b.re - a.im * b.im) * c.im + (a.re * b.im + a.im * b.re) * c.re
        == a.re * (b.re * c.im + b.im * c.re) + a.im * (b.re * c.re - b.im * c.im);
  }

  /** Python's `cmath.rect(amp, tau * phase)`, with the phase in cycles; trigonometry
      is not modelled, so it is a parameter. */
  type Rect = (real, real) -> Complex

  /** The envelope of a pulse: an optional shape (None for a rectangular pulse), the
      width of its edges and its plateau. Sampling it is not modelled. */
  datatype Envelope = Envelope(shape: Option<ShapeInfo>, width: real, plateau: real) {
    function Duration(): real {
      width + plateau
    }
  }

  datatype PulseItem = PulseItem(
    time: real,
    envelope: Envelope,
    amp: Complex,
    dragAmp: Complex,
    freqG: real,
    freqL: real,
    delay: real)

  // ------------------------------------------------------- pure list transforms

  /** The item `add_pulse` appends for a non-zero amplitude. */
  function NewPulse(env: Envelope, freqG: real, freqL: real, time: real, phase: real,
                    amp: real, dragCoef: real, rect: Rect): (p: PulseItem)
    ensures p.time == time && p.envelope == env && p.freqG == freqG && p.freqL == freqL
    ensures p.delay == 0.0 && p.amp == rect(amp, phase)
    ensures p.dragAmp == Mul(Mul(I, rect(amp, phase)), Real(dragCoef))
  {
    var camp := rect(amp, phase);
    PulseItem(time, env, camp, Mul(Mul(I, camp), Real(dragCoef)), freqG, freqL, 0.0)
  }

  /** The contents after `add_pulse`: unchanged for a zero amplitude, otherwise one new
      item at the end. */
  function AddedPulse(items: seq<PulseItem>, env: Envelope, freqG: real, freqL: real, time: real,
                      phase: real, amp: real, dragCoef: real, rect: Rect): (r: seq<PulseItem>)
    ensures amp == 0.0 ==> r == items
    ensures amp != 0.0 ==> |r| == |items| + 1 && r[..|items|] == items &&
                           r[|items|] == NewPulse(env, freqG, freqL, time, phase, amp, dragCoef, rect)
  {
    if amp == 0.0 then items else items + [NewPulse(env, freqG, freqL, time, phase, amp, dragCoef, rect)]
  }

  function DelayItem(item: PulseItem, d: real): PulseItem {
    item.(time := item.time + d, delay := item.delay + d)
  }

  /** Every item shifted by `d`: its time and its delay field move; nothing else does. */
  function Delayed(items: seq<PulseItem>, d: real): (r: seq<PulseItem>)
    ensures |r| == |items|
    ensures forall i :: 0 <= i < |items| ==>
      r[i].time == items[i].time + d && r[i].delay == items[i].delay + d &&
      r[i].envelope == items[i].envelope && r[i].amp == items[i].amp &&
      r[i].dragAmp == items[i].dragAmp && r[i].freqG == items[i].freqG && r[i].freqL == items[i].freqL
  {
    seq(|items|, i requires 0 <= i < |items| => DelayItem(items[i], d))
  }

  function ScaleItem(item: PulseItem, c: Complex): PulseItem {
    item.(amp := Mul(item.amp, c), dragAmp := Mul(item.dragAmp, c))
  }

  /** Every item's amplitude and drag amplitude multiplied by `c`; nothing else changes. */
  function Scaled(items: seq<PulseItem>, c: Complex): (r: seq<PulseItem>)
    ensures |r| == |items|
    ensures forall i :: 0 <= i < |items| ==>
      r[i].amp == Mul(items[i].amp, c) && r[i].dragAmp == Mul(items[i].dragAmp, c) &&
      r[i].time == items[i].time && r[i].delay == items[i].delay && r[i].envelope == items[i].envelope &&
      r[i].freqG == items[i].freqG && r[i].freqL == items[i].freqL
  {
    seq(|items|, i requires 0 <= i < |items| => ScaleItem(items[i], c))
  }

  /** Two delays add up. */
  lemma DelayCompose(items: seq<PulseItem>, a: real, b: real)
    ensures Delayed(Delayed(items, a), b) == Delayed(items, a + b)
  {
    var l, r := Delayed(Delayed(items, a), b), Delayed(items, a + b);
    forall i | 0 <= i < |items| ensures l[i] == r[i] {
    }
  }

  /** A delay of 0 changes nothing. */
  lemma DelayZero(items: seq<PulseItem>)
    ensures Delayed(items, 0.0) == items
  {
    var r := Delayed(items, 0.0);
    forall i | 0 <= i < |items| ensures r[i] == items[i] {
    }
  }

  /** Two scalings compose into one by the product. */
  lemma ScaleCompose(items: seq<PulseItem>, a: Complex, b: Complex)
    ensures Scaled(Scaled(items, a), b) == Scaled(items, Mul(a, b))
  {
    var l, r := Scaled(Scaled(items, a), b), Scaled(items, Mul(a, b));
    forall i | 0 <= i < |items| ensures l[i] == r[i] {
      MulAssociates(items[i].amp, a, b);
      MulAssociates(items[i].dragAmp, a, b);
    }
  }

  /** Scaling by 1 changes nothing. */
  lemma ScaleOne(items: seq<PulseItem>)
    ensures Scaled(items, Real(1.0)) == items
  {
    var r := Scaled(items, Real(1.0));
    forall i | 0 <= i < |items| ensures r[i] == items[i] {
    }
  }

  /** Delaying and scaling act on disjoint fields, so their order does not matter. */
  lemma DelayScaleCommute(items: seq<PulseItem>, d: real, c: Complex)
    ensures Delayed(Scaled(items, c), d) == Scaled(Delayed(items, d), c)
  {
    var l, r := Delayed(Scaled(items, c), d), Scaled(Delayed(items, d), c);
    forall i | 0 <= i < |items| ensures l[i] == r[i] {
    }
  }

  /** Appending a pulse and then delaying equals delaying and appending the delayed pulse. */
  lemma DelayAppend(items: seq<PulseItem>, p: PulseItem, d: real)
    ensures Delayed(items + [p], d) == Delayed(items, d) + [DelayItem(p, d)]
  {
    var l, r := Delayed(items + [p], d), Delayed(items, d) + [DelayItem(p, d)];
    forall i | 0 <= i < |items| + 1 ensures l[i] == r[i] {
    }
  }

  // ------------------------------------------------------------- the list object

  /** A mutable list of pulse items (a `MutableSequence` over the field `items`). */
  class PulseList {
    var items: seq<PulseItem>

    /** `PulseList()`. */
    constructor Empty()
      ensures items == []
    {
      items := [];
    }

    /** `PulseList(items)`: a copy of the given items. */
    constructor FromItems(items0: seq<PulseItem>)
      ensures items == items0
    {
      items := items0;
    }

    /** `self[index]`. */
    method Get(index: int) returns (r: Result<PulseItem>)
      ensures PyIndex(index, |items|).Some? ==> r == Ok(items[PyIndex(index, |items|).value])
      ensures PyIndex(index, |items|).None? ==> r == Err(IndexError)
    {
      var k := PyIndex(index, |items|);
      if k.Some? {
        r := Ok(items[k.value]);
      } else {
        r := Err(IndexError);
      }
    }

    /** `self[index] = value`. */
    method Set(index: int, value: PulseItem) returns (o: Outcome)
      modifies this
      ensures var k := PyIndex(index, |old(items)|);
        if k.Some? then o == Pass && items == old(items)[k.value := value]
        else o == Fail(IndexError) && items == old(items)
    {
      var k := PyIndex(index, |items|);
      if k.Some? {
        items := items[k.value := value];
        o := Pass;
      } else {
        o := Fail(IndexError);
      }
    }

    /** `del self[index]`. */
    method Delete(index: int) returns (o: Outcome)
      modifies this
      ensures var k := PyIndex(index, |old(items)|);
        if k.Some? then o == Pass && items == old(items)[..k.value] + old(items)[k.value + 1..]
        else o == Fail(IndexError) && items == old(items)
    {
      var k := PyIndex(index, |items|);
      if k.Some? {
        items := items[..k.value] + items[k.value + 1..];
        o := Pass;
      } else {
        o := Fail(IndexError);
      }
    }

    /** `len(self)`. */
    method Len() returns (n: nat)
      ensures n == |items|
    {
      n := |items|;
    }

    /** `self.insert(index, value)`: never raises; the index is clamped. */
    method Insert(index: int, value: PulseItem)
      modifies this
      ensures var p := PyInsertPosition(index, |old(items)|);
        items == old(items)[..p] + [value] + old(items)[p..]
    {
      var p := PyInsertPosition(index, |items|);
      items := items[..p] + [value] + items[p..];
    }

    /** `add_pulse`: skipped when the amplitude is 0, otherwise appends one item. */
    method AddPulse(env: Envelope, freqG: real, freqL: real, time: real, phase: real,
                    amp: real, dragCoef: real, rect: Rect)
      modifies this
      ensures items == AddedPulse(old(items), env, freqG, freqL, time, phase, amp, dragCoef, rect)
    {
      if amp == 0.0 {
        return;
      }
      var camp := rect(amp, phase);
      var cdrag := Mul(Mul(I, camp), Real(dragCoef));
      items := items + [PulseItem(time, env, camp, cdrag, freqG, freqL, 0.0)];
    }

    /** `delay(d)`: every item moves by `d`. */
    method Delay(d: real)
      modifies this
      ensures items == Delayed(old(items), d)
    {
      items := Delayed(items, d);
    }

    /** `self * c`: a new list with scaled amplitudes; this list is untouched. */
    method Times(c: Complex) returns (r: PulseList)
      ensures fresh(r)
      ensures r.items == Scaled(items, c)
    {
      r := new PulseList.FromItems(Scaled(items, c));
    }

    /** `c * self`, which Python evaluates as `self * c`. */
    method TimesLeft(c: Complex) returns (r: PulseList)
      ensures fresh(r)
      ensures r.items == Scaled(items, c)
    {
      r := Times(c);
    }

    /** `self *= c`: scales in place and returns this same list. */
    method TimesAssign(c: Complex) returns (r: PulseList)
      modifies this
      ensures r == this
      ensures items == Scaled(old(items), c)
    {
      items := Scaled(items, c);
      r := this;
    }
  }
}
