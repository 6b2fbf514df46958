/** Per-channel phase and frequency bookkeeping (pulsegen_client/runner/phase_tracker.py).
    A channel's phase at time t is `(base_freq + delta_freq) * t + phase`, in cycles;
    frequency changes keep the shift-induced part `delta_freq * t + phase` continuous. */
module PhaseTracking {
  import opened Common
  import opened PulseLists

  // ------------------------------------------------------------ the algebra

  /** The value state of one channel. */
  datatype ChannelState = ChannelState(baseFreq: real, deltaFreq: real, phase: real)

  function TotalFrequency(s: ChannelState): real {
    s.baseFreq + s.deltaFreq
  }

  /** The part of the phase at time t that frequency shifts contribute. */
  function ShiftPhaseAt(s: ChannelState, t: real): real {
    s.deltaFreq * t + s.phase
  }

  /** The full carrier phase at time t. */
  function CarrierPhaseAt(s: ChannelState, t: real): real {
    TotalFrequency(s) * t + s.phase
  }

  /** `shift_freq(delta, time)`: the frequency shift grows by `delta` and the phase stays
      continuous at `time`. */
  function AfterShiftFreq(s: ChannelState, delta: real, time: real): (r: ChannelState)
    ensures r.baseFreq == s.baseFreq && r.deltaFreq == s.deltaFreq + delta
    ensures ShiftPhaseAt(r, time) == ShiftPhaseAt(s, time)
  {
    ChannelState(s.baseFreq, s.deltaFreq + delta, s.phase - delta * time)
  }

  /** `set_freq(freq, time)`: the frequency shift becomes `freq`, phase continuous at `time`. */
  function AfterSetFreq(s: ChannelState, freq: real, time: real): (r: ChannelState)
    ensures r.baseFreq == s.baseFreq && r.deltaFreq == freq
    ensures ShiftPhaseAt(r, time) == ShiftPhaseAt(s, time)
  {
    ChannelState(s.baseFreq, freq, s.phase - (freq - s.deltaFreq) * time)
  }

  /** `shift_phase(delta)`: only the phase offset moves. */
  function AfterShiftPhase(s: ChannelState, delta: real): (r: ChannelState)
    ensures r.baseFreq == s.baseFreq && r.deltaFreq == s.deltaFreq
    ensures r.phase == s.phase + delta
    ensures forall t :: ShiftPhaseAt(r, t) == ShiftPhaseAt(s, t) + delta
  {
    s.(phase := s.phase + delta)
  }

  /** `set_phase(phase, time)`: the shift-induced phase at `time` becomes `phase`; the
      base frequency plays no part. */
  function AfterSetPhase(s: ChannelState, phase: real, time: real): (r: ChannelState)
    ensures r.baseFreq == s.baseFreq && r.deltaFreq == s.deltaFreq
    ensures ShiftPhaseAt(r, time) == phase
  {
    s.(phase := phase - s.deltaFreq * time)
  }

  /** `swap_phase(a, b, time)` on two distinct channels: each ends with the other's
      carrier phase at `time`; frequencies are untouched. */
  function AfterSwapPhase(a: ChannelState, b: ChannelState, time: real): (r: (ChannelState, ChannelState))
    ensures r.0.baseFreq == a.baseFreq && r.0.deltaFreq == a.deltaFreq
    ensures r.1.baseFreq == b.baseFreq && r.1.deltaFreq == b.deltaFreq
    ensures CarrierPhaseAt(r.0, time) == CarrierPhaseAt(b, time)
    ensures CarrierPhaseAt(r.1, time) == CarrierPhaseAt(a, time)
  {
    var diff := TotalFrequency(a) - TotalFrequency(b);
    (a.(phase := b.phase - diff * time), b.(phase := a.phase + diff * time))
  }

  /** The contracts above pin each update down: any state meeting the shift-frequency
      contract is the one `AfterShiftFreq` computes (and likewise for the others). */
  lemma ShiftFreqDetermined(s: ChannelState, delta: real, time: real, r: ChannelState)
    requires r.baseFreq == s.baseFreq && r.deltaFreq == s.deltaFreq + delta
    requires ShiftPhaseAt(r, time) == ShiftPhaseAt(s, time)
    ensures r == AfterShiftFreq(s, delta, time)
  {
  }

  lemma SetFreqDetermined(s: ChannelState, freq: real, time: real, r: ChannelState)
    requires r.baseFreq == s.baseFreq && r.deltaFreq == freq
    requires ShiftPhaseAt(r, time) == ShiftPhaseAt(s, time)
    ensures r == AfterSetFreq(s, freq, time)
  {
  }

  lemma SetPhaseDetermined(s: ChannelState, phase: real, time: real, r: ChannelState)
    requires r.baseFreq == s.baseFreq && r.deltaFreq == s.deltaFreq
    requires ShiftPhaseAt(r, time) == phase
    ensures r == AfterSetPhase(s, phase, time)
  {
  }

  /** Shifting by `delta` and back by `-delta` at the same time restores the state. */
  lemma ShiftFreqInverse(s: ChannelState, delta: real, time: real)
    ensures AfterShiftFreq(AfterShiftFreq(s, delta, time), -delta, time) == s
  {
  }

  /** Two frequency shifts at the same time add up. */
  lemma ShiftFreqCompose(s: ChannelState, d1: real, d2: real, time: real)
    ensures AfterShiftFreq(AfterShiftFreq(s, d1, time), d2, time) == AfterShiftFreq(s, d1 + d2, time)
  {
  }

  /** Setting the same frequency twice at the same time equals setting it once. */
  lemma SetFreqIdempotent(s: ChannelState, freq: real, time: real)
    ensures AfterSetFreq(AfterSetFreq(s, freq, time), freq, time) == AfterSetFreq(s, freq, time)
  {
  }

  /** Setting the frequency is shifting it by the difference. */
  lemma SetFreqIsShift(s: ChannelState, freq: real, time: real)
    ensures AfterSetFreq(s, freq, time) == AfterShiftFreq(s, freq - s.deltaFreq, time)
  {
  }

  /** Setting the phase twice at the same time equals setting it once. */
  lemma SetPhaseIdempotent(s: ChannelState, phase: real, time: real)
    ensures AfterSetPhase(AfterSetPhase(s, phase, time), phase, time) == AfterSetPhase(s, phase, time)
  {
  }

  /** Swapping twice at the same time restores both channels. */
  lemma SwapTwice(a: ChannelState, b: ChannelState, time: real)
    ensures var (a1, b1) := AfterSwapPhase(a, b, time); AfterSwapPhase(a1, b1, time) == (a, b)
  {
    var (a1, b1) := AfterSwapPhase(a, b, time);
    var diff := TotalFrequency(a) - TotalFrequency(b);
    assert TotalFrequency(a1) - TotalFrequency(b1) == diff;
    assert (a.phase + diff * time) - diff * time == a.phase;
    assert (b.phase - diff * time) + diff * time == b.phase;
  }

  /** Swapping a channel with itself changes nothing. */
  lemma SwapSelf(a: ChannelState, time: real)
    ensures AfterSwapPhase(a, a, time) == (a, a)
  {
  }

  // ------------------------------------------------------ the tracker as a value

  /** The whole tracker: channel states and the pulses collected per channel. */
  datatype TrackerState = TrackerState(channels: seq<ChannelState>, pulses: seq<seq<PulseItem>>) {
    ghost predicate WellFormed() {
      |channels| == |pulses|
    }
  }

  /** A fresh tracker: one channel per base frequency, nothing shifted, no pulses. */
  function InitialState(baseFreqs: seq<real>): (st: TrackerState)
    ensures st.WellFormed() && |st.channels| == |baseFreqs|
    ensures forall i :: 0 <= i < |baseFreqs| ==>
      st.channels[i] == ChannelState(baseFreqs[i], 0.0, 0.0) && st.pulses[i] == []
  {
    TrackerState(seq(|baseFreqs|, i requires 0 <= i < |baseFreqs| => ChannelState(baseFreqs[i], 0.0, 0.0)),
                 seq(|baseFreqs|, i requires 0 <= i < |baseFreqs| => []))
  }

  /** One tracker call, with the channel given as a Python list index. */
  datatype TrackerOp =
    | OpPlay(channel: int, env: Envelope, freq: real, phase: real, amp: real, dragCoef: real, time: real)
    | OpShiftFreq(channel: int, delta: real, time: real)
    | OpSetFreq(channel: int, freq: real, time: real)
    | OpShiftPhase(channel: int, delta: real)
    | OpSetPhase(channel: int, phase: real, time: real)
    | OpSwapPhase(a: int, b: int, time: real)

  function UpdateChannel(st: TrackerState, k: nat, c: ChannelState): TrackerState
    requires k < |st.channels|
  {
    st.(channels := st.channels[k := c])
  }

  /** A tracker call that is not a play, with the channel given as a Python list
      index: IndexError when an index is out of range, else the closed-form update of
      the addressed channel(s). Pulse lists are untouched. */
  function ApplyChannelOp(st: TrackerState, op: TrackerOp): (r: Result<TrackerState>)
    requires st.WellFormed() && !op.OpPlay?
    ensures r.Ok? ==> r.value.WellFormed() && |r.value.channels| == |st.channels| && r.value.pulses == st.pulses
    ensures r.Err? ==> r.error == IndexError
    ensures !op.OpSwapPhase? ==> (r.Ok? <==> PyIndex(op.channel, |st.channels|).Some?)
    ensures op.OpSwapPhase? ==>
      (r.Ok? <==> PyIndex(op.a, |st.channels|).Some? && PyIndex(op.b, |st.channels|).Some?)
  {
    var n := |st.channels|;
    match op
    case OpShiftFreq(ch, delta, time) =>
      (match PyIndex(ch, n)
       case None => Err(IndexError)
       case Some(k) => Ok(UpdateChannel(st, k, AfterShiftFreq(st.channels[k], delta, time))))
    case OpSetFreq(ch, freq, time) =>
      (match PyIndex(ch, n)
       case None => Err(IndexError)
       case Some(k) => Ok(UpdateChannel(st, k, AfterSetFreq(st.channels[k], freq, time))))
    case OpShiftPhase(ch, delta) =>
      (match PyIndex(ch, n)
       case None => Err(IndexError)
       case Some(k) => Ok(UpdateChannel(st, k, AfterShiftPhase(st.channels[k], delta))))
    case OpSetPhase(ch, phase, time) =>
      (match PyIndex(ch, n)
       case None => Err(IndexError)
       case Some(k) => Ok(UpdateChannel(st, k, AfterSetPhase(st.channels[k], phase, time))))
    case OpSwapPhase(a, b, time) =>
      (match (PyIndex(a, n), PyIndex(b, n))
       case (Some(i), Some(j)) =>
         if i == j then Ok(st)
         else
           var (ca, cb) := AfterSwapPhase(st.channels[i], st.channels[j], time);
           Ok(st.(channels := st.channels[i := ca][j := cb]))
       case _ => Err(IndexError))
  }

  /** `play`: IndexError for an out-of-range channel, else the pulse is added to that
      channel's list with the channel's total frequency as global frequency and the
      channel phase plus the pulse phase as its phase. No channel state changes. */
  function ApplyPlay(st: TrackerState, channel: int, env: Envelope, freq: real, phase: real,
                     amp: real, dragCoef: real, time: real, rect: Rect): (r: Result<TrackerState>)
    requires st.WellFormed()
    ensures r.Ok? <==> PyIndex(channel, |st.channels|).Some?
    ensures r.Err? ==> r.error == IndexError
    ensures r.Ok? ==> var k := PyIndex(channel, |st.channels|).value; var c := st.channels[k];
      r.value.channels == st.channels && |r.value.pulses| == |st.pulses| &&
      r.value.pulses[k] == AddedPulse(st.pulses[k], env, TotalFrequency(c), freq, time, c.phase + phase, amp, dragCoef, rect) &&
      (forall i :: 0 <= i < |st.pulses| && i != k ==> r.value.pulses[i] == st.pulses[i])
  {
    match PyIndex(channel, |st.channels|)
    case None => Err(IndexError)
    case Some(k) =>
      var c := st.channels[k];
      Ok(st.(pulses := st.pulses[k := AddedPulse(st.pulses[k], env, TotalFrequency(c), freq, time,
                                                  c.phase + phase, amp, dragCoef, rect)]))
  }

  function ApplyOp(st: TrackerState, op: TrackerOp, rect: Rect): (r: Result<TrackerState>)
    requires st.WellFormed()
    ensures r.Ok? ==> r.value.WellFormed() && |r.value.channels| == |st.channels|
  {
    match op
    case OpPlay(ch, env, freq, phase, amp, drag, time) => ApplyPlay(st, ch, env, freq, phase, amp, drag, time, rect)
    case _ => ApplyChannelOp(st, op)
  }

  /** Swapping at the same time twice restores the tracker. */
  lemma SwapOpTwice(st: TrackerState, a: int, b: int, time: real)
    requires st.WellFormed()
    requires ApplyChannelOp(st, OpSwapPhase(a, b, time)).Ok?
    ensures var s1 := ApplyChannelOp(st, OpSwapPhase(a, b, time)).value;
      ApplyChannelOp(s1, OpSwapPhase(a, b, time)) == Ok(st)
  {
    var n := |st.channels|;
    var i, j := PyIndex(a, n).value, PyIndex(b, n).value;
    if i != j {
      var s1 := ApplyChannelOp(st, OpSwapPhase(a, b, time)).value;
      SwapTwice(st.channels[i], st.channels[j], time);
      assert s1.channels[i := AfterSwapPhase(s1.channels[i], s1.channels[j], time).0]
                        [j := AfterSwapPhase(s1.channels[i], s1.channels[j], time).1] == st.channels;
    }
  }

  function OutcomeOf<T>(r: Result<T>): Outcome {
    match r
    case Ok(_) => Pass
    case Err(e) => Fail(e)
  }

  /** One step of a walk over instructions: a tracker call, or an exception raised
      before any call is made. */
  datatype Step = Do(op: TrackerOp) | Raise(error: Error)

  /** Applies the steps in order, stopping at the first error. */
  function RunSteps(st: TrackerState, steps: seq<Step>, rect: Rect): (r: Result<TrackerState>)
    requires st.WellFormed()
    ensures r.Ok? ==> r.value.WellFormed() && |r.value.channels| == |st.channels|
    decreases |steps|
  {
    if steps == [] then Ok(st)
    else
      var first := match steps[0]
                   case Do(op) => ApplyOp(st, op, rect)
                   case Raise(e) => Err(e);
      match first
      case Err(e) => Err(e)
      case Ok(s) => RunSteps(s, steps[1..], rect)
  }

  /** A walk of one step is that step. */
  lemma RunSingle(st: TrackerState, s: Step, rect: Rect)
    requires st.WellFormed()
    ensures s.Do? ==> RunSteps(st, [s], rect) == ApplyOp(st, s.op, rect)
    ensures s.Raise? ==> RunSteps(st, [s], rect) == Err(s.error)
  {
    assert [s][1..] == [];
  }

  /** Running two walks one after the other is running their concatenation. */
  lemma {:induction false} RunStepsAppend(st: TrackerState, xs: seq<Step>, ys: seq<Step>, rect: Rect)
    requires st.WellFormed()
    ensures RunSteps(st, xs + ys, rect) ==
      match RunSteps(st, xs, rect)
      case Err(e) => Err(e)
      case Ok(s) => RunSteps(s, ys, rect)
    decreases |xs|
  {
    if xs == [] {
      assert xs + ys == ys;
    } else {
      assert (xs + ys)[0] == xs[0];
      assert (xs + ys)[1..] == xs[1..] + ys;
      var first := match xs[0]
                   case Do(op) => ApplyOp(st, op, rect)
                   case Raise(e) => Err(e);
      if first.Ok? {
        RunStepsAppend(first.value, xs[1..], ys, rect);
      }
    }
  }

  // -------------------------------------------------------- the tracker objects

  /** `_ChannelStatus`: the mutable state of one channel and its pulse list. */
  class ChannelStatus {
    const baseFreq: real
    var deltaFreq: real
    var phase: real
    const pulses: PulseList

    constructor (baseFreq0: real)
      ensures baseFreq == baseFreq0 && deltaFreq == 0.0 && phase == 0.0
      ensures fresh(pulses) && pulses.items == []
    {
      baseFreq := baseFreq0;
      deltaFreq := 0.0;
      phase := 0.0;
      pulses := new PulseList.Empty();
    }

    function State(): ChannelState
      reads this
    {
      ChannelState(baseFreq, deltaFreq, phase)
    }

    function TotalFreq(): (f: real)
      reads this
      ensures f == TotalFrequency(State())
    {
      baseFreq + deltaFreq
    }

    method ShiftFreq(delta: real, time: real)
      modifies this
      ensures State() == AfterShiftFreq(old(State()), delta, time)
    {
      phase := phase - delta * time;
      deltaFreq := deltaFreq + delta;
    }

    method SetFreq(freq: real, time: real)
      modifies this
      ensures State() == AfterSetFreq(old(State()), freq, time)
    {
      phase := phase - (freq - deltaFreq) * time;
      deltaFreq := freq;
    }

    method ShiftPhase(delta: real)
      modifies this
      ensures State() == AfterShiftPhase(old(State()), delta)
    {
      phase := phase + delta;
    }

    method SetPhase(phase0: real, time: real)
      modifies this
      ensures State() == AfterSetPhase(old(State()), phase0, time)
    {
      phase := phase0 - deltaFreq * time;
    }

    /** Both right-hand sides are evaluated before either phase is assigned, so a
        channel swapped with itself keeps its phase. */
    static method SwapPhase(a: ChannelStatus, b: ChannelStatus, time: real)
      modifies a, b
      ensures a != b ==> (a.State(), b.State()) == AfterSwapPhase(old(a.State()), old(b.State()), time)
      ensures a == b ==> a.State() == old(a.State())
    {
      ghost var sa, sb := a.State(), b.State();
      var diff := a.TotalFreq() - b.TotalFreq();
      var pa, pb := b.phase - diff * time, a.phase + diff * time;
      assert AfterSwapPhase(sa, sb, time).0 == sa.(phase := pa);
      assert AfterSwapPhase(sa, sb, time).1 == sb.(phase := pb);
      a.phase := pa;
      b.phase := pb;
      assert a != b ==> a.State() == sa.(phase := pa) && b.State() == sb.(phase := pb);
    }
  }

  /** `PhaseTracker`: one channel status per channel, in channel order. */
  class PhaseTracker {
    const channels: seq<ChannelStatus>

    /** Distinct channels own distinct pulse lists. */
    ghost predicate Valid() {
      (forall i, j :: 0 <= i < j < |channels| ==> channels[i] != channels[j]) &&
      (forall i, j :: 0 <= i < j < |channels| ==> channels[i].pulses != channels[j].pulses)
    }

    ghost function Lists(): set<PulseList> {
      set i | 0 <= i < |channels| :: channels[i].pulses
    }

    /** All objects the tracker reads and writes. */
    ghost function Repr(): set<object> {
      (set i | 0 <= i < |channels| :: channels[i] as object) + (set l | l in Lists() :: l as object)
    }

    ghost function Abstract(): (st: TrackerState)
      reads channels, Lists()
      ensures st.WellFormed() && |st.channels| == |channels|
    {
      TrackerState(seq(|channels|, i reads channels requires 0 <= i < |channels| => channels[i].State()),
                   seq(|channels|, i reads Lists() requires 0 <= i < |channels| => channels[i].pulses.items))
    }

    constructor (baseFreqs: seq<real>)
      ensures Valid() && |channels| == |baseFreqs|
      ensures fresh(Repr())
      ensures forall i :: 0 <= i < |channels| ==> fresh(channels[i]) && fresh(channels[i].pulses)
      ensures Abstract() == InitialState(baseFreqs)
    {
      var cs: seq<ChannelStatus> := [];
      var i := 0;
      while i < |baseFreqs|
        invariant 0 <= i <= |baseFreqs| && |cs| == i
        invariant forall k :: 0 <= k < i ==> fresh(cs[k]) && fresh(cs[k].pulses)
        invariant forall k :: 0 <= k < i ==>
          cs[k].State() == ChannelState(baseFreqs[k], 0.0, 0.0) && cs[k].pulses.items == []
        invariant forall k, l :: 0 <= k < l < i ==> cs[k] != cs[l] && cs[k].pulses != cs[l].pulses
      {
        var c := new ChannelStatus(baseFreqs[i]);
        cs := cs + [c];
        i := i + 1;
      }
      channels := cs;
      new;
      assert Abstract().channels == InitialState(baseFreqs).channels;
      assert Abstract().pulses == InitialState(baseFreqs).pulses;
    }

    /** `shift_freq(channel, delta, time)`. */
    method ShiftFreq(channel: int, delta: real, time: real) returns (o: Outcome)
      requires Valid()
      modifies channels
      ensures var r := ApplyChannelOp(old(Abstract()), OpShiftFreq(channel, delta, time));
        o == OutcomeOf(r) && Abstract() == (if r.Ok? then r.value else old(Abstract()))
    {
      var k := PyIndex(channel, |channels|);
      if k.None? { return Fail(IndexError); }
      ghost var st := Abstract();
      channels[k.value].ShiftFreq(delta, time);
      o := Pass;
      assert Abstract().channels == st.channels[k.value := channels[k.value].State()];
    }

    /** `set_freq(channel, freq, time)`. */
    method SetFreq(channel: int, freq: real, time: real) returns (o: Outcome)
      requires Valid()
      modifies channels
      ensures var r := ApplyChannelOp(old(Abstract()), OpSetFreq(channel, freq, time));
        o == OutcomeOf(r) && Abstract() == (if r.Ok? then r.value else old(Abstract()))
    {
      var k := PyIndex(channel, |channels|);
      if k.None? { return Fail(IndexError); }
      ghost var st := Abstract();
      channels[k.value].SetFreq(freq, time);
      o := Pass;
      assert Abstract().channels == st.channels[k.value := channels[k.value].State()];
    }

    /** `shift_phase(channel, delta)`: takes no time. */
    method ShiftPhase(channel: int, delta: real) returns (o: Outcome)
      requires Valid()
      modifies channels
      ensures var r := ApplyChannelOp(old(Abstract()), OpShiftPhase(channel, delta));
        o == OutcomeOf(r) && Abstract() == (if r.Ok? then r.value else old(Abstract()))
    {
      var k := PyIndex(channel, |channels|);
      if k.None? { return Fail(IndexError); }
      ghost var st := Abstract();
      channels[k.value].ShiftPhase(delta);
      o := Pass;
      assert Abstract().channels == st.channels[k.value := channels[k.value].State()];
    }

    /** `set_phase(channel, phase, time)`. */
    method SetPhase(channel: int, phase: real, time: real) returns (o: Outcome)
      requires Valid()
      modifies channels
      ensures var r := ApplyChannelOp(old(Abstract()), OpSetPhase(channel, phase, time));
        o == OutcomeOf(r) && Abstract() == (if r.Ok? then r.value else old(Abstract()))
    {
      var k := PyIndex(channel, |channels|);
      if k.None? { return Fail(IndexError); }
      ghost var st := Abstract();
      channels[k.value].SetPhase(phase, time);
      o := Pass;
      assert Abstract().channels == st.channels[k.value := channels[k.value].State()];
    }

    /** `swap_phase(a, b, time)`: both indices are looked up before anything changes. */
    method SwapPhase(a: int, b: int, time: real) returns (o: Outcome)
      requires Valid()
      modifies channels
      ensures var r := ApplyChannelOp(old(Abstract()), OpSwapPhase(a, b, time));
        o == OutcomeOf(r) && Abstract() == (if r.Ok? then r.value else old(Abstract()))
    {
      var i := PyIndex(a, |channels|);
      if i.None? { return Fail(IndexError); }
      var j := PyIndex(b, |channels|);
      if j.None? { return Fail(IndexError); }
      ghost var st := Abstract();
      ChannelStatus.SwapPhase(channels[i.value], channels[j.value], time);
      o := Pass;
      if i.value != j.value {
        assert Abstract().channels ==
          st.channels[i.value := channels[i.value].State()][j.value := channels[j.value].State()];
      } else {
        assert Abstract().channels == st.channels;
      }
    }

    /** `play(channel, env, freq, phase, amp, drag_coef, time)`. */
    method Play(channel: int, env: Envelope, freq: real, phase: real, amp: real, dragCoef: real,
                time: real, rect: Rect) returns (o: Outcome)
      requires Valid()
      modifies Lists()
      ensures var r := ApplyPlay(old(Abstract()), channel, env, freq, phase, amp, dragCoef, time, rect);
        o == OutcomeOf(r) && Abstract() == (if r.Ok? then r.value else old(Abstract()))
    {
      var k := PyIndex(channel, |channels|);
      if k.None? { return Fail(IndexError); }
      ghost var st := Abstract();
      var c := channels[k.value];
      var freqG := c.TotalFreq();
      var totalPhase := c.phase + phase;
      c.pulses.AddPulse(env, freqG, freq, time, totalPhase, amp, dragCoef, rect);
      o := Pass;
      assert Abstract().pulses == st.pulses[k.value := c.pulses.items];
    }

    /** Performs one tracker call (the dispatch both runners share). */
    method Perform(op: TrackerOp, rect: Rect) returns (o: Outcome)
      requires Valid()
      modifies channels, Lists()
      ensures var r := ApplyOp(old(Abstract()), op, rect);
        o == OutcomeOf(r) && Abstract() == (if r.Ok? then r.value else old(Abstract()))
    {
      match op {
        case OpPlay(ch, env, freq, phase, amp, drag, time) =>
          o := Play(ch, env, freq, phase, amp, drag, time, rect);
        case OpShiftFreq(ch, delta, time) =>
          o := ShiftFreq(ch, delta, time);
        case OpSetFreq(ch, freq, time) =>
          o := SetFreq(ch, freq, time);
        case OpShiftPhase(ch, delta) =>
          o := ShiftPhase(ch, delta);
        case OpSetPhase(ch, phase, time) =>
          o := SetPhase(ch, phase, time);
        case OpSwapPhase(a, b, time) =>
          o := SwapPhase(a, b, time);
      }
    }

    /** `finish()`: the pulse lists, in channel order. */
    method Finish() returns (lists: seq<PulseList>)
      ensures |lists| == |channels|
      ensures forall i :: 0 <= i < |channels| ==> lists[i] == channels[i].pulses
    {
      lists := seq(|channels|, i requires 0 <= i < |channels| => channels[i].pulses);
    }
  }
}
