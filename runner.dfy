/** pulsegen_client/runner/_runner.py: the two local runners. `run_simple` feeds a
    flat instruction list to a phase tracker in list order; `run_schedule` builds the
    layout managers of a schedule, measures them against an unbounded duration,
    arranges the root at time 0 with its desired duration and renders it into the
    tracker. Both then delay every channel's pulse list by the channel's delay and
    hand it to the sampler, which is not modelled. */
module Runner {
  import opened Common
  import opened Instructions
  import opened PulseLists
  import opened PhaseTracking
  import opened LayoutSpec
  import opened Layout
  import opened Requests
  import Pulse
  import Schedule

  // ------------------------------------------------------------------ output

  /** What `sample` is called with for one channel: the delayed pulse list and the
      channel's sample count, sample rate and alignment level. */
  datatype Waveform = Waveform(pulses: seq<PulseItem>, length: int, sampleRate: real, alignLevel: int)

  function WaveformOf(ch: ChannelInfo, items: seq<PulseItem>): Waveform {
    Waveform(Delayed(items, ch.delay), ch.length, ch.sampleRate, ch.alignLevel)
  }

  /** The waveform table of the channels in order: a later channel with the same name
      overwrites an earlier one. */
  function Waveforms(channels: seq<ChannelInfo>, pulses: seq<seq<PulseItem>>): map<string, Waveform>
    requires |pulses| == |channels|
    decreases |channels|
  {
    if channels == [] then map[]
    else
      var n := |channels| - 1;
      Waveforms(channels[..n], pulses[..n])[channels[n].name := WaveformOf(channels[n], pulses[n])]
  }

  /** The names of the channels. */
  function Names(channels: seq<ChannelInfo>): set<string> {
    set i | 0 <= i < |channels| :: channels[i].name
  }

  /** Adding a channel at the end adds its name. */
  lemma NamesSnoc(channels: seq<ChannelInfo>)
    requires channels != []
    ensures Names(channels) == Names(channels[..|channels| - 1]) + {channels[|channels| - 1].name}
  {
    var n := |channels| - 1;
    var cs := channels[..n];
    forall i | 0 <= i < |channels| ensures channels[i].name in Names(cs) + {channels[n].name} {
      if i < n {
        assert cs[i] == channels[i];
      }
    }
    forall i | 0 <= i < |cs| ensures cs[i].name in Names(channels) {
      assert channels[i] == cs[i];
    }
  }

  /** The table has one entry per channel name. */
  lemma {:induction false} WaveformsKeys(channels: seq<ChannelInfo>, pulses: seq<seq<PulseItem>>)
    requires |pulses| == |channels|
    ensures Waveforms(channels, pulses).Keys == Names(channels)
    decreases |channels|
  {
    if channels != [] {
      var n := |channels| - 1;
      WaveformsKeys(channels[..n], pulses[..n]);
      NamesSnoc(channels);
    }
  }

  /** Under each name the table holds the waveform of the last channel of that name. */
  lemma {:induction false} WaveformsLast(channels: seq<ChannelInfo>, pulses: seq<seq<PulseItem>>, i: nat)
    requires |pulses| == |channels| && i < |channels|
    requires forall j :: i < j < |channels| ==> channels[j].name != channels[i].name
    ensures channels[i].name in Waveforms(channels, pulses)
    ensures Waveforms(channels, pulses)[channels[i].name] == WaveformOf(channels[i], pulses[i])
    decreases |channels|
  {
    var n := |channels| - 1;
    if i < n {
      var cs, ps := channels[..n], pulses[..n];
      assert cs[i] == channels[i] && ps[i] == pulses[i];
      assert forall j :: i < j < |cs| ==> cs[j] == channels[j];
      WaveformsLast(cs, ps, i);
    }
  }

  /** With distinct channel names (as every builder guarantees), each channel's name
      holds that channel's waveform. */
  lemma WaveformsDistinct(channels: seq<ChannelInfo>, pulses: seq<seq<PulseItem>>)
    requires |pulses| == |channels|
    requires forall i, j :: 0 <= i < j < |channels| ==> channels[i].name != channels[j].name
    ensures forall i :: 0 <= i < |channels| ==>
      channels[i].name in Waveforms(channels, pulses) &&
      Waveforms(channels, pulses)[channels[i].name] == WaveformOf(channels[i], pulses[i])
  {
    forall i | 0 <= i < |channels|
      ensures channels[i].name in Waveforms(channels, pulses) &&
              Waveforms(channels, pulses)[channels[i].name] == WaveformOf(channels[i], pulses[i])
    {
      WaveformsLast(channels, pulses, i);
    }
  }

  /** The result of a runner whose tracker walk ended in `run`. */
  function Outputs(channels: seq<ChannelInfo>, run: Result<TrackerState>): Result<map<string, Waveform>>
    requires run.Ok? ==> |run.value.pulses| == |channels|
  {
    match run
    case Err(e) => Err(e)
    case Ok(st) => Ok(Waveforms(channels, st.pulses))
  }

  // -------------------------------------------------------------- run_simple

  /** The tracker call `run_simple` makes for one instruction. A Play's shape id -1
      means no shape, any other id is a Python list index into the shapes (IndexError
      when out of range); an instruction of no known kind raises ValueError. */
  function InstructionStep(item: Instruction, shapes: seq<ShapeInfo>): Step {
    match item
    case Play(time, ch, shapeId, width, plateau, freq, phase, amp, drag) =>
      if shapeId == -1 then Do(OpPlay(ch, Envelope(None, width, plateau), freq, phase, amp, drag, time))
      else
        (match PyIndex(shapeId, |shapes|)
         case None => Raise(IndexError)
         case Some(k) => Do(OpPlay(ch, Envelope(Some(shapes[k]), width, plateau), freq, phase, amp, drag, time)))
    case ShiftFrequency(time, ch, f) => Do(OpShiftFreq(ch, f, time))
    case SetFrequency(time, ch, f) => Do(OpSetFreq(ch, f, time))
    case ShiftPhase(ch, p) => Do(OpShiftPhase(ch, p))
    case SetPhase(time, ch, p) => Do(OpSetPhase(ch, p, time))
    case SwapPhase(time, a, b) => Do(OpSwapPhase(a, b, time))
    case BareInstruction => Raise(ValueError)
  }

  /** The tracker calls of an instruction list, one per instruction, in list order. */
  function SimpleSteps(items: seq<Instruction>, shapes: seq<ShapeInfo>): (steps: seq<Step>)
    ensures |steps| == |items|
    ensures forall k :: 0 <= k < |items| ==> steps[k] == InstructionStep(items[k], shapes)
    decreases |items|
  {
    if items == [] then [] else [InstructionStep(items[0], shapes)] + SimpleSteps(items[1..], shapes)
  }

  /** The tracker walk of `run_simple`: a fresh tracker over the channels' base
      frequencies, then every instruction in turn. */
  function SimpleRun(request: Pulse.Request, rect: Rect): (r: Result<TrackerState>)
    ensures r.Ok? ==> r.value.WellFormed() && |r.value.channels| == |request.channels|
  {
    RunSteps(InitialState(BaseFreqs(request.channels)), SimpleSteps(request.instructions, request.shapes), rect)
  }

  /** The exception an instruction raises over `n` channels and `m` shapes, if any.
      The shape is looked up before the tracker is called. */
  function InstructionError(item: Instruction, n: nat, m: nat): Option<Error> {
    match item
    case Play(_, ch, shapeId, _, _, _, _, _, _) =>
      if shapeId != -1 && PyIndex(shapeId, m).None? then Some(IndexError)
      else if PyIndex(ch, n).None? then Some(IndexError)
      else None
    case ShiftFrequency(_, ch, _) => if PyIndex(ch, n).None? then Some(IndexError) else None
    case SetFrequency(_, ch, _) => if PyIndex(ch, n).None? then Some(IndexError) else None
    case ShiftPhase(ch, _) => if PyIndex(ch, n).None? then Some(IndexError) else None
    case SetPhase(_, ch, _) => if PyIndex(ch, n).None? then Some(IndexError) else None
    case SwapPhase(_, a, b) => if PyIndex(a, n).None? || PyIndex(b, n).None? then Some(IndexError) else None
    case BareInstruction => Some(ValueError)
  }

  /** The exception of the first instruction that raises one. */
  function FirstError(items: seq<Instruction>, n: nat, m: nat): Option<Error>
    decreases |items|
  {
    if items == [] then None
    else
      match InstructionError(items[0], n, m)
      case Some(e) => Some(e)
      case None => FirstError(items[1..], n, m)
  }

  /** One instruction fails exactly as InstructionError says, whatever the tracker
      state, since no call changes the number of channels. */
  lemma StepOutcome(st: TrackerState, item: Instruction, shapes: seq<ShapeInfo>, rect: Rect)
    requires st.WellFormed()
    ensures var r := RunSteps(st, [InstructionStep(item, shapes)], rect);
      var e := InstructionError(item, |st.channels|, |shapes|);
      (r.Err? <==> e.Some?) && (r.Err? ==> r.error == e.value)
  {
    RunSingle(st, InstructionStep(item, shapes), rect);
  }

  /** `run_simple` raises exactly when some instruction does, and then the first such
      instruction's exception. */
  lemma {:induction false} SimpleRunErrors(st: TrackerState, items: seq<Instruction>, shapes: seq<ShapeInfo>, rect: Rect)
    requires st.WellFormed()
    ensures var r := RunSteps(st, SimpleSteps(items, shapes), rect);
      var e := FirstError(items, |st.channels|, |shapes|);
      (r.Err? <==> e.Some?) && (r.Err? ==> r.error == e.value)
    decreases |items|
  {
    if items != [] {
      var s := InstructionStep(items[0], shapes);
      var rest := SimpleSteps(items[1..], shapes);
      assert SimpleSteps(items, shapes) == [s] + rest;
      RunStepsAppend(st, [s], rest, rect);
      StepOutcome(st, items[0], shapes, rect);
      var first := RunSteps(st, [s], rect);
      if first.Ok? {
        SimpleRunErrors(first.value, items[1..], shapes, rect);
      }
    }
  }

  /** No instruction that resolves raises. */
  lemma {:induction false} ResolvedNoError(items: seq<Instruction>, n: nat, m: nat)
    requires AllResolve(items, n, m)
    ensures FirstError(items, n, m) == None
    decreases |items|
  {
    if items != [] {
      assert Resolves(items[0], n, m);
      assert AllResolve(items[1..], n, m) by {
        forall k | 0 <= k < |items[1..]| ensures Resolves(items[1..][k], n, m) {
          assert items[1..][k] == items[k + 1];
        }
      }
      ResolvedNoError(items[1..], n, m);
    }
  }

  /** A request produced by a builder's `build` runs without an exception. */
  lemma BuiltRequestRuns(request: Pulse.Request, rect: Rect)
    requires WellBuilt(request.channels, request.shapes, request.instructions)
    ensures SimpleRun(request, rect).Ok?
  {
    var st := InitialState(BaseFreqs(request.channels));
    ResolvedNoError(request.instructions, |request.channels|, |request.shapes|);
    SimpleRunErrors(st, request.instructions, request.shapes, rect);
  }

  /** Running two instruction lists one after the other is running their concatenation. */
  lemma SimpleStepsAppend(items: seq<Instruction>, more: seq<Instruction>, shapes: seq<ShapeInfo>)
    ensures SimpleSteps(items + more, shapes) == SimpleSteps(items, shapes) + SimpleSteps(more, shapes)
  {
    var l, r := SimpleSteps(items + more, shapes), SimpleSteps(items, shapes) + SimpleSteps(more, shapes);
    assert |l| == |r|;
    forall k | 0 <= k < |l| ensures l[k] == r[k] {
      if k < |items| {
        assert (items + more)[k] == items[k];
      } else {
        assert (items + more)[k] == more[k - |items|];
      }
    }
  }

  /** Performs one instruction on the tracker, as the body of `run_simple`'s loop. */
  method Execute(tracker: PhaseTracker, item: Instruction, shapes: seq<ShapeInfo>, rect: Rect) returns (o: Outcome)
    requires tracker.Valid()
    modifies tracker.channels, tracker.Lists()
    ensures var r := RunSteps(old(tracker.Abstract()), [InstructionStep(item, shapes)], rect);
      o == OutcomeOf(r) && tracker.Abstract() == (if r.Ok? then r.value else old(tracker.Abstract()))
  {
    ghost var st := tracker.Abstract();
    match item {
      case Play(time, ch, shapeId, width, plateau, freq, phase, amp, drag) =>
        var shape: Option<ShapeInfo> := None;
        if shapeId != -1 {
          var k := PyIndex(shapeId, |shapes|);
          if k.None? {
            RunSingle(st, Raise(IndexError), rect);
            return Fail(IndexError);
          }
          shape := Some(shapes[k.value]);
        }
        var env := Envelope(shape, width, plateau);
        RunSingle(st, Do(OpPlay(ch, env, freq, phase, amp, drag, time)), rect);
        o := tracker.Play(ch, env, freq, phase, amp, drag, time, rect);
      case ShiftFrequency(time, ch, f) =>
        RunSingle(st, Do(OpShiftFreq(ch, f, time)), rect);
        o := tracker.ShiftFreq(ch, f, time);
      case SetFrequency(time, ch, f) =>
        RunSingle(st, Do(OpSetFreq(ch, f, time)), rect);
        o := tracker.SetFreq(ch, f, time);
      case ShiftPhase(ch, p) =>
        RunSingle(st, Do(OpShiftPhase(ch, p)), rect);
        o := tracker.ShiftPhase(ch, p);
      case SetPhase(time, ch, p) =>
        RunSingle(st, Do(OpSetPhase(ch, p, time)), rect);
        o := tracker.SetPhase(ch, p, time);
      case SwapPhase(time, a, b) =>
        RunSingle(st, Do(OpSwapPhase(a, b, time)), rect);
        o := tracker.SwapPhase(a, b, time);
      case BareInstruction =>
        RunSingle(st, Raise(ValueError), rect);
        o := Fail(ValueError);
    }
  }

  /** `finish` and the delay loop shared by both runners: every channel's pulse list,
      delayed by the channel's delay, under the channel's name. */
  method Collect(tracker: PhaseTracker, channels: seq<ChannelInfo>) returns (w: map<string, Waveform>)
    requires tracker.Valid() && |tracker.channels| == |channels|
    modifies tracker.Lists()
    ensures w == Waveforms(channels, old(tracker.Abstract()).pulses)
  {
    ghost var pulses := tracker.Abstract().pulses;
    var lists := tracker.Finish();
    w := map[];
    var i := 0;
    while i < |channels|
      invariant i <= |channels|
      invariant w == Waveforms(channels[..i], pulses[..i])
      invariant forall j :: i <= j < |channels| ==> lists[j].items == pulses[j]
    {
      assert lists[i] in tracker.Lists();
      lists[i].Delay(channels[i].delay);
      w := w[channels[i].name := Waveform(lists[i].items, channels[i].length, channels[i].sampleRate,
                                          channels[i].alignLevel)];
      assert channels[..i + 1][..i] == channels[..i] && pulses[..i + 1][..i] == pulses[..i];
      i := i + 1;
    }
    assert channels[..i] == channels && pulses[..i] == pulses;
  }

  /** The loop of `run_simple`: the instructions in list order, stopping at the first
      that raises. */
  method Feed(tracker: PhaseTracker, items: seq<Instruction>, shapes: seq<ShapeInfo>, rect: Rect) returns (o: Outcome)
    requires tracker.Valid()
    modifies tracker.channels, tracker.Lists()
    ensures var r := RunSteps(old(tracker.Abstract()), SimpleSteps(items, shapes), rect);
      o == OutcomeOf(r) && (r.Ok? ==> tracker.Abstract() == r.value)
  {
    ghost var goal := RunSteps(tracker.Abstract(), SimpleSteps(items, shapes), rect);
    var k := 0;
    while k < |items|
      invariant k <= |items|
      invariant goal == RunSteps(tracker.Abstract(), SimpleSteps(items[k..], shapes), rect)
    {
      ghost var st := tracker.Abstract();
      assert items[k..][1..] == items[k + 1..];
      assert SimpleSteps(items[k..], shapes) == [InstructionStep(items[k], shapes)] + SimpleSteps(items[k + 1..], shapes);
      RunStepsAppend(st, [InstructionStep(items[k], shapes)], SimpleSteps(items[k + 1..], shapes), rect);
      o := Execute(tracker, items[k], shapes, rect);
      if o.Fail? {
        return;
      }
      k := k + 1;
    }
    assert items[k..] == [];
    o := Pass;
  }

  /** `run_simple(request)`: the waveforms of the tracker walk over the instructions,
      or the exception of the first instruction that raises. */
  method RunSimple(request: Pulse.Request, rect: Rect) returns (r: Result<map<string, Waveform>>)
    ensures r == Outputs(request.channels, SimpleRun(request, rect))
  {
    var tracker := new PhaseTracker(BaseFreqs(request.channels));
    assert forall l :: l in tracker.Lists() ==> fresh(l);
    var o := Feed(tracker, request.instructions, request.shapes, rect);
    if o.Fail? {
      return Err(o.error);
    }
    var w := Collect(tracker, request.channels);
    r := Ok(w);
  }

  // ------------------------------------------------------------ run_schedule

  /** The tracker walk of `run_schedule`: ValueError if the schedule holds an element
      the layout cannot manage, else measure against an unbounded duration, arrange
      at time 0 with the root's desired duration and render at time 0 into a fresh
      tracker; the first pass that raises ends it. */
  ghost function ScheduleRun(request: Schedule.Request, rect: Rect): (r: Result<TrackerState>)
    ensures r.Ok? ==> r.value.WellFormed() && |r.value.channels| == |request.channels|
  {
    var e := request.schedule;
    if !Buildable(e) then Err(ValueError)
    else
      match MeasureOf(e, Inf)
      case Err(x) => Err(x)
      case Ok(m) =>
        match ArrangeOf(e, m, 0.0, m.desired)
        case Err(x) => Err(x)
        case Ok(t) => RunSteps(InitialState(BaseFreqs(request.channels)), RenderOf(e, t, 0.0, request.shapes), rect)
  }

  /** `run_schedule(request)`: the waveforms of the rendered schedule, or the exception
      of the first pass that raises. */
  method RunSchedule(request: Schedule.Request, rect: Rect) returns (r: Result<map<string, Waveform>>)
    ensures r == Outputs(request.channels, ScheduleRun(request, rect))
  {
    var tracker := new PhaseTracker(BaseFreqs(request.channels));
    assert forall l :: l in tracker.Lists() ==> fresh(l);
    var lm := LayoutNode.Create(request.schedule);
    if lm.Err? {
      return Err(lm.error);
    }
    var node := lm.value;
    var o, m := node.Measure(Inf);
    if o.Fail? {
      return Err(o.error);
    }
    ghost var t;
    o, t := node.Arrange(0.0, node.desired, m);
    if o.Fail? {
      return Err(o.error);
    }
    o := node.Render(0.0, tracker, request.shapes, rect, t);
    if o.Fail? {
      return Err(o.error);
    }
    var w := Collect(tracker, request.channels);
    r := Ok(w);
  }
}
