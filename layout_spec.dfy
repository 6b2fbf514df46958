/** The layout engine of pulsegen_client/runner/_layout.py as functions of the element
    tree: what `measure` records on every node, what `arrange` records on every node
    given the measured tree, and the tracker calls `render` makes given the arranged
    tree. The layout-manager objects (layout.dfy) are proved to compute exactly these. */
module LayoutSpec {
  import opened Common
  import opened Schedule
  import opened PulseLists
  import opened PhaseTracking
  import opened LayoutBounds
  import opened StackLayout
  import opened GridColumns
  import opened GridLayout
  import Instructions

  /** The children a layout manager creates managers for, in insertion order (a Repeat's
      single child included, whatever its count). */
  function Children(e: Element): (cs: seq<Element>)
    ensures forall i :: 0 <= i < |cs| ==> cs[i] < e
    ensures e.kind.Repeat? ==> cs == [e.kind.element]
    ensures e.kind.Stack? ==> cs == e.kind.elements
    ensures e.kind.Absolute? ==>
      |cs| == |e.kind.entries| && forall i :: 0 <= i < |cs| ==> cs[i] == e.kind.entries[i].element
    ensures e.kind.Grid? ==>
      |cs| == |e.kind.gridEntries| && forall i :: 0 <= i < |cs| ==> cs[i] == e.kind.gridEntries[i].element
    ensures !IsContainer(e.kind) ==> cs == []
  {
    match e.kind
    case Repeat(c, _, _) => [c]
    case Stack(es, _) => es
    case Absolute(entries) =>
      seq(|entries|, i requires 0 <= i < |entries| => entries[i].element)
    case Grid(entries, _) =>
      seq(|entries|, i requires 0 <= i < |entries| => entries[i].element)
    case _ => []
  }

  predicate IsContainer(k: Kind) {
    k.Repeat? || k.Stack? || k.Absolute? || k.Grid?
  }

  /** `create_layout_manager` accepts the element and, recursively, its children: it
      raises ValueError on an instance of the `Element` base class. */
  predicate Buildable(e: Element)
    decreases e, 1, 0
  {
    !e.kind.Plain? && ChildrenBuildable(e, 0)
  }

  predicate ChildrenBuildable(e: Element, k: nat)
    requires k <= |Children(e)|
    decreases e, 0, |Children(e)| - k
  {
    k == |Children(e)| || (Buildable(Children(e)[k]) && ChildrenBuildable(e, k + 1))
  }

  /** A manager's `channels`: those its instruction addresses, or the union of its
      children's. */
  function ChannelsOf(e: Element): set<int>
    decreases e, 1, 0
  {
    match e.kind
    case Play(ch, _, _, _, _, _, _, _, _) => {ch}
    case ShiftPhase(ch, _) => {ch}
    case SetPhase(ch, _) => {ch}
    case ShiftFrequency(ch, _) => {ch}
    case SetFrequency(ch, _) => {ch}
    case SwapPhase(a, b) => {a, b}
    case Barrier(ids) => set i | i in ids
    case Plain => {}
    case _ => ChildChannels(e, 0)
  }

  function ChildChannels(e: Element, k: nat): set<int>
    requires k <= |Children(e)|
    decreases e, 0, |Children(e)| - k
  {
    if k == |Children(e)| then {} else ChannelsOf(Children(e)[k]) + ChildChannels(e, k + 1)
  }

  /** A container's channels are exactly those of some child. */
  lemma {:induction false} ChildChannelsUnion(e: Element, k: nat, c: int)
    requires k <= |Children(e)|
    ensures c in ChildChannels(e, k) <==> exists i :: k <= i < |Children(e)| && c in ChannelsOf(Children(e)[i])
    decreases |Children(e)| - k
  {
    if k < |Children(e)| {
      ChildChannelsUnion(e, k + 1, c);
    }
  }

  // ------------------------------------------------------------------ measure

  /** What `measure` records on a node and, below it, on every child it measured:
      `desired_duration`, `unclipped_duration`, a Grid's minimum column widths (empty
      for other nodes) and the children's trees in insertion order. A Repeat of count
      0 measures no child. */
  datatype MTree = MTree(desired: real, unclipped: real, minWidths: seq<real>, kids: seq<MTree>)

  function Unmeasured(): MTree {
    MTree(0.0, 0.0, [], [])
  }

  /** The `i`-th child tree; a missing child reads as an unmeasured one. */
  function KidAt(m: MTree, i: nat): MTree {
    if i < |m.kids| then m.kids[i] else Unmeasured()
  }

  /** `measure(available)`: the content is measured with the available duration less
      margins, clamped; the node records the clamped result plus margins, clipped. */
  ghost function MeasureOf(e: Element, avail: Ext): (r: Result<MTree>)
    decreases e, 2
  {
    var a := e.attrs;
    match MeasureOverrideOf(e, ContentAvailable(a, avail))
    case Err(x) => Err(x)
    case Ok((measured, widths, kids)) => Ok(MTree(Desired(a, avail, measured), Unclipped(a, measured), widths, kids))
  }

  /** What measuring each child with a given available duration records, as functions
      the loops of `measure_override` apply. */
  ghost function ChildMeasures(e: Element): (fs: seq<Ext -> Result<MTree>>)
    ensures |fs| == |Children(e)|
    decreases e, 0
  {
    ChildMeasuresFrom(e, 0)
  }

  ghost function ChildMeasuresFrom(e: Element, k: nat): (fs: seq<Ext -> Result<MTree>>)
    requires k <= |Children(e)|
    ensures |fs| == |Children(e)| - k
    decreases e, 0, |Children(e)| - k
  {
    if k == |Children(e)| then []
    else [(avail: Ext) => MeasureOf(Children(e)[k], avail)] + ChildMeasuresFrom(e, k + 1)
  }

  lemma ChildMeasure(e: Element, i: nat, avail: Ext)
    requires i < |Children(e)|
    ensures ChildMeasures(e)[i](avail) == MeasureOf(Children(e)[i], avail)
  {
    ChildMeasureFrom(e, 0, i, avail);
  }

  lemma {:induction false} ChildMeasureFrom(e: Element, k: nat, i: nat, avail: Ext)
    requires k <= i < |Children(e)|
    ensures ChildMeasuresFrom(e, k)[i - k](avail) == MeasureOf(Children(e)[i], avail)
    decreases i - k
  {
    if k < i {
      ChildMeasureFrom(e, k + 1, i, avail);
    }
  }

  /** The channels of each child, in insertion order. */
  function ChildChannelSets(e: Element): (chs: seq<set<int>>)
    ensures |chs| == |Children(e)| && forall i :: 0 <= i < |chs| ==> chs[i] == ChannelsOf(Children(e)[i])
  {
    var cs := Children(e);
    seq(|cs|, i requires 0 <= i < |cs| => ChannelsOf(cs[i]))
  }

  /** `measure_override(content)`: the content duration, a Grid's minimum column
      widths and the children's trees. */
  ghost function MeasureOverrideOf(e: Element, content: Ext): (r: Result<(real, seq<real>, seq<MTree>)>)
    decreases e, 1
  {
    match e.kind
    case Play(_, _, _, width, plateau, _, _, _, flexible) =>
      Ok((if flexible then width else width + plateau, [], []))
    case Repeat(child, n, spacing) =>
      if n == 0 then Ok((0.0, [], []))
      else
        (match MeasureOf(child, RepeatChildAvailable(content, n, spacing))
         case Err(x) => Err(x)
         case Ok(m) => Ok((RepeatTotal(m.desired, n, spacing), [], [m])))
    case Stack(es, direction) =>
      var fold := StackMeasureFrom(direction, ChildChannelSets(e), ChannelsOf(e), ChildMeasures(e), content, 0,
                                   InitialDurations(ChannelsOf(e)), seq(|es|, _ => Unmeasured()));
      (match fold
       case Err(x) => Err(x)
       case Ok((d, kids)) =>
         match TotalTimeOf(d)
         case Err(x) => Err(x)
         case Ok(total) => Ok((total, [], kids)))
    case Absolute(entries) =>
      (match AbsoluteMeasureFrom(entries, ChildMeasures(e), content, 0, 0.0, [])
       case Err(x) => Err(x)
       case Ok((maxTime, kids)) => Ok((maxTime, [], kids)))
    case Grid(entries, columns) =>
      (match GridMeasureFrom(ChildMeasures(e), content, 0, [])
       case Err(x) => Err(x)
       case Ok(kids) =>
         match MinColumnWidths(EffectiveColumns(columns), entries, Desireds(kids))
         case Err(x) => Err(x)
         case Ok(widths) => Ok((Sum(widths), widths, kids)))
    case _ => Ok((0.0, [], []))
  }

  /** `n` copies of a child of duration `d`, with the spacings between them. */
  function RepeatTotal(d: real, n: nat, spacing: real): real
    requires n > 0
  {
    d * n as real + spacing * (n - 1) as real
  }

  /** A Repeat of `n > 0` measures its child once and takes `n` copies of it. */
  lemma RepeatMeasured(e: Element, content: Ext, r: Result<MTree>)
    requires e.kind.Repeat? && e.kind.count > 0
    requires r == MeasureOf(e.kind.element, RepeatChildAvailable(content, e.kind.count, e.kind.spacing))
    ensures MeasureOverrideOf(e, content) ==
      if r.Ok? then Ok((RepeatTotal(r.value.desired, e.kind.count, e.kind.spacing), [], [r.value])) else Err(r.error)
  {
  }

  /** `(available - spacing * (n - 1)) / n`. */
  function RepeatChildAvailable(content: Ext, n: nat, spacing: real): Ext
    requires n > 0
  {
    ExtDiv(ExtSub(content, spacing * (n - 1) as real), n)
  }

  function Desireds(kids: seq<MTree>): (ds: seq<real>)
    ensures |ds| == |kids| && forall i :: 0 <= i < |kids| ==> ds[i] == kids[i].desired
  {
    seq(|kids|, i requires 0 <= i < |kids| => kids[i].desired)
  }

  /** The Stack measure loop from the `k`-th child visited: read the child's used time
      on its channels `chs[i]`, measure it (`fs[i]`) with what is left, record its end
      on its channels. */
  ghost function StackMeasureFrom(direction: ArrangeDirection, chs: seq<set<int>>, stackChannels: set<int>,
                                  fs: seq<Ext -> Result<MTree>>, content: Ext, k: nat, d: Durations, kids: seq<MTree>)
    : (r: Result<(Durations, seq<MTree>)>)
    requires |chs| == |fs| == |kids| && k <= |fs|
    ensures r.Ok? ==> |r.value.1| == |kids|
    decreases |fs| - k
  {
    if k == |fs| then Ok((d, kids))
    else
      var i := VisitIndex(direction, |fs|, k);
      match UsedTimeOf(d, chs[i])
      case Err(x) => Err(x)
      case Ok(u) =>
        match fs[i](ExtSub(content, u))
        case Err(x) => Err(x)
        case Ok(m) =>
          StackMeasureFrom(direction, chs, stackChannels, fs, content, k + 1,
                           UpdatedUsed(AfterRead(d, chs[i]), chs[i], stackChannels, m.desired + u), kids[i := m])
  }

  /** One step of the Stack measure loop from the durations `d`: `u` is the used time
      read for the child visited, leaving `read`; `r` is what measuring that child gave;
      `d'` and `kids'` are the durations and trees after recording it. */
  lemma StackMeasureStep(direction: ArrangeDirection, chs: seq<set<int>>, stackChannels: set<int>,
                         fs: seq<Ext -> Result<MTree>>, content: Ext, k: nat, d: Durations, kids: seq<MTree>,
                         i: nat, u: Result<real>, read: Durations, r: Result<MTree>, d': Durations, kids': seq<MTree>)
    requires |chs| == |fs| == |kids| && k < |fs| && i == VisitIndex(direction, |fs|, k)
    requires u == UsedTimeOf(d, chs[i]) && read == AfterRead(d, chs[i])
    requires u.Ok? ==> r == fs[i](ExtSub(content, u.value))
    requires u.Ok? && r.Ok? ==>
      d' == UpdatedUsed(read, chs[i], stackChannels, r.value.desired + u.value) && kids' == kids[i := r.value]
    ensures var from := StackMeasureFrom(direction, chs, stackChannels, fs, content, k, d, kids);
      (u.Err? ==> from == Err(u.error)) &&
      (u.Ok? && r.Err? ==> from == Err(r.error)) &&
      (u.Ok? && r.Ok? ==> from == StackMeasureFrom(direction, chs, stackChannels, fs, content, k + 1, d', kids'))
  {
    if u.Ok? && r.Ok? {
      assert u == Ok(u.value) && r == Ok(r.value);
    }
  }

  /** The Absolute measure loop from child `k`: every child gets the whole content
      duration and the running maximum takes in its offset plus its desired duration. */
  function AbsoluteMeasureFrom(entries: seq<AbsoluteEntry>, fs: seq<Ext -> Result<MTree>>, content: Ext, k: nat,
                               maxTime: real, kids: seq<MTree>)
    : (r: Result<(real, seq<MTree>)>)
    requires |entries| == |fs| && k <= |fs|
    ensures r.Ok? ==> |r.value.1| == |kids| + |fs| - k
    decreases |fs| - k
  {
    if k == |fs| then Ok((maxTime, kids))
    else
      match fs[k](content)
      case Err(x) => Err(x)
      case Ok(m) =>
        AbsoluteMeasureFrom(entries, fs, content, k + 1, Max(maxTime, m.desired + entries[k].time), kids + [m])
  }

  /** The Grid's first loop from child `k`: every child gets the whole content duration. */
  function GridMeasureFrom(fs: seq<Ext -> Result<MTree>>, content: Ext, k: nat, kids: seq<MTree>)
    : (r: Result<seq<MTree>>)
    requires k <= |fs|
    ensures r.Ok? ==> |r.value| == |kids| + |fs| - k
    decreases |fs| - k
  {
    if k == |fs| then Ok(kids)
    else
      match fs[k](content)
      case Err(x) => Err(x)
      case Ok(m) => GridMeasureFrom(fs, content, k + 1, kids + [m])
  }

  // ------------------------------------------------------------------ arrange

  /** What `arrange` records on a node and on every child it arranged: `actual_time`
      (relative to the parent's content) and `actual_duration`. */
  datatype ATree = ATree(actualTime: real, actualDuration: real, kids: seq<ATree>)

  function Unarranged(): ATree {
    ATree(0.0, 0.0, [])
  }

  function ArrangedKidAt(t: ATree, i: nat): ATree {
    if i < |t.kids| then t.kids[i] else Unarranged()
  }

  /** `arrange(time, final)` on a node measured as `m`: the content starts after the
      first margin and gets the final duration less margins, clamped. */
  ghost function ArrangeOf(e: Element, m: MTree, time: real, final: real): (r: Result<ATree>)
    ensures r.Ok? ==> r.value.actualTime == time + e.attrs.margin.0
    decreases e, 2
  {
    var a := e.attrs;
    match ArrangeOverrideOf(e, m, ArrangeContent(a, final))
    case Err(x) => Err(x)
    case Ok((actual, kids)) => Ok(ATree(time + a.margin.0, actual, kids))
  }

  /** What arranging each child, measured as in `m`, at a time and with a final
      duration records, as functions the loops of `arrange_override` apply. */
  ghost function ChildArranges(e: Element, m: MTree): (gs: seq<(real, real) -> Result<ATree>>)
    ensures |gs| == |Children(e)|
    decreases e, 0
  {
    ChildArrangesFrom(e, m, 0)
  }

  ghost function ChildArrangesFrom(e: Element, m: MTree, k: nat): (gs: seq<(real, real) -> Result<ATree>>)
    requires k <= |Children(e)|
    ensures |gs| == |Children(e)| - k
    decreases e, 0, |Children(e)| - k
  {
    if k == |Children(e)| then []
    else
      [(time: real, final: real) => ArrangeOf(Children(e)[k], KidAt(m, k), time, final)] + ChildArrangesFrom(e, m, k + 1)
  }

  lemma ChildArrange(e: Element, m: MTree, i: nat, time: real, final: real)
    requires i < |Children(e)|
    ensures ChildArranges(e, m)[i](time, final) == ArrangeOf(Children(e)[i], KidAt(m, i), time, final)
  {
    ChildArrangeFrom(e, m, 0, i, time, final);
  }

  lemma {:induction false} ChildArrangeFrom(e: Element, m: MTree, k: nat, i: nat, time: real, final: real)
    requires k <= i < |Children(e)|
    ensures ChildArrangesFrom(e, m, k)[i - k](time, final) == ArrangeOf(Children(e)[i], KidAt(m, i), time, final)
    decreases i - k
  {
    if k < i {
      ChildArrangeFrom(e, m, k + 1, i, time, final);
    }
  }

  /** `arrange_override(time, final)`: the node's actual duration and its children's
      trees. Children are placed relative to the node's content, so the content time
      itself is not needed. */
  ghost function ArrangeOverrideOf(e: Element, m: MTree, final: real): (r: Result<(real, seq<ATree>)>)
    decreases e, 1
  {
    match e.kind
    case Play(_, _, _, width, plateau, _, _, _, flexible) =>
      Ok((if flexible then final else width + plateau, []))
    case Repeat(child, n, spacing) =>
      if n == 0 then Ok((0.0, []))
      else
        (match ArrangeOf(child, KidAt(m, 0), 0.0, RepeatChildFinal(final, n, spacing))
         case Err(x) => Err(x)
         case Ok(t) => Ok((final, [t])))
    case Stack(es, direction) =>
      (match StackArrangeFrom(direction, ChildChannelSets(e), ChannelsOf(e), ChildArranges(e, m), m, final, 0,
                              InitialDurations(ChannelsOf(e)), seq(|es|, _ => Unarranged()))
       case Err(x) => Err(x)
       case Ok(kids) => Ok((final, kids)))
    case Absolute(entries) =>
      (match AbsoluteArrangeFrom(entries, ChildArranges(e, m), m, 0, [])
       case Err(x) => Err(x)
       case Ok(kids) => Ok((final, kids)))
    case Grid(entries, columns) =>
      var cols := EffectiveColumns(columns);
      // a measured Grid has one minimum width per column
      if |m.minWidths| != |cols| then Ok((final, []))
      else
        (match ArrangedWidths(cols, m.minWidths, final)
         case Err(x) => Err(x)
         case Ok(widths) =>
           match GridArrangeFrom(entries, ChildArranges(e, m), m, widths, PrefixSums(widths), 0, [])
           case Err(x) => Err(x)
           case Ok(kids) => Ok((final, kids)))
    case _ => Ok((0.0, []))
  }

  /** `(final_duration - spacing * (n - 1)) / n`. */
  function RepeatChildFinal(final: real, n: nat, spacing: real): real
    requires n > 0
  {
    (final - spacing * (n - 1) as real) / n as real
  }

  /** A Repeat of `n > 0` arranges its child once and takes the whole final duration. */
  lemma RepeatArranged(e: Element, m: MTree, final: real, r: Result<ATree>)
    requires e.kind.Repeat? && e.kind.count > 0
    requires r == ArrangeOf(e.kind.element, KidAt(m, 0), 0.0, RepeatChildFinal(final, e.kind.count, e.kind.spacing))
    ensures ArrangeOverrideOf(e, m, final) == if r.Ok? then Ok((final, [r.value])) else Err(r.error)
  {
  }

  /** The Stack arrange loop from the `k`-th child visited: the child keeps its desired
      duration and starts where `arrange_time` puts it. */
  ghost function StackArrangeFrom(direction: ArrangeDirection, chs: seq<set<int>>, stackChannels: set<int>,
                                  gs: seq<(real, real) -> Result<ATree>>, m: MTree, final: real, k: nat,
                                  d: Durations, kids: seq<ATree>)
    : (r: Result<seq<ATree>>)
    requires |chs| == |gs| == |kids| && k <= |gs|
    ensures r.Ok? ==> |r.value| == |kids|
    decreases |gs| - k
  {
    if k == |gs| then Ok(kids)
    else
      var i := VisitIndex(direction, |gs|, k);
      match UsedTimeOf(d, chs[i])
      case Err(x) => Err(x)
      case Ok(u) =>
        var duration := KidAt(m, i).desired;
        match gs[i](ArrangeTime(direction, u, duration, final), duration)
        case Err(x) => Err(x)
        case Ok(t) =>
          StackArrangeFrom(direction, chs, stackChannels, gs, m, final, k + 1,
                           UpdatedUsed(AfterRead(d, chs[i]), chs[i], stackChannels, duration + u), kids[i := t])
  }

  /** One step of the Stack arrange loop from the durations `d`: `u` is the used time
      read for the child visited, leaving `read`; the child keeps its desired duration
      `duration`; `r` is what arranging it gave; `d'` and `kids'` are the durations and
      trees after recording it. */
  lemma StackArrangeStep(direction: ArrangeDirection, chs: seq<set<int>>, stackChannels: set<int>,
                         gs: seq<(real, real) -> Result<ATree>>, m: MTree, final: real, k: nat, d: Durations,
                         kids: seq<ATree>, i: nat, u: Result<real>, read: Durations, duration: real,
                         r: Result<ATree>, d': Durations, kids': seq<ATree>)
    requires |chs| == |gs| == |kids| && k < |gs| && i == VisitIndex(direction, |gs|, k)
    requires u == UsedTimeOf(d, chs[i]) && read == AfterRead(d, chs[i]) && duration == KidAt(m, i).desired
    requires u.Ok? ==> r == gs[i](ArrangeTime(direction, u.value, duration, final), duration)
    requires u.Ok? && r.Ok? ==>
      d' == UpdatedUsed(read, chs[i], stackChannels, duration + u.value) && kids' == kids[i := r.value]
    ensures var from := StackArrangeFrom(direction, chs, stackChannels, gs, m, final, k, d, kids);
      (u.Err? ==> from == Err(u.error)) &&
      (u.Ok? && r.Err? ==> from == Err(r.error)) &&
      (u.Ok? && r.Ok? ==> from == StackArrangeFrom(direction, chs, stackChannels, gs, m, final, k + 1, d', kids'))
  {
    if u.Ok? && r.Ok? {
      assert u == Ok(u.value) && r == Ok(r.value);
    }
  }

  /** The Absolute arrange loop: each child at its offset with its desired duration. */
  function AbsoluteArrangeFrom(entries: seq<AbsoluteEntry>, gs: seq<(real, real) -> Result<ATree>>, m: MTree,
                               k: nat, kids: seq<ATree>)
    : (r: Result<seq<ATree>>)
    requires |entries| == |gs| && k <= |gs|
    ensures r.Ok? ==> |r.value| == |kids| + |gs| - k
    decreases |gs| - k
  {
    if k == |gs| then Ok(kids)
    else
      match gs[k](entries[k].time, KidAt(m, k).desired)
      case Err(x) => Err(x)
      case Ok(t) => AbsoluteArrangeFrom(entries, gs, m, k + 1, kids + [t])
  }

  /** The Grid arrange loop: each child where its alignment puts it in its span. */
  function GridArrangeFrom(entries: seq<GridEntry>, gs: seq<(real, real) -> Result<ATree>>, m: MTree,
                           widths: seq<real>, starts: seq<real>, k: nat, kids: seq<ATree>)
    : (r: Result<seq<ATree>>)
    requires |entries| == |gs| && k <= |gs| && 0 < |widths| == |starts|
    ensures r.Ok? ==> |r.value| == |kids| + |gs| - k
    decreases |gs| - k
  {
    if k == |gs| then Ok(kids)
    else
      var (time, duration) := Place(widths, starts, entries[k], entries[k].element.attrs.alignment, KidAt(m, k).desired);
      match gs[k](time, duration)
      case Err(x) => Err(x)
      case Ok(t) => GridArrangeFrom(entries, gs, m, widths, starts, k + 1, kids + [t])
  }

  // ------------------------------------------------------------------ render

  /** `render(time)` of a node arranged as `t`: nothing when invisible, else its content
      rendered at the parent's time plus its actual time. */
  function RenderOf(e: Element, t: ATree, time: real, shapes: seq<Instructions.ShapeInfo>): (steps: seq<Step>)
    ensures !e.attrs.visibility ==> steps == []
    decreases e, 2, 0
  {
    if !e.attrs.visibility then []
    else RenderOverrideOf(e, t, time + t.actualTime, shapes)
  }

  /** `render_override(time)`: the tracker call of an instruction, or the children's
      calls in insertion order. */
  function RenderOverrideOf(e: Element, t: ATree, time: real, shapes: seq<Instructions.ShapeInfo>): seq<Step>
    decreases e, 1, 0
  {
    match e.kind
    case Play(ch, amp, shapeId, width, plateau, drag, freq, phase, flexible) =>
      var p := if flexible then t.actualDuration - width else plateau;
      if shapeId == -1 then [Do(OpPlay(ch, Envelope(None, width, p), freq, phase, amp, drag, time))]
      else
        (match PyIndex(shapeId, |shapes|)
         case None => [Raise(IndexError)]
         case Some(s) => [Do(OpPlay(ch, Envelope(Some(shapes[s]), width, p), freq, phase, amp, drag, time))])
    case ShiftFrequency(ch, f) => [Do(OpShiftFreq(ch, f, time))]
    case SetFrequency(ch, f) => [Do(OpSetFreq(ch, f, time))]
    case ShiftPhase(ch, p) => [Do(OpShiftPhase(ch, p))]
    case SetPhase(ch, p) => [Do(OpSetPhase(ch, p, time))]
    case SwapPhase(a, b) => [Do(OpSwapPhase(a, b, time))]
    case Barrier(_) => []
    case Plain => [Raise(ValueError)]
    case Repeat(_, n, spacing) =>
      var c := ArrangedKidAt(t, 0);
      RepeatSteps(e.kind.element, c, time, c.actualDuration + spacing, n, shapes)
    case _ => ChildSteps(e, t, time, shapes, 0)
  }

  /** `j` renders of a Repeat's child `e` arranged as `c`, the first at `time`, each
      `stride` after the last. */
  function RepeatSteps(e: Element, c: ATree, time: real, stride: real, j: nat, shapes: seq<Instructions.ShapeInfo>)
    : seq<Step>
    decreases e, 3, j
  {
    if j == 0 then []
    else RenderOf(e, c, time, shapes) + RepeatSteps(e, c, time + stride, stride, j - 1, shapes)
  }

  /** The children from the `k`-th on, rendered in insertion order at the same time. */
  function ChildSteps(e: Element, t: ATree, time: real, shapes: seq<Instructions.ShapeInfo>, k: nat): seq<Step>
    requires k <= |Children(e)|
    decreases e, 0, |Children(e)| - k
  {
    if k == |Children(e)| then []
    else RenderOf(Children(e)[k], ArrangedKidAt(t, k), time, shapes) + ChildSteps(e, t, time, shapes, k + 1)
  }

  /** The tracker after `j` renders of a Repeat's child, one after the other, stopping
      at the first error. */
  function RepeatRun(st: TrackerState, e: Element, c: ATree, time: real, stride: real, j: nat,
                     shapes: seq<Instructions.ShapeInfo>, rect: Rect): (r: Result<TrackerState>)
    requires st.WellFormed()
    ensures r.Ok? ==> r.value.WellFormed()
    decreases j
  {
    if j == 0 then Ok(st)
    else
      match RunSteps(st, RenderOf(e, c, time, shapes), rect)
      case Err(x) => Err(x)
      case Ok(s) => RepeatRun(s, e, c, time + stride, stride, j - 1, shapes, rect)
  }

  /** Running the walk of `j` renders is rendering `j` times in turn. */
  lemma {:induction false} RepeatRunSteps(st: TrackerState, e: Element, c: ATree, time: real, stride: real, j: nat,
                                          shapes: seq<Instructions.ShapeInfo>, rect: Rect)
    requires st.WellFormed()
    ensures RunSteps(st, RepeatSteps(e, c, time, stride, j, shapes), rect) == RepeatRun(st, e, c, time, stride, j, shapes, rect)
    decreases j
  {
    if j > 0 {
      var rest := RepeatSteps(e, c, time + stride, stride, j - 1, shapes);
      RunStepsAppend(st, RenderOf(e, c, time, shapes), rest, rect);
      var first := RunSteps(st, RenderOf(e, c, time, shapes), rect);
      if first.Ok? {
        RepeatRunSteps(first.value, e, c, time + stride, stride, j - 1, shapes, rect);
      }
    }
  }
}
