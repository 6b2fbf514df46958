/** The layout managers of pulsegen_client/runner/_layout.py as one class: a node per
    element, holding the managers of its children, with the durations `measure` and
    `arrange` write into it. Each pass is proved to compute what LayoutSpec says. */
module Layout {
  import opened Common
  import opened Schedule
  import opened PulseLists
  import opened PhaseTracking
  import opened LayoutBounds
  import opened StackLayout
  import opened GridColumns
  import opened GridLayout
  import opened LayoutSpec
  import Instructions

  /** A Repeat of count 0 never measures, arranges or renders its child. */
  predicate SkipsChild(e: Element) {
    e.kind.Repeat? && e.kind.count == 0
  }

  /** The positions of the first `k` of `n` children a stack visits. */
  function Visited(direction: ArrangeDirection, n: nat, k: nat): (r: (nat, nat))
    requires k <= n
    ensures r.0 <= r.1 <= n && r.1 - r.0 == k
  {
    if direction == Backwards then (n - k, n) else (0, k)
  }

  /** The child visited `k`-th sits just outside the range of those visited before it,
      and visiting it widens that range by one. */
  lemma VisitNext(direction: ArrangeDirection, n: nat, k: nat)
    requires k < n
    ensures var i, r := VisitIndex(direction, n, k), Visited(direction, n, k);
      !(r.0 <= i < r.1) && (i == r.1 || i + 1 == r.0) &&
      Visited(direction, n, k + 1) == (if i == r.1 then (r.0, r.1 + 1) else (i, r.1))
  {
  }

  /** A layout manager. `columns` and `minColumnWidth` are used by Grid nodes only; the
      four durations start at 0 where the source starts them at None. */
  class LayoutNode {
    const element: Element
    const children: seq<LayoutNode>
    const channels: set<int>
    ghost const Repr: set<LayoutNode>
    var desired: real
    var unclipped: real
    var actualTime: real
    var actualDuration: real
    var columns: seq<GridLength>
    var minColumnWidth: seq<real>

    /** The children's column lists are as ColumnsOk says. */
    ghost predicate KidsColumnsOk()
      requires Valid()
      reads (Repr - {this})`columns
      decreases Repr, 0
    {
      forall j :: 0 <= j < |children| ==> children[j].ColumnsOk()
    }

    /** The node and its managers form a tree matching the element tree. */
    ghost predicate Valid()
      decreases Repr
    {
      this in Repr && !element.kind.Plain? &&
      channels == ChannelsOf(element) &&
      |children| == |Children(element)| &&
      (forall i :: 0 <= i < |children| ==>
         children[i] in Repr && children[i].Repr <= Repr && this !in children[i].Repr &&
         children[i].element == Children(element)[i] && children[i].Valid()) &&
      (forall i, j :: 0 <= i < j < |children| ==> children[i].Repr !! children[j].Repr)
    }

    /** Every Grid's column list is its element's, or that list with the `star(1)`
        column measure appends to an empty one. */
    ghost predicate ColumnsOk()
      requires Valid()
      reads Repr`columns
      decreases Repr, 1
    {
      (element.kind.Grid? ==> EffectiveColumns(columns) == EffectiveColumns(element.kind.columns)) && KidsColumnsOk()
    }

    /** The node and the children it measured hold the tree `m`. */
    ghost predicate MeasuredAs(m: MTree)
      requires Valid()
      reads Repr`desired, Repr`unclipped, Repr`minColumnWidth, Repr`columns
      decreases Repr, 1
    {
      desired == m.desired && unclipped == m.unclipped && ContentMeasuredAs(m.minWidths, m.kids)
    }

    /** What `measure_override` leaves behind: a Grid's widths and the children's trees. */
    ghost predicate ContentMeasuredAs(widths: seq<real>, kids: seq<MTree>)
      requires Valid()
      reads this`columns, this`minColumnWidth
      reads (Repr - {this})`desired, (Repr - {this})`unclipped, (Repr - {this})`minColumnWidth, (Repr - {this})`columns
      decreases Repr, 0
    {
      (element.kind.Grid? ==>
         columns == EffectiveColumns(element.kind.columns) && minColumnWidth == widths && |widths| == |columns|) &&
      (SkipsChild(element) ==> kids == []) &&
      (!SkipsChild(element) ==>
         |kids| == |children| && forall i :: 0 <= i < |children| ==> children[i].MeasuredAs(kids[i]))
    }

    /** The node and the children it arranged hold the tree `t`. */
    ghost predicate ArrangedAs(t: ATree)
      requires Valid()
      reads Repr`actualTime, Repr`actualDuration
      decreases Repr, 1
    {
      actualTime == t.actualTime && actualDuration == t.actualDuration && ContentArrangedAs(t.kids)
    }

    /** What `arrange_override` leaves behind: the trees of the children it arranged. */
    ghost predicate ContentArrangedAs(kids: seq<ATree>)
      requires Valid()
      reads (Repr - {this})`actualTime, (Repr - {this})`actualDuration
      decreases Repr, 0
    {
      (SkipsChild(element) ==> kids == []) &&
      (!SkipsChild(element) ==>
         |kids| == |children| && forall i :: 0 <= i < |children| ==> children[i].ArrangedAs(kids[i]))
    }

    constructor (e: Element, kids: seq<LayoutNode>, chans: set<int>, ghost repr: set<LayoutNode>)
      ensures element == e && children == kids && channels == chans && Repr == repr + {this}
      ensures columns == (if e.kind.Grid? then e.kind.columns else [])
      ensures desired == 0.0 && unclipped == 0.0 && actualTime == 0.0 && actualDuration == 0.0
      ensures minColumnWidth == []
    {
      element := e;
      children := kids;
      channels := chans;
      Repr := repr + {this};
      desired, unclipped, actualTime, actualDuration := 0.0, 0.0, 0.0, 0.0;
      columns := if e.kind.Grid? then e.kind.columns else [];
      minColumnWidth := [];
    }

    /** `create_layout_manager(e)`: builds the managers of the whole tree, raising
        ValueError on an instance of the `Element` base class anywhere in it. */
    static method Create(e: Element) returns (r: Result<LayoutNode>)
      ensures r.Err? <==> !Buildable(e)
      ensures r.Err? ==> r.error == ValueError
      ensures r.Ok? ==> r.value.element == e && r.value.Valid() && r.value.ColumnsOk() && fresh(r.value.Repr)
      decreases e, 1
    {
      if e.kind.Plain? {
        return Err(ValueError);
      }
      var kids, chans, repr := CreateChildren(e);
      if kids.None? {
        return Err(ValueError);
      }
      if !IsContainer(e.kind) {
        chans := ChannelsOf(e);
      }
      var node := new LayoutNode(e, kids.value, chans, repr);
      return Ok(node);
    }

    /** The managers of an element's children, in insertion order, and the union of
        their channels. */
    static method CreateChildren(e: Element) returns (kids: Option<seq<LayoutNode>>, chans: set<int>,
                                                     ghost repr: set<LayoutNode>)
      ensures kids.None? <==> !ChildrenBuildable(e, 0)
      ensures kids.Some? ==> chans == ChildChannels(e, 0) && fresh(repr) && Forest(kids.value, Children(e), repr)
      decreases e, 0
    {
      var cs := Children(e);
      var nodes: seq<LayoutNode> := [];
      chans := {};
      repr := {};
      var k := 0;
      while k < |cs|
        invariant k <= |cs|
        invariant ChildrenBuildable(e, 0) == ChildrenBuildable(e, k)
        invariant chans + ChildChannels(e, k) == ChildChannels(e, 0)
        invariant Forest(nodes, cs[..k], repr) && fresh(repr)
      {
        var c := Create(cs[k]);
        if c.Err? {
          return None, chans, repr;
        }
        ForestAppend(nodes, cs[..k], repr, c.value);
        assert cs[..k] + [cs[k]] == cs[..k + 1];
        nodes := nodes + [c.value];
        chans := chans + c.value.channels;
        repr := repr + c.value.Repr;
        k := k + 1;
      }
      assert cs[..k] == cs;
      return Some(nodes), chans, repr;
    }

    /** `nodes` are valid, pairwise separate trees built for `cs`, all within `repr`. */
    static ghost predicate Forest(nodes: seq<LayoutNode>, cs: seq<Element>, repr: set<LayoutNode>)
      reads repr
    {
      |nodes| == |cs| &&
      (forall i :: 0 <= i < |nodes| ==>
         nodes[i].element == cs[i] && nodes[i].Valid() && nodes[i].Repr <= repr && nodes[i].ColumnsOk()) &&
      (forall i, j :: 0 <= i < j < |nodes| ==> nodes[i].Repr !! nodes[j].Repr)
    }

    static lemma ForestAppend(nodes: seq<LayoutNode>, cs: seq<Element>, repr: set<LayoutNode>, n: LayoutNode)
      requires Forest(nodes, cs, repr) && n.Valid() && n.ColumnsOk() && n.Repr !! repr
      ensures Forest(nodes + [n], cs + [n.element], repr + n.Repr)
    {
    }

    // ---------------------------------------------------------------- measure

    /** `measure(available)`: the node and every child it measures record what
        MeasureOf says, or the pass raises its error. */
    method Measure(avail: Ext) returns (o: Outcome, ghost m: MTree)
      requires Valid() && ColumnsOk()
      modifies Repr`desired, Repr`unclipped, Repr`minColumnWidth, Repr`columns
      ensures ColumnsOk()
      ensures MeasureOf(element, avail) == (if o.Pass? then Ok(m) else Err(o.error))
      ensures o.Pass? ==> MeasuredAs(m)
      decreases Repr, 4
    {
      var a := element.attrs;
      var r, widths, kids := MeasureOverride(ContentAvailable(a, avail));
      if r.Err? {
        return Fail(r.error), Unmeasured();
      }
      desired := Desired(a, avail, r.value);
      unclipped := Unclipped(a, r.value);
      return Pass, MTree(desired, unclipped, widths, kids);
    }

    /** `measure_override(content)` of every kind of manager. */
    method MeasureOverride(content: Ext) returns (r: Result<real>, ghost widths: seq<real>, ghost kids: seq<MTree>)
      requires Valid() && ColumnsOk()
      modifies Repr`desired, Repr`unclipped, Repr`minColumnWidth, Repr`columns
      ensures ColumnsOk()
      ensures MeasureOverrideOf(element, content) == (if r.Ok? then Ok((r.value, widths, kids)) else Err(r.error))
      ensures r.Ok? ==> ContentMeasuredAs(widths, kids)
      decreases Repr, 3
    {
      widths, kids := [], [];
      match element.kind
      case Play(_, _, _, width, plateau, _, _, _, flexible) =>
        r := Ok(if flexible then width else width + plateau);
      case Repeat(_, _, _) =>
        r, kids := MeasureRepeat(content);
      case Stack(_, _) =>
        r, kids := MeasureStack(content, ChildMeasures(element));
      case Absolute(_) =>
        r, kids := MeasureAbsolute(content, ChildMeasures(element));
      case Grid(_, _) =>
        r, widths, kids := MeasureGrid(content);
      case _ =>
        r := Ok(0.0);
    }

    /** The children in `lo..hi` hold the trees `kids[lo..hi]`. */
    ghost predicate KidsMeasured(lo: nat, hi: nat, kids: seq<MTree>)
      requires Valid()
      reads (Repr - {this})`desired, (Repr - {this})`unclipped, (Repr - {this})`minColumnWidth,
            (Repr - {this})`columns
    {
      lo <= hi <= |children| && hi <= |kids| && forall j :: lo <= j < hi ==> children[j].MeasuredAs(kids[j])
    }

    /** Recording the `i`-th tree next to the range `lo..hi` widens the range. */
    lemma KidMeasured(lo: nat, hi: nat, kids: seq<MTree>, i: nat, m: MTree)
      requires Valid() && KidsMeasured(lo, hi, kids) && i < |kids| && (i == hi || i + 1 == lo)
      requires i < |children| && children[i].MeasuredAs(m)
      ensures KidsMeasured(if i == hi then lo else i, if i == hi then hi + 1 else hi, kids[i := m])
    {
    }

    /** Adding the `k`-th tree to the first `k` keeps them all recorded. */
    lemma KidAppended(k: nat, kids: seq<MTree>, m: MTree)
      requires Valid() && KidsMeasured(0, k, kids) && |kids| == k < |children| && children[k].MeasuredAs(m)
      ensures KidsMeasured(0, k + 1, kids + [m])
    {
    }

    /** Measures the `i`-th child, as `fs[i]` says, keeping what the children in `lo..hi`
        recorded. */
    method MeasureKid(i: nat, avail: Ext, lo: nat, hi: nat, ghost kids: seq<MTree>, ghost fs: seq<Ext -> Result<MTree>>)
      returns (o: Outcome, ghost m: MTree)
      requires Valid() && fs == ChildMeasures(element) && i < |children| && !(lo <= i < hi)
      requires KidsColumnsOk() && KidsMeasured(lo, hi, kids)
      modifies children[i].Repr`desired, children[i].Repr`unclipped, children[i].Repr`minColumnWidth,
               children[i].Repr`columns
      ensures KidsColumnsOk() && KidsMeasured(lo, hi, kids)
      ensures fs[i](avail) == (if o.Pass? then Ok(m) else Err(o.error))
      ensures o.Pass? ==> children[i].desired == m.desired && children[i].MeasuredAs(m)
      decreases Repr, 0, 0
    {
      ChildMeasure(element, i, avail);
      o, m := children[i].Measure(avail);
    }

    /** A Repeat of `n` measures its child once, with `n`-th of what is left after the
        spacings, and takes `n` of it plus the spacings. */
    method MeasureRepeat(content: Ext) returns (r: Result<real>, ghost kids: seq<MTree>)
      requires Valid() && ColumnsOk() && element.kind.Repeat?
      modifies Repr`desired, Repr`unclipped, Repr`minColumnWidth, Repr`columns
      ensures ColumnsOk()
      ensures MeasureOverrideOf(element, content) == (if r.Ok? then Ok((r.value, [], kids)) else Err(r.error))
      ensures r.Ok? ==> ContentMeasuredAs([], kids)
      decreases Repr, 2
    {
      var n := element.kind.count;
      var spacing := element.kind.spacing;
      if n == 0 {
        return Ok(0.0), [];
      }
      var child := children[0];
      assert child.element == element.kind.element;
      var o, m := child.Measure(RepeatChildAvailable(content, n, spacing));
      RepeatMeasured(element, content, if o.Pass? then Ok(m) else Err(o.error));
      if o.Fail? {
        return Err(o.error), [];
      }
      r, kids := Ok(RepeatTotal(child.desired, n, spacing)), [m];
    }

    /** A Stack measures its children in visiting order, each with what is left after
        the time already used on its channels. */
    method MeasureStack(content: Ext, ghost fs: seq<Ext -> Result<MTree>>) returns (r: Result<real>, ghost kids: seq<MTree>)
      requires Valid() && ColumnsOk() && element.kind.Stack? && fs == ChildMeasures(element)
      modifies Repr`desired, Repr`unclipped, Repr`minColumnWidth, Repr`columns
      ensures ColumnsOk()
      ensures var f := StackMeasureFrom(element.kind.direction, ChildChannelSets(element), channels, fs, content, 0,
                                        InitialDurations(channels), seq(|children|, _ => Unmeasured()));
        (f.Err? ==> r == Err(f.error)) && (f.Ok? ==> kids == f.value.1 && r == TotalTimeOf(f.value.0))
      ensures r.Ok? ==> ContentMeasuredAs([], kids)
      decreases Repr, 2
    {
      var helper := new LayoutHelper(channels, element.kind.direction);
      var o;
      o, kids := MeasureStackKids(content, helper, fs);
      if o.Fail? {
        return Err(o.error), kids;
      }
      r := helper.TotalTime();
    }

    /** The loop of the Stack's `measure_override`: every child in visiting order, with
        the used times kept by `helper`. */
    method MeasureStackKids(content: Ext, helper: LayoutHelper, ghost fs: seq<Ext -> Result<MTree>>)
      returns (o: Outcome, ghost kids: seq<MTree>)
      requires Valid() && KidsColumnsOk() && element.kind.Stack? && fs == ChildMeasures(element)
      requires helper.channels == channels && helper.direction == element.kind.direction
      requires helper.durations == InitialDurations(channels)
      modifies helper, (Repr - {this})`desired, (Repr - {this})`unclipped, (Repr - {this})`minColumnWidth,
               (Repr - {this})`columns
      ensures KidsColumnsOk()
      ensures StackMeasureFrom(element.kind.direction, ChildChannelSets(element), channels, fs, content, 0,
                               InitialDurations(channels), seq(|children|, _ => Unmeasured()))
           == if o.Pass? then Ok((helper.durations, kids)) else Err(o.error)
      ensures o.Pass? ==> KidsMeasured(0, |children|, kids)
      decreases Repr, 1, 1
    {
      var n := |children|;
      var direction := element.kind.direction;
      ghost var start := seq(n, _ => Unmeasured());
      ghost var chs := ChildChannelSets(element);
      ghost var goal := StackMeasureFrom(direction, chs, channels, fs, content, 0, InitialDurations(channels), start);
      kids := start;
      var k := 0;
      while k < n
        invariant k <= n && |kids| == n && helper.channels == channels
        invariant helper.direction == direction
        invariant goal == StackMeasureFrom(direction, chs, channels, fs, content, k, helper.durations, kids)
        invariant KidsColumnsOk()
        invariant KidsMeasured(Visited(direction, n, k).0, Visited(direction, n, k).1, kids)
      {
        o, kids := MeasureStackKid(k, content, helper, chs, fs, kids);
        if o.Fail? {
          return;
        }
        k := k + 1;
      }
      o := Pass;
    }

    /** One turn of the Stack's loop: the `k`-th child visited is measured with what is
        left after the time used on its channels, and its end is recorded on them. */
    method MeasureStackKid(k: nat, content: Ext, helper: LayoutHelper, ghost chs: seq<set<int>>,
                           ghost fs: seq<Ext -> Result<MTree>>, ghost kids: seq<MTree>)
      returns (o: Outcome, ghost kids': seq<MTree>)
      requires Valid() && element.kind.Stack? && fs == ChildMeasures(element) && chs == ChildChannelSets(element)
      requires k < |children| == |kids|
      requires helper.channels == channels && helper.direction == element.kind.direction
      requires KidsColumnsOk()
      requires KidsMeasured(Visited(element.kind.direction, |children|, k).0,
                            Visited(element.kind.direction, |children|, k).1, kids)
      modifies helper, (Repr - {this})`desired, (Repr - {this})`unclipped, (Repr - {this})`minColumnWidth,
               (Repr - {this})`columns
      ensures KidsColumnsOk() && |kids'| == |kids|
      ensures var f := StackMeasureFrom(element.kind.direction, chs, channels, fs, content, k,
                                        old(helper.durations), kids);
        (o.Fail? ==> f == Err(o.error)) &&
        (o.Pass? ==> f == StackMeasureFrom(element.kind.direction, chs, channels, fs, content, k + 1,
                                             helper.durations, kids'))
      ensures o.Pass? ==> KidsMeasured(Visited(element.kind.direction, |children|, k + 1).0,
                                       Visited(element.kind.direction, |children|, k + 1).1, kids')
      decreases Repr, 1, 0
    {
      var direction := element.kind.direction;
      var n := |children|;
      VisitNext(direction, n, k);
      var i := VisitIndex(direction, n, k);
      assert children[i].channels == chs[i];
      ghost var d := helper.durations;
      var u := helper.UsedTime(children[i].channels);
      ghost var read := helper.durations;
      ghost var m := Unmeasured();
      o, kids' := Fail(if u.Err? then u.error else ValueError), kids;
      if u.Ok? {
        var (lo, hi) := Visited(direction, n, k);
        o, m := MeasureStackVisit(i, lo, hi, content, u.value, helper, chs, fs, kids);
        if o.Pass? {
          kids' := kids[i := m];
        }
      }
      StackMeasureStep(direction, chs, channels, fs, content, k, d, kids, i, u, read,
                       if o.Pass? then Ok(m) else Err(o.error), helper.durations, kids');
    }

    /** The `i`-th child, next to the range `lo..hi` of those visited, measured with
        what is left after the time `used` on its channels; its end is recorded. */
    method MeasureStackVisit(i: nat, lo: nat, hi: nat, content: Ext, used: real, helper: LayoutHelper,
                             ghost chs: seq<set<int>>, ghost fs: seq<Ext -> Result<MTree>>, ghost kids: seq<MTree>)
      returns (o: Outcome, ghost m: MTree)
      requires Valid() && fs == ChildMeasures(element) && chs == ChildChannelSets(element)
      requires i < |children| == |kids| && !(lo <= i < hi) && (i == hi || i + 1 == lo)
      requires helper.channels == channels
      requires KidsColumnsOk() && KidsMeasured(lo, hi, kids)
      modifies helper, (Repr - {this})`desired, (Repr - {this})`unclipped, (Repr - {this})`minColumnWidth,
               (Repr - {this})`columns
      ensures KidsColumnsOk()
      ensures fs[i](ExtSub(content, used)) == (if o.Pass? then Ok(m) else Err(o.error))
      ensures o.Pass? ==> helper.durations == UpdatedUsed(old(helper.durations), chs[i], channels, m.desired + used)
      ensures o.Pass? ==> KidsMeasured(if i == hi then lo else i, if i == hi then hi + 1 else hi, kids[i := m])
      decreases Repr, 0, 1
    {
      var child := children[i];
      assert child.channels == chs[i];
      o, m := MeasureKid(i, ExtSub(content, used), lo, hi, kids, fs);
      if o.Pass? {
        helper.UpdateUsed(child.channels, child.desired + used);
        KidMeasured(lo, hi, kids, i, m);
      }
    }

    /** An Absolute measures every child with the whole content duration and takes the
        latest end, its offset plus its desired duration. */
    method MeasureAbsolute(content: Ext, ghost fs: seq<Ext -> Result<MTree>>) returns (r: Result<real>, ghost kids: seq<MTree>)
      requires Valid() && ColumnsOk() && element.kind.Absolute? && fs == ChildMeasures(element)
      modifies Repr`desired, Repr`unclipped, Repr`minColumnWidth, Repr`columns
      ensures ColumnsOk()
      ensures AbsoluteMeasureFrom(element.kind.entries, fs, content, 0, 0.0, [])
           == if r.Ok? then Ok((r.value, kids)) else Err(r.error)
      ensures r.Ok? ==> ContentMeasuredAs([], kids)
      decreases Repr, 2
    {
      var entries := element.kind.entries;
      var maxTime := 0.0;
      kids := [];
      var k := 0;
      while k < |children|
        invariant k <= |children| && |kids| == k
        invariant AbsoluteMeasureFrom(entries, fs, content, 0, 0.0, [])
               == AbsoluteMeasureFrom(entries, fs, content, k, maxTime, kids)
        invariant KidsColumnsOk() && KidsMeasured(0, k, kids)
      {
        var o;
        o, maxTime, kids := MeasureAbsoluteKid(k, content, maxTime, fs, kids);
        if o.Fail? {
          return Err(o.error), kids;
        }
        k := k + 1;
      }
      return Ok(maxTime), kids;
    }

    /** One turn of the Absolute's loop: child `k` is measured with the whole content
        duration and the running maximum takes in its offset plus its desired duration. */
    method MeasureAbsoluteKid(k: nat, content: Ext, maxTime: real, ghost fs: seq<Ext -> Result<MTree>>,
                              ghost kids: seq<MTree>)
      returns (o: Outcome, maxTime': real, ghost kids': seq<MTree>)
      requires Valid() && element.kind.Absolute? && fs == ChildMeasures(element)
      requires k < |children| && |kids| == k
      requires KidsColumnsOk() && KidsMeasured(0, k, kids)
      modifies (Repr - {this})`desired, (Repr - {this})`unclipped, (Repr - {this})`minColumnWidth,
               (Repr - {this})`columns
      ensures KidsColumnsOk()
      ensures AbsoluteMeasureFrom(element.kind.entries, fs, content, k, maxTime, kids)
           == if o.Pass? then AbsoluteMeasureFrom(element.kind.entries, fs, content, k + 1, maxTime', kids')
              else Err(o.error)
      ensures o.Pass? ==> |kids'| == k + 1 && KidsMeasured(0, k + 1, kids')
      decreases Repr, 1
    {
      ghost var m;
      o, m := MeasureKid(k, content, 0, k, kids, fs);
      maxTime', kids' := maxTime, kids;
      if o.Pass? {
        KidAppended(k, kids, m);
        assert fs[k](content) == Ok(m);
        maxTime' := Max(maxTime, children[k].desired + element.kind.entries[k].time);
        kids' := kids + [m];
      }
    }

    /** A Grid gives an empty column list one `star(1)` column, measures every child
        with the whole content duration, then computes its minimum column widths. */
    method MeasureGrid(content: Ext) returns (r: Result<real>, ghost widths: seq<real>, ghost kids: seq<MTree>)
      requires Valid() && ColumnsOk() && element.kind.Grid?
      modifies Repr`desired, Repr`unclipped, Repr`minColumnWidth, Repr`columns
      ensures ColumnsOk()
      ensures var f := GridMeasureFrom(ChildMeasures(element), content, 0, []);
        f.Err? ==> r == Err(f.error)
      ensures var f := GridMeasureFrom(ChildMeasures(element), content, 0, []);
        f.Ok? ==> kids == f.value
      ensures var f := GridMeasureFrom(ChildMeasures(element), content, 0, []);
        f.Ok? ==>
          var w := MinColumnWidths(EffectiveColumns(element.kind.columns), element.kind.gridEntries, Desireds(f.value));
          (w.Err? ==> r == Err(w.error)) && (w.Ok? ==> r == Ok(Sum(w.value)) && widths == w.value)
      ensures r.Ok? ==> ContentMeasuredAs(widths, kids)
      decreases Repr, 2
    {
      FixColumns();
      var kids0, ds, o := MeasureGridKids(content, ChildMeasures(element));
      kids := kids0;
      if o.Fail? {
        return Err(o.error), [], kids;
      }
      var w := MeasureColumns(columns, element.kind.gridEntries, ds);
      if w.Err? {
        return Err(w.error), [], kids;
      }
      minColumnWidth := w.value;
      return Ok(Sum(w.value)), w.value, kids;
    }

    /** A Grid's empty column list gets one `star(1)` column. */
    method FixColumns()
      requires Valid() && ColumnsOk() && element.kind.Grid?
      modifies this`columns
      ensures columns == EffectiveColumns(element.kind.columns) && KidsColumnsOk()
    {
      if |columns| == 0 {
        columns := columns + [StarLength(1.0)];
      }
    }

    /** The Grid's loop measuring every child with the whole content duration. */
    method MeasureGridKids(content: Ext, ghost fs: seq<Ext -> Result<MTree>>) returns (ghost kids: seq<MTree>, ds: seq<real>, o: Outcome)
      requires Valid() && KidsColumnsOk() && element.kind.Grid? && fs == ChildMeasures(element)
      modifies (Repr - {this})`desired, (Repr - {this})`unclipped, (Repr - {this})`minColumnWidth,
               (Repr - {this})`columns
      ensures KidsColumnsOk()
      ensures var f := GridMeasureFrom(fs, content, 0, []);
        (f.Err? ==> o == Fail(f.error)) && (f.Ok? ==> o == Pass && kids == f.value && ds == Desireds(kids))
      ensures o.Pass? ==> |kids| == |children| && KidsMeasured(0, |children|, kids)
      decreases Repr, 1
    {
      ds := [];
      kids := [];
      var k := 0;
      ghost var goal := GridMeasureFrom(fs, content, 0, []);
      while k < |children|
        invariant k <= |children| && |kids| == k && ds == Desireds(kids)
        invariant goal == GridMeasureFrom(fs, content, k, kids)
        invariant KidsColumnsOk() && KidsMeasured(0, k, kids)
      {
        var o, m := MeasureKid(k, content, 0, k, kids, fs);
        if o.Fail? {
          return kids, ds, o;
        }
        KidAppended(k, kids, m);
        ds := ds + [children[k].desired];
        kids := kids + [m];
        k := k + 1;
      }
      return kids, ds, Pass;
    }

    // ---------------------------------------------------------------- arrange

    /** `arrange(time, final_duration)` on a node measured as `m`: the node and every
        child it arranges record what ArrangeOf says, or the pass raises its error. */
    method Arrange(time: real, final: real, ghost m: MTree) returns (o: Outcome, ghost t: ATree)
      requires Valid() && MeasuredAs(m)
      modifies Repr`actualTime, Repr`actualDuration
      ensures MeasuredAs(m)
      ensures ArrangeOf(element, m, time, final) == (if o.Pass? then Ok(t) else Err(o.error))
      ensures o.Pass? ==> ArrangedAs(t)
      decreases Repr, 4
    {
      var a := element.attrs;
      var r, kids := ArrangeOverride(ArrangeContent(a, final), m);
      if r.Err? {
        return Fail(r.error), Unarranged();
      }
      actualDuration := r.value;
      actualTime := time + a.margin.0;
      return Pass, ATree(actualTime, actualDuration, kids);
    }

    /** `arrange_override(time, final)` of every kind of manager. */
    method ArrangeOverride(final: real, ghost m: MTree) returns (r: Result<real>, ghost kids: seq<ATree>)
      requires Valid() && ContentMeasuredAs(m.minWidths, m.kids)
      modifies (Repr - {this})`actualTime, (Repr - {this})`actualDuration
      ensures ContentMeasuredAs(m.minWidths, m.kids)
      ensures ArrangeOverrideOf(element, m, final) == (if r.Ok? then Ok((r.value, kids)) else Err(r.error))
      ensures r.Ok? ==> ContentArrangedAs(kids)
      decreases Repr, 3
    {
      kids := [];
      match element.kind
      case Play(_, _, _, width, plateau, _, _, _, flexible) =>
        r := Ok(if flexible then final else width + plateau);
      case Repeat(_, _, _) =>
        r, kids := ArrangeRepeat(final, m);
      case Stack(_, _) =>
        r, kids := ArrangeStack(final, m, ChildArranges(element, m));
      case Absolute(_) =>
        r, kids := ArrangeAbsolute(final, m, ChildArranges(element, m));
      case Grid(_, _) =>
        r, kids := ArrangeGrid(final, m, ChildArranges(element, m));
      case _ =>
        r := Ok(0.0);
    }

    /** The children in `lo..hi` hold the trees `kids[lo..hi]`. */
    ghost predicate KidsArranged(lo: nat, hi: nat, kids: seq<ATree>)
      requires Valid()
      reads (Repr - {this})`actualTime, (Repr - {this})`actualDuration
    {
      lo <= hi <= |children| && hi <= |kids| && forall j :: lo <= j < hi ==> children[j].ArrangedAs(kids[j])
    }

    /** Recording the `i`-th tree next to the range `lo..hi` widens the range. */
    lemma KidArranged(lo: nat, hi: nat, kids: seq<ATree>, i: nat, t: ATree)
      requires Valid() && KidsArranged(lo, hi, kids) && i < |kids| && (i == hi || i + 1 == lo)
      requires i < |children| && children[i].ArrangedAs(t)
      ensures KidsArranged(if i == hi then lo else i, if i == hi then hi + 1 else hi, kids[i := t])
    {
    }

    /** Adding the `k`-th tree to the first `k` keeps them all recorded. */
    lemma KidArrangedAppended(k: nat, kids: seq<ATree>, t: ATree)
      requires Valid() && KidsArranged(0, k, kids) && |kids| == k < |children| && children[k].ArrangedAs(t)
      ensures KidsArranged(0, k + 1, kids + [t])
    {
    }

    /** Arranges the `i`-th child, as `gs[i]` says, keeping what the children in
        `lo..hi` recorded and what every child measured. */
    method ArrangeKid(i: nat, time: real, final: real, lo: nat, hi: nat, ghost kids: seq<ATree>,
                      ghost gs: seq<(real, real) -> Result<ATree>>, ghost m: MTree)
      returns (o: Outcome, ghost t: ATree)
      requires Valid() && gs == ChildArranges(element, m) && i < |children| && !(lo <= i < hi)
      requires !SkipsChild(element) && ContentMeasuredAs(m.minWidths, m.kids) && KidsArranged(lo, hi, kids)
      modifies children[i].Repr`actualTime, children[i].Repr`actualDuration
      ensures ContentMeasuredAs(m.minWidths, m.kids) && KidsArranged(lo, hi, kids)
      ensures gs[i](time, final) == (if o.Pass? then Ok(t) else Err(o.error))
      ensures o.Pass? ==> children[i].ArrangedAs(t)
      decreases Repr, 0, 0
    {
      ChildArrange(element, m, i, time, final);
      o, t := children[i].Arrange(time, final, KidAt(m, i));
    }

    /** A Repeat of `n` arranges its child once, at 0, with `n`-th of the final duration
        left after the spacings, and takes the whole final duration. */
    method ArrangeRepeat(final: real, ghost m: MTree) returns (r: Result<real>, ghost kids: seq<ATree>)
      requires Valid() && ContentMeasuredAs(m.minWidths, m.kids) && element.kind.Repeat?
      modifies (Repr - {this})`actualTime, (Repr - {this})`actualDuration
      ensures ContentMeasuredAs(m.minWidths, m.kids)
      ensures ArrangeOverrideOf(element, m, final) == (if r.Ok? then Ok((r.value, kids)) else Err(r.error))
      ensures r.Ok? ==> ContentArrangedAs(kids)
      decreases Repr, 2
    {
      var n := element.kind.count;
      var spacing := element.kind.spacing;
      if n == 0 {
        return Ok(0.0), [];
      }
      var child := children[0];
      assert child.element == element.kind.element;
      var o, t := child.Arrange(0.0, RepeatChildFinal(final, n, spacing), KidAt(m, 0));
      RepeatArranged(element, m, final, if o.Pass? then Ok(t) else Err(o.error));
      if o.Fail? {
        return Err(o.error), [];
      }
      r, kids := Ok(final), [t];
    }

    /** A Stack arranges its children in visiting order, each with its desired duration,
        where the time already used on its channels puts it. */
    method ArrangeStack(final: real, ghost m: MTree, ghost gs: seq<(real, real) -> Result<ATree>>)
      returns (r: Result<real>, ghost kids: seq<ATree>)
      requires Valid() && ContentMeasuredAs(m.minWidths, m.kids) && element.kind.Stack?
      requires gs == ChildArranges(element, m)
      modifies (Repr - {this})`actualTime, (Repr - {this})`actualDuration
      ensures ContentMeasuredAs(m.minWidths, m.kids)
      ensures var f := StackArrangeFrom(element.kind.direction, ChildChannelSets(element), channels, gs, m, final, 0,
                                        InitialDurations(channels), seq(|children|, _ => Unarranged()));
        (f.Err? ==> r == Err(f.error)) && (f.Ok? ==> r == Ok(final) && kids == f.value)
      ensures r.Ok? ==> ContentArrangedAs(kids)
      decreases Repr, 2
    {
      var helper := new LayoutHelper(channels, element.kind.direction);
      var o;
      o, kids := ArrangeStackKids(final, helper, gs, m);
      if o.Fail? {
        return Err(o.error), kids;
      }
      r := Ok(final);
    }

    /** The loop of the Stack's `arrange_override`: every child in visiting order, with
        the used times kept by `helper`. */
    method ArrangeStackKids(final: real, helper: LayoutHelper, ghost gs: seq<(real, real) -> Result<ATree>>,
                            ghost m: MTree)
      returns (o: Outcome, ghost kids: seq<ATree>)
      requires Valid() && ContentMeasuredAs(m.minWidths, m.kids) && element.kind.Stack?
      requires gs == ChildArranges(element, m)
      requires helper.channels == channels && helper.direction == element.kind.direction
      requires helper.durations == InitialDurations(channels)
      modifies helper, (Repr - {this})`actualTime, (Repr - {this})`actualDuration
      ensures ContentMeasuredAs(m.minWidths, m.kids)
      ensures StackArrangeFrom(element.kind.direction, ChildChannelSets(element), channels, gs, m, final, 0,
                               InitialDurations(channels), seq(|children|, _ => Unarranged()))
           == if o.Pass? then Ok(kids) else Err(o.error)
      ensures o.Pass? ==> KidsArranged(0, |children|, kids)
      decreases Repr, 1, 1
    {
      var n := |children|;
      var direction := element.kind.direction;
      ghost var start := seq(n, _ => Unarranged());
      ghost var chs := ChildChannelSets(element);
      ghost var goal := StackArrangeFrom(direction, chs, channels, gs, m, final, 0, InitialDurations(channels), start);
      kids := start;
      var k := 0;
      while k < n
        invariant k <= n && |kids| == n && helper.channels == channels
        invariant helper.direction == direction
        invariant goal == StackArrangeFrom(direction, chs, channels, gs, m, final, k, helper.durations, kids)
        invariant ContentMeasuredAs(m.minWidths, m.kids)
        invariant KidsArranged(Visited(direction, n, k).0, Visited(direction, n, k).1, kids)
      {
        o, kids := ArrangeStackKid(k, final, helper, chs, gs, m, kids);
        if o.Fail? {
          return;
        }
        k := k + 1;
      }
      o := Pass;
    }

    /** One turn of the Stack's arrange loop: the `k`-th child visited keeps its desired
        duration, starts where `arrange_time` puts it, and its end is recorded. */
    method ArrangeStackKid(k: nat, final: real, helper: LayoutHelper, ghost chs: seq<set<int>>,
                           ghost gs: seq<(real, real) -> Result<ATree>>, ghost m: MTree, ghost kids: seq<ATree>)
      returns (o: Outcome, ghost kids': seq<ATree>)
      requires Valid() && element.kind.Stack? && gs == ChildArranges(element, m) && chs == ChildChannelSets(element)
      requires k < |children| == |kids|
      requires helper.channels == channels && helper.direction == element.kind.direction
      requires ContentMeasuredAs(m.minWidths, m.kids)
      requires KidsArranged(Visited(element.kind.direction, |children|, k).0,
                            Visited(element.kind.direction, |children|, k).1, kids)
      modifies helper, (Repr - {this})`actualTime, (Repr - {this})`actualDuration
      ensures ContentMeasuredAs(m.minWidths, m.kids) && |kids'| == |kids|
      ensures var f := StackArrangeFrom(element.kind.direction, chs, channels, gs, m, final, k,
                                        old(helper.durations), kids);
        (o.Fail? ==> f == Err(o.error)) &&
        (o.Pass? ==> f == StackArrangeFrom(element.kind.direction, chs, channels, gs, m, final, k + 1,
                                             helper.durations, kids'))
      ensures o.Pass? ==> KidsArranged(Visited(element.kind.direction, |children|, k + 1).0,
                                       Visited(element.kind.direction, |children|, k + 1).1, kids')
      decreases Repr, 1, 0
    {
      var direction := element.kind.direction;
      var n := |children|;
      VisitNext(direction, n, k);
      var i := VisitIndex(direction, n, k);
      assert children[i].channels == chs[i];
      ghost var d := helper.durations;
      var u := helper.UsedTime(children[i].channels);
      ghost var read := helper.durations;
      ghost var t := Unarranged();
      o, kids' := Fail(if u.Err? then u.error else ValueError), kids;
      if u.Ok? {
        var (lo, hi) := Visited(direction, n, k);
        o, t := ArrangeStackVisit(i, lo, hi, final, u.value, helper, chs, gs, m, kids);
        if o.Pass? {
          kids' := kids[i := t];
        }
      }
      StackArrangeStep(direction, chs, channels, gs, m, final, k, d, kids, i, u, read, KidAt(m, i).desired,
                       if o.Pass? then Ok(t) else Err(o.error), helper.durations, kids');
    }

    /** The `i`-th child, next to the range `lo..hi` of those visited, arranged with its
        desired duration where `arrange_time` puts it after the time `used` on its
        channels; its end is recorded. */
    method ArrangeStackVisit(i: nat, lo: nat, hi: nat, final: real, used: real, helper: LayoutHelper,
                             ghost chs: seq<set<int>>, ghost gs: seq<(real, real) -> Result<ATree>>, ghost m: MTree,
                             ghost kids: seq<ATree>)
      returns (o: Outcome, ghost t: ATree)
      requires Valid() && element.kind.Stack? && gs == ChildArranges(element, m) && chs == ChildChannelSets(element)
      requires i < |children| == |kids| && !(lo <= i < hi) && (i == hi || i + 1 == lo)
      requires helper.channels == channels
      requires ContentMeasuredAs(m.minWidths, m.kids) && KidsArranged(lo, hi, kids)
      modifies helper, (Repr - {this})`actualTime, (Repr - {this})`actualDuration
      ensures ContentMeasuredAs(m.minWidths, m.kids)
      ensures var duration := KidAt(m, i).desired;
        gs[i](ArrangeTime(element.kind.direction, used, duration, final), duration) ==
        (if o.Pass? then Ok(t) else Err(o.error))
      ensures o.Pass? ==>
        helper.durations == UpdatedUsed(old(helper.durations), chs[i], channels, KidAt(m, i).desired + used)
      ensures o.Pass? ==> KidsArranged(if i == hi then lo else i, if i == hi then hi + 1 else hi, kids[i := t])
      decreases Repr, 0, 1
    {
      var child := children[i];
      assert child.channels == chs[i];
      assert child.desired == KidAt(m, i).desired;
      var duration := child.desired;
      o, t := ArrangeKid(i, ArrangeTime(element.kind.direction, used, duration, final), duration, lo, hi, kids, gs, m);
      if o.Pass? {
        helper.UpdateUsed(child.channels, duration + used);
        KidArranged(lo, hi, kids, i, t);
      }
    }

    /** An Absolute arranges every child at its offset with its desired duration. */
    method ArrangeAbsolute(final: real, ghost m: MTree, ghost gs: seq<(real, real) -> Result<ATree>>)
      returns (r: Result<real>, ghost kids: seq<ATree>)
      requires Valid() && ContentMeasuredAs(m.minWidths, m.kids) && element.kind.Absolute?
      requires gs == ChildArranges(element, m)
      modifies (Repr - {this})`actualTime, (Repr - {this})`actualDuration
      ensures ContentMeasuredAs(m.minWidths, m.kids)
      ensures AbsoluteArrangeFrom(element.kind.entries, gs, m, 0, []) == if r.Ok? then Ok(kids) else Err(r.error)
      ensures r.Ok? ==> r.value == final && ContentArrangedAs(kids)
      decreases Repr, 2
    {
      var entries := element.kind.entries;
      kids := [];
      var k := 0;
      ghost var goal := AbsoluteArrangeFrom(entries, gs, m, 0, []);
      while k < |children|
        invariant k <= |children| && |kids| == k
        invariant goal == AbsoluteArrangeFrom(entries, gs, m, k, kids)
        invariant ContentMeasuredAs(m.minWidths, m.kids) && KidsArranged(0, k, kids)
      {
        assert children[k].desired == KidAt(m, k).desired;
        var o, t := ArrangeKid(k, entries[k].time, children[k].desired, 0, k, kids, gs, m);
        if o.Fail? {
          return Err(o.error), kids;
        }
        KidArrangedAppended(k, kids, t);
        kids := kids + [t];
        k := k + 1;
      }
      return Ok(final), kids;
    }

    /** A Grid pours the final duration into its star columns, then arranges every child
        where its alignment puts it in its span. */
    method ArrangeGrid(final: real, ghost m: MTree, ghost gs: seq<(real, real) -> Result<ATree>>)
      returns (r: Result<real>, ghost kids: seq<ATree>)
      requires Valid() && ContentMeasuredAs(m.minWidths, m.kids) && element.kind.Grid?
      requires gs == ChildArranges(element, m)
      modifies (Repr - {this})`actualTime, (Repr - {this})`actualDuration
      ensures ContentMeasuredAs(m.minWidths, m.kids)
      ensures |m.minWidths| == |EffectiveColumns(element.kind.columns)|
      ensures var w := ArrangedWidths(EffectiveColumns(element.kind.columns), m.minWidths, final);
        (w.Err? ==> r == Err(w.error)) &&
        (w.Ok? ==>
           var f := GridArrangeFrom(element.kind.gridEntries, gs, m, w.value, PrefixSums(w.value), 0, []);
           (f.Err? ==> r == Err(f.error)) && (f.Ok? ==> r == Ok(final) && kids == f.value))
      ensures r.Ok? ==> ContentArrangedAs(kids)
      decreases Repr, 2
    {
      var w := ArrangeColumns(columns, minColumnWidth, final);
      if w.Err? {
        return Err(w.error), [];
      }
      var o;
      o, kids := ArrangeGridKids(w.value.0, w.value.1, m, gs);
      if o.Fail? {
        return Err(o.error), kids;
      }
      return Ok(final), kids;
    }

    /** The Grid's loop arranging every child in its span of the columns `widths`
        starting at `starts`. */
    method ArrangeGridKids(widths: seq<real>, starts: seq<real>, ghost m: MTree,
                           ghost gs: seq<(real, real) -> Result<ATree>>) returns (o: Outcome, ghost kids: seq<ATree>)
      requires Valid() && ContentMeasuredAs(m.minWidths, m.kids) && element.kind.Grid?
      requires gs == ChildArranges(element, m) && 0 < |widths| == |starts|
      modifies (Repr - {this})`actualTime, (Repr - {this})`actualDuration
      ensures ContentMeasuredAs(m.minWidths, m.kids)
      ensures var f := GridArrangeFrom(element.kind.gridEntries, gs, m, widths, starts, 0, []);
        (f.Err? ==> o == Fail(f.error)) && (f.Ok? ==> o == Pass && kids == f.value)
      ensures o.Pass? ==> |kids| == |children| && KidsArranged(0, |children|, kids)
      decreases Repr, 1
    {
      var entries := element.kind.gridEntries;
      kids := [];
      var k := 0;
      ghost var goal := GridArrangeFrom(entries, gs, m, widths, starts, 0, []);
      while k < |children|
        invariant k <= |children| && |kids| == k
        invariant goal == GridArrangeFrom(entries, gs, m, widths, starts, k, kids)
        invariant ContentMeasuredAs(m.minWidths, m.kids) && KidsArranged(0, k, kids)
      {
        assert children[k].desired == KidAt(m, k).desired;
        var (time, duration) := Place(widths, starts, entries[k], entries[k].element.attrs.alignment, children[k].desired);
        ghost var t;
        o, t := ArrangeKid(k, time, duration, 0, k, kids, gs, m);
        if o.Fail? {
          return o, kids;
        }
        KidArrangedAppended(k, kids, t);
        kids := kids + [t];
        k := k + 1;
      }
      return Pass, kids;
    }

    // ------------------------------------------------------------------ render

    /** `render(time, tracker, shapes)`: the tracker calls of the tree arranged as `t`,
        made in order; the first call that fails ends the walk. */
    method Render(time: real, tracker: PhaseTracker, shapes: seq<Instructions.ShapeInfo>, rect: Rect,
                  ghost t: ATree) returns (o: Outcome)
      requires Valid() && ArrangedAs(t) && tracker.Valid()
      modifies tracker.channels, tracker.Lists()
      ensures var r := RunSteps(old(tracker.Abstract()), RenderOf(element, t, time, shapes), rect);
        o == OutcomeOf(r) && (r.Ok? ==> tracker.Abstract() == r.value)
      decreases Repr, 2
    {
      if !element.attrs.visibility {
        return Pass;
      }
      o := RenderOverride(time + actualTime, tracker, shapes, rect, t);
    }

    /** `render_override(time, tracker, shapes)` of each kind of manager. */
    method RenderOverride(time: real, tracker: PhaseTracker, shapes: seq<Instructions.ShapeInfo>, rect: Rect,
                          ghost t: ATree) returns (o: Outcome)
      requires Valid() && ArrangedAs(t) && tracker.Valid()
      modifies tracker.channels, tracker.Lists()
      ensures var r := RunSteps(old(tracker.Abstract()), RenderOverrideOf(element, t, time, shapes), rect);
        o == OutcomeOf(r) && (r.Ok? ==> tracker.Abstract() == r.value)
      decreases Repr, 1
    {
      if element.kind.Repeat? {
        o := RenderRepeat(time, tracker, shapes, rect, t);
      } else if IsContainer(element.kind) {
        o := RenderChildren(time, tracker, shapes, rect, t);
      } else {
        o := RenderInstruction(time, tracker, shapes, rect, t);
      }
    }

    /** The simple manager's one tracker call. */
    method RenderInstruction(time: real, tracker: PhaseTracker, shapes: seq<Instructions.ShapeInfo>, rect: Rect,
                             ghost t: ATree) returns (o: Outcome)
      requires Valid() && !IsContainer(element.kind) && actualDuration == t.actualDuration && tracker.Valid()
      modifies tracker.channels, tracker.Lists()
      ensures var r := RunSteps(old(tracker.Abstract()), RenderOverrideOf(element, t, time, shapes), rect);
        o == OutcomeOf(r) && (r.Ok? ==> tracker.Abstract() == r.value)
      decreases Repr, 0
    {
      ghost var st := tracker.Abstract();
      match element.kind {
        case Play(_, _, _, _, _, _, _, _, _) =>
          o := RenderPlay(time, tracker, shapes, rect, t);
        case ShiftFrequency(ch, f) =>
          RunSingle(st, Do(OpShiftFreq(ch, f, time)), rect);
          o := tracker.ShiftFreq(ch, f, time);
        case SetFrequency(ch, f) =>
          RunSingle(st, Do(OpSetFreq(ch, f, time)), rect);
          o := tracker.SetFreq(ch, f, time);
        case ShiftPhase(ch, p) =>
          RunSingle(st, Do(OpShiftPhase(ch, p)), rect);
          o := tracker.ShiftPhase(ch, p);
        case SetPhase(ch, p) =>
          RunSingle(st, Do(OpSetPhase(ch, p, time)), rect);
          o := tracker.SetPhase(ch, p, time);
        case SwapPhase(a, b) =>
          RunSingle(st, Do(OpSwapPhase(a, b, time)), rect);
          o := tracker.SwapPhase(a, b, time);
        case Barrier(_) =>
          o := Pass;
        case _ =>
          RunSingle(st, Raise(ValueError), rect);
          o := Fail(ValueError);
      }
    }

    /** A Play: the shape is looked up (`-1` for none) and a flexible pulse's plateau
        stretches to its actual duration less its width. */
    method RenderPlay(time: real, tracker: PhaseTracker, shapes: seq<Instructions.ShapeInfo>, rect: Rect,
                      ghost t: ATree) returns (o: Outcome)
      requires Valid() && element.kind.Play? && actualDuration == t.actualDuration && tracker.Valid()
      modifies tracker.channels, tracker.Lists()
      ensures var r := RunSteps(old(tracker.Abstract()), RenderOverrideOf(element, t, time, shapes), rect);
        o == OutcomeOf(r) && (r.Ok? ==> tracker.Abstract() == r.value)
      decreases Repr, 0
    {
      var Play(ch, amp, shapeId, width, plateau, drag, freq, phase, flexible) := element.kind;
      var shape: Option<Instructions.ShapeInfo> := None;
      if shapeId != -1 {
        var s := PyIndex(shapeId, |shapes|);
        if s.None? {
          RunSingle(tracker.Abstract(), Raise(IndexError), rect);
          return Fail(IndexError);
        }
        shape := Some(shapes[s.value]);
      }
      var p := if flexible then actualDuration - width else plateau;
      RunSingle(tracker.Abstract(), Do(OpPlay(ch, Envelope(shape, width, p), freq, phase, amp, drag, time)), rect);
      o := tracker.Play(ch, Envelope(shape, width, p), freq, phase, amp, drag, time, rect);
    }

    /** The Repeat manager renders its child `count` times, each `actual_duration +
        spacing` after the last. */
    method RenderRepeat(time: real, tracker: PhaseTracker, shapes: seq<Instructions.ShapeInfo>, rect: Rect,
                        ghost t: ATree) returns (o: Outcome)
      requires Valid() && element.kind.Repeat? && ArrangedAs(t) && tracker.Valid()
      modifies tracker.channels, tracker.Lists()
      ensures var r := RunSteps(old(tracker.Abstract()), RenderOverrideOf(element, t, time, shapes), rect);
        o == OutcomeOf(r) && (r.Ok? ==> tracker.Abstract() == r.value)
      decreases Repr, 0
    {
      var n := element.kind.count;
      if n == 0 {
        return Pass;
      }
      ghost var c := ArrangedKidAt(t, 0);
      assert RenderOverrideOf(element, t, time, shapes)
          == RepeatSteps(element.kind.element, c, time, c.actualDuration + element.kind.spacing, n, shapes);
      RepeatRunSteps(tracker.Abstract(), element.kind.element, c, time, c.actualDuration + element.kind.spacing, n,
                     shapes, rect);
      o := children[0].RenderRepeated(time, element.kind.spacing, n, tracker, shapes, rect, c);
    }

    /** The loop of the Repeat manager's `render_override`, on its child: `n` renders,
        the first at `time`, each `actual_duration + spacing` after the last. */
    method RenderRepeated(time: real, spacing: real, n: nat, tracker: PhaseTracker,
                          shapes: seq<Instructions.ShapeInfo>, rect: Rect, ghost t: ATree) returns (o: Outcome)
      requires Valid() && ArrangedAs(t) && tracker.Valid()
      modifies tracker.channels, tracker.Lists()
      ensures var r := RepeatRun(old(tracker.Abstract()), element, t, time, t.actualDuration + spacing, n, shapes, rect);
        o == OutcomeOf(r) && (r.Ok? ==> tracker.Abstract() == r.value)
      decreases Repr, 3
    {
      var stride := actualDuration + spacing;
      ghost var goal := RepeatRun(tracker.Abstract(), element, t, time, stride, n, shapes, rect);
      var childTime := time;
      var j := 0;
      while j < n
        invariant j <= n && ArrangedAs(t)
        invariant goal == RepeatRun(tracker.Abstract(), element, t, childTime, stride, n - j, shapes, rect)
      {
        o := Render(childTime, tracker, shapes, rect, t);
        if o.Fail? {
          return;
        }
        childTime := childTime + stride;
        j := j + 1;
      }
      o := Pass;
    }

    /** The Stack, Absolute and Grid managers render their children in insertion order,
        all at the same time. */
    method RenderChildren(time: real, tracker: PhaseTracker, shapes: seq<Instructions.ShapeInfo>, rect: Rect,
                          ghost t: ATree) returns (o: Outcome)
      requires Valid() && IsContainer(element.kind) && !element.kind.Repeat? && ArrangedAs(t) && tracker.Valid()
      modifies tracker.channels, tracker.Lists()
      ensures var r := RunSteps(old(tracker.Abstract()), RenderOverrideOf(element, t, time, shapes), rect);
        o == OutcomeOf(r) && (r.Ok? ==> tracker.Abstract() == r.value)
      decreases Repr, 0
    {
      ghost var goal := RunSteps(tracker.Abstract(), ChildSteps(element, t, time, shapes, 0), rect);
      var k := 0;
      while k < |children|
        invariant k <= |children| && ArrangedAs(t)
        invariant goal == RunSteps(tracker.Abstract(), ChildSteps(element, t, time, shapes, k), rect)
      {
        RunStepsAppend(tracker.Abstract(), RenderOf(Children(element)[k], ArrangedKidAt(t, k), time, shapes),
                       ChildSteps(element, t, time, shapes, k + 1), rect);
        o := children[k].Render(time, tracker, shapes, rect, ArrangedKidAt(t, k));
        if o.Fail? {
          return;
        }
        k := k + 1;
      }
      o := Pass;
    }
  }
}
