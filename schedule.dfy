/** The schedule element tree (pulsegen_client/schedule.py): frozen element records,
    their keyword defaults and the pure converters that normalise constructor
    arguments (margins, Absolute and Grid entries, grid column lengths). */
module Schedule {
  import opened Common
  import Instructions

  datatype Alignment = End | Start | Center | Stretch

  datatype ArrangeDirection = Backwards | Forwards

  datatype GridLengthUnit = Second | Auto | Star

  /** A grid column length. The value of an automatic length is NaN in the source; it
      is never read, and here it is 0. */
  datatype GridLength = GridLength(value: real, unit: GridLengthUnit)

  /** The attributes every element carries. `maxDuration` may be infinite. */
  datatype Attributes = Attributes(
    margin: (real, real),
    alignment: Alignment,
    visibility: bool,
    duration: Option<real>,
    maxDuration: Ext,
    minDuration: real)

  /** A schedule element: the shared attributes and what kind of element it is. */
  datatype Element = Element(attrs: Attributes, kind: Kind)

  /** The element kinds. `Plain` is an instance of the `Element` base class itself,
      which the layout engine rejects. */
  datatype Kind =
    | Play(channelId: int, amplitude: real, shapeId: int, width: real, plateau: real,
           dragCoef: real, frequency: real, phase: real, flexible: bool)
    | ShiftPhase(channelId: int, phase: real)
    | SetPhase(channelId: int, phase: real)
    | ShiftFrequency(channelId: int, frequency: real)
    | SetFrequency(channelId: int, frequency: real)
    | SwapPhase(channelId1: int, channelId2: int)
    | Barrier(channelIds: seq<int>)
    | Repeat(element: Element, count: nat, spacing: real)
    | Stack(elements: seq<Element>, direction: ArrangeDirection)
    | Absolute(entries: seq<AbsoluteEntry>)
    | Grid(gridEntries: seq<GridEntry>, columns: seq<GridLength>)
    | Plain

  datatype AbsoluteEntry = AbsoluteEntry(time: real, element: Element)

  datatype GridEntry = GridEntry(column: nat, span: int, element: Element)

  /** The schedule request: channels, shapes and the root element. */
  datatype Request = Request(channels: seq<Instructions.ChannelInfo>, shapes: seq<Instructions.ShapeInfo>, schedule: Element)

  // ---------------------------------------------------------------- margins

  /** A margin argument: one value for both sides, or a `(before, after)` pair. */
  datatype MarginArg = Uniform(m: real) | Sides(before: real, after: real)

  function ConvertMargin(arg: MarginArg): (r: (real, real))
    ensures arg.Uniform? ==> r == (arg.m, arg.m)
    ensures arg.Sides? ==> r == (arg.before, arg.after)
  {
    match arg
    case Uniform(m) => (m, m)
    case Sides(b, a) => (b, a)
  }

  /** Normalising a margin that is already a pair changes nothing. */
  lemma ConvertMarginIdempotent(arg: MarginArg)
    ensures var (b, a) := ConvertMargin(arg); ConvertMargin(Sides(b, a)) == ConvertMargin(arg)
  {
  }

  /** Builds element attributes from keyword arguments, normalising the margin. */
  function MakeAttributes(margin: MarginArg, alignment: Alignment, visibility: bool,
                          duration: Option<real>, maxDuration: Ext, minDuration: real): (a: Attributes)
    ensures a.margin == ConvertMargin(margin)
    ensures a.alignment == alignment && a.visibility == visibility && a.duration == duration
    ensures a.maxDuration == maxDuration && a.minDuration == minDuration
  {
    Attributes(ConvertMargin(margin), alignment, visibility, duration, maxDuration, minDuration)
  }

  /** The attributes of an element built without keyword arguments. */
  function DefaultAttributes(): (a: Attributes)
    ensures a.margin == (0.0, 0.0) && a.alignment == End && a.visibility
    ensures a.duration == None && a.maxDuration == Inf && a.minDuration == 0.0
  {
    MakeAttributes(Sides(0.0, 0.0), End, true, None, Inf, 0.0)
  }

  // ---------------------------------------------------- constructors with defaults

  /** `Play(channel_id, amplitude, shape_id, width)` with every keyword at its default. */
  function NewPlay(channelId: int, amplitude: real, shapeId: int, width: real): (e: Element)
    ensures e.attrs == DefaultAttributes()
    ensures e.kind.Play? && e.kind.channelId == channelId && e.kind.amplitude == amplitude
    ensures e.kind.shapeId == shapeId && e.kind.width == width
    ensures e.kind.plateau == 0.0 && e.kind.dragCoef == 0.0 && e.kind.frequency == 0.0
    ensures e.kind.phase == 0.0 && !e.kind.flexible
  {
    Element(DefaultAttributes(), Play(channelId, amplitude, shapeId, width, 0.0, 0.0, 0.0, 0.0, false))
  }

  /** `Repeat(element, count)`: the spacing defaults to 0. */
  function NewRepeat(element: Element, count: nat): (e: Element)
    ensures e.attrs == DefaultAttributes()
    ensures e.kind == Repeat(element, count, 0.0)
  {
    Element(DefaultAttributes(), Repeat(element, count, 0.0))
  }

  /** `Stack(elements)`: the direction defaults to backwards. */
  function NewStack(elements: seq<Element>): (e: Element)
    ensures e.attrs == DefaultAttributes()
    ensures e.kind == Stack(elements, Backwards)
  {
    Element(DefaultAttributes(), Stack(elements, Backwards))
  }

  // ------------------------------------------------------------ absolute entries

  /** A child argument of `Absolute`: an element, a `(time, element)` pair or an entry. */
  datatype AbsoluteArg = AbsElement(element: Element) | AbsPair(time: real, element: Element) | AbsEntry(entry: AbsoluteEntry)

  function AbsoluteAsEntry(obj: AbsoluteArg): (r: AbsoluteEntry)
    ensures obj.AbsElement? ==> r == AbsoluteEntry(0.0, obj.element)
    ensures obj.AbsPair? ==> r == AbsoluteEntry(obj.time, obj.element)
    ensures obj.AbsEntry? ==> r == obj.entry
  {
    match obj
    case AbsElement(e) => AbsoluteEntry(0.0, e)
    case AbsPair(t, e) => AbsoluteEntry(t, e)
    case AbsEntry(entry) => entry
  }

  /** Converting a converted entry again changes nothing. */
  lemma AbsoluteAsEntryIdempotent(obj: AbsoluteArg)
    ensures AbsoluteAsEntry(AbsEntry(AbsoluteAsEntry(obj))) == AbsoluteAsEntry(obj)
  {
  }

  function AbsoluteConvertEntries(objs: seq<AbsoluteArg>): (r: seq<AbsoluteEntry>)
    ensures |r| == |objs|
    ensures forall i :: 0 <= i < |objs| ==> r[i] == AbsoluteAsEntry(objs[i])
  {
    seq(|objs|, i requires 0 <= i < |objs| => AbsoluteAsEntry(objs[i]))
  }

  /** `Absolute(elements)` with default attributes. */
  function NewAbsolute(objs: seq<AbsoluteArg>): (e: Element)
    ensures e.attrs == DefaultAttributes()
    ensures e.kind.Absolute? && |e.kind.entries| == |objs|
    ensures forall i :: 0 <= i < |objs| ==> e.kind.entries[i] == AbsoluteAsEntry(objs[i])
  {
    Element(DefaultAttributes(), Absolute(AbsoluteConvertEntries(objs)))
  }

  // --------------------------------------------------------------- grid entries

  /** A child argument of `Grid`: an element, `(column, element)`,
      `(column, span, element)` or an entry. */
  datatype GridArg =
    | GridElement(element: Element)
    | GridPair(column: nat, element: Element)
    | GridTriple(column: nat, span: int, element: Element)
    | GridEntryArg(entry: GridEntry)

  function GridAsEntry(obj: GridArg): (r: GridEntry)
    ensures obj.GridElement? ==> r == GridEntry(0, 1, obj.element)
    ensures obj.GridPair? ==> r == GridEntry(obj.column, 1, obj.element)
    ensures obj.GridTriple? ==> r == GridEntry(obj.column, obj.span, obj.element)
    ensures obj.GridEntryArg? ==> r == obj.entry
  {
    match obj
    case GridElement(e) => GridEntry(0, 1, e)
    case GridPair(c, e) => GridEntry(c, 1, e)
    case GridTriple(c, s, e) => GridEntry(c, s, e)
    case GridEntryArg(entry) => entry
  }

  lemma GridAsEntryIdempotent(obj: GridArg)
    ensures GridAsEntry(GridEntryArg(GridAsEntry(obj))) == GridAsEntry(obj)
  {
  }

  function GridConvertEntries(objs: seq<GridArg>): (r: seq<GridEntry>)
    ensures |r| == |objs|
    ensures forall i :: 0 <= i < |objs| ==> r[i] == GridAsEntry(objs[i])
  {
    seq(|objs|, i requires 0 <= i < |objs| => GridAsEntry(objs[i]))
  }

  // ----------------------------------------------------------- grid lengths

  function AutoLength(): (g: GridLength)
    ensures g.unit == Auto
  {
    GridLength(0.0, Auto)
  }

  function StarLength(value: real): (g: GridLength)
    ensures g.unit == Star && g.value == value
  {
    GridLength(value, Star)
  }

  function AbsLength(value: real): (g: GridLength)
    ensures g.unit == Second && g.value == value
  {
    GridLength(value, Second)
  }

  /** What `GridLength.parse` accepts: a number or a string. */
  datatype Parsable = Number(x: real) | Text(s: string)

  /** ASCII lower-casing, character by character. */
  function LowerAscii(s: string): (r: string)
    ensures |r| == |s|
    ensures forall i :: 0 <= i < |s| ==>
      r[i] == (if 'A' <= s[i] <= 'Z' then (s[i] as int + 32) as char else s[i])
  {
    seq(|s|, i requires 0 <= i < |s| => if 'A' <= s[i] <= 'Z' then (s[i] as int + 32) as char else s[i])
  }

  predicate IsAutoText(s: string) {
    LowerAscii(s) == "auto"
  }

  /** `GridLength.parse`. `parseFloat` is Python's `float` on strings; `None` stands for
      the ValueError it raises on text that is not a number. */
  function Parse(value: Parsable, parseFloat: string -> Option<real>): (r: Result<GridLength>)
    ensures value.Number? ==> r == Ok(AbsLength(value.x))
    ensures value.Text? && IsAutoText(value.s) ==> r == Ok(AutoLength())
    ensures value.Text? && !IsAutoText(value.s) && |value.s| > 0 && value.s[|value.s| - 1] == '*' ==>
      var w := parseFloat(value.s[..|value.s| - 1]);
      r == if w.Some? then Ok(StarLength(w.value)) else Err(ValueError)
    ensures value.Text? && !IsAutoText(value.s) && !(|value.s| > 0 && value.s[|value.s| - 1] == '*') ==>
      var x := parseFloat(value.s);
      r == if x.Some? then Ok(AbsLength(x.value)) else Err(ValueError)
  {
    match value
    case Number(x) => Ok(AbsLength(x))
    case Text(s) =>
      if IsAutoText(s) then Ok(AutoLength())
      else if |s| > 0 && s[|s| - 1] == '*' then
        match parseFloat(s[..|s| - 1])
        case Some(w) => Ok(StarLength(w))
        case None => Err(ValueError)
      else
        match parseFloat(s)
        case Some(x) => Ok(AbsLength(x))
        case None => Err(ValueError)
  }

  /** Which unit a successful parse produces, in both directions: AUTO exactly for
      "auto" in any letter case, STAR exactly for other text ending in '*', SECOND for
      everything else; the only error raised is ValueError. */
  lemma ParseUnit(value: Parsable, parseFloat: string -> Option<real>)
    ensures Parse(value, parseFloat).Err? ==> Parse(value, parseFloat).error == ValueError && value.Text?
    ensures Parse(value, parseFloat).Ok? ==>
      var u := Parse(value, parseFloat).value.unit;
      (u == Auto <==> value.Text? && IsAutoText(value.s)) &&
      (u == Star <==> value.Text? && !IsAutoText(value.s) && |value.s| > 0 && value.s[|value.s| - 1] == '*')
  {
  }

  lemma ParseAutoAnyCase(parseFloat: string -> Option<real>)
    ensures Parse(Text("auto"), parseFloat) == Ok(AutoLength())
    ensures Parse(Text("AUTO"), parseFloat) == Ok(AutoLength())
    ensures Parse(Text("Auto"), parseFloat) == Ok(AutoLength())
  {
    assert LowerAscii("AUTO") == "auto";
    assert LowerAscii("Auto") == "auto";
    assert LowerAscii("auto") == "auto";
  }

  /** A bare "*" hands the empty string to `float`; when that raises, so does parse
      (the documentation promises one star instead). */
  lemma ParseBareStar(parseFloat: string -> Option<real>)
    requires parseFloat("") == None
    ensures Parse(Text("*"), parseFloat) == Err(ValueError)
  {
    assert !IsAutoText("*") by { assert |LowerAscii("*")| == 1; }
    assert "*"[..0] == "";
  }

  /** A `Grid` column argument: a `GridLength`, kept as it is, or anything parse accepts. */
  datatype ColumnArg = Length(length: GridLength) | Value(value: Parsable)

  function ConvertColumn(c: ColumnArg, parseFloat: string -> Option<real>): Result<GridLength> {
    match c
    case Length(g) => Ok(g)
    case Value(v) => Parse(v, parseFloat)
  }

  /** `Grid._convert_columns`: the first column that fails to parse raises; otherwise
      every column is converted, in order. */
  function ConvertColumns(cols: seq<ColumnArg>, parseFloat: string -> Option<real>): (r: Result<seq<GridLength>>)
    ensures r.Ok? <==> forall i :: 0 <= i < |cols| ==> ConvertColumn(cols[i], parseFloat).Ok?
    ensures r.Ok? ==> |r.value| == |cols|
    ensures r.Ok? ==> forall i :: 0 <= i < |cols| ==> r.value[i] == ConvertColumn(cols[i], parseFloat).value
    ensures r.Ok? ==> forall i :: 0 <= i < |cols| && cols[i].Length? ==> r.value[i] == cols[i].length
    ensures r.Err? ==> r.error == ValueError
  {
    if cols == [] then Ok([])
    else
      match ConvertColumn(cols[0], parseFloat)
      case Err(e) => ParseUnit(cols[0].value, parseFloat); Err(e)
      case Ok(g) =>
        match ConvertColumns(cols[1..], parseFloat)
        case Err(e) => Err(e)
        case Ok(gs) => Ok([g] + gs)
  }

  /** `Grid(elements, columns=...)` with default attributes; the columns default to []. */
  function NewGrid(objs: seq<GridArg>, columns: seq<ColumnArg>, parseFloat: string -> Option<real>): (r: Result<Element>)
    ensures r.Ok? <==> ConvertColumns(columns, parseFloat).Ok?
    ensures r.Ok? ==> r.value.attrs == DefaultAttributes()
    ensures r.Ok? ==> r.value.kind == Grid(GridConvertEntries(objs), ConvertColumns(columns, parseFloat).value)
  {
    match ConvertColumns(columns, parseFloat)
    case Err(e) => Err(e)
    case Ok(cs) => Ok(Element(DefaultAttributes(), Grid(GridConvertEntries(objs), cs)))
  }
}
