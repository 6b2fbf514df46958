/** pulsegen_client/contracts.py, the older message classes. Every message object is
    nothing but the list it would serialise (`data`): a channel is the list of its six
    fields, a union object (shape or instruction) is `[type_id, payload]`, and a
    request is `[channels, shapes, instructions]`. The builder is the older state
    machine: no shape registration, and `play` takes its parameters in payload order.
    The module is shadowed by the `contracts` package, which Python prefers. */
module LegacyContracts {
  import opened Common
  import opened Instructions
  import opened Requests

  /** A value msgpack would serialise: an integer, a float, a string or a list. */
  datatype Data = DInt(i: int) | DFloat(x: real) | DStr(s: string) | DList(items: seq<Data>)

  // ShapeInfo type ids.
  const HANN_SHAPE := 0
  const TRIANGLE_SHAPE := 1
  const INTERPOLATED_SHAPE := 2

  // Instruction type ids.
  const PLAY := 0
  const SHIFT_PHASE := 1
  const SET_PHASE := 2
  const SHIFT_FREQUENCY := 3
  const SET_FREQUENCY := 4
  const SWAP_PHASE := 5

  // ------------------------------------------------------------------ encoding

  /** `UnionObject(type_id, data)`: the pair of the type id and the payload. */
  function UnionData(typeId: int, payload: seq<Data>): Data {
    DList([DInt(typeId), DList(payload)])
  }

  function Floats(xs: seq<real>): (ds: seq<Data>) {
    seq(|xs|, k requires 0 <= k < |xs| => DFloat(xs[k]))
  }

  /** `ChannelInfo(...)`: its six fields in order. */
  function ChannelData(c: ChannelInfo): Data {
    DList([DStr(c.name), DFloat(c.baseFreq), DFloat(c.sampleRate), DFloat(c.delay), DInt(c.length), DInt(c.alignLevel)])
  }

  /** The shape classes: Hann and Triangle carry no payload, an interpolated shape
      carries copies of its x and y lists. */
  function ShapeData(s: ShapeInfo): Data {
    match s
    case HannShape => UnionData(HANN_SHAPE, [])
    case TriangleShape => UnionData(TRIANGLE_SHAPE, [])
    case InterpolatedShape(xs, ys) => UnionData(INTERPOLATED_SHAPE, [DList(Floats(xs)), DList(Floats(ys))])
  }

  /** The legacy instruction classes exist for the six known kinds only. */
  predicate Encodable(items: seq<Instruction>) {
    forall k :: 0 <= k < |items| ==> !items[k].BareInstruction?
  }

  /** The instruction classes: the type id and the constructor's parameters in order. */
  function InstructionData(item: Instruction): Data
    requires !item.BareInstruction?
  {
    match item
    case Play(time, ch, shape, width, plateau, freq, phase, amp, drag) =>
      UnionData(PLAY, [DFloat(time), DInt(ch), DInt(shape), DFloat(width), DFloat(plateau), DFloat(freq),
                       DFloat(phase), DFloat(amp), DFloat(drag)])
    case ShiftPhase(ch, phase) => UnionData(SHIFT_PHASE, [DInt(ch), DFloat(phase)])
    case SetPhase(time, ch, phase) => UnionData(SET_PHASE, [DFloat(time), DInt(ch), DFloat(phase)])
    case ShiftFrequency(time, ch, freq) => UnionData(SHIFT_FREQUENCY, [DFloat(time), DInt(ch), DFloat(freq)])
    case SetFrequency(time, ch, freq) => UnionData(SET_FREQUENCY, [DFloat(time), DInt(ch), DFloat(freq)])
    case SwapPhase(time, a, b) => UnionData(SWAP_PHASE, [DFloat(time), DInt(a), DInt(b)])
  }

  /** `PulseGenRequest(channels, shapes, instructions)`: the three lists, each element
      serialised as its own data. */
  function RequestData(channels: seq<ChannelInfo>, shapes: seq<ShapeInfo>, items: seq<Instruction>): Data
    requires Encodable(items)
  {
    DList([DList(seq(|channels|, k requires 0 <= k < |channels| => ChannelData(channels[k]))),
           DList(seq(|shapes|, k requires 0 <= k < |shapes| => ShapeData(shapes[k]))),
           DList(seq(|items|, k requires 0 <= k < |items| => InstructionData(items[k])))])
  }

  /** `PulseGenRequest`: its own copy of the channel list, and its data. */
  datatype PulseGenRequest = PulseGenRequest(channels: seq<ChannelInfo>, data: Data)

  // ------------------------------------------------------------------ decoding

  /** How a reader of the data recovers a list of values, element by element. */
  function DecodeList<T>(ds: seq<Data>, dec: Data -> Option<T>): (r: Option<seq<T>>)
    ensures r.Some? ==> |r.value| == |ds|
    decreases |ds|
  {
    if ds == [] then Some([])
    else
      match dec(ds[0])
      case None => None
      case Some(x) =>
        match DecodeList(ds[1..], dec)
        case None => None
        case Some(xs) => Some([x] + xs)
  }

  function DecodeFloat(d: Data): Option<real> {
    if d.DFloat? then Some(d.x) else None
  }

  /** `p` has one entry per letter of `kinds`, an integer for `i` and a float for `f`. */
  predicate Shaped(p: seq<Data>, kinds: string) {
    |p| == |kinds| && forall k :: 0 <= k < |p| ==> if kinds[k] == 'i' then p[k].DInt? else p[k].DFloat?
  }

  /** The type id and payload of a union object's data. */
  function Union(d: Data): Option<(int, seq<Data>)> {
    if d.DList? && |d.items| == 2 && d.items[0].DInt? && d.items[1].DList? then Some((d.items[0].i, d.items[1].items))
    else None
  }

  function DecodeChannel(d: Data): Option<ChannelInfo> {
    if d.DList? && |d.items| == 6 && d.items[0].DStr? && Shaped(d.items[1..], "fffii") then
      var p := d.items;
      Some(ChannelInfo(p[0].s, p[1].x, p[2].x, p[3].x, p[4].i, p[5].i))
    else None
  }

  function DecodeShape(d: Data): Option<ShapeInfo> {
    match Union(d)
    case None => None
    case Some((t, p)) =>
      if t == HANN_SHAPE && p == [] then Some(HannShape)
      else if t == TRIANGLE_SHAPE && p == [] then Some(TriangleShape)
      else if t == INTERPOLATED_SHAPE && |p| == 2 && p[0].DList? && p[1].DList? then
        match (DecodeList(p[0].items, DecodeFloat), DecodeList(p[1].items, DecodeFloat))
        case (Some(xs), Some(ys)) => Some(InterpolatedShape(xs, ys))
        case _ => None
      else None
  }

  function DecodeInstruction(d: Data): Option<Instruction> {
    match Union(d)
    case None => None
    case Some((t, p)) =>
      if t == PLAY && Shaped(p, "fiiffffff") then
        Some(Play(p[0].x, p[1].i, p[2].i, p[3].x, p[4].x, p[5].x, p[6].x, p[7].x, p[8].x))
      else if t == SHIFT_PHASE && Shaped(p, "if") then Some(ShiftPhase(p[0].i, p[1].x))
      else if t == SET_PHASE && Shaped(p, "fif") then Some(SetPhase(p[0].x, p[1].i, p[2].x))
      else if t == SHIFT_FREQUENCY && Shaped(p, "fif") then Some(ShiftFrequency(p[0].x, p[1].i, p[2].x))
      else if t == SET_FREQUENCY && Shaped(p, "fif") then Some(SetFrequency(p[0].x, p[1].i, p[2].x))
      else if t == SWAP_PHASE && Shaped(p, "fii") then Some(SwapPhase(p[0].x, p[1].i, p[2].i))
      else None
  }

  function DecodeRequest(d: Data): Option<(seq<ChannelInfo>, seq<ShapeInfo>, seq<Instruction>)> {
    if d.DList? && |d.items| == 3 && d.items[0].DList? && d.items[1].DList? && d.items[2].DList? then
      match (DecodeList(d.items[0].items, DecodeChannel), DecodeList(d.items[1].items, DecodeShape),
             DecodeList(d.items[2].items, DecodeInstruction))
      case (Some(cs), Some(ss), Some(ins)) => Some((cs, ss, ins))
      case _ => None
    else None
  }

  // -------------------------------------------------------------- round trips

  /** Decoding element by element undoes an element-wise encoding. */
  lemma {:induction false} DecodeListInverse<T>(ds: seq<Data>, xs: seq<T>, dec: Data -> Option<T>)
    requires |ds| == |xs|
    requires forall k :: 0 <= k < |ds| ==> dec(ds[k]) == Some(xs[k])
    ensures DecodeList(ds, dec) == Some(xs)
    decreases |ds|
  {
    if ds != [] {
      DecodeListInverse(ds[1..], xs[1..], dec);
      assert [xs[0]] + xs[1..] == xs;
    }
  }

  lemma FloatsRoundTrip(xs: seq<real>)
    ensures DecodeList(Floats(xs), DecodeFloat) == Some(xs)
  {
    DecodeListInverse(Floats(xs), xs, DecodeFloat);
  }

  lemma ChannelRoundTrip(c: ChannelInfo)
    ensures DecodeChannel(ChannelData(c)) == Some(c)
  {
    var p := ChannelData(c).items;
    assert p[1..] == [DFloat(c.baseFreq), DFloat(c.sampleRate), DFloat(c.delay), DInt(c.length), DInt(c.alignLevel)];
  }

  lemma ShapeRoundTrip(s: ShapeInfo)
    ensures DecodeShape(ShapeData(s)) == Some(s)
  {
    if s.InterpolatedShape? {
      FloatsRoundTrip(s.xArray);
      FloatsRoundTrip(s.yArray);
    }
  }

  /** Every known instruction is recovered from its data: the type ids are distinct
      and each payload keeps every field in its place. */
  lemma InstructionRoundTrip(item: Instruction)
    requires !item.BareInstruction?
    ensures DecodeInstruction(InstructionData(item)) == Some(item)
  {
  }

  /** Conversely, data that decodes to an instruction is exactly that instruction's
      data: decoding accepts nothing the classes would not produce. */
  lemma DecodedInstructionExact(d: Data)
    requires DecodeInstruction(d).Some?
    ensures !DecodeInstruction(d).value.BareInstruction? && InstructionData(DecodeInstruction(d).value) == d
  {
    var (t, p) := Union(d).value;
    assert d == DList([DInt(t), DList(p)]);
    forall k | 0 <= k < |p| ensures p[k].DInt? ==> p[k] == DInt(p[k].i) ensures p[k].DFloat? ==> p[k] == DFloat(p[k].x) {
    }
    if t == PLAY && Shaped(p, "fiiffffff") {
      assert p == [DFloat(p[0].x), DInt(p[1].i), DInt(p[2].i), DFloat(p[3].x), DFloat(p[4].x), DFloat(p[5].x),
                   DFloat(p[6].x), DFloat(p[7].x), DFloat(p[8].x)];
    } else if t == SHIFT_PHASE && Shaped(p, "if") {
      assert p == [DInt(p[0].i), DFloat(p[1].x)];
    } else if Shaped(p, "fif") {
      assert p == [DFloat(p[0].x), DInt(p[1].i), DFloat(p[2].x)];
    } else {
      assert p == [DFloat(p[0].x), DInt(p[1].i), DInt(p[2].i)];
    }
  }

  /** So distinct instructions have distinct data. */
  lemma InstructionDataInjective(a: Instruction, b: Instruction)
    requires !a.BareInstruction? && !b.BareInstruction?
    requires InstructionData(a) == InstructionData(b)
    ensures a == b
  {
    InstructionRoundTrip(a);
    InstructionRoundTrip(b);
  }

  /** A request's data gives back its channels, shapes and instructions, in order. */
  lemma RequestRoundTrip(channels: seq<ChannelInfo>, shapes: seq<ShapeInfo>, items: seq<Instruction>)
    requires Encodable(items)
    ensures DecodeRequest(RequestData(channels, shapes, items)) == Some((channels, shapes, items))
  {
    var d := RequestData(channels, shapes, items);
    forall k | 0 <= k < |channels| ensures DecodeChannel(d.items[0].items[k]) == Some(channels[k]) {
      ChannelRoundTrip(channels[k]);
    }
    DecodeListInverse(d.items[0].items, channels, DecodeChannel);
    forall k | 0 <= k < |shapes| ensures DecodeShape(d.items[1].items[k]) == Some(shapes[k]) {
      ShapeRoundTrip(shapes[k]);
    }
    DecodeListInverse(d.items[1].items, shapes, DecodeShape);
    forall k | 0 <= k < |items| ensures DecodeInstruction(d.items[2].items[k]) == Some(items[k]) {
      InstructionRoundTrip(items[k]);
    }
    DecodeListInverse(d.items[2].items, items, DecodeInstruction);
  }

  /** Resolving instructions are of the known kinds. */
  lemma ResolvingEncodable(items: seq<Instruction>, n: nat, m: nat)
    requires AllResolve(items, n, m)
    ensures Encodable(items)
  {
    forall k | 0 <= k < |items| ensures !items[k].BareInstruction? {
      assert Resolves(items[k], n, m);
    }
  }

  // ------------------------------------------------------------------ builder

  /** The older `RequestBuilder`: the channel list and its name table, the fixed
      built-in shapes and their names, and the instructions appended so far. */
  class RequestBuilder {
    var channels: seq<ChannelInfo>
    var channelIds: map<string, int>
    const shapes: seq<ShapeInfo>
    const shapeIds: map<string, int>
    var instructions: seq<Instruction>

    ghost predicate Valid()
      reads this
    {
      DenseChannelIds(channels, channelIds) && shapes == BuiltinShapes() && shapeIds == BuiltinShapeIds() &&
      AllResolve(instructions, |channels|, |shapes|)
    }

    /** No channels, the shapes Hann and Triangle under `hann` and `triangle`, `rect`
        for no shape, no instructions. */
    constructor ()
      ensures Valid()
      ensures channels == [] && channelIds == map[] && instructions == []
    {
      channels, channelIds := [], map[];
      shapes, shapeIds := BuiltinShapes(), BuiltinShapeIds();
      instructions := [];
    }

    /** `add_channel`: ValueError for a name already in use; otherwise the channel
        gets the next id. */
    method AddChannel(name: string, baseFreq: real, sampleRate: real, delay: real, length: int, alignLevel: int)
      returns (o: Outcome)
      requires Valid()
      modifies this
      ensures Valid()
      ensures o.Fail? <==> name in old(channelIds)
      ensures o.Fail? ==> o.error == ValueError && channels == old(channels) && channelIds == old(channelIds)
      ensures o.Pass? ==> channels == old(channels) + [ChannelInfo(name, baseFreq, sampleRate, delay, length, alignLevel)]
      ensures o.Pass? ==> channelIds == old(channelIds)[name := |old(channels)|]
      ensures instructions == old(instructions)
    {
      if name in channelIds {
        return Fail(ValueError);
      }
      var c := ChannelInfo(name, baseFreq, sampleRate, delay, length, alignLevel);
      AddChannelDense(channels, channelIds, c);
      ResolvesGrow(instructions, |channels|, |shapes|, |channels| + 1, |shapes|);
      channelIds := channelIds[name := |channels|];
      channels := channels + [c];
      o := Pass;
    }

    /** Appends one instruction; the channel table is untouched. */
    method Append(item: Instruction)
      requires Valid() && Resolves(item, |channels|, |shapes|)
      modifies this`instructions
      ensures Valid() && instructions == old(instructions) + [item]
    {
      instructions := instructions + [item];
    }

    /** `play`, with its parameters in payload order: KeyError for an unknown channel
        or shape name, else one Play with the looked-up ids. */
    method Play(time: real, channelName: string, shapeName: string, width: real, plateau: real,
                frequency: real, phase: real, amplitude: real, dragCoef: real)
      returns (o: Outcome)
      requires Valid()
      modifies this`instructions
      ensures Valid()
      ensures o.Fail? <==> channelName !in channelIds || shapeName !in shapeIds
      ensures o.Fail? ==> o.error == KeyError && instructions == old(instructions)
      ensures o.Pass? ==>
        instructions == old(instructions) +
                        [Instructions.Play(time, channelIds[channelName], shapeIds[shapeName], width, plateau,
                                           frequency, phase, amplitude, dragCoef)]
    {
      var ch := Lookup(channelIds, channelName);
      if ch.Err? { return Fail(ch.error); }
      var shape := Lookup(shapeIds, shapeName);
      if shape.Err? { return Fail(shape.error); }
      Append(Instructions.Play(time, ch.value, shape.value, width, plateau, frequency, phase, amplitude, dragCoef));
      o := Pass;
    }

    /** `shift_phase`: KeyError for an unknown channel name, else one ShiftPhase. */
    method ShiftPhase(channelName: string, phase: real) returns (o: Outcome)
      requires Valid()
      modifies this`instructions
      ensures Valid()
      ensures o.Fail? <==> channelName !in channelIds
      ensures o.Fail? ==> o.error == KeyError && instructions == old(instructions)
      ensures o.Pass? ==> instructions == old(instructions) + [Instructions.ShiftPhase(channelIds[channelName], phase)]
    {
      var ch := Lookup(channelIds, channelName);
      if ch.Err? { return Fail(ch.error); }
      Append(Instructions.ShiftPhase(ch.value, phase));
      o := Pass;
    }

    /** `set_phase`: KeyError for an unknown channel name, else one SetPhase. */
    method SetPhase(time: real, channelName: string, phase: real) returns (o: Outcome)
      requires Valid()
      modifies this`instructions
      ensures Valid()
      ensures o.Fail? <==> channelName !in channelIds
      ensures o.Fail? ==> o.error == KeyError && instructions == old(instructions)
      ensures o.Pass? ==> instructions == old(instructions) + [Instructions.SetPhase(time, channelIds[channelName], phase)]
    {
      var ch := Lookup(channelIds, channelName);
      if ch.Err? { return Fail(ch.error); }
      Append(Instructions.SetPhase(time, ch.value, phase));
      o := Pass;
    }

    /** `shift_frequency`: KeyError for an unknown channel name, else one ShiftFrequency. */
    method ShiftFrequency(time: real, channelName: string, frequency: real) returns (o: Outcome)
      requires Valid()
      modifies this`instructions
      ensures Valid()
      ensures o.Fail? <==> channelName !in channelIds
      ensures o.Fail? ==> o.error == KeyError && instructions == old(instructions)
      ensures o.Pass? ==>
        instructions == old(instructions) + [Instructions.ShiftFrequency(time, channelIds[channelName], frequency)]
    {
      var ch := Lookup(channelIds, channelName);
      if ch.Err? { return Fail(ch.error); }
      Append(Instructions.ShiftFrequency(time, ch.value, frequency));
      o := Pass;
    }

    /** `set_frequency`: KeyError for an unknown channel name, else one SetFrequency. */
    method SetFrequency(time: real, channelName: string, frequency: real) returns (o: Outcome)
      requires Valid()
      modifies this`instructions
      ensures Valid()
      ensures o.Fail? <==> channelName !in channelIds
      ensures o.Fail? ==> o.error == KeyError && instructions == old(instructions)
      ensures o.Pass? ==>
        instructions == old(instructions) + [Instructions.SetFrequency(time, channelIds[channelName], frequency)]
    {
      var ch := Lookup(channelIds, channelName);
      if ch.Err? { return Fail(ch.error); }
      Append(Instructions.SetFrequency(time, ch.value, frequency));
      o := Pass;
    }

    /** `swap_phase`: KeyError when either channel name is unknown, else one SwapPhase. */
    method SwapPhase(time: real, channelName1: string, channelName2: string) returns (o: Outcome)
      requires Valid()
      modifies this`instructions
      ensures Valid()
      ensures o.Fail? <==> channelName1 !in channelIds || channelName2 !in channelIds
      ensures o.Fail? ==> o.error == KeyError && instructions == old(instructions)
      ensures o.Pass? ==>
        instructions == old(instructions) + [Instructions.SwapPhase(time, channelIds[channelName1], channelIds[channelName2])]
    {
      var a := Lookup(channelIds, channelName1);
      if a.Err? { return Fail(a.error); }
      var b := Lookup(channelIds, channelName2);
      if b.Err? { return Fail(b.error); }
      Append(Instructions.SwapPhase(time, a.value, b.value));
      o := Pass;
    }

    /** `build`: a request holding a copy of the channels and the data of the three
        lists; that data decodes back to the builder's lists, in order. */
    method Build() returns (r: PulseGenRequest)
      requires Valid()
      ensures WellBuilt(channels, shapes, instructions) && Encodable(instructions)
      ensures r.channels == channels && r.data == RequestData(channels, shapes, instructions)
      ensures DecodeRequest(r.data) == Some((channels, shapes, instructions))
    {
      DenseNamesDistinct(channels, channelIds);
      ResolvingEncodable(instructions, |channels|, |shapes|);
      RequestRoundTrip(channels, shapes, instructions);
      r := PulseGenRequest(channels, RequestData(channels, shapes, instructions));
    }
  }
}
