/** What the three request builders keep true of their lists and name tables
    (pulsegen_client/pulse.py, contracts/_pulse_request.py and the older
    contracts.py build requests the same way): channel names map densely onto
    channel positions, shape names onto shape ids, and every instruction refers to
    a channel and a shape that exist. */
module Requests {
  import opened Common
  import opened Instructions

  /** `ids[name]` for a Python dict: KeyError for a missing name. */
  function Lookup(ids: map<string, int>, name: string): (r: Result<int>)
    ensures r.Ok? <==> name in ids
    ensures r.Ok? ==> r.value == ids[name]
    ensures r.Err? ==> r.error == KeyError
  {
    if name in ids then Ok(ids[name]) else Err(KeyError)
  }

  /** The built-in shapes a fresh builder starts with. */
  function BuiltinShapes(): seq<ShapeInfo> {
    [HannShape, TriangleShape]
  }

  /** The built-in shape names: `rect` (no shape), `hann` and `triangle`. */
  function BuiltinShapeIds(): map<string, int> {
    map["rect" := -1, "hann" := 0, "triangle" := 1]
  }

  /** Every name maps to the position of the one channel carrying it, and every
      channel's name maps to its position: channel ids are exactly 0..n-1. */
  ghost predicate DenseChannelIds(channels: seq<ChannelInfo>, ids: map<string, int>) {
    (forall name :: name in ids ==> 0 <= ids[name] < |channels| && channels[ids[name]].name == name) &&
    (forall i :: 0 <= i < |channels| ==> channels[i].name in ids && ids[channels[i].name] == i)
  }

  /** The built-in shapes come first under their fixed names, the rest are
      interpolated shapes, and distinct names have distinct ids in `-1..|shapes|-1`. */
  ghost predicate ShapeIdsOk(shapes: seq<ShapeInfo>, ids: map<string, int>) {
    |shapes| >= 2 && shapes[..2] == BuiltinShapes() &&
    (forall i :: 2 <= i < |shapes| ==> shapes[i].InterpolatedShape?) &&
    (forall name :: name in BuiltinShapeIds() ==> name in ids && ids[name] == BuiltinShapeIds()[name]) &&
    (forall name :: name in ids ==> -1 <= ids[name] < |shapes|) &&
    (forall a, b :: a in ids && b in ids && a != b ==> ids[a] != ids[b])
  }

  /** An instruction addresses channels among the first `n` and a shape among the
      first `m` or the rectangular id -1. An instruction of no known kind resolves
      nowhere. */
  predicate Resolves(item: Instruction, n: nat, m: nat) {
    match item
    case Play(_, ch, shape, _, _, _, _, _, _) => 0 <= ch < n && -1 <= shape < m
    case ShiftPhase(ch, _) => 0 <= ch < n
    case SetPhase(_, ch, _) => 0 <= ch < n
    case ShiftFrequency(_, ch, _) => 0 <= ch < n
    case SetFrequency(_, ch, _) => 0 <= ch < n
    case SwapPhase(_, a, b) => 0 <= a < n && 0 <= b < n
    case BareInstruction => false
  }

  ghost predicate AllResolve(items: seq<Instruction>, n: nat, m: nat) {
    forall k :: 0 <= k < |items| ==> Resolves(items[k], n, m)
  }

  /** What every builder's `build` hands out: distinct channel names, the built-in
      shapes first, and instructions that only refer to existing channels and shapes. */
  ghost predicate WellBuilt(channels: seq<ChannelInfo>, shapes: seq<ShapeInfo>, items: seq<Instruction>) {
    (forall i, j :: 0 <= i < j < |channels| ==> channels[i].name != channels[j].name) &&
    |shapes| >= 2 && shapes[..2] == BuiltinShapes() &&
    AllResolve(items, |channels|, |shapes|)
  }

  /** A fresh builder's tables: no channels, the built-in shapes. */
  lemma InitialTables()
    ensures DenseChannelIds([], map[])
    ensures ShapeIdsOk(BuiltinShapes(), BuiltinShapeIds())
  {
    var ids := BuiltinShapeIds();
    assert ids.Keys == {"rect", "hann", "triangle"};
  }

  /** Registering a new channel name under the next position keeps the ids dense. */
  lemma AddChannelDense(channels: seq<ChannelInfo>, ids: map<string, int>, c: ChannelInfo)
    requires DenseChannelIds(channels, ids) && c.name !in ids
    ensures DenseChannelIds(channels + [c], ids[c.name := |channels|])
  {
    var channels', ids' := channels + [c], ids[c.name := |channels|];
    forall i | 0 <= i < |channels'|
      ensures channels'[i].name in ids' && ids'[channels'[i].name] == i
    {
      if i < |channels| {
        assert channels'[i] == channels[i];
        assert channels[i].name != c.name;
      }
    }
  }

  /** Registering a new shape name under the next id keeps the shape table sound. */
  lemma AddShapeOk(shapes: seq<ShapeInfo>, ids: map<string, int>, name: string, xs: seq<real>, ys: seq<real>)
    requires ShapeIdsOk(shapes, ids) && name !in ids
    ensures ShapeIdsOk(shapes + [InterpolatedShape(xs, ys)], ids[name := |shapes|])
  {
    var shapes' := shapes + [InterpolatedShape(xs, ys)];
    assert shapes'[..2] == shapes[..2];
    forall n | n in BuiltinShapeIds() ensures n in ids && n != name {
    }
  }

  /** Dense channel ids give distinct channel names. */
  lemma DenseNamesDistinct(channels: seq<ChannelInfo>, ids: map<string, int>)
    requires DenseChannelIds(channels, ids)
    ensures forall i, j :: 0 <= i < j < |channels| ==> channels[i].name != channels[j].name
  {
    forall i, j | 0 <= i < j < |channels| ensures channels[i].name != channels[j].name {
      assert ids[channels[i].name] == i && ids[channels[j].name] == j;
    }
  }

  /** Instructions that resolve keep resolving after more channels or shapes are added. */
  lemma ResolvesGrow(items: seq<Instruction>, n: nat, m: nat, n': nat, m': nat)
    requires AllResolve(items, n, m) && n <= n' && m <= m'
    ensures AllResolve(items, n', m')
  {
    forall k | 0 <= k < |items| ensures Resolves(items[k], n', m') {
      assert Resolves(items[k], n, m);
    }
  }
}
