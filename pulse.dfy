/** pulsegen_client/pulse.py: a flat request (channels, shapes and absolutely timed
    instructions) and the builder that assembles one by name. */
module Pulse {
  import opened Common
  import opened Instructions
  import opened Requests

  /** `Request`: the three lists, copied by its list converters. */
  datatype Request = Request(channels: seq<ChannelInfo>, shapes: seq<ShapeInfo>, instructions: seq<Instruction>)

  /** `RequestBuilder`: channel and shape lists with their name tables, and the
      instructions appended so far. Every method looks names up before it appends,
      so a failing call changes nothing. */
  class RequestBuilder {
    var channels: seq<ChannelInfo>
    var channelIds: map<string, int>
    var shapes: seq<ShapeInfo>
    var shapeIds: map<string, int>
    var instructions: seq<Instruction>

    ghost predicate Valid()
      reads this
    {
      DenseChannelIds(channels, channelIds) && ShapeIdsOk(shapes, shapeIds) &&
      AllResolve(instructions, |channels|, |shapes|)
    }

    /** No channels, the shapes Hann and Triangle under `hann` and `triangle`, `rect`
        for no shape, no instructions. */
    constructor ()
      ensures Valid()
      ensures channels == [] && channelIds == map[] && instructions == []
      ensures shapes == BuiltinShapes() && shapeIds == BuiltinShapeIds()
    {
      channels, channelIds := [], map[];
      shapes, shapeIds := BuiltinShapes(), BuiltinShapeIds();
      instructions := [];
      InitialTables();
    }

    /** `add_channel`: ValueError for a name already in use; otherwise the channel
        gets the next id. */
    method AddChannel(name: string, baseFreq: real, sampleRate: real, delay: real, length: int, alignLevel: int)
      returns (o: Outcome)
      requires Valid()
      modifies this
      ensures Valid()
      ensures o.Fail? <==> name in old(channelIds)
      ensures o.Fail? ==> o.error == ValueError && channels == old(channels) && channelIds == old(channelIds)
      ensures o.Pass? ==> channels == old(channels) + [ChannelInfo(name, baseFreq, sampleRate, delay, length, alignLevel)]
      ensures o.Pass? ==> channelIds == old(channelIds)[name := |old(channels)|]
      ensures shapes == old(shapes) && shapeIds == old(shapeIds) && instructions == old(instructions)
    {
      if name in channelIds {
        return Fail(ValueError);
      }
      var c := ChannelInfo(name, baseFreq, sampleRate, delay, length, alignLevel);
      AddChannelDense(channels, channelIds, c);
      ResolvesGrow(instructions, |channels|, |shapes|, |channels| + 1, |shapes|);
      channelIds := channelIds[name := |channels|];
      channels := channels + [c];
      o := Pass;
    }

    /** `add_interpolated_shape`: ValueError for a name already in use, the built-in
        names included; otherwise the shape gets the next id. */
    method AddInterpolatedShape(name: string, xArray: seq<real>, yArray: seq<real>) returns (o: Outcome)
      requires Valid()
      modifies this
      ensures Valid()
      ensures o.Fail? <==> name in old(shapeIds)
      ensures o.Fail? ==> o.error == ValueError && shapes == old(shapes) && shapeIds == old(shapeIds)
      ensures o.Pass? ==> shapes == old(shapes) + [InterpolatedShape(xArray, yArray)]
      ensures o.Pass? ==> shapeIds == old(shapeIds)[name := |old(shapes)|]
      ensures channels == old(channels) && channelIds == old(channelIds) && instructions == old(instructions)
    {
      if name in shapeIds {
        return Fail(ValueError);
      }
      AddShapeOk(shapes, shapeIds, name, xArray, yArray);
      ResolvesGrow(instructions, |channels|, |shapes|, |channels|, |shapes| + 1);
      shapeIds := shapeIds[name := |shapes|];
      shapes := shapes + [InterpolatedShape(xArray, yArray)];
      o := Pass;
    }

    /** Appends one instruction; the tables are untouched. */
    method Append(item: Instruction)
      requires Valid() && Resolves(item, |channels|, |shapes|)
      modifies this`instructions
      ensures Valid() && instructions == old(instructions) + [item]
    {
      instructions := instructions + [item];
    }

    /** `play`: KeyError for an unknown channel or shape name, else one Play with the
        looked-up ids. */
    method Play(time: real, channelName: string, amplitude: real, shapeName: string, width: real,
                plateau: real := 0.0, dragCoef: real := 0.0, frequency: real := 0.0, phase: real := 0.0)
      returns (o: Outcome)
      requires Valid()
      modifies this`instructions
      ensures Valid()
      ensures o.Fail? <==> channelName !in channelIds || shapeName !in shapeIds
      ensures o.Fail? ==> o.error == KeyError && instructions == old(instructions)
      ensures o.Pass? ==>
        instructions == old(instructions) +
                        [Instructions.Play(time, channelIds[channelName], shapeIds[shapeName], width, plateau,
                                           frequency, phase, amplitude, dragCoef)]
    {
      var ch := Lookup(channelIds, channelName);
      if ch.Err? { return Fail(ch.error); }
      var shape := Lookup(shapeIds, shapeName);
      if shape.Err? { return Fail(shape.error); }
      Append(Instructions.Play(time, ch.value, shape.value, width, plateau, frequency, phase, amplitude, dragCoef));
      o := Pass;
    }

    /** `shift_phase`: KeyError for an unknown channel name, else one ShiftPhase. */
    method ShiftPhase(channelName: string, phase: real) returns (o: Outcome)
      requires Valid()
      modifies this`instructions
      ensures Valid()
      ensures o.Fail? <==> channelName !in channelIds
      ensures o.Fail? ==> o.error == KeyError && instructions == old(instructions)
      ensures o.Pass? ==> instructions == old(instructions) + [Instructions.ShiftPhase(channelIds[channelName], phase)]
    {
      var ch := Lookup(channelIds, channelName);
      if ch.Err? { return Fail(ch.error); }
      Append(Instructions.ShiftPhase(ch.value, phase));
      o := Pass;
    }

    /** `set_phase`: KeyError for an unknown channel name, else one SetPhase. */
    method SetPhase(time: real, channelName: string, phase: real) returns (o: Outcome)
      requires Valid()
      modifies this`instructions
      ensures Valid()
      ensures o.Fail? <==> channelName !in channelIds
      ensures o.Fail? ==> o.error == KeyError && instructions == old(instructions)
      ensures o.Pass? ==> instructions == old(instructions) + [Instructions.SetPhase(time, channelIds[channelName], phase)]
    {
      var ch := Lookup(channelIds, channelName);
      if ch.Err? { return Fail(ch.error); }
      Append(Instructions.SetPhase(time, ch.value, phase));
      o := Pass;
    }

    /** `shift_frequency`: KeyError for an unknown channel name, else one ShiftFrequency. */
    method ShiftFrequency(time: real, channelName: string, frequency: real) returns (o: Outcome)
      requires Valid()
      modifies this`instructions
      ensures Valid()
      ensures o.Fail? <==> channelName !in channelIds
      ensures o.Fail? ==> o.error == KeyError && instructions == old(instructions)
      ensures o.Pass? ==>
        instructions == old(instructions) + [Instructions.ShiftFrequency(time, channelIds[channelName], frequency)]
    {
      var ch := Lookup(channelIds, channelName);
      if ch.Err? { return Fail(ch.error); }
      Append(Instructions.ShiftFrequency(time, ch.value, frequency));
      o := Pass;
    }

    /** `set_frequency`: KeyError for an unknown channel name, else one SetFrequency. */
    method SetFrequency(time: real, channelName: string, frequency: real) returns (o: Outcome)
      requires Valid()
      modifies this`instructions
      ensures Valid()
      ensures o.Fail? <==> channelName !in channelIds
      ensures o.Fail? ==> o.error == KeyError && instructions == old(instructions)
      ensures o.Pass? ==>
        instructions == old(instructions) + [Instructions.SetFrequency(time, channelIds[channelName], frequency)]
    {
      var ch := Lookup(channelIds, channelName);
      if ch.Err? { return Fail(ch.error); }
      Append(Instructions.SetFrequency(time, ch.value, frequency));
      o := Pass;
    }

    /** `swap_phase`: KeyError when either channel name is unknown, else one SwapPhase. */
    method SwapPhase(time: real, channelName1: string, channelName2: string) returns (o: Outcome)
      requires Valid()
      modifies this`instructions
      ensures Valid()
      ensures o.Fail? <==> channelName1 !in channelIds || channelName2 !in channelIds
      ensures o.Fail? ==> o.error == KeyError && instructions == old(instructions)
      ensures o.Pass? ==>
        instructions == old(instructions) + [Instructions.SwapPhase(time, channelIds[channelName1], channelIds[channelName2])]
    {
      var a := Lookup(channelIds, channelName1);
      if a.Err? { return Fail(a.error); }
      var b := Lookup(channelIds, channelName2);
      if b.Err? { return Fail(b.error); }
      Append(Instructions.SwapPhase(time, a.value, b.value));
      o := Pass;
    }

    /** `build`: the builder's three lists, in order; channel names are distinct, the
        built-in shapes come first and every instruction refers to an existing
        channel and shape. */
    method Build() returns (r: Request)
      requires Valid()
      ensures r.channels == channels && r.shapes == shapes && r.instructions == instructions
      ensures WellBuilt(r.channels, r.shapes, r.instructions)
    {
      DenseNamesDistinct(channels, channelIds);
      r := Request(channels, shapes, instructions);
    }
  }
}
