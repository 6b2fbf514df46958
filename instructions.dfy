/** The records a pulse-generation request is made of: channel descriptions, pulse
    shapes and the flat, absolutely timed instructions. They are plain frozen values
    (pulsegen_client/pulse.py, contracts/_pulse_instructions.py, contracts/_channels.py,
    contracts/_pulse_shapes.py declare the same fields in the same order). */
module Instructions {

  /** One output channel: its name, carrier (base) frequency, sample rate, delay,
      number of samples and alignment level. */
  datatype ChannelInfo = ChannelInfo(
    name: string,
    baseFreq: real,
    sampleRate: real,
    delay: real,
    length: int,
    alignLevel: int)

  /** A pulse shape. Sampling a shape is not part of this model. */
  datatype ShapeInfo =
    | HannShape
    | TriangleShape
    | InterpolatedShape(xArray: seq<real>, yArray: seq<real>)

  /** An instruction of a flat request. Phases are in cycles. `BareInstruction`
      stands for an instance of the `Instruction` base class itself (or of any other
      subclass), which the runner does not recognise. */
  datatype Instruction =
    | Play(time: real, channelId: int, shapeId: int, width: real, plateau: real,
           frequency: real, phase: real, amplitude: real, dragCoef: real)
    | ShiftPhase(channelId: int, phase: real)
    | SetPhase(time: real, channelId: int, phase: real)
    | ShiftFrequency(time: real, channelId: int, frequency: real)
    | SetFrequency(time: real, channelId: int, frequency: real)
    | SwapPhase(time: real, channelId1: int, channelId2: int)
    | BareInstruction

  /** The base frequencies of `channels`, in channel order. */
  function BaseFreqs(channels: seq<ChannelInfo>): (fs: seq<real>)
    ensures |fs| == |channels|
    ensures forall i :: 0 <= i < |channels| ==> fs[i] == channels[i].baseFreq
  {
    seq(|channels|, i requires 0 <= i < |channels| => channels[i].baseFreq)
  }
}
