/**
 * Properties of the driver that relate several calls: mode and level changes
 * that undo each other, the lifecycle of begin and end, pins out of range,
 * and what a whole sequence of calls does while the handle is off.
 */
module DriverProperties {
  import opened Bits
  import opened Header
  import opened DriverSpec

  /** pinMode(p, INPUT) then pinMode(p, OUTPUT) leaves bit p of the direction
      mask at 0 and every other bit as it was, with one port write per call. */
  lemma InputThenOutput(c: Config, s: State, pin: bv8)
    requires Active(c, s) && pin < 8
    ensures var t := PinModeStep(c, PinModeStep(c, s, pin, Input), pin, Output);
            t.direction == ClearBit(s.direction, pin) &&
            t.output == t.direction &&
            t.bus == s.bus + PortWrite(c.address, SetBit(s.direction, pin))
                           + PortWrite(c.address, ClearBit(s.direction, pin))
  {
    var m := PinModeStep(c, s, pin, Input);
    var t := PinModeStep(c, m, pin, Output);
    SameBits(m.direction, SetBit(s.direction, pin));
    SameBits(t.direction, ClearBit(m.direction, pin));
    SetThenClear(s.direction, pin);
  }

  /** write(p, TOGGLE) twice restores the output byte, with two port writes. */
  lemma ToggleTwice(c: Config, s: State, pin: bv8)
    requires Active(c, s) && pin < 8
    ensures var t := WritePinStep(c, WritePinStep(c, s, pin, TOGGLE), pin, TOGGLE);
            t == s.(bus := t.bus) &&
            t.bus == s.bus + PortWrite(c.address, FlipBit(s.output, pin))
                           + PortWrite(c.address, s.output)
  {
    var m := WritePinStep(c, s, pin, TOGGLE);
    var t := WritePinStep(c, m, pin, TOGGLE);
    SameBits(m.output, FlipBit(s.output, pin));
    SameBits(t.output, FlipBit(m.output, pin));
    FlipBitTwice(s.output, pin);
  }

  /** A pin number above 7 is rejected, not reduced modulo 8: write(8, HIGH)
      does nothing, while write(0, HIGH) on an active handle writes the port. */
  lemma PinsAreNotWrapped(c: Config, s: State)
    ensures WritePinStep(c, s, 8, HIGH) == s
    ensures PinModeStep(c, s, 8, Input) == s
    ensures ReadPinStep(c, s, 8, Some(0xFF)) == (s, 0)
    ensures Active(c, s) ==> WritePinStep(c, s, 0, HIGH) != s
  {
    if Active(c, s) {
      assert |WritePinStep(c, s, 0, HIGH).bus| == |s.bus| + 3;
    }
  }

  /** write(3, HIGH) on an output byte of 0 gives 0x08 and one port write. */
  lemma WritePinHighExample(c: Config, s: State)
    requires Active(c, s) && s.output == 0
    ensures WritePinStep(c, s, 3, HIGH).output == 0x08
    ensures WritePinStep(c, s, 3, HIGH).bus == s.bus + PortWrite(c.address, 0x08)
  {
    SameBits(WritePinStep(c, s, 3, HIGH).output, 0x08);
  }

  /** begin() on a PCF8574 at 0x19 (below its window) fails and leaves the
      handle off; at 0x20 with an acknowledged probe it succeeds with all
      pins inputs and the output byte 0xFF. */
  lemma BeginExamples(s: State)
    requires !s.isOn
    ensures BeginStep(ConfigFor(PCF8574, 0x19), s, true) == (s, false)
    ensures var r := BeginStep(ConfigFor(PCF8574, 0x20), s, true);
            r.1 && r.0.isOn && r.0.direction == 0xFF && r.0.output == 0xFF
  {
  }

  /** After a successful begin, a second begin is refused and changes nothing. */
  lemma BeginOnlyOnce(c: Config, s: State, ack: bool)
    requires !s.isOn && ValidAddr(c.lo, c.hi, c.address)
    ensures var t := BeginStep(c, s, true).0;
            t.isOn && BeginStep(c, t, ack) == (t, false)
  {
  }

  /** end() keeps the shadow bytes, and begin may then succeed again: its
      result is the new probe's acknowledgement. */
  lemma EndThenBegin(c: Config, s: State, ack: bool)
    requires ValidAddr(c.lo, c.hi, c.address)
    ensures BeginStep(c, EndStep(s), ack).1 == ack
    ensures !ack ==> BeginStep(c, EndStep(s), ack).0 ==
                     s.(isOn := false, bus := s.bus + [Open] + Probe(c.address))
  {
  }

  // ---------------------------------------------------------------------------
  // Sequences of calls

  /** One call of the driver's public interface, with what the bus answers. */
  datatype Call =
    | BeginCall(ack: bool)
    | IsConnectedCall(ack: bool)
    | PinModeCall(pin: bv8, mode: Mode)
    | ReadPortCall(received: Option<bv8>)
    | ReadPinCall(pin: bv8, received: Option<bv8>)
    | WritePortCall(data: bv8)
    | WritePinCall(pin: bv8, level: bv8)
    | EndCall

  /** The state after one call and the byte it returns (0 for a void call,
      0 or 1 for a boolean one). */
  function Apply(c: Config, s: State, call: Call): (State, bv8)
  {
    match call
    case BeginCall(ack) =>
      var r := BeginStep(c, s, ack);
      (r.0, if r.1 then 1 else 0)
    case IsConnectedCall(ack) =>
      var r := IsConnectedStep(c, s, ack);
      (r.0, if r.1 then 1 else 0)
    case PinModeCall(pin, mode) => (PinModeStep(c, s, pin, mode), 0)
    case ReadPortCall(received) => ReadPortStep(c, s, received)
    case ReadPinCall(pin, received) => ReadPinStep(c, s, pin, received)
    case WritePortCall(data) => (WritePortStep(c, s, data), 0)
    case WritePinCall(pin, level) => (WritePinStep(c, s, pin, level), 0)
    case EndCall => (EndStep(s), 0)
  }

  /** The state after a sequence of calls and the byte each call returned. */
  function Run(c: Config, s: State, calls: seq<Call>): (r: (State, seq<bv8>))
    decreases calls
    ensures |r.1| == |calls|
  {
    if calls == [] then (s, [])
    else
      var first := Apply(c, s, calls[0]);
      var rest := Run(c, first.0, calls[1..]);
      (rest.0, [first.1] + rest.1)
  }

  /** The bus calls an off handle may still make: those of the address-only probe. */
  predicate ProbeTraffic(c: Config, b: BusCall)
  {
    b == BeginTx(c.address) || b == EndTx
  }

  /** While the handle is off and begin is not called, no call changes a
      shadow byte or the connected flag, nothing but address-only probes
      reaches the bus, and every call other than isConnected returns 0. */
  lemma {:induction false} InertWhileOff(c: Config, s: State, calls: seq<Call>)
    requires !s.isOn
    requires forall k :: 0 <= k < |calls| ==> !calls[k].BeginCall?
    decreases calls
    ensures var r := Run(c, s, calls);
            r.0.(bus := s.bus) == s &&
            |s.bus| <= |r.0.bus| && r.0.bus[..|s.bus|] == s.bus &&
            (forall k :: |s.bus| <= k < |r.0.bus| ==> ProbeTraffic(c, r.0.bus[k])) &&
            (forall k :: 0 <= k < |calls| && !calls[k].IsConnectedCall? ==> r.1[k] == 0)
  {
    if calls != [] {
      var t := Apply(c, s, calls[0]).0;
      ApplyWhileOff(c, s, calls[0]);
      InertWhileOff(c, t, calls[1..]);
      var rest := Run(c, t, calls[1..]);
      assert rest.0.bus[..|t.bus|] == t.bus;
      assert forall k :: |s.bus| <= k < |t.bus| ==> rest.0.bus[k] == t.bus[k];
      forall k | 1 <= k < |calls| && !calls[k].IsConnectedCall?
        ensures Run(c, s, calls).1[k] == 0
      {
        assert calls[1..][k - 1] == calls[k];
      }
    }
  }

  /** One call of that sequence. */
  lemma ApplyWhileOff(c: Config, s: State, call: Call)
    requires !s.isOn && !call.BeginCall?
    ensures var r := Apply(c, s, call);
            r.0.(bus := s.bus) == s &&
            |s.bus| <= |r.0.bus| && r.0.bus[..|s.bus|] == s.bus &&
            (forall k :: |s.bus| <= k < |r.0.bus| ==> ProbeTraffic(c, r.0.bus[k])) &&
            (!call.IsConnectedCall? ==> r.1 == 0)
  {
    if call.IsConnectedCall? {
      var t := Apply(c, s, call).0;
      assert t.bus == s.bus + [BeginTx(c.address), EndTx];
    }
  }
}
