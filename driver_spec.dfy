/**
 * The behaviour of the PCF8574 / PCF8574A driver (PCF8574.cpp) as pure
 * functions on its state. Each public operation of the driver is one
 * `...Step` function from the state before the call to the state after it
 * (and, for the operations that return a value, that value). The class in
 * module Driver is proved to implement exactly these functions.
 *
 * The two-wire bus library is not modelled: what it answers (the probe's
 * acknowledgement, the byte a read request delivers) is a parameter, and what
 * the driver asks of it is appended to the transcript `bus`.
 */
module DriverSpec {
  import opened Bits
  import opened Header

  datatype Option<T> = None | Some(value: T)

  /** The mode argument of pinMode: INPUT, OUTPUT, or any other code. */
  datatype Mode = Input | Output | OtherMode

  /** One call the driver makes into the bus library. */
  datatype BusCall =
    | Open                                // twi->begin()
    | BeginTx(addr: bv8)                  // twi->beginTransmission(addr)
    | WriteByte(data: bv8)                // twi->write(data)
    | EndTx                               // twi->endTransmission()
    | RequestFrom(addr: bv8, count: bv8)  // twi->requestFrom(addr, count)
    | ReadByte                            // twi->read()

  /** The address-only transaction that probes for the chip. */
  function Probe(addr: bv8): seq<BusCall>
  {
    [BeginTx(addr), EndTx]
  }

  /** The one-byte transaction that drives all eight pins. */
  function PortWrite(addr: bv8, data: bv8): seq<BusCall>
  {
    [BeginTx(addr), WriteByte(data), EndTx]
  }

  /** What a handle is created with: the accepted address window and its address. */
  datatype Config = Config(lo: bv8, hi: bv8, address: bv8)

  function ConfigFor(v: Variant, address: bv8): Config
  {
    Config(WindowLo(v), WindowHi(v), address)
  }

  /** The driver's mutable state: the connected flag, the three shadow bytes
      and the transcript of bus calls made so far. */
  datatype State = State(isOn: bool, direction: bv8, output: bv8, input: bv8, bus: seq<BusCall>)

  /** The guard every operation but begin, isConnected and end starts with. */
  predicate Active(c: Config, s: State)
  {
    s.isOn && ValidAddr(c.lo, c.hi, c.address)
  }

  // ---------------------------------------------------------------------------
  // Port-level operations

  /** write(data) */
  function WritePortStep(c: Config, s: State, data: bv8): (t: State)
    ensures !Active(c, s) ==> t == s
    ensures Active(c, s) ==> t.output == data && t.bus == s.bus + PortWrite(c.address, data)
    ensures t.isOn == s.isOn && t.direction == s.direction && t.input == s.input
  {
    if !s.isOn then s
    else if !ValidAddr(c.lo, c.hi, c.address) then s
    else s.(output := data, bus := s.bus + PortWrite(c.address, data))
  }

  /** read(): `received` is the byte the one-byte request delivered, or None
      when the request did not return exactly one byte. */
  function ReadPortStep(c: Config, s: State, received: Option<bv8>): (r: (State, bv8))
    ensures !Active(c, s) ==> r == (s, 0)
    ensures Active(c, s) && received.None? ==>
              r == (s.(bus := s.bus + [RequestFrom(c.address, 1)]), 0)
    ensures Active(c, s) && received.Some? ==>
              r.1 == received.value && r.0.input == received.value &&
              r.0.bus == s.bus + [RequestFrom(c.address, 1), ReadByte, EndTx]
    ensures r.0.isOn == s.isOn && r.0.direction == s.direction && r.0.output == s.output
  {
    if !s.isOn then (s, 0)
    else if !ValidAddr(c.lo, c.hi, c.address) then (s, 0)
    else match received
      case None => (s.(bus := s.bus + [RequestFrom(c.address, 1)]), 0)
      case Some(b) =>
        (s.(input := b, bus := s.bus + [RequestFrom(c.address, 1), ReadByte, EndTx]), b)
  }

  // ---------------------------------------------------------------------------
  // Pin-level operations

  /** pinMode(pin, mode): INPUT sets bit `pin` of the direction mask, OUTPUT
      clears it, then the mask itself is written to the port. */
  function PinModeStep(c: Config, s: State, pin: bv8, mode: Mode): (t: State)
    ensures !Active(c, s) || pin > 7 ==> t == s
    ensures Active(c, s) && pin <= 7 ==>
              (forall i: bv8 :: i < 8 && i != pin ==> Bit(t.direction, i) == Bit(s.direction, i)) &&
              (mode == Input ==> Bit(t.direction, pin) == 1) &&
              (mode == Output ==> Bit(t.direction, pin) == 0) &&
              (mode == OtherMode ==> t.direction == s.direction) &&
              t.output == t.direction &&
              t.bus == s.bus + PortWrite(c.address, t.direction)
    ensures t.isOn == s.isOn && t.input == s.input
  {
    if !s.isOn then s
    else if !ValidAddr(c.lo, c.hi, c.address) then s
    else if pin > 7 then s
    else
      var d := ModeDirection(s.direction, pin, mode);
      WritePortStep(c, s.(direction := d), d)
  }

  /** On an active handle and a valid pin, pinMode is the mode switch
      followed by write(data) of the new direction mask. */
  lemma PinModeActive(c: Config, s: State, pin: bv8, mode: Mode)
    requires Active(c, s) && pin < 8
    ensures PinModeStep(c, s, pin, mode) ==
            WritePortStep(c, s.(direction := ModeDirection(s.direction, pin, mode)), ModeDirection(s.direction, pin, mode))
  {
  }

  /** The direction mask after the switch of pinMode. */
  function ModeDirection(d: bv8, pin: bv8, mode: Mode): (r: bv8)
    requires pin < 8
    ensures forall i: bv8 :: i < 8 && i != pin ==> Bit(r, i) == Bit(d, i)
    ensures mode == Input ==> Bit(r, pin) == 1
    ensures mode == Output ==> Bit(r, pin) == 0
    ensures mode == OtherMode ==> r == d
  {
    match mode
    case Output => ClearBit(d, pin)
    case Input => SetBit(d, pin)
    case OtherMode => d
  }

  /** read(pin): one port read, then bit `pin` of the input byte. */
  function ReadPinStep(c: Config, s: State, pin: bv8, received: Option<bv8>): (r: (State, bv8))
    ensures r.1 == 0 || r.1 == 1
    ensures !Active(c, s) || pin > 7 ==> r == (s, 0)
    ensures Active(c, s) && pin <= 7 ==>
              r.0 == ReadPortStep(c, s, received).0 &&
              r.1 == Bit(if received.Some? then received.value else s.input, pin)
  {
    if !s.isOn then (s, 0)
    else if !ValidAddr(c.lo, c.hi, c.address) then (s, 0)
    else if pin > 7 then (s, 0)
    else
      var t := ReadPortStep(c, s, received).0;
      (t, Bit(t.input, pin))
  }

  /** write(pin, state): LOW clears bit `pin` of the output byte, HIGH sets
      it, TOGGLE inverts it, any other value leaves it; then the output byte
      is written to the port in every case. */
  function WritePinStep(c: Config, s: State, pin: bv8, state: bv8): (t: State)
    ensures !Active(c, s) || pin > 7 ==> t == s
    ensures Active(c, s) && pin <= 7 ==>
              (forall i: bv8 :: i < 8 && i != pin ==> Bit(t.output, i) == Bit(s.output, i)) &&
              (state == LOW ==> Bit(t.output, pin) == 0) &&
              (state == HIGH ==> Bit(t.output, pin) == 1) &&
              (state == TOGGLE ==> Bit(t.output, pin) == 1 - Bit(s.output, pin)) &&
              (state != LOW && state != HIGH && state != TOGGLE ==> t.output == s.output) &&
              t.bus == s.bus + PortWrite(c.address, t.output)
    ensures t.isOn == s.isOn && t.direction == s.direction && t.input == s.input
  {
    if !s.isOn then s
    else if !ValidAddr(c.lo, c.hi, c.address) then s
    else if pin > 7 then s
    else
      var o := LevelOutput(s.output, pin, state);
      WritePortStep(c, s.(output := o), o)
  }

  /** On an active handle and a valid pin, write(pin, state) is the level
      switch followed by write(data) of the new output byte. */
  lemma WritePinActive(c: Config, s: State, pin: bv8, state: bv8)
    requires Active(c, s) && pin < 8
    ensures WritePinStep(c, s, pin, state) ==
            WritePortStep(c, s.(output := LevelOutput(s.output, pin, state)), LevelOutput(s.output, pin, state))
  {
  }

  /** The output byte after the switch of write(pin, state). */
  function LevelOutput(o: bv8, pin: bv8, state: bv8): (r: bv8)
    requires pin < 8
    ensures forall i: bv8 :: i < 8 && i != pin ==> Bit(r, i) == Bit(o, i)
    ensures state == LOW ==> Bit(r, pin) == 0
    ensures state == HIGH ==> Bit(r, pin) == 1
    ensures state == TOGGLE ==> Bit(r, pin) == 1 - Bit(o, pin)
    ensures state != LOW && state != HIGH && state != TOGGLE ==> r == o
  {
    if state == LOW then ClearBit(o, pin)
    else if state == HIGH then SetBit(o, pin)
    else if state == TOGGLE then FlipBit(o, pin)
    else o
  }

  // ---------------------------------------------------------------------------
  // Lifecycle

  /** isConnected(): an address-only probe; the answer is the acknowledgement. */
  function IsConnectedStep(c: Config, s: State, ack: bool): (r: (State, bool))
    ensures r.1 == ack
    ensures r.0.isOn == s.isOn && r.0.direction == s.direction &&
            r.0.output == s.output && r.0.input == s.input
    ensures r.0.bus == s.bus + Probe(c.address)
  {
    (s.(bus := s.bus + Probe(c.address)), ack)
  }

  /** The set-up loop of begin: pinMode(i, INPUT) for i = 0 .. n-1. */
  function ConfigureInputs(c: Config, s: State, n: bv8): State
    requires n <= 8
    decreases n
  {
    if n == 0 then s else PinModeStep(c, ConfigureInputs(c, s, n - 1), n - 1, Input)
  }

  /** The port writes of the first n iterations of that loop, starting from
      direction mask d: iteration i writes d with bits 0..i set. */
  function InputWrites(addr: bv8, d: bv8, n: bv8): seq<BusCall>
    requires n <= 8
    decreases n
  {
    if n == 0 then [] else InputWrites(addr, d, n - 1) + PortWrite(addr, d | LowBits(n))
  }

  /** After n iterations of the set-up loop the handle is still on, bits
      0..n-1 of the direction mask are set, the others are as they were, and
      the output byte is the last mask written. */
  lemma {:induction false} ConfigureDirection(c: Config, s: State, n: bv8)
    requires Active(c, s) && n <= 8
    decreases n
    ensures var t := ConfigureInputs(c, s, n);
            t.isOn && t.input == s.input &&
            t.direction == s.direction | LowBits(n) &&
            t.output == (if n == 0 then s.output else t.direction)
  {
    if n > 0 {
      ConfigureDirection(c, s, n - 1);
      var u := ConfigureInputs(c, s, n - 1);
      InputSetsBit(c, u, n - 1);
      LowBitsStep(n);
      SetBitOr(s.direction, LowBits(n - 1), n - 1);
    }
  }

  /** Each iteration of the set-up loop made exactly one port write, carrying
      the direction mask as it stood after that iteration. */
  lemma {:induction false} ConfigureBus(c: Config, s: State, n: bv8)
    requires Active(c, s) && n <= 8
    decreases n
    ensures ConfigureInputs(c, s, n).bus == s.bus + InputWrites(c.address, s.direction, n)
  {
    if n > 0 {
      ConfigureBusStep(c, s, n);
      ConfigureBus(c, s, n - 1);
      InputWritesStep(c.address, s.direction, n);
      SeqAssoc(s.bus, InputWrites(c.address, s.direction, n - 1), PortWrite(c.address, s.direction | LowBits(n)));
    }
  }

  // Single steps of the two proofs above, kept apart so that each proof
  // obligation stays small.

  lemma ConfigureBusStep(c: Config, s: State, n: bv8)
    requires Active(c, s) && 0 < n <= 8
    ensures ConfigureInputs(c, s, n).bus ==
            ConfigureInputs(c, s, n - 1).bus + PortWrite(c.address, s.direction | LowBits(n))
  {
    ConfigureDirection(c, s, n - 1);
    ConfigureDirection(c, s, n);
    InputSetsBit(c, ConfigureInputs(c, s, n - 1), n - 1);
  }

  lemma InputWritesStep(addr: bv8, d: bv8, n: bv8)
    requires 0 < n <= 8
    ensures InputWrites(addr, d, n) == InputWrites(addr, d, n - 1) + PortWrite(addr, d | LowBits(n))
  {
  }

  lemma SeqAssoc<T>(a: seq<T>, b: seq<T>, c: seq<T>)
    ensures (a + b) + c == a + (b + c)
  {
  }

  lemma InputSetsBit(c: Config, u: State, pin: bv8)
    requires Active(c, u) && pin < 8
    ensures PinModeStep(c, u, pin, Input) ==
            u.(direction := SetBit(u.direction, pin), output := SetBit(u.direction, pin),
               bus := u.bus + PortWrite(c.address, SetBit(u.direction, pin)))
  {
  }

  lemma LowBitsStep(n: bv8)
    requires 0 < n <= 8
    ensures LowBits(n) == LowBits(n - 1) | Mask(n - 1)
  {
  }

  lemma SetBitOr(a: bv8, b: bv8, pin: bv8)
    requires pin < 8
    ensures SetBit(a | b, pin) == a | (b | Mask(pin))
  {
  }

  /** begin(): refused while already on or when the address is outside the
      window; otherwise opens the bus, probes, and on acknowledgement turns the
      handle on and configures all eight pins as inputs. */
  function BeginStep(c: Config, s: State, ack: bool): (r: (State, bool))
    ensures s.isOn || !ValidAddr(c.lo, c.hi, c.address) ==> r == (s, false)
    ensures !s.isOn && ValidAddr(c.lo, c.hi, c.address) ==>
              r.1 == ack && r.0.isOn == ack && r.0.input == s.input
    ensures !s.isOn && ValidAddr(c.lo, c.hi, c.address) && ack ==>
              r.0.direction == 0xFF && r.0.output == 0xFF &&
              r.0.bus == s.bus + [Open] + Probe(c.address) + InputWrites(c.address, s.direction, 8)
    ensures !s.isOn && ValidAddr(c.lo, c.hi, c.address) && !ack ==>
              r.0 == s.(bus := s.bus + [Open] + Probe(c.address))
  {
    if s.isOn then (s, false)
    else if !ValidAddr(c.lo, c.hi, c.address) then (s, false)
    else
      var probed := IsConnectedStep(c, s.(bus := s.bus + [Open]), ack);
      var t := probed.0.(isOn := probed.1);
      if t.isOn then
        ConfigureDirection(c, t, 8);
        ConfigureBus(c, t, 8);
        AllLowBits();
        (ConfigureInputs(c, t, 8), true)
      else (t, false)
  }

  /** end(): clears the connected flag and nothing else. */
  function EndStep(s: State): (t: State)
    ensures !t.isOn
    ensures t.direction == s.direction && t.output == s.output &&
            t.input == s.input && t.bus == s.bus
  {
    s.(isOn := false)
  }
}
