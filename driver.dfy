/**
 * The driver class of PCF8574.cpp. The source has two classes, PCF8574 and
 * PCF8574A, that differ only in the address window their guards accept; here
 * one class carries that window as the constants `lo` and `hi`.
 *
 * Every method updates the fields in place as the source does, and its
 * contract says that the new state (and the value returned) is what the
 * matching `...Step` function of module DriverSpec gives for the old state.
 */
module Driver {
  import opened Header
  import opened Bits
  import opened DriverSpec

  class Expander {
    const lo: bv8
    const hi: bv8
    const address: bv8
    var isOn: bool
    var direction: bv8
    var input: bv8
    var output: bv8
    /** Every call made into the bus library so far. */
    ghost var bus: seq<BusCall>

    function Settings(): Config
    {
      Config(lo, hi, address)
    }

    ghost function Snapshot(): State
      reads this
    {
      State(isOn, direction, output, input, bus)
    }

    /** The constructor stores the address and nothing else; the other fields
        start at zero, as in an object of static storage duration. */
    constructor (v: Variant, address: bv8)
      ensures Settings() == ConfigFor(v, address)
      ensures Snapshot() == State(false, 0, 0, 0, [])
    {
      lo, hi := WindowLo(v), WindowHi(v);
      this.address := address;
      isOn, direction, input, output := false, 0, 0, 0;
      bus := [];
    }

    /** begin() */
    method Begin(ack: bool) returns (ok: bool)
      modifies this
      ensures (Snapshot(), ok) == BeginStep(Settings(), old(Snapshot()), ack)
    {
      if isOn {
        return false;
      }
      if address < lo || address > hi {
        return false;
      }
      bus := bus + [Open];
      isOn := IsConnected(ack);
      if isOn {
        ghost var start := Snapshot();
        var i: bv8 := 0;
        while i < 8
          invariant i <= 8
          invariant Snapshot() == ConfigureInputs(Settings(), start, i)
        {
          PinMode(i, Input);
          i := i + 1;
        }
      }
      ok := isOn;
    }

    /** isConnected(): `ack` is whether the chip acknowledged its address. */
    method IsConnected(ack: bool) returns (state: bool)
      modifies this`bus
      ensures (Snapshot(), state) == IsConnectedStep(Settings(), old(Snapshot()), ack)
    {
      bus := bus + Probe(address);
      state := ack;
    }

    /** pinMode(pin, mode) */
    method PinMode(pin: bv8, mode: Mode)
      modifies this
      ensures Snapshot() == PinModeStep(Settings(), old(Snapshot()), pin, mode)
    {
      ghost var before := Snapshot();
      if !isOn {
        return;
      }
      if address < lo || address > hi {
        return;
      }
      if pin > 7 {
        return;
      }
      assert Active(Settings(), before);
      PinModeActive(Settings(), before, pin, mode);
      match mode {
        case Output => direction := ClearBit(direction, pin);
        case Input => direction := SetBit(direction, pin);
        case OtherMode =>
      }
      assert direction == ModeDirection(before.direction, pin, mode);
      WritePort(direction);
    }

    /** read(): `received` is the byte delivered by the one-byte request, or
        None when the request did not deliver exactly one byte. */
    method ReadPort(received: Option<bv8>) returns (data: bv8)
      modifies this
      ensures (Snapshot(), data) == ReadPortStep(Settings(), old(Snapshot()), received)
    {
      if !isOn {
        return 0;
      }
      if address < lo || address > hi {
        return 0;
      }
      if received.None? {
        bus := bus + [RequestFrom(address, 1)];
        return 0;
      }
      input := received.value;
      bus := bus + [RequestFrom(address, 1), ReadByte, EndTx];
      return input;
    }

    /** write(data) */
    method WritePort(data: bv8)
      modifies this
      ensures Snapshot() == WritePortStep(Settings(), old(Snapshot()), data)
    {
      if !isOn {
        return;
      }
      if address < lo || address > hi {
        return;
      }
      output := data;
      bus := bus + PortWrite(address, output);
    }

    /** read(pin) */
    method ReadPin(pin: bv8, received: Option<bv8>) returns (level: bv8)
      modifies this
      ensures (Snapshot(), level) == ReadPinStep(Settings(), old(Snapshot()), pin, received)
    {
      if !isOn {
        return 0;
      }
      if address < lo || address > hi {
        return 0;
      }
      if pin > 7 {
        return 0;
      }
      var _ := ReadPort(received);
      return (input >> pin) & 1;
    }

    /** write(pin, state) */
    method WritePin(pin: bv8, state: bv8)
      modifies this
      ensures Snapshot() == WritePinStep(Settings(), old(Snapshot()), pin, state)
    {
      ghost var before := Snapshot();
      if !isOn {
        return;
      }
      if address < lo || address > hi {
        return;
      }
      if pin > 7 {
        return;
      }
      assert Active(Settings(), before);
      WritePinActive(Settings(), before, pin, state);
      if state == LOW {
        output := ClearBit(output, pin);
      } else if state == HIGH {
        output := SetBit(output, pin);
      } else if state == TOGGLE {
        output := FlipBit(output, pin);
      }
      assert output == LevelOutput(before.output, pin, state);
      WritePort(output);
    }

    /** end() */
    method End()
      modifies this`isOn
      ensures Snapshot() == EndStep(old(Snapshot()))
    {
      isOn := false;
    }
  }
}
