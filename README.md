# PCF8574 / PCF8574A I/O-expander driver, modelled in Dafny

The driver controls an 8-bit quasi-bidirectional I/O expander over a
two-wire (I2C) bus. A handle owns a 7-bit device address, a connected flag
`isOn` and three shadow bytes: `direction` (bit i = 1 means pin i is an
input), `output` (the last byte written to the port) and `input` (the last
byte read from it). Its public operations are `begin`, `isConnected`,
`pinMode`, `read()`, `read(pin)`, `write(data)`, `write(pin, state)` and
`end`. Each of them except `begin`, `isConnected` and `end` does nothing
unless the handle is on and its address is inside the chip's window. The
pin operations also do nothing when the pin number is above 7.

The source has two classes, `PCF8574` and `PCF8574A`, which are line for
line the same except for the address window: 0x20..0x27 and 0x38..0x3F.
The model has one class, `Driver.Expander`, whose window is the pair of
constants `lo` and `hi`, chosen from the variant when the handle is made.
Rows below cite the `PCF8574` copy of each function. The `PCF8574A` copy
is at PCF8574.cpp:85-97 (`begin`), 124-135, 166-181, 208-219, 245-255,
281-291, 323-339 and 358-361.

Files:

- `bits.dfy` (module `Bits`): the bit operations the driver performs on a
  byte (`(b >> i) & 1`, `1 << pin`, `|=`, `&= ~`, `^=`), stated bit by bit.
- `header.dfy` (module `Header`): what PCF8574.h declares. It holds the
  `LOW`/`HIGH`/`TOGGLE` levels, the two variants and the address tables
  behind the windows.
- `driver_spec.dfy` (module `DriverSpec`): the driver as pure functions.
  There is one `...Step` function per public operation, from the state
  before a call to the state after it and the value returned. The state
  includes a transcript of the calls made into the bus library.
- `driver.dfy` (module `Driver`): the class itself. Its methods update the
  fields in place, as the source does. `Begin` keeps the source's 8-step
  loop of `pinMode(i, INPUT)` calls. Each method is proved to produce
  exactly the state its `...Step` function gives.
- `driver_properties.dfy` (module `DriverProperties`): properties that
  relate several calls. It also has an interpreter `Run` for sequences of
  calls.

The bus library is an outside collaborator. What it answers is passed in
as a parameter: `ack` for the probe's acknowledgement, and `received` for
the read request. `received` is `Some(b)` when the request delivered
exactly one byte and `None` otherwise. What the driver asks of the bus is
appended to a ghost transcript `bus` of `BusCall`s: `Open`, `BeginTx(addr)`,
`WriteByte(b)`, `EndTx`, `RequestFrom(addr, n)` and `ReadByte`.

The constructor stores the address only. The source leaves `isOn` and the
shadow bytes uninitialised. The model starts them at zero, as for an
object of static storage duration, which is how the repository's example
program declares its handle.

Where the code and other descriptions of this driver disagree, the model
follows the code:

- pin numbers above 7 are rejected, not reduced modulo 8 (`PinsAreNotWrapped`);
- `begin` leaves `output` at 0xFF, not 0x00. Each of the eight
  `pinMode(i, INPUT)` calls writes the direction mask to the port
  (`BeginStep`, `BeginExamples`);
- `end` only clears `isOn`, and the shadow bytes keep their values (`EndStep`);
- a failed `read()` returns 0, not the cached byte. It leaves `input`
  unchanged and makes no `endTransmission` call (`ReadPortStep`). A failed
  read inside `read(pin)` therefore yields the bit of the previous `input`
  (`ReadPinStep`);
- `write(pin, state)` with an unknown `state` still writes the unchanged
  output byte, and it reports nothing (`WritePinStep`).

## Model

| member | source | states |
|---|---|---|
| `Bits.Bit` | PCF8574.cpp:272 | the pin value `(b >> i) & 1` that `read(pin)` returns is always 0 or 1 |
| `Bits.Mask` | PCF8574.cpp:153-154 | `1 << pin` has bit `pin` set and every other bit clear |
| `Bits.MaskFitsByte` | PCF8574.h:72-73 | for pin ≤ 7 the integer `1 << pin` is 2^pin < 256, so storing it in a `uint8_t` field loses nothing |
| `Bits.SetBit` | PCF8574.cpp:154 | the OR with `1 << pin` sets bit `pin` and keeps every other bit |
| `Bits.ClearBit` | PCF8574.cpp:153 | `b & ~(1 << pin)` clears bit `pin` and keeps every other bit |
| `Bits.FlipBit` | PCF8574.cpp:311 | `b ^ (1 << pin)` inverts bit `pin` and keeps every other bit |
| `Bits.FlipBitTwice` | PCF8574.cpp:311 | inverting the same bit twice restores the byte |
| `Bits.SetThenClear` | PCF8574.cpp:153-154 | setting then clearing bit `pin` equals just clearing it |
| `Bits.LowBits` | PCF8574.cpp:74-75 | setting bits 0..n-1 one at a time gives the byte whose bit i is 1 exactly when i < n |
| `Bits.AllLowBits` | PCF8574.cpp:74-75 | after the eight iterations of `begin`'s loop, all eight bits are set: 0xFF |
| `Header.LevelsDistinct` | PCF8574.h:39-47 | LOW, HIGH and TOGGLE are distinct, so at most one case of the pin-write switch applies |
| `Header.TableAddress` | PCF8574.h:6-28 | each address-table row (base plus the A2A1A0 value) passes the driver's address guard, and the address minus the base gives back the inputs |
| `Header.WindowIsTable` | PCF8574.h:6-28 | the guard at PCF8574.cpp:69 (and :89 for PCF8574A) accepts an address exactly when it is a row of the variant's address table |
| `Header.WindowsDisjoint` | PCF8574.h:6-28 | no address is valid for both PCF8574 and PCF8574A |
| `DriverSpec.WritePortStep` | PCF8574.cpp:227-237 | `write(data)`: when off or out of window, nothing changes. Otherwise `output` becomes `data` whatever the bus answers, and exactly one transaction carrying `data` is made. Other fields are unchanged |
| `DriverSpec.ReadPortStep` | PCF8574.cpp:189-200 | `read()`: when off or out of window, it returns 0 and changes nothing. On a failed request it returns 0, leaves `input`, and makes only the request. On success `input` and the result are the received byte, followed by read and end calls |
| `DriverSpec.ModeDirection` | PCF8574.cpp:151-156 | the mode switch: INPUT sets bit `pin`, OUTPUT clears it, any other mode leaves the mask, and other bits are kept |
| `DriverSpec.PinModeStep` | PCF8574.cpp:143-158 | `pinMode`: when off, out of window or pin > 7, nothing changes. Otherwise only bit `pin` of `direction` is set (INPUT) or cleared (OUTPUT), or nothing changes (other modes). The mask itself is then written to the port as `output` in one transaction |
| `DriverSpec.ReadPinStep` | PCF8574.cpp:263-273 | `read(pin)`: the result is 0 or 1. When off, out of window or pin > 7 it is 0 and nothing changes. Otherwise it does one port read and returns bit `pin` of the received byte, or of the previous `input` when the read failed |
| `DriverSpec.WritePinStep` | PCF8574.cpp:299-315 | `write(pin, state)`: when off, out of window or pin > 7, nothing changes. Otherwise LOW clears bit `pin` of `output`, HIGH sets it, TOGGLE inverts it, and other values leave `output`; the other bits are kept. One port write of `output` follows in every case |
| `DriverSpec.LevelOutput` | PCF8574.cpp:307-313 | the level switch: LOW clears bit `pin`, HIGH sets it, TOGGLE inverts it, any other value leaves the byte, and other bits are kept |
| `DriverSpec.IsConnectedStep` | PCF8574.cpp:105-116 | `isConnected`: the answer is the acknowledgement. No shadow field changes, and only an address-only probe transaction is made |
| `DriverSpec.ConfigureDirection` | PCF8574.cpp:73-75 | after n iterations of `begin`'s `pinMode(i, INPUT)` loop, the handle is still on. Bits 0..n-1 of `direction` are set and the others are kept, `output` equals the last mask written, and `input` is unchanged |
| `DriverSpec.ConfigureBus` | PCF8574.cpp:73-75 | iteration i of that loop makes exactly one port write, carrying the direction mask with bits 0..i set |
| `DriverSpec.BeginStep` | PCF8574.cpp:65-77 | `begin`: when already on or out of window, it returns false with no change and no bus activity. Otherwise it opens the bus, probes, and returns the acknowledgement as the new `isOn`. On acknowledgement `direction` and `output` end at 0xFF after eight port writes. On failure no pin is configured |
| `DriverSpec.EndStep` | PCF8574.cpp:347-350 | `end` clears `isOn` and keeps `direction`, `output`, `input` and the transcript |
| `Driver.Expander.constructor` | PCF8574.cpp:9-17 | the handle gets the variant's window and the given address, is off, and has made no bus call |
| `Driver.Expander.Begin` | PCF8574.cpp:65-77 | the in-place `begin`, with its loop over the eight pins, ends in the state and result that `BeginStep` gives |
| `Driver.Expander.IsConnected` | PCF8574.cpp:105-116 | the in-place `isConnected` changes only the transcript, as `IsConnectedStep` gives |
| `Driver.Expander.PinMode` | PCF8574.cpp:143-158 | the in-place `pinMode` ends in the state `PinModeStep` gives |
| `Driver.Expander.ReadPort` | PCF8574.cpp:189-200 | the in-place `read()` ends in the state and result `ReadPortStep` gives |
| `Driver.Expander.WritePort` | PCF8574.cpp:227-237 | the in-place `write(data)` ends in the state `WritePortStep` gives |
| `Driver.Expander.ReadPin` | PCF8574.cpp:263-273 | the in-place `read(pin)` ends in the state and result `ReadPinStep` gives |
| `Driver.Expander.WritePin` | PCF8574.cpp:299-315 | the in-place `write(pin, state)` ends in the state `WritePinStep` gives |
| `Driver.Expander.End` | PCF8574.cpp:347-350 | the in-place `end` changes only `isOn`, as `EndStep` gives |
| `DriverProperties.InputThenOutput` | PCF8574.cpp:151-157 | `pinMode(p, INPUT)` then `pinMode(p, OUTPUT)` leaves bit p of `direction` at 0 and the other bits as before, with one port write per call |
| `DriverProperties.ToggleTwice` | PCF8574.cpp:307-314 | two `write(p, TOGGLE)` calls restore `output` and every other shadow field, after two port writes |
| `DriverProperties.PinsAreNotWrapped` | PCF8574.cpp:299-306 | pin 8 is rejected, not wrapped to pin 0: `write(8, HIGH)`, `pinMode(8, …)` and `read(8)` change nothing, while `write(0, HIGH)` on an active handle does |
| `DriverProperties.WritePinHighExample` | PCF8574.cpp:310 | `write(3, HIGH)` on an output byte of 0 gives 0x08, with exactly one port write |
| `DriverProperties.BeginExamples` | PCF8574.cpp:69-76 | a PCF8574 at 0x19 fails to begin and stays off. At 0x20 with an acknowledged probe it begins with `direction` and `output` at 0xFF |
| `DriverProperties.BeginOnlyOnce` | PCF8574.cpp:67-68 | after a successful `begin`, a second `begin` returns false and changes nothing |
| `DriverProperties.EndThenBegin` | PCF8574.cpp:349 | after `end`, `begin` runs again and returns the new probe's answer. On a failed probe the shadow bytes are still those from before `end` |
| `DriverProperties.InertWhileOff` | PCF8574.cpp:143-315 | on an off handle, any sequence of calls without `begin` changes no shadow byte and not the flag. Only address-only probe calls reach the bus, and every call but `isConnected` returns 0 |

## Left out

- The two-wire bus library (`twi->begin`, `beginTransmission`, `write`,
  `endTransmission`, `requestFrom`, `read`) is not part of this model: its
  answers are parameters and its calls are recorded in the transcript.
- The `ARDUINO` / non-`ARDUINO` split in `isConnected` (PCF8574.cpp:107-115)
  is reduced to one boolean acknowledgement. Without `ARDUINO` the source
  returns the byte `beginTransmission` gives, and `begin` stores it in
  `isOn`. The model keeps only whether that byte is non-zero, which is all
  that later guards test.
- The values of `INPUT` and `OUTPUT` come from headers that are not part of
  this model. They are the two distinct modes `Input` and `Output`, plus
  `OtherMode` for every other code.
- The destructor's pointer bookkeeping (PCF8574.cpp:41-57) is left out:
  nothing can observe the handle after destruction.
- `Driver.Expander.constructor`: the source leaves `isOn`, `direction`,
  `input` and `output` uninitialised. The model fixes them at zero, so it
  does not cover a handle whose `isOn` starts non-zero.
- Concurrency and sharing one bus between several handles: the source has
  neither.
