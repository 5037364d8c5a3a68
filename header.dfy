/**
 * The declarations of PCF8574.h: the pin-level constants, the two chip
 * variants and the address windows their address tables define.
 */
module Header {

  /** Pin levels accepted by the pin-write operation. */
  const LOW: bv8 := 0
  const HIGH: bv8 := 1
  const TOGGLE: bv8 := 2

  /** The three pin levels are distinct, so at most one case of the pin-write
      switch applies to any level value. */
  lemma LevelsDistinct()
    ensures LOW != HIGH && HIGH != TOGGLE && LOW != TOGGLE
  {
  }

  /** The two chips the driver serves; they differ only in their address range. */
  datatype Variant = PCF8574 | PCF8574A

  /** Address of the chip when its A2A1A0 inputs are all low. */
  function Base(v: Variant): bv8
  {
    match v
    case PCF8574 => 0x20
    case PCF8574A => 0x38
  }

  /** Lowest and highest address the driver accepts for a variant. */
  function WindowLo(v: Variant): bv8
  {
    match v
    case PCF8574 => 0x20
    case PCF8574A => 0x38
  }

  function WindowHi(v: Variant): bv8
  {
    match v
    case PCF8574 => 0x27
    case PCF8574A => 0x3F
  }

  /** An address passes the driver's guard `address < lo || address > hi`
      exactly when this holds. */
  predicate ValidAddr(lo: bv8, hi: bv8, a: bv8)
  {
    !(a < lo || a > hi)
  }

  /** One row of the address table: the base address plus the 3-bit value on
      the A2A1A0 inputs. Every row is accepted by the driver's guard. */
  function TableAddress(v: Variant, inputs: bv8): (a: bv8)
    requires inputs < 8
    ensures ValidAddr(WindowLo(v), WindowHi(v), a)
    ensures a - Base(v) == inputs
  {
    Base(v) + inputs
  }

  /** The guard accepts exactly the eight addresses of the variant's table. */
  lemma WindowIsTable(v: Variant, a: bv8)
    ensures ValidAddr(WindowLo(v), WindowHi(v), a) <==>
            exists inputs: bv8 :: inputs < 8 && TableAddress(v, inputs) == a
  {
    if ValidAddr(WindowLo(v), WindowHi(v), a) {
      var inputs := a - Base(v);
      assert inputs < 8 && TableAddress(v, inputs) == a;
    }
  }

  /** No address is accepted for both variants. */
  lemma WindowsDisjoint(a: bv8)
    ensures !(ValidAddr(WindowLo(PCF8574), WindowHi(PCF8574), a) &&
              ValidAddr(WindowLo(PCF8574A), WindowHi(PCF8574A), a))
  {
  }
}
