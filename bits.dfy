/**
 * Bit operations on the driver's 8-bit shadow registers.
 *
 * Every shadow field of the driver is a `uint8_t`, modelled as `bv8`, so a
 * stored or returned value lies in 0..255 by construction. Pins are indices
 * 0..7 into such a byte; the driver masks them with `1 << pin`.
 */
module Bits {

  /** 2 to the power n, on unbounded integers. */
  function Pow2(n: nat): (p: nat)
    ensures p >= 1
  {
    if n == 0 then 1 else 2 * Pow2(n - 1)
  }

  /** Bit `i` of `b`, computed as the driver does it: `(b >> i) & 1`. */
  function Bit(b: bv8, i: bv8): (r: bv8)
    requires i < 8
    ensures r == 0 || r == 1
  {
    (b >> i) & 1
  }

  /** The one-bit mask `1 << pin`: bit `pin` and no other. */
  function Mask(pin: bv8): (m: bv8)
    requires pin < 8
    ensures forall i: bv8 :: i < 8 ==> Bit(m, i) == if i == pin then 1 else 0
  {
    (1 as bv8) << pin
  }

  /** The integer the C expression `1 << pin` computes is 2^pin, which fits in
      a byte, so storing it in a `uint8_t` loses nothing. */
  lemma MaskFitsByte(pin: bv8)
    requires pin < 8
    ensures Mask(pin) as int == Pow2(pin as nat) < 256
  {
    if pin == 0 {
    } else if pin == 1 {
    } else if pin == 2 {
    } else if pin == 3 {
      assert Pow2(3) == 8;
    } else if pin == 4 {
      assert Pow2(4) == 16;
    } else if pin == 5 {
      assert Pow2(5) == 32;
    } else if pin == 6 {
      assert Pow2(6) == 64;
    } else {
      assert Pow2(7) == 128;
    }
  }

  /** `b | (1 << pin)`: bit `pin` becomes 1, every other bit is kept. */
  function SetBit(b: bv8, pin: bv8): (r: bv8)
    requires pin < 8
    ensures forall i: bv8 :: i < 8 ==> Bit(r, i) == if i == pin then 1 else Bit(b, i)
  {
    b | Mask(pin)
  }

  /** `b & ~(1 << pin)`: bit `pin` becomes 0, every other bit is kept. */
  function ClearBit(b: bv8, pin: bv8): (r: bv8)
    requires pin < 8
    ensures forall i: bv8 :: i < 8 ==> Bit(r, i) == if i == pin then 0 else Bit(b, i)
  {
    b & !Mask(pin)
  }

  /** `b ^ (1 << pin)`: bit `pin` is inverted, every other bit is kept. */
  function FlipBit(b: bv8, pin: bv8): (r: bv8)
    requires pin < 8
    ensures forall i: bv8 :: i < 8 ==> Bit(r, i) == if i == pin then 1 - Bit(b, i) else Bit(b, i)
  {
    b ^ Mask(pin)
  }

  /** Two bytes that agree on all eight bits are equal. */
  lemma SameBits(a: bv8, b: bv8)
    requires forall i: bv8 :: i < 8 ==> Bit(a, i) == Bit(b, i)
    ensures a == b
  {
    assert Bit(a, 0) == Bit(b, 0) && Bit(a, 1) == Bit(b, 1);
    assert Bit(a, 2) == Bit(b, 2) && Bit(a, 3) == Bit(b, 3);
    assert Bit(a, 4) == Bit(b, 4) && Bit(a, 5) == Bit(b, 5);
    assert Bit(a, 6) == Bit(b, 6) && Bit(a, 7) == Bit(b, 7);
  }

  /** Inverting the same bit twice restores the byte. */
  lemma FlipBitTwice(b: bv8, pin: bv8)
    requires pin < 8
    ensures FlipBit(FlipBit(b, pin), pin) == b
  {
    SameBits(FlipBit(FlipBit(b, pin), pin), b);
  }

  /** Setting then clearing a bit is the same as clearing it. */
  lemma SetThenClear(b: bv8, pin: bv8)
    requires pin < 8
    ensures ClearBit(SetBit(b, pin), pin) == ClearBit(b, pin)
  {
    SameBits(ClearBit(SetBit(b, pin), pin), ClearBit(b, pin));
  }

  /** The byte whose bits 0..n-1 are 1 and whose other bits are 0, built as
      the driver's set-up loop builds it, one `SetBit` per pin. */
  function LowBits(n: bv8): (r: bv8)
    requires n <= 8
    decreases n
    ensures forall i: bv8 :: i < 8 ==> Bit(r, i) == if i < n then 1 else 0
  {
    if n == 0 then 0 else SetBit(LowBits(n - 1), n - 1)
  }

  /** All eight pins set gives 0xFF. */
  lemma AllLowBits()
    ensures LowBits(8) == 0xFF
  {
    SameBits(LowBits(8), 0xFF);
  }
}
