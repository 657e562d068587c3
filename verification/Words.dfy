/** Machine words: bytes, 16-digit registers and the bitwise or of two nibbles. */
module Words {
  type Byte = x: int | 0 <= x < 0x100

  type Nibble = x: int | 0 <= x < 16

  type Digits = s: seq<Byte> | |s| == 16 witness seq(16, _ => 0)

  const ZERO_DIGITS: Digits := [0, 0, 0, 0, 0, 0, 0, 0, 0, 0, 0, 0, 0, 0, 0, 0]

  datatype Option<+T> = None | Some(value: T)

  /** Bitwise or, least significant bit first. */
  function Or(a: nat, b: nat): nat
    decreases a + b
  {
    if a == 0 then b
    else if b == 0 then a
    else (if a % 2 == 1 || b % 2 == 1 then 1 else 0) + 2 * Or(a / 2, b / 2)
  }

  /** Bitwise and. */
  function And(a: nat, b: nat): nat
    decreases a + b
  {
    if a == 0 || b == 0 then 0
    else (if a % 2 == 1 && b % 2 == 1 then 1 else 0) + 2 * And(a / 2, b / 2)
  }

  /** An or is a sum less the common bits. */
  lemma {:induction false} OrIsSumLessCommonBits(a: nat, b: nat)
    ensures Or(a, b) == a + b - And(a, b)
    ensures And(a, b) <= a && And(a, b) <= b
    decreases a + b
  {
    if a != 0 && b != 0 {
      OrIsSumLessCommonBits(a / 2, b / 2);
    }
  }

  /** An or of two numbers below a power of two stays below it. */
  lemma {:induction false} OrBelow(a: nat, b: nat, bits: nat)
    requires a < Pow2(bits) && b < Pow2(bits)
    ensures Or(a, b) < Pow2(bits)
  {
    if a != 0 && b != 0 {
      OrBelow(a / 2, b / 2, bits - 1);
    }
  }

  function Pow2(n: nat): nat {
    if n == 0 then 1 else 2 * Pow2(n - 1)
  }

  function OrByte(a: Byte, b: Byte): Byte {
    assert Pow2(4) == 16;
    assert Pow2(8) == 256;
    OrBelow(a, b, 8);
    Or(a, b)
  }
}
