/** Words of sixteen bits, bit by bit, and the numbers they spell. */
module Bits {
  type Position = k: bv16 | k < 16

  /** Bit `k` of a word. */
  predicate On(x: bv16, k: Position) { (x >> k) & 1 == 1 }

  function Term(x: bv16, k: Position, weight: nat): nat { if On(x, k) then weight else 0 }

  /** The number a word spells in binary. */
  function Number(x: bv16): (n: nat)
    ensures n < 65536
  {
    Term(x, 0, 1) + Term(x, 1, 2) + Term(x, 2, 4) + Term(x, 3, 8)
    + Term(x, 4, 16) + Term(x, 5, 32) + Term(x, 6, 64) + Term(x, 7, 128)
    + Term(x, 8, 256) + Term(x, 9, 512) + Term(x, 10, 1024) + Term(x, 11, 2048)
    + Term(x, 12, 4096) + Term(x, 13, 8192) + Term(x, 14, 16384) + Term(x, 15, 32768)
  }

  // ---------------------------------------------------------------- sums

  function Plus(a: bv16, b: bv16): bv16 { a + b }

  function Minus(a: bv16, b: bv16): bv16 { a - b }

  function Either(a: bv16, b: bv16): bv16 { a ^ b }

  function Common(a: bv16, b: bv16): bv16 { a & b }

  function Twice(a: bv16): bv16 { a << 1 }

  lemma SumAndCarries(a: bv16, b: bv16)
    ensures Plus(a, b) == Plus(Either(a, b), Twice(Common(a, b)))
  {
    WordSum(a, b);
    assert Either(a, b) == a ^ b && Twice(Common(a, b)) == (a & b) << 1;
    hide Either, Common, Twice;
  }

  lemma WordSum(a: bv16, b: bv16)
    ensures a + b == (a ^ b) + ((a & b) << 1)
  {
  }

  lemma OnePlace(a: bv16, b: bv16, k: Position, w: nat)
    ensures Term(Either(a, b), k, w) + 2 * Term(Common(a, b), k, w) == Term(a, k, w) + Term(b, k, w)
  {
    XorBits(a, b, k);
    AndBits(a, b, k);
    hide On;
  }

  lemma XorAnd(a: bv16, b: bv16)
    ensures Number(Either(a, b)) + 2 * Number(Common(a, b)) == Number(a) + Number(b)
  {
    hide Term, Either, Common;
    OnePlace(a, b, 0, 1);
    OnePlace(a, b, 1, 2);
    OnePlace(a, b, 2, 4);
    OnePlace(a, b, 3, 8);
    OnePlace(a, b, 4, 16);
    OnePlace(a, b, 5, 32);
    OnePlace(a, b, 6, 64);
    OnePlace(a, b, 7, 128);
    OnePlace(a, b, 8, 256);
    OnePlace(a, b, 9, 512);
    OnePlace(a, b, 10, 1024);
    OnePlace(a, b, 11, 2048);
    OnePlace(a, b, 12, 4096);
    OnePlace(a, b, 13, 8192);
    OnePlace(a, b, 14, 16384);
    OnePlace(a, b, 15, 32768);
  }

  lemma UpOne(x: bv16, k: Position, w: nat)
    requires k < 15
    ensures Term(Twice(x), k + 1, 2 * w) == 2 * Term(x, k, w)
  {
    UpBits(x, 1, k + 1);
    hide On;
  }

  lemma NoLowest(x: bv16)
    ensures Term(Twice(x), 0, 1) == 0
  {
    UpBits(x, 1, 0);
    hide On;
  }

  lemma Doubled(x: bv16)
    ensures Number(Twice(x)) == 2 * Number(x) || Number(Twice(x)) + 65536 == 2 * Number(x)
  {
    Highest(x);
    NoLowest(x);
    hide Term, Twice;
    UpOne(x, 0, 1);
    UpOne(x, 1, 2);
    UpOne(x, 2, 4);
    UpOne(x, 3, 8);
    UpOne(x, 4, 16);
    UpOne(x, 5, 32);
    UpOne(x, 6, 64);
    UpOne(x, 7, 128);
    UpOne(x, 8, 256);
    UpOne(x, 9, 512);
    UpOne(x, 10, 1024);
    UpOne(x, 11, 2048);
    UpOne(x, 12, 4096);
    UpOne(x, 13, 8192);
    UpOne(x, 14, 16384);
  }

  lemma Highest(x: bv16)
    ensures Term(x, 15, 32768) == 0 || Term(x, 15, 32768) == 32768
  {
  }

  function LowOnes(n: nat): bv16 { if n == 0 then 0 else Twice(LowOnes(n - 1)) | 1 }

  predicate Without(x: bv16, low: bv16) { x & low == 0 }

  lemma Reduced(n: int, r: nat)
    requires r < 65536 && (n == r || n == r + 65536 || n == r - 65536)
    ensures n % 65536 == r
  {
  }

  lemma SameResidue(n: int, m: int)
    requires n == m || n == m + 65536
    ensures n % 65536 == m % 65536
  {
  }

  /** Carry after carry until there is none. */
  lemma {:induction false} CarriesRunOut(a: bv16, c: bv16, n: nat)
    requires n <= 16 && Without(c, LowOnes(n))
    ensures Number(Plus(a, c)) == (Number(a) + Number(c)) % 65536
    decreases 16 - n
  {
    hide *;
    if n == 16 {
      NothingAdded(a, c);
    } else {
      var sum, carries := Either(a, c), Twice(Common(a, c));
      SumAndCarries(a, c);
      OneMoreLow(a, c, n);
      CarriesRunOut(sum, carries, n + 1);
      XorAnd(a, c);
      Doubled(Common(a, c));
      SameResidue(Number(a) + Number(c), Number(sum) + Number(carries));
    }
  }

  lemma AllOnes()
    ensures LowOnes(16) == 0xFFFF
  {
    assert LowOnes(4) == 0x000F;
    assert LowOnes(8) == 0x00FF;
    assert LowOnes(12) == 0x0FFF;
  }

  lemma NothingAdded(a: bv16, c: bv16)
    requires Without(c, LowOnes(16))
    ensures Number(Plus(a, c)) == (Number(a) + Number(c)) % 65536
  {
    hide Number, Plus, LowOnes, Without;
    AllOnes();
    NothingIsZero(a, c);
    ZeroIsZero();
  }

  lemma NothingIsZero(a: bv16, c: bv16)
    requires Without(c, 0xFFFF)
    ensures c == 0 && Plus(a, c) == a
  {
  }

  lemma ZeroIsZero()
    ensures Number(0) == 0 && Number(1) == 1
  {
  }

  lemma OneMoreLow(a: bv16, c: bv16, n: nat)
    requires n < 16 && Without(c, LowOnes(n))
    ensures Without(Twice(Common(a, c)), LowOnes(n + 1))
  {
    hide Without, Twice, Common;
    ShiftedLow(a, c, LowOnes(n));
  }

  lemma ShiftedLow(a: bv16, c: bv16, low: bv16)
    requires Without(c, low)
    ensures Without(Twice(Common(a, c)), Twice(low) | 1)
  {
  }

  /** Words add as numbers, modulo 65536. */
  lemma NumberAdds(a: bv16, b: bv16)
    ensures Number(Plus(a, b)) == (Number(a) + Number(b)) % 65536
  {
    hide Number, Plus;
    assert Without(b, LowOnes(0));
    CarriesRunOut(a, b, 0);
  }

  lemma TakenBack(a: bv16, b: bv16)
    ensures Plus(Minus(a, b), b) == a
  {
    WordBack(a, b);
    assert Minus(a, b) == a - b;
    hide Minus;
  }

  lemma WordBack(a: bv16, b: bv16)
    ensures (a - b) + b == a
  {
  }

  lemma NumberSubtracts(a: bv16, b: bv16)
    ensures Number(Minus(a, b)) == (Number(a) - Number(b)) % 65536
  {
    hide *;
    var r := Minus(a, b);
    TakenBack(a, b);
    NumberAdds(r, b);
    Difference(Number(r), Number(b), Number(a));
  }

  lemma Difference(r: nat, b: nat, a: nat)
    requires r < 65536 && a == (r + b) % 65536 && b < 65536
    ensures r == (a - b) % 65536
  {
    Reduced(a - b, r);
  }

  // ---------------------------------------------------------------- bits of words put together

  lemma OrBits(a: bv16, b: bv16, k: Position)
    ensures On(a | b, k) <==> On(a, k) || On(b, k)
  {
  }

  lemma AndBits(a: bv16, b: bv16, k: Position)
    ensures On(a & b, k) <==> On(a, k) && On(b, k)
  {
  }

  lemma XorBits(a: bv16, b: bv16, k: Position)
    ensures On(a ^ b, k) <==> On(a, k) != On(b, k)
  {
  }

  /** The word of one bit. */
  lemma OneBit(b: Position, k: Position)
    ensures On(1 << b, k) <==> k == b
  {
  }

  lemma UpBits(a: bv16, n: Position, k: Position)
    ensures On(a << n, k) <==> k >= n && On(a, k - n)
  {
  }

  lemma DownBits(a: bv16, n: Position, k: Position)
    ensures On(a >> n, k) <==> k < 16 - n && On(a, k + n)
  {
  }
}
