/** Bitwise operations on natural numbers, bit by bit, as Python's unbounded integers have them. */
module Bits {

  function Pow2(e: nat): nat {
    if e == 0 then 1 else 2 * Pow2(e - 1)
  }

  function BitOr(a: nat, b: nat): nat {
    if a == 0 && b == 0 then 0 else (if a % 2 == 1 || b % 2 == 1 then 1 else 0) + 2 * BitOr(a / 2, b / 2)
  }

  function BitXor(a: nat, b: nat): nat {
    if a == 0 && b == 0 then 0 else (a + b) % 2 + 2 * BitXor(a / 2, b / 2)
  }

  function BitAnd(a: nat, b: nat): nat {
    if a == 0 || b == 0 then 0 else (if a % 2 == 1 && b % 2 == 1 then 1 else 0) + 2 * BitAnd(a / 2, b / 2)
  }

  /** `~a & b`. */
  function BitAndNot(a: nat, b: nat): nat {
    if b == 0 then 0 else (if a % 2 == 0 && b % 2 == 1 then 1 else 0) + 2 * BitAndNot(a / 2, b / 2)
  }

  lemma Split(low: nat, high: nat)
    requires low < 2
    ensures (low + 2 * high) % 2 == low && (low + 2 * high) / 2 == high
  {
  }

  lemma SameHalves(a: nat, b: nat)
    requires a % 2 == b % 2 && a / 2 == b / 2
    ensures a == b
  {
  }

  lemma OrHalves(a: nat, b: nat)
    ensures BitOr(a, b) % 2 == (if a % 2 == 1 || b % 2 == 1 then 1 else 0) && BitOr(a, b) / 2 == BitOr(a / 2, b / 2)
  {
    if a != 0 || b != 0 { Split(if a % 2 == 1 || b % 2 == 1 then 1 else 0, BitOr(a / 2, b / 2)); }
  }

  lemma XorHalves(a: nat, b: nat)
    ensures BitXor(a, b) % 2 == (a + b) % 2 && BitXor(a, b) / 2 == BitXor(a / 2, b / 2)
  {
    if a != 0 || b != 0 { Split((a + b) % 2, BitXor(a / 2, b / 2)); }
  }

  lemma AndHalves(a: nat, b: nat)
    ensures BitAnd(a, b) % 2 == (if a % 2 == 1 && b % 2 == 1 then 1 else 0) && BitAnd(a, b) / 2 == BitAnd(a / 2, b / 2)
  {
    if a != 0 && b != 0 { Split(if a % 2 == 1 && b % 2 == 1 then 1 else 0, BitAnd(a / 2, b / 2)); }
  }

  lemma AndNotHalves(a: nat, b: nat)
    ensures BitAndNot(a, b) % 2 == (if a % 2 == 0 && b % 2 == 1 then 1 else 0)
    ensures BitAndNot(a, b) / 2 == BitAndNot(a / 2, b / 2)
  {
    if b != 0 { Split(if a % 2 == 0 && b % 2 == 1 then 1 else 0, BitAndNot(a / 2, b / 2)); }
  }

  /** A number with its low `e` bits clear, or-ed with one that has no others, is their sum. */
  lemma {:induction false} OrOfDisjointBits(k: nat, low: nat, e: nat)
    requires low < Pow2(e)
    ensures BitOr(k * Pow2(e), low) == k * Pow2(e) + low
    decreases e
  {
    if e == 0 {
      OrZero(k);
    } else {
      var high := k * Pow2(e - 1);
      Doubled(k, e);
      OrOfDisjointBits(k, low / 2, e - 1);
      OrHalves(2 * high, low);
      SameHalves(BitOr(2 * high, low), 2 * high + low);
    }
  }

  lemma {:induction false} OrZero(k: nat)
    ensures BitOr(k, 0) == k
  {
    if k > 0 {
      OrZero(k / 2);
      OrHalves(k, 0);
      SameHalves(BitOr(k, 0), k);
    }
  }

  lemma Doubled(k: nat, e: nat)
    requires e > 0
    ensures k * Pow2(e) == 2 * (k * Pow2(e - 1))
  {
  }

  lemma ParityTwice(a: nat, m: nat, x: nat)
    requires x % 2 == (a + m) % 2
    ensures (x + m) % 2 == a % 2
  {
  }

  lemma {:induction false} XorTwice(a: nat, m: nat)
    ensures BitXor(BitXor(a, m), m) == a
  {
    if a != 0 || m != 0 {
      var x := BitXor(a, m);
      XorHalves(a, m);
      XorHalves(x, m);
      XorTwice(a / 2, m / 2);
      ParityTwice(a, m, x);
      SameHalves(BitXor(x, m), a);
    }
  }

  lemma {:induction false} XorFits(a: nat, b: nat, e: nat)
    requires a < Pow2(e) && b < Pow2(e)
    ensures BitXor(a, b) < Pow2(e)
    decreases e
  {
    if e > 0 {
      XorFits(a / 2, b / 2, e - 1);
      XorHalves(a, b);
    }
  }

  lemma {:induction false} AndFits(a: nat, b: nat, e: nat)
    requires b < Pow2(e)
    ensures BitAnd(a, b) < Pow2(e) && BitAndNot(a, b) < Pow2(e)
    decreases e
  {
    if e > 0 {
      AndFits(a / 2, b / 2, e - 1);
      AndHalves(a, b);
      AndNotHalves(a, b);
    }
  }

  /** The complement of a width: `~a & b` is `and` with all the bits `a` lacks. */
  lemma {:induction false} AndNotIsAndOfComplement(a: nat, b: nat, e: nat)
    requires a < Pow2(e) && b < Pow2(e)
    ensures BitAndNot(a, b) == BitAnd(Pow2(e) - 1 - a, b)
    decreases e
  {
    if e > 0 {
      var n := Pow2(e) - 1 - a;
      assert n / 2 == Pow2(e - 1) - 1 - a / 2 && n % 2 == 1 - a % 2;
      AndNotIsAndOfComplement(a / 2, b / 2, e - 1);
      AndNotHalves(a, b);
      AndHalves(n, b);
      SameHalves(BitAndNot(a, b), BitAnd(n, b));
    }
  }

  function ChooseOr(b: nat, c: nat, d: nat): nat { BitOr(BitAnd(b, c), BitAndNot(b, d)) }

  function ChooseXor(b: nat, c: nat, d: nat): nat { BitXor(BitAnd(b, c), BitAndNot(b, d)) }

  function ChosenBit(b: nat, c: nat, d: nat): nat { if b % 2 == 1 then c % 2 else d % 2 }

  lemma ChooseOrHalves(b: nat, c: nat, d: nat)
    ensures ChooseOr(b, c, d) % 2 == ChosenBit(b, c, d) && ChooseOr(b, c, d) / 2 == ChooseOr(b / 2, c / 2, d / 2)
  {
    AndHalves(b, c);
    AndNotHalves(b, d);
    OrHalves(BitAnd(b, c), BitAndNot(b, d));
  }

  lemma ChooseXorHalves(b: nat, c: nat, d: nat)
    ensures ChooseXor(b, c, d) % 2 == ChosenBit(b, c, d) && ChooseXor(b, c, d) / 2 == ChooseXor(b / 2, c / 2, d / 2)
  {
    AndHalves(b, c);
    AndNotHalves(b, d);
    XorHalves(BitAnd(b, c), BitAndNot(b, d));
    ParityOfSum(BitAnd(b, c), BitAndNot(b, d));
  }

  lemma ParityOfSum(x: nat, y: nat)
    ensures (x + y) % 2 == (x % 2 + y % 2) % 2
  {
  }

  /** Choosing by bits: `or` and exclusive `or` agree, since no bit is chosen twice. */
  lemma {:induction false} ChooseOrIsXor(b: nat, c: nat, d: nat)
    ensures ChooseOr(b, c, d) == ChooseXor(b, c, d)
    decreases b + c + d
  {
    if b + c + d > 0 {
      ChooseOrIsXor(b / 2, c / 2, d / 2);
      ChooseOrHalves(b, c, d);
      ChooseXorHalves(b, c, d);
      SameHalves(ChooseOr(b, c, d), ChooseXor(b, c, d));
    }
  }

  function MajorityOr(b: nat, c: nat, d: nat): nat {
    BitOr(BitOr(BitAnd(b, c), BitAnd(b, d)), BitAnd(c, d))
  }

  function MajorityXor(b: nat, c: nat, d: nat): nat {
    BitXor(BitXor(BitAnd(b, c), BitAnd(b, d)), BitAnd(c, d))
  }

  function MajorityBit(b: nat, c: nat, d: nat): nat {
    if b % 2 + c % 2 + d % 2 >= 2 then 1 else 0
  }

  lemma MajorityOrHalves(b: nat, c: nat, d: nat)
    ensures MajorityOr(b, c, d) % 2 == MajorityBit(b, c, d)
            && MajorityOr(b, c, d) / 2 == MajorityOr(b / 2, c / 2, d / 2)
  {
    AndHalves(b, c);
    AndHalves(b, d);
    AndHalves(c, d);
    OrHalves(BitAnd(b, c), BitAnd(b, d));
    OrHalves(BitOr(BitAnd(b, c), BitAnd(b, d)), BitAnd(c, d));
  }

  lemma MajorityOfBits(b: nat, c: nat, d: nat)
    requires b < 2 && c < 2 && d < 2
    ensures var x := if b == 1 && c == 1 then 1 else 0;
            var y := if b == 1 && d == 1 then 1 else 0;
            var z := if c == 1 && d == 1 then 1 else 0;
            ((x + y) % 2 + z) % 2 == if b + c + d >= 2 then 1 else 0
  {
  }

  lemma MajorityXorHalves(b: nat, c: nat, d: nat)
    ensures MajorityXor(b, c, d) % 2 == MajorityBit(b, c, d)
            && MajorityXor(b, c, d) / 2 == MajorityXor(b / 2, c / 2, d / 2)
  {
    var x, y, z := BitAnd(b, c), BitAnd(b, d), BitAnd(c, d);
    AndHalves(b, c);
    AndHalves(b, d);
    AndHalves(c, d);
    XorHalves(x, y);
    XorHalves(BitXor(x, y), z);
    ParityOfSum(x, y);
    ParityOfSum(BitXor(x, y), z);
    MajorityOfBits(b % 2, c % 2, d % 2);
  }

  /** The majority of three, by `or` or by exclusive `or`. */
  lemma {:induction false} MajorityOrIsXor(b: nat, c: nat, d: nat)
    ensures MajorityOr(b, c, d) == MajorityXor(b, c, d)
    decreases b + c + d
  {
    if b + c + d > 0 {
      MajorityOrIsXor(b / 2, c / 2, d / 2);
      MajorityOrHalves(b, c, d);
      MajorityXorHalves(b, c, d);
      SameHalves(MajorityOr(b, c, d), MajorityXor(b, c, d));
    }
  }

  lemma PowersOfTwo()
    ensures Pow2(1) == 2 && Pow2(5) == 32 && Pow2(8) == 0x100 && Pow2(10) == 0x400
    ensures Pow2(27) == 0x800_0000 && Pow2(30) == 0x4000_0000 && Pow2(32) == 0x1_0000_0000
  {
    assert Pow2(3) == 8 && Pow2(6) == 64 && Pow2(8) == 0x100 && Pow2(10) == 0x400;
    assert Pow2(13) == 0x2000 && Pow2(16) == 0x1_0000 && Pow2(19) == 0x8_0000 && Pow2(22) == 0x40_0000;
    assert Pow2(25) == 0x200_0000 && Pow2(27) == 0x800_0000 && Pow2(30) == 0x4000_0000;
  }
}
