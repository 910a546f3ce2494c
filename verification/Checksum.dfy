// The checksum of a message (omx_segments.h): a shift register, which is long
// division by x^16 + x^12 + x^5 + 1, and what it is good for.
module Checksum {

  type Byte = bv8

  // A uint16_t, the highest bit first.
  type Word = w: seq<bool> | |w| == 16 witness [
    false, false, false, false, false, false, false, false, false, false, false, false, false, false, false, false]

  const ZERO: Word := [
    false, false, false, false, false, false, false, false, false, false, false, false, false, false, false, false]

  // 0x1021
  const GENERATOR: Word := [
    false, false, false, true, false, false, false, false, false, false, true, false, false, false, false, true]

  function Xor(p: Word, q: Word): Word {
    seq(16, i requires 0 <= i < 16 => p[i] != q[i])
  }

  // The bits of a byte, the highest first.
  function BitsOf(b: Byte): (c: seq<bool>)
    ensures |c| == 8
  {
    [b & 0x80 != 0, b & 0x40 != 0, b & 0x20 != 0, b & 0x10 != 0, b & 8 != 0, b & 4 != 0, b & 2 != 0, b & 1 != 0]
  }

  // A byte in the upper half of a word.
  function Upper(b: Byte): Word {
    BitsOf(b) + [false, false, false, false, false, false, false, false]
  }

  // One bit, one byte and any number of bytes through the register.
  function Shift(crc: Word): Word {
    if crc[0] then Xor(crc[1..] + [false], GENERATOR) else crc[1..] + [false]
  }

  function CrcBits(crc: Word, n: nat): Word
    decreases n
  {
    if n == 0 then crc else CrcBits(Shift(crc), n - 1)
  }

  function CrcByte(crc: Word, b: Byte): Word {
    CrcBits(Xor(crc, Upper(b)), 8)
  }

  function Crc(crc: Word, data: seq<Byte>): Word {
    if data == [] then crc else CrcByte(Crc(crc, data[..|data| - 1]), data[|data| - 1])
  }

  lemma CrcMore(crc: Word, data: seq<Byte>, b: Byte)
    ensures Crc(crc, data + [b]) == CrcByte(Crc(crc, data), b)
  {
    assert (data + [b])[..|data|] == data;
  }

  // The part of omx_checksum_segments for one byte.
  method ChecksumByte(crc0: Word, b: Byte) returns (crc: Word)
    ensures crc == CrcByte(crc0, b)
  {
    crc := Xor(crc0, Upper(b));
    for i := 0 to 8
      invariant CrcBits(crc, 8 - i) == CrcByte(crc0, b)
    {
      if crc[0] {
        crc := Xor(crc[1..] + [false], GENERATOR);
      } else {
        crc := crc[1..] + [false];
      }
    }
  }

  // ----- long division -----

  // A message as a polynomial: its coefficients, the highest first.
  function Coefficients(data: seq<Byte>): seq<bool> {
    if data == [] then [] else Coefficients(data[..|data| - 1]) + BitsOf(data[|data| - 1])
  }

  // Subtraction from the highest 16 coefficients.
  function Minus(p: seq<bool>, q: Word): (r: seq<bool>)
    requires |p| >= 16
    ensures |r| == |p|
  {
    Xor(p[..16], q) + p[16..]
  }

  // Long division by x^16 + x^12 + x^5 + 1: the highest term goes, with the
  // other terms of the divisor subtracted if it is there, until 16 are left.
  function Remainder(p: seq<bool>): Word
    requires |p| >= 16
    decreases |p|
  {
    if |p| == 16 then p
    else if p[0] then Remainder(Minus(p[1..], GENERATOR))
    else Remainder(p[1..])
  }

  // The register with one more bit of the message.
  function Take(crc: Word, bit: bool): Word {
    if crc[0] != bit then Xor(crc[1..] + [false], GENERATOR) else crc[1..] + [false]
  }

  function TakeAll(crc: Word, bits: seq<bool>): Word
    decreases |bits|
  {
    if bits == [] then crc else TakeAll(Take(crc, bits[0]), bits[1..])
  }

  lemma MinusTail(p: seq<bool>, c: Word)
    requires |p| > 16
    ensures Minus(p, c)[0] == (p[0] != c[0]) && Minus(p, c)[1..] == Minus(p[1..], c[1..] + [false])
  {
  }

  lemma MinusTwice(p: seq<bool>, c: Word, d: Word)
    requires |p| >= 16
    ensures Minus(Minus(p, c), d) == Minus(p, Xor(c, d))
  {
  }

  // Division goes on with the register subtracted.
  lemma TakeIsDivisionStep(c: Word, p: seq<bool>)
    requires |p| > 16
    ensures Remainder(Minus(p, c)) == Remainder(Minus(p[1..], Take(c, p[0])))
  {
    hide Minus, Xor;
    MinusTail(p, c);
    MinusTwice(p[1..], c[1..] + [false], GENERATOR);
  }

  lemma XorZero(c: Word)
    ensures Xor(ZERO, c) == c == Xor(c, ZERO)
  {
  }

  lemma MinusZero(c: Word)
    ensures Minus(ZERO, c) == c
  {
    XorZero(c);
    assert ZERO[..16] == ZERO && ZERO[16..] == [];
  }

  lemma MinusNothing(p: seq<bool>)
    requires |p| >= 16
    ensures Minus(p, ZERO) == p
  {
    XorZero(p[..16]);
    assert p[..16] + p[16..] == p;
  }

  lemma {:induction false} TakeAllIsDivision(c: Word, bits: seq<bool>)
    ensures Remainder(Minus(bits + ZERO, c)) == TakeAll(c, bits)
    decreases |bits|
  {
    hide Take, Xor;
    if bits == [] {
      assert bits + ZERO == ZERO;
      MinusZero(c);
    } else {
      TakeIsDivisionStep(c, bits + ZERO);
      assert (bits + ZERO)[1..] == bits[1..] + ZERO;
      TakeAllIsDivision(Take(c, bits[0]), bits[1..]);
    }
  }

  // Bits may wait in the register before they are looked at.
  lemma ShiftWithWaiting(c: Word, y: Word)
    ensures Shift(Xor(c, y)) == Xor(Take(c, y[0]), y[1..] + [false])
  {
  }

  lemma {:induction false} TakeWaiting(c: Word, y: Word, n: nat)
    requires n <= 16 && forall i :: n <= i < 16 ==> !y[i]
    ensures CrcBits(Xor(c, y), n) == TakeAll(c, y[..n])
    decreases n
  {
    hide Shift, Take, Xor;
    if n == 0 {
      assert y == ZERO;
      XorZero(c);
    } else {
      ShiftWithWaiting(c, y);
      var y' := y[1..] + [false];
      assert y[..n][1..] == y'[..n - 1];
      TakeWaiting(Take(c, y[0]), y', n - 1);
    }
  }

  lemma {:induction false} TakeAllConcat(c: Word, a: seq<bool>, b: seq<bool>)
    ensures TakeAll(c, a + b) == TakeAll(TakeAll(c, a), b)
    decreases |a|
  {
    if a == [] {
      assert a + b == b;
    } else {
      assert (a + b)[1..] == a[1..] + b;
      TakeAllConcat(Take(c, a[0]), a[1..], b);
    }
  }

  lemma {:induction false} CrcTakesAll(data: seq<Byte>)
    ensures Crc(ZERO, data) == TakeAll(ZERO, Coefficients(data))
  {
    hide BitsOf, TakeAll, CrcBits;
    if data == [] {
      NothingTaken(ZERO);
    } else {
      var before, b := data[..|data| - 1], data[|data| - 1];
      CrcTakesAll(before);
      TakeAllConcat(ZERO, Coefficients(before), BitsOf(b));
      TakeWaiting(Crc(ZERO, before), Upper(b), 8);
      assert Upper(b)[..8] == BitsOf(b);
    }
  }

  lemma NothingTaken(c: Word)
    ensures TakeAll(c, []) == c
  {
  }

  // The checksum is the remainder of the message, times x^16, divided by the
  // generator.
  lemma CrcIsRemainder(data: seq<Byte>)
    ensures Crc(ZERO, data) == Remainder(Coefficients(data) + ZERO)
  {
    hide *;
    CrcTakesAll(data);
    TakeAllIsDivision(ZERO, Coefficients(data));
    MinusNothing(Coefficients(data) + ZERO);
  }

  // ----- what it detects -----

  lemma TakeAt(c: Word, bit: bool)
    ensures Take(c, bit)[15] == (c[0] != bit)
    ensures forall i :: 1 <= i < 16 ==> Take(c, bit)[i - 1] == (c[i] != (c[0] != bit && GENERATOR[i - 1]))
  {
    var d: Word := c[1..] + [false];
    assert d[15] == false && forall i :: 1 <= i < 16 ==> d[i - 1] == c[i];
    if c[0] != bit {
      assert forall i :: 0 <= i < 16 ==> Xor(d, GENERATOR)[i] == (d[i] != GENERATOR[i]);
      assert Xor(d, GENERATOR)[15];
    }
  }

  lemma TakeKeepsDifference(a: Word, b: Word, bit: bool)
    requires a != b
    ensures Take(a, bit) != Take(b, bit)
  {
    hide Take;
    TakeAt(a, bit);
    TakeAt(b, bit);
    var i :| 0 <= i < 16 && a[i] != b[i];
    assert i > 0 && a[0] == b[0] ==> Take(a, bit)[i - 1] != Take(b, bit)[i - 1];
  }

  // Registers that differ go on differing while they take the same bits.
  lemma {:induction false} DifferenceStays(a: Word, b: Word, bits: seq<bool>)
    requires a != b
    ensures TakeAll(a, bits) != TakeAll(b, bits)
    decreases |bits|
  {
    hide Take;
    if bits != [] {
      TakeKeepsDifference(a, b, bits[0]);
      DifferenceStays(Take(a, bits[0]), Take(b, bits[0]), bits[1..]);
    }
  }

  lemma {:induction false} ShiftsKeepDifference(a: Word, b: Word, n: nat)
    requires a != b
    ensures CrcBits(a, n) != CrcBits(b, n)
    decreases n
  {
    if n > 0 {
      TakeKeepsDifference(a, b, false);
      ShiftsKeepDifference(Shift(a), Shift(b), n - 1);
    }
  }

  // Taking 16 bits, whatever was there before, tells them from any others.
  lemma BurstTaken(c: Word, v: Word, w: Word)
    requires v != w
    ensures TakeAll(c, v) != TakeAll(c, w)
  {
    hide TakeAll, CrcBits;
    TakeWaiting(c, v, 16);
    TakeWaiting(c, w, 16);
    assert v[..16] == v && w[..16] == w;
    var i :| 0 <= i < 16 && v[i] != w[i];
    assert Xor(c, v)[i] != Xor(c, w)[i];
    ShiftsKeepDifference(Xor(c, v), Xor(c, w), 16);
  }

  // Every error that is confined to 16 consecutive bits, wherever they start,
  // changes the checksum.
  lemma BurstsDetected(data: seq<Byte>, data': seq<Byte>, before: seq<bool>, v: Word, w: Word, after: seq<bool>)
    requires Coefficients(data) == before + v + after && Coefficients(data') == before + w + after && v != w
    ensures Crc(ZERO, data) != Crc(ZERO, data')
  {
    hide *;
    CrcTakesAll(data);
    CrcTakesAll(data');
    var c := TakeAll(ZERO, before);
    TakeAllConcat(ZERO, before + v, after);
    TakeAllConcat(ZERO, before, v);
    TakeAllConcat(ZERO, before + w, after);
    TakeAllConcat(ZERO, before, w);
    BurstTaken(c, v, w);
    DifferenceStays(TakeAll(c, v), TakeAll(c, w), after);
  }
}
