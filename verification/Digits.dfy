// The shifted size that tree walks of dlmalloc.c read digit by digit.
module Digits {
  import opened TreeIndex

  const SIGN_BIT: nat := 0x8000_0000_0000_0000

  // S << leftshift_for_tree_index(I), as a 64-bit word
  function ShiftedSize(size: SizeT, i: nat): SizeT
    requires i < NTREEBINS
  {
    size * Pow2(64 - Width(i)) % SIZE_T_RANGE
  }

  // K <<= 1
  function ShiftOne(k: SizeT): SizeT {
    2 * k % SIZE_T_RANGE
  }

  // The word holds the digits of size above lo, left-adjusted, w of them left to read.
  ghost predicate Reads(k: nat, size: nat, lo: nat, w: nat) {
    w <= 64 && lo <= size < lo + Pow2(w) && k == (size - lo) * Pow2(64 - w)
  }

  lemma PowSplit(w: nat)
    requires w <= 64
    ensures Pow2(w) * Pow2(64 - w) == SIZE_T_RANGE
    ensures w > 0 ==> Pow2(w - 1) * Pow2(64 - w) == SIGN_BIT
    ensures w > 0 ==> Pow2(64 - (w - 1)) == 2 * Pow2(64 - w)
  {
    PowAdd(w, 64 - w);
    Pow64();
    if w > 0 {
      PowAdd(w - 1, 64 - w);
    }
  }

  lemma BaseIsMultiple(i: nat)
    requires i < NTREEBINS
    ensures Base(i) == (if i == NTREEBINS - 1 then 0 else 2 + i % 2) * Pow2(Width(i))
  {
    if i < NTREEBINS - 1 {
      MinSizeIs(i / 2);
      assert i == 2 * (i / 2) + i % 2;
    }
  }

  lemma StartReading(size: SizeT, i: nat)
    requires InTreeBin(size, i)
    ensures Reads(ShiftedSize(size, i), size, Base(i), Width(i))
  {
    var w := Width(i);
    var p := Pow2(64 - w);
    var m := if i == NTREEBINS - 1 then 0 else 2 + i % 2;
    var off := size - Base(i);
    InBinDigits(size, i);
    BaseIsMultiple(i);
    PowSplit(w);
    Multiply(Base(i), m, Pow2(w), p);
    Below(off, Pow2(w), p);
    Wraps(size, Base(i), off, p, m);
  }

  lemma Multiply(base: nat, m: nat, q: nat, p: nat)
    requires base == m * q && q * p == SIZE_T_RANGE
    ensures base * p == m * SIZE_T_RANGE
  {
    assert m * q * p == m * (q * p);
  }

  lemma Below(off: nat, q: nat, p: nat)
    requires off < q && p > 0
    ensures off * p < q * p
  {
  }

  lemma Wraps(size: nat, base: nat, off: nat, p: nat, m: nat)
    requires size == base + off && base * p == m * SIZE_T_RANGE && off * p < SIZE_T_RANGE
    ensures size * p % SIZE_T_RANGE == off * p
  {
    assert size * p == base * p + off * p;
  }

  lemma LowHalf(off: nat, half: nat, p: nat)
    requires half * p == SIGN_BIT && p > 0 && off < half
    ensures off * p < SIGN_BIT && off * (2 * p) == 2 * (off * p)
  {
    Below(off, half, p);
  }

  lemma HighHalf(off: nat, half: nat, p: nat)
    requires half * p == SIGN_BIT && p > 0 && half <= off < 2 * half
    ensures SIGN_BIT <= off * p < SIZE_T_RANGE
    ensures (off - half) * (2 * p) == 2 * (off * p) - SIZE_T_RANGE
  {
    var d := off - half;
    Below(d, half, p);
    assert off * p == half * p + d * p;
    assert d * (2 * p) == 2 * (d * p);
  }

  lemma HalfPow(w: nat)
    requires w > 0
    ensures Pow2(w) == 2 * Pow2(w - 1)
  {
  }

  lemma ShiftTwice(k: SizeT)
    ensures ShiftOne(k) == if k >= SIGN_BIT then 2 * k - SIZE_T_RANGE else 2 * k
  {
  }

  // The sign bit is the digit that separates the two halves; shifting moves on.
  lemma ReadDigit(k: SizeT, size: nat, lo: nat, w: nat)
    requires Reads(k, size, lo, w) && w > 0
    ensures k >= SIGN_BIT <==> size >= lo + Pow2(w - 1)
    ensures Reads(ShiftOne(k), size, if k >= SIGN_BIT then lo + Pow2(w - 1) else lo, w - 1)
  {
    hide Pow2;
    var off := size - lo;
    PowSplit(w);
    HalfPow(w);
    ShiftTwice(k);
    if off < Pow2(w - 1) {
      LowHalf(off, Pow2(w - 1), Pow2(64 - w));
    } else {
      HighHalf(off, Pow2(w - 1), Pow2(64 - w));
    }
  }
}
