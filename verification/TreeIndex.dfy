// Sizes, bins and the binary digits that separate them (dlmalloc.c).
module TreeIndex {

  const SIZE_T_RANGE: nat := 0x1_0000_0000_0000_0000
  const NTREEBINS: nat := 32
  const MIN_LARGE_SIZE: nat := 256

  type SizeT = n: nat | n < SIZE_T_RANGE

  function Pow2(n: nat): (p: nat)
    ensures p > 0
  {
    if n == 0 then 1 else 2 * Pow2(n - 1)
  }

  // minsize_for_tree_index
  function MinSize(i: nat): nat {
    Pow2(i / 2 + 8) + i % 2 * Pow2(i / 2 + 7)
  }

  // The sizes a tree bin holds: those between its bound and the next bin's.
  ghost predicate InTreeBin(size: nat, i: nat) {
    && i < NTREEBINS
    && MinSize(i) <= size
    && (i < NTREEBINS - 1 ==> size < MinSize(i + 1))
  }

  // Number of low digits that vary inside a bin.
  function Width(i: nat): nat
    requires i < NTREEBINS
  {
    if i == NTREEBINS - 1 then 64 else i / 2 + 7
  }

  // Smallest number the varying digits of a bin could denote.
  function Base(i: nat): nat
    requires i < NTREEBINS
  {
    if i == NTREEBINS - 1 then 0 else MinSize(i)
  }

  // ----- powers of two -----

  lemma Powers()
    ensures Pow2(0) == 1 && Pow2(1) == 2 && Pow2(2) == 4 && Pow2(3) == 8 && Pow2(4) == 0x10 && Pow2(5) == 0x20 && Pow2(6) == 0x40
    ensures Pow2(7) == 0x80 && Pow2(8) == 0x100 && Pow2(9) == 0x200 && Pow2(10) == 0x400
    ensures Pow2(11) == 0x800 && Pow2(12) == 0x1000 && Pow2(13) == 0x2000 && Pow2(14) == 0x4000
    ensures Pow2(15) == 0x8000 && Pow2(16) == 0x1_0000
  {
  }

  lemma PowPlus7(k: nat)
    ensures Pow2(k + 7) == 128 * Pow2(k)
  {
    assert Pow2(k + 7) == 2 * Pow2(k + 6) && Pow2(k + 6) == 2 * Pow2(k + 5) && Pow2(k + 5) == 2 * Pow2(k + 4);
    assert Pow2(k + 4) == 2 * Pow2(k + 3) && Pow2(k + 3) == 2 * Pow2(k + 2) && Pow2(k + 2) == 2 * Pow2(k + 1);
  }

  lemma Pow64()
    ensures Pow2(63) == 0x8000_0000_0000_0000 && Pow2(64) == SIZE_T_RANGE
  {
    PowPlus7(0); PowPlus7(7); PowPlus7(14); PowPlus7(21); PowPlus7(28); PowPlus7(35); PowPlus7(42); PowPlus7(49); PowPlus7(56);
    assert Pow2(64) == 2 * Pow2(63);
  }

  lemma {:induction false} PowAdd(a: nat, b: nat)
    ensures Pow2(a + b) == Pow2(a) * Pow2(b)
  {
    if b > 0 {
      PowAdd(a, b - 1);
      assert Pow2(a) * Pow2(b) == 2 * (Pow2(a) * Pow2(b - 1));
    }
  }

  // ----- bounds of the bins -----

  lemma MinSizeIs(k: nat)
    ensures MinSize(2 * k) == 2 * Pow2(k + 7)
    ensures MinSize(2 * k + 1) == 3 * Pow2(k + 7)
    ensures MinSize(2 * k + 2) == 4 * Pow2(k + 7)
  {
    assert Pow2(k + 8) == 2 * Pow2(k + 7) && Pow2(k + 9) == 2 * Pow2(k + 8);
    assert (2 * k + 1) / 2 == k && (2 * k + 2) / 2 == k + 1 && (2 * k + 1) % 2 == 1 && (2 * k + 2) % 2 == 0;
  }

  // Consecutive bins meet: a bin's bound plus its width is the next bin's bound.
  lemma MinSizeNext(i: nat)
    ensures MinSize(i + 1) == MinSize(i) + Pow2(i / 2 + 7)
  {
    MinSizeIs(i / 2);
    assert i == 2 * (i / 2) || i == 2 * (i / 2) + 1;
  }

  lemma {:induction false} MinSizeGrows(i: nat, j: nat)
    requires i <= j
    ensures MinSize(i) <= MinSize(j)
    decreases j - i
  {
    if i < j {
      MinSizeNext(i);
      MinSizeGrows(i + 1, j);
    }
  }

  lemma FirstBound()
    ensures MinSize(0) == MIN_LARGE_SIZE
  {
    Powers();
  }

  // The varying digits of a bin cover every size that falls in it.
  lemma InBinDigits(size: SizeT, i: nat)
    requires InTreeBin(size, i)
    ensures Base(i) <= size < Base(i) + Pow2(Width(i))
  {
    MinSizeNext(i);
    Pow64();
  }

  // Larger bins hold larger sizes.
  lemma LaterBinIsLarger(a: nat, i: nat, b: nat, j: nat)
    requires InTreeBin(a, i) && InTreeBin(b, j) && i < j
    ensures a < b
  {
    MinSizeGrows(i + 1, j);
  }

  // So the bin of a size is unique.
  lemma OneBin(size: nat, i: nat, j: nat)
    requires InTreeBin(size, i) && InTreeBin(size, j)
    ensures i == j
  {
    if i < j {
      LaterBinIsLarger(size, i, size, j);
    } else if j < i {
      LaterBinIsLarger(size, j, size, i);
    }
  }

  // ----- the branch-free logarithm -----

  // ((y - c) >> 16) & bit on 32-bit unsigned words
  function Probe(y: nat, c: nat, bit: nat): nat
    requires bit > 0
  {
    ((y - c) % 0x1_0000_0000 / 0x1_0000) / bit % 2 * bit
  }

  function Shl32(y: nat, n: nat): nat {
    y * Pow2(n) % 0x1_0000_0000
  }

  // The sign of y - c, brought down as a mask, and the shift it selects.
  lemma ProbeAndShift(y: nat, c: nat, bit: nat, factor: nat)
    requires y < 0x1_0000 && c < 0x1_0000
    requires (bit == 8 && factor == 256) || (bit == 4 && factor == 16) || (bit == 2 && factor == 4)
    requires y < c ==> y * factor < 0x1_0000
    ensures Probe(y, c, bit) == if y < c then bit else 0
    ensures Shl32(y, Probe(y, c, bit)) == if y < c then y * factor else y
  {
    hide Pow2;
    Powers();
    if y < c {
      assert (y - c) % 0x1_0000_0000 == y - c + 0x1_0000_0000;
      assert (y - c) % 0x1_0000_0000 / 0x1_0000 == 0xFFFF;
    }
  }

  lemma Settle(x: nat, n: nat, y: nat)
    requires 0x4000 <= y < 0x1_0000
    requires || (n == 0 && y == x) || (n == 2 && y == 4 * x) || (n == 4 && y == 16 * x) || (n == 6 && y == 64 * x)
             || (n == 8 && y == 256 * x) || (n == 10 && y == 1024 * x) || (n == 12 && y == 4096 * x) || (n == 14 && y == 16384 * x)
    ensures var k := 14 - n + y / 0x8000;
      0 <= k <= 15 && Pow2(k) <= x < Pow2(k + 1)
  {
    Powers();
  }

  method BinaryLog(x: nat) returns (k: nat)
    requires 0 < x <= 0xFFFF
    ensures k <= 15 && Pow2(k) <= x < Pow2(k + 1)
  {
    hide *;
    var y := x;
    var n := Probe(y, 0x100, 8);
    ProbeAndShift(y, 0x100, 8, 256);
    y := Shl32(y, n);
    ghost var y8, n8 := y, n;
    assert 0x100 <= y < 0x1_0000 && ((n == 0 && y == x) || (n == 8 && y == 256 * x));
    var step := Probe(y, 0x1000, 4);
    ProbeAndShift(y, 0x1000, 4, 16);
    n := n + step;
    y := Shl32(y, step);
    assert 0x1000 <= y < 0x1_0000 && ((n == n8 && y == y8) || (n == n8 + 4 && y == 16 * y8));
    ghost var y4, n4 := y, n;
    step := Probe(y, 0x4000, 2);
    ProbeAndShift(y, 0x4000, 2, 4);
    n := n + step;
    y := Shl32(y, step);
    assert 0x4000 <= y < 0x1_0000 && ((n == n4 && y == y4) || (n == n4 + 2 && y == 4 * y4));
    Settle(x, n, y);
    k := 14 - n + y / 0x8000;
  }

  lemma MulMono(a: nat, b: nat, h: nat)
    ensures a <= b ==> a * h <= b * h
  {
  }

  lemma DivideByHalf(size: nat, half: nat)
    requires half > 0 && 2 * half <= size < 4 * half
    ensures size / half == if size < 3 * half then 2 else 3
  {
    var q := size / half;
    assert size == q * half + size % half;
    MulMono(4, q, half);
    MulMono(q, 1, half);
    if q == 2 { assert q * half == 2 * half; }
    if q == 3 { assert q * half == 3 * half; }
  }

  // Portable compute_tree_index: a large size falls in the bin whose bounds
  // enclose it.
  method ComputeTreeIndex(size: SizeT) returns (i: nat)
    ensures i < NTREEBINS
    ensures size >= MIN_LARGE_SIZE ==> InTreeBin(size, i)
    ensures size < MIN_LARGE_SIZE ==> i == 0
  {
    var x := size / 256;
    if x == 0 {
      return 0;
    }
    if x > 0xFFFF {
      MinSizeIs(15);
      PowPlus7(15);
      Powers();
      return NTREEBINS - 1;
    }
    var k := BinaryLog(x);
    ghost var half := Pow2(k + 7);
    PowPlus7(k);
    DivideByHalf(size, half);
    MinSizeIs(k);
    i := 2 * k + size / Pow2(k + 7) % 2;
  }
}
