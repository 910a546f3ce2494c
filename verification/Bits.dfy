// The bin maps of dlmalloc.c: 32-bit words, written out bit by bit, and the
// two's-complement tricks that search them.
module Bits {

  const WORD_BITS: nat := 32

  // A binmap_t; bit 0 is the least significant one.
  type Word = x: seq<bool> | |x| == WORD_BITS witness Zeros(WORD_BITS)

  function Zeros(n: nat): (x: seq<bool>)
    ensures |x| == n && forall i :: 0 <= i < n ==> !x[i]
  {
    if n == 0 then [] else [false] + Zeros(n - 1)
  }

  const ZERO: Word := Zeros(WORD_BITS)

  function And(x: seq<bool>, y: seq<bool>): seq<bool>
    requires |x| == |y|
  {
    seq(|x|, i requires 0 <= i < |x| => x[i] && y[i])
  }

  function Or(x: seq<bool>, y: seq<bool>): seq<bool>
    requires |x| == |y|
  {
    seq(|x|, i requires 0 <= i < |x| => x[i] || y[i])
  }

  function Invert(x: seq<bool>): seq<bool> {
    seq(|x|, i requires 0 <= i < |x| => !x[i])
  }

  // Adding one, with the carry rippling to the left.
  function Increment(x: seq<bool>): (y: seq<bool>)
    ensures |y| == |x|
  {
    if x == [] then []
    else if !x[0] then [true] + x[1..]
    else [false] + Increment(x[1..])
  }

  function Negate(x: seq<bool>): seq<bool> {
    Increment(Invert(x))
  }

  function ShiftLeft(x: Word): Word {
    [false] + x[..WORD_BITS - 1]
  }

  // idx2bit
  function Bit(i: nat): Word
    requires i < WORD_BITS
  {
    ZERO[i := true]
  }

  // mark_smallmap, mark_treemap
  function Mark(x: Word, i: nat): Word
    requires i < WORD_BITS
  {
    x[i := true]
  }

  // clear_smallmap, clear_treemap
  function Clear(x: Word, i: nat): Word
    requires i < WORD_BITS
  {
    x[i := false]
  }

  // least_bit
  function LeastBit(x: Word): Word {
    And(x, Negate(x))
  }

  // left_bits
  function LeftBits(x: Word): Word {
    Or(ShiftLeft(x), Negate(ShiftLeft(x)))
  }

  ghost predicate SomeBelow(x: seq<bool>, j: nat) {
    exists i :: 0 <= i < j && i < |x| && x[i]
  }

  lemma {:induction false} IncrementAt(x: seq<bool>, j: nat)
    requires j < |x|
    ensures Increment(x)[j] == if forall i :: 0 <= i < j ==> x[i] then !x[j] else x[j]
  {
    if j > 0 {
      var rest := x[1..];
      IncrementAt(rest, j - 1);
      assert (forall i :: 0 <= i < j ==> x[i]) <==> x[0] && forall i :: 0 <= i < j - 1 ==> rest[i] by {
        if x[0] && forall i :: 0 <= i < j - 1 ==> rest[i] {
          forall i | 0 <= i < j ensures x[i] { if i > 0 { assert x[i] == rest[i - 1]; } }
        }
        if forall i :: 0 <= i < j ==> x[i] {
          forall i | 0 <= i < j - 1 ensures rest[i] { assert rest[i] == x[i + 1]; }
        }
      }
    }
  }

  // The negative of a word keeps its bits up to the lowest set one and inverts the others.
  lemma NegateAt(x: seq<bool>, j: nat)
    requires j < |x|
    ensures Negate(x)[j] == if SomeBelow(x, j) then !x[j] else x[j]
  {
    IncrementAt(Invert(x), j);
    if SomeBelow(x, j) {
      var i :| 0 <= i < j && x[i];
      assert !Invert(x)[i];
    } else {
      assert forall i :: 0 <= i < j ==> Invert(x)[i];
    }
  }

  // compute_bit2idx: the instruction that scans a word for its lowest set bit
  function BitScanForward(x: seq<bool>): (i: nat)
    requires exists j :: 0 <= j < |x| && x[j]
    ensures i < |x| && x[i] && !SomeBelow(x, i)
  {
    if x[0] then 0
    else
      assert forall j :: 0 < j < |x| ==> x[j] == x[1..][j - 1];
      1 + BitScanForward(x[1..])
  }

  // x & -x has one bit, the lowest of x, so that scanning it finds the first
  // marked bin.
  lemma LeastBitIsLowest(x: Word, j: nat)
    requires j < WORD_BITS
    ensures LeastBit(x)[j] <==> x[j] && !SomeBelow(x, j)
  {
    NegateAt(x, j);
  }

  lemma FirstMarked(x: Word)
    requires x != ZERO
    ensures exists j :: 0 <= j < WORD_BITS && LeastBit(x)[j]
    ensures var i := BitScanForward(LeastBit(x)); x[i] && !SomeBelow(x, i)
  {
    assert !(forall j :: 0 <= j < WORD_BITS ==> x[j] == ZERO[j]);
    var i := BitScanForward(x);
    LeastBitIsLowest(x, i);
    assert LeastBit(x)[i];
    LeastBitIsLowest(x, BitScanForward(LeastBit(x)));
  }

  // left_bits of one bit is the mask of all higher ones.
  lemma LeftBitsAt(i: nat, j: nat)
    requires i < WORD_BITS && j < WORD_BITS
    ensures LeftBits(Bit(i))[j] <==> j > i
  {
    var x := ShiftLeft(Bit(i));
    assert forall k :: 0 <= k < WORD_BITS ==> (x[k] <==> k == i + 1);
    NegateAt(x, j);
    if j > i + 1 {
      assert x[i + 1];
    }
  }

  function ShiftRightBy(x: Word, n: nat): Word
    requires n <= WORD_BITS
  {
    x[n..] + Zeros(n)
  }

  function ShiftLeftBy(x: Word, n: nat): Word
    requires n <= WORD_BITS
  {
    Zeros(n) + x[..WORD_BITS - n]
  }

  // The search of mspace_malloc for the next bin that is not empty.
  lemma NextMarked(x: Word, n: nat)
    requires n < WORD_BITS && !x[n]
    ensures var right := ShiftRightBy(x, n);
      var left := And(ShiftLeftBy(right, n), LeftBits(Bit(n)));
      && (right == ZERO <==> forall j :: n < j < WORD_BITS ==> !x[j])
      && (right != ZERO ==>
            && (exists j :: 0 <= j < WORD_BITS && LeastBit(left)[j])
            && var i := BitScanForward(LeastBit(left));
               n < i < WORD_BITS && x[i] && forall j :: n < j < i ==> !x[j])
  {
    var right := ShiftRightBy(x, n);
    var left: Word := And(ShiftLeftBy(right, n), LeftBits(Bit(n)));
    forall j: nat | j < WORD_BITS
      ensures left[j] <==> x[j] && j > n
    {
      LeftBitsAt(n, j);
    }
    if right != ZERO {
      assert !(forall j :: 0 <= j < WORD_BITS ==> right[j] == ZERO[j]);
      var j :| 0 <= j < WORD_BITS && right[j];
      assert left[n + j];
      FirstMarked(left);
    } else {
      forall j | n < j < WORD_BITS
        ensures !x[j]
      {
        assert right[j - n] == ZERO[j - n];
      }
    }
  }
}
