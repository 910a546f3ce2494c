// internal_memalign: an aligned chunk cut out of a larger one, with what is
// before and after it given back.
module Memalign {
  import opened TreeIndex
  import opened Trie
  import opened SmallBinsModule
  import opened TreeBinsModule
  import opened HeapModule
  import opened MspaceModule

  // ----- the bit tricks on alignments -----

  // x & y
  function BitAnd(x: nat, y: nat): nat {
    if x == 0 || y == 0 then 0 else (if x % 2 == 1 && y % 2 == 1 then 1 else 0) + 2 * BitAnd(x / 2, y / 2)
  }

  ghost predicate IsPower(x: nat) {
    exists k: nat :: x == Pow2(k)
  }

  lemma {:induction false} AndSelf(x: nat)
    ensures BitAnd(x, x) == x
  {
    if x > 0 {
      AndSelf(x / 2);
    }
  }

  // x & (x - 1) is zero for powers of two alone.
  lemma {:induction false} PowerTest(x: nat)
    requires x > 0
    ensures BitAnd(x, x - 1) == 0 <==> IsPower(x)
  {
    if x == 1 {
      assert x == Pow2(0);
    } else if x % 2 == 1 {
      assert (x - 1) / 2 == x / 2;
      AndSelf(x / 2);
      forall k
        ensures x != Pow2(k)
      {
      }
    } else {
      assert (x - 1) / 2 == x / 2 - 1;
      PowerTest(x / 2);
      assert x == 2 * (x / 2);
      if IsPower(x / 2) {
        var k: nat :| x / 2 == Pow2(k);
        assert x == Pow2(k + 1);
      }
      if IsPower(x) {
        var k: nat :| x == Pow2(k);
        assert x / 2 == Pow2(k - 1);
      }
    }
  }

  lemma {:induction false} AllOnes(m: nat, w: nat)
    requires m < Pow2(w)
    ensures BitAnd(m, Pow2(w) - 1) == m
  {
    if m > 0 {
      assert (Pow2(w) - 1) / 2 == Pow2(w - 1) - 1;
      AllOnes(m / 2, w - 1);
    }
  }

  lemma HalfMod(m: nat, p: nat)
    requires p > 0
    ensures m % (2 * p) == m % 2 + 2 * (m / 2 % p)
  {
    var q, r := m / 2 / p, m / 2 % p;
    assert m / 2 == q * p + r;
    assert m == q * (2 * p) + (2 * r + m % 2);
    Quotient(m, q, 2 * p, 2 * r + m % 2);
  }

  lemma Quotient(m: nat, q: nat, d: nat, r: nat)
    requires m == q * d + r && r < d
    ensures m % d == r
  {
    var q', r' := m / d, m % d;
    assert m == q' * d + r';
    if q' < q {
      TimesMore(q', q, d);
    } else if q < q' {
      TimesMore(q, q', d);
    }
  }

  lemma TimesMore(a: nat, b: nat, d: nat)
    requires a < b
    ensures a * d + d <= b * d
  {
    MulMono(a + 1, b, d);
  }

  // m & -2^k on words of w bits rounds m down to a multiple of 2^k.
  lemma {:induction false} MaskDown(m: nat, k: nat, w: nat)
    requires k <= w && m < Pow2(w)
    ensures Pow2(w) >= Pow2(k)
    ensures BitAnd(m, Pow2(w) - Pow2(k)) == m - m % Pow2(k)
  {
    if k == 0 {
      AllOnes(m, w);
    } else {
      MaskDown(m / 2, k - 1, w - 1);
      HalfMod(m, Pow2(k - 1));
      assert (Pow2(w) - Pow2(k)) / 2 == Pow2(w - 1) - Pow2(k - 1);
    }
  }

  // The n-th value of the loop variable of internal_memalign, which starts at
  // 16 and is shifted to the left in 64 bits.
  function Doubled(n: nat): (b: nat)
    ensures b < SIZE_T_RANGE
  {
    if n == 0 then 2 * ALIGNMENT else 2 * Doubled(n - 1) % SIZE_T_RANGE
  }

  function AtLeastChunk(alignment: nat): nat {
    if alignment < MIN_CHUNK_SIZE then MIN_CHUNK_SIZE else alignment
  }

  // The rounding comes to an end: there is none to do, or the loop variable
  // reaches the alignment.
  ghost predicate RoundingEnds(alignment: nat) {
    || alignment <= ALIGNMENT
    || BitAnd(AtLeastChunk(alignment), AtLeastChunk(alignment) - 1) == 0
    || exists n :: Doubled(n) >= AtLeastChunk(alignment)
  }

  lemma {:induction false} PowGrows(j: nat, k: nat)
    requires j <= k
    ensures Pow2(j) <= Pow2(k)
  {
    if j < k {
      PowGrows(j, k - 1);
    }
  }

  lemma PowStep(k: nat)
    ensures Pow2(k + 1) == 2 * Pow2(k) && Pow2(0) == 1
  {
  }

  lemma PowFits(k: nat)
    ensures k <= 63 ==> Pow2(k) <= SIZE_T_RANGE / 2
    ensures k == 63 ==> Pow2(k) == SIZE_T_RANGE / 2
    ensures k > 63 ==> Pow2(k) >= SIZE_T_RANGE
    ensures k == 4 ==> Pow2(k) == 2 * ALIGNMENT
  {
    Pow64();
    Powers();
    hide Pow2;
    if k <= 63 {
      PowGrows(k, 63);
    } else {
      PowGrows(64, k);
    }
  }

  lemma {:induction false} DoubledIs(n: nat)
    ensures Doubled(n) == if n < 60 then Pow2(n + 4) else 0
  {
    hide Pow2;
    PowFits(n + 4);
    if n > 0 {
      DoubledIs(n - 1);
      PowStep(n + 3);
      PowFits(n + 3);
    }
  }

  // Above 2^63 the variable is shifted out before it gets there.
  lemma RoundingEndsIff(alignment: SizeT)
    ensures RoundingEnds(alignment) <==> alignment <= SIZE_T_RANGE / 2
  {
    hide Pow2, Doubled, BitAnd;
    var a := AtLeastChunk(alignment);
    if alignment <= SIZE_T_RANGE / 2 {
      DoubledIs(59);
      PowFits(63);
      assert Doubled(59) >= a;
    } else {
      forall n: nat
        ensures Doubled(n) < a
      {
        DoubledIs(n);
        PowFits(n + 4);
      }
      NotPower(alignment);
    }
  }

  lemma NotPower(x: nat)
    requires SIZE_T_RANGE / 2 < x < SIZE_T_RANGE
    ensures BitAnd(x, x - 1) != 0
  {
    hide Pow2, BitAnd;
    PowerTest(x);
    forall k: nat
      ensures x != Pow2(k)
    {
      PowFits(k);
    }
  }

  // The first alignment for which the loop goes on for ever.
  lemma RoundingLoopsForever(n: nat)
    ensures Doubled(n) < SIZE_T_RANGE / 2 + 1 && !RoundingEnds(SIZE_T_RANGE / 2 + 1)
  {
    RoundingEndsIff(SIZE_T_RANGE / 2 + 1);
    assert AtLeastChunk(SIZE_T_RANGE / 2 + 1) == SIZE_T_RANGE / 2 + 1;
  }

  // The power of two the loop of internal_memalign finds.
  method RoundAlignment(alignment: SizeT) returns (a: SizeT)
    requires ALIGNMENT < alignment && RoundingEnds(alignment)
    ensures IsPower(a) && a % MIN_CHUNK_SIZE == 0 && alignment <= a
    ensures a < 2 * alignment || a == MIN_CHUNK_SIZE
    ensures IsPower(alignment) && alignment >= MIN_CHUNK_SIZE ==> a == alignment
  {
    hide Pow2, BitAnd, Doubled, IsPower;
    a := if alignment < MIN_CHUNK_SIZE then MIN_CHUNK_SIZE else alignment;
    RoundingEndsIff(alignment);
    PowerTest(a);
    if BitAnd(a, a - 1) != 0 {
      var b: SizeT := 2 * ALIGNMENT;
      ghost var k: nat := 4;
      PowFits(4);
      while b < a
        invariant b == Pow2(k) && k >= 4
        invariant k > 4 ==> b < 2 * a
        decreases a - b
      {
        PowStep(k);
        PowFits(k);
        PowFits(k + 1);
        b := 2 * b % SIZE_T_RANGE;
        k := k + 1;
      }
      PowerIs(k);
      a := b;
    }
    LargePower(a);
  }

  lemma PowerIs(k: nat)
    ensures IsPower(Pow2(k))
  {
  }

  lemma LargePower(a: nat)
    requires IsPower(a) && a >= MIN_CHUNK_SIZE
    ensures a % MIN_CHUNK_SIZE == 0
  {
    Powers();
    var k: nat :| a == Pow2(k);
    hide Pow2;
    if k < 5 {
      PowGrows(k, 4);
    } else {
      PowAdd(k - 5, 5);
    }
  }

  // ----- splitting a live chunk -----

  // Two uses of set_inuse: [p, p + lead) and the rest are live chunks.
  function Part(h: Heap, p: Addr, lead: nat, rest: nat): Heap
    requires p in h.heads
  {
    h.(chunks := h.chunks + {p + lead},
       heads := h.heads[p + lead := Head(rest, true, true)][p := Head(lead, true, h.heads[p].pinuse)])
  }

  lemma PartChunk(h: Heap, p: Addr, lead: nat, rest: nat, a: Addr)
    requires HeapOk(h) && IsLive(h, p) && h.heads[p].size == lead + rest && p + lead !in h.chunks
    requires lead >= MIN_CHUNK_SIZE && rest >= MIN_CHUNK_SIZE && lead % ALIGNMENT == 0
    requires a in h.chunks + {p + lead}
    ensures ChunkOk(Part(h, p, lead, rest), a)
  {
    assert ChunkOk(h, p);
    NextChunk(h, p);
    if a != p + lead {
      assert ChunkOk(h, a);
      assert Disjoint(h, p, a) && Disjoint(h, a, p);
    }
  }

  lemma PartApart(h: Heap, p: Addr, lead: nat, rest: nat, a: Addr, b: Addr)
    requires HeapOk(h) && IsLive(h, p) && h.heads[p].size == lead + rest && p + lead !in h.chunks
    requires lead > 0 && rest > 0 && a in h.chunks + {p + lead} && b in h.chunks + {p + lead}
    ensures Disjoint(Part(h, p, lead, rest), a, b)
  {
    hide ChunkOk, TopOk;
    if a in h.chunks && b in h.chunks {
      assert Disjoint(h, a, b);
    } else if a in h.chunks {
      assert Disjoint(h, a, p) && Disjoint(h, p, a);
    } else if b in h.chunks {
      assert Disjoint(h, p, b) && Disjoint(h, b, p);
    }
  }

  lemma PartOk(h: Heap, p: Addr, lead: nat, rest: nat)
    requires HeapOk(h) && IsLive(h, p) && h.heads[p].size == lead + rest
    requires lead >= MIN_CHUNK_SIZE && rest >= MIN_CHUNK_SIZE && lead % ALIGNMENT == 0
    ensures HeapOk(Part(h, p, lead, rest))
  {
    hide ChunkOk, Disjoint;
    CutIsNew(h, p, lead);
    var h' := Part(h, p, lead, rest);
    forall a {:trigger ChunkOk(h', a)} | a in h'.chunks
      ensures ChunkOk(h', a)
    {
      PartChunk(h, p, lead, rest, a);
    }
    forall a, b {:trigger Disjoint(h', a, b)} | a in h'.chunks && b in h'.chunks
      ensures Disjoint(h', a, b)
    {
      PartApart(h, p, lead, rest, a, b);
    }
  }

  lemma PartMoves(h: Heap, p: Addr, lead: nat, rest: nat)
    requires HeapOk(h) && IsLive(h, p) && h.heads[p].size == lead + rest && lead > 0 && rest > 0
    ensures p + lead !in h.chunks
    ensures FreeChunks(Part(h, p, lead, rest)) == FreeChunks(h)
    ensures LiveChunks(Part(h, p, lead, rest)) == LiveChunks(h) - {(p, lead + rest)} + {(p, lead), (p + lead, rest)}
  {
    CutIsNew(h, p, lead);
  }

  // The chunk that is divided, and the live chunks before and after.
  lemma Dividing(h: Heap, p: Addr, lead: nat, s: nat, live: set<(Addr, nat)>)
    requires HeapOk(h) && LiveChunks(h) == live + {(p, s)} && NewTo(live, p)
    requires MIN_CHUNK_SIZE <= lead <= s - MIN_CHUNK_SIZE && lead % ALIGNMENT == 0
    ensures p in h.heads && p + s in h.heads && h.heads[p + s].pinuse && p < p + lead < p + s
    ensures Part(h, p, lead, s - lead) == h.(chunks := h.chunks + {p + lead},
      heads := h.heads[p + lead := Head(s - lead, true, true)][p := Head(lead, true, h.heads[p].pinuse)])
    ensures HeapOk(Part(h, p, lead, s - lead)) && FreeChunks(Part(h, p, lead, s - lead)) == FreeChunks(h)
    ensures LiveChunks(Part(h, p, lead, s - lead)) == live + {(p, lead), (p + lead, s - lead)}
    ensures NewTo(live, p + lead)
  {
    assert (p, s) in LiveChunks(h);
    assert forall c :: c in live ==> c in LiveChunks(h);
    hide HeapOk, FreeChunks;
    PartOk(h, p, lead, s - lead);
    PartMoves(h, p, lead, s - lead);
    NextChunk(h, p);
  }

  // The four writes.
  lemma HeadsDivided(heads: map<Addr, Head>, p: Addr, n: Addr, end: Addr, lead: nat, rest: nat, stale: bool)
    requires p < n < end && p in heads && end in heads && heads[end].pinuse
    ensures var h1 := heads[n := Head(rest, true, stale)];
      var h2 := h1[end := h1[end].(pinuse := true)];
      var h3 := h2[p := Head(lead, true, h2[p].pinuse)];
      h3[n := h3[n].(pinuse := true)] == heads[n := Head(rest, true, true)][p := Head(lead, true, heads[p].pinuse)]
  {
  }

  // Both set_inuse writes, with whatever the word at the cut held before;
  // the other live chunks are those given.
  method Divide(ms: Mspace, p: Addr, lead: nat, s: nat, ghost live: set<(Addr, nat)>)
    requires ms.Valid() && ms.LiveSet() == live + {(p, s)} && NewTo(live, p)
    requires MIN_CHUNK_SIZE <= lead <= s - MIN_CHUNK_SIZE && lead % ALIGNMENT == 0
    modifies ms`heads, ms`chunks
    ensures ms.Valid() && ms.LiveSet() == live + {(p, lead), (p + lead, s - lead)}
    ensures NewTo(live, p + lead) && p + lead in ms.heads && ms.heads[p + lead].size == s - lead
  {
    hide *;
    ms.Parts();
    ghost var h := ms.Layout();
    Dividing(h, p, lead, s, live);
    var n, end, stale: bool := p + lead, p + s, *;
    HeadsDivided(ms.heads, p, n, end, lead, s - lead, stale);
    ms.heads := ms.heads[n := Head(s - lead, true, stale)];
    ms.heads := ms.heads[end := ms.heads[end].(pinuse := true)];
    ms.heads := ms.heads[p := Head(lead, true, ms.heads[p].pinuse)];
    ms.heads := ms.heads[n := ms.heads[n].(pinuse := true)];
    ms.chunks := ms.chunks + {n};
    ms.LayoutIs();
    assert ms.Layout() == Part(h, p, lead, s - lead);
    ms.Whole();
  }

  // internal_free of a part that is not needed.
  method GiveBack(ms: Mspace, p: Addr, s: nat, ghost live: set<(Addr, nat)>)
    requires ms.Valid() && ms.LiveSet() == live + {(p, s)} && NewTo(live, p)
    modifies ms`heads, ms`feet, ms`chunks, ms`dv, ms`dvsize, ms`top, ms`topsize, ms.small, ms.large, ms.large.bins
    ensures ms.Valid() && ms.LiveSet() == live
  {
    hide BinsOk, ListsOk, HeapOk, AllChunks, Listed, FreeChunks, LiveChunks, Accounted;
    assert (p, s) in ms.LiveSet();
    ms.Free(p + TWO_SIZE_T_SIZES);
  }

  // The aligned spot for a chunk at m - 16 of s bytes, as an offset from the chunk.
  function LeadSize(m: nat, a: nat): nat
    requires m + a < SIZE_T_RANGE && m >= TWO_SIZE_T_SIZES && a > 0
  {
    var up := BitAnd(m + a - 1, SIZE_T_RANGE - a);
    if up < m then 0
    else if up - m >= MIN_CHUNK_SIZE then up - m else up - m + a
  }

  lemma Euclid(m: nat, a: nat)
    requires a > 0
    ensures m == (m / a) * a + m % a && m % a < a
  {
  }

  lemma NextMultiple(q: nat, a: nat)
    ensures (q + 1) * a == q * a + a
  {
  }

  lemma UpMultiple(m: nat, a: nat)
    requires a > 0 && m % a != 0
    ensures var up := m + a - 1 - (m + a - 1) % a;
      && up == m + a - m % a && up % a == 0 && (up + a) % a == 0
  {
    var q, r := m / a, m % a;
    Euclid(m, a);
    NextMultiple(q, a);
    NextMultiple(q + 1, a);
    Quotient(m + a - 1, q + 1, a, r - 1);
    Quotient((q + 1) * a, q + 1, a, 0);
    Quotient((q + 2) * a, q + 2, a, 0);
  }

  lemma WordRange()
    ensures Pow2(64) == SIZE_T_RANGE
  {
    Pow64();
  }

  lemma LeadFrom(m: nat, a: nat, d: nat)
    requires m >= TWO_SIZE_T_SIZES && m + a < SIZE_T_RANGE && 0 < d <= a
    requires BitAnd(m + a - 1, SIZE_T_RANGE - a) == m + d
    ensures LeadSize(m, a) == if d >= MIN_CHUNK_SIZE then d else d + a
  {
    hide BitAnd;
  }

  lemma RoundedUp(m: nat, a: nat)
    requires IsPower(a) && m % a != 0 && m + a < SIZE_T_RANGE
    ensures BitAnd(m + a - 1, SIZE_T_RANGE - a) == m + a - 1 - (m + a - 1) % a
  {
    var k: nat :| a == Pow2(k);
    hide BitAnd, Pow2;
    PowFits(k);
    WordRange();
    MaskDown(m + a - 1, k, 64);
  }

  lemma PowerPositive(a: nat)
    requires IsPower(a)
    ensures a > 0
  {
  }

  lemma LeadValue(m: nat, a: nat)
    requires IsPower(a) && m % a != 0 && m >= TWO_SIZE_T_SIZES && m + a < SIZE_T_RANGE
    ensures var d := a - m % a;
      && LeadSize(m, a) == (if d >= MIN_CHUNK_SIZE then d else d + a)
      && (m + LeadSize(m, a)) % a == 0
  {
    hide *;
    PowerPositive(a);
    RoundedUp(m, a);
    UpMultiple(m, a);
    var d := a - m % a;
    LeadFrom(m, a, d);
    assert m + (d + a) == m + d + a;
  }

  // The padded request always leaves an aligned spot: the leader is large
  // enough to be a chunk and what remains is large enough for the request.
  lemma AlignedSpot(m: nat, a: nat, s: nat, nb: nat)
    requires IsPower(a) && a % MIN_CHUNK_SIZE == 0 && m % ALIGNMENT == 0 && m % a != 0 && m >= TWO_SIZE_T_SIZES
    requires s >= nb + a + MIN_CHUNK_SIZE && m + s < SIZE_T_RANGE + TWO_SIZE_T_SIZES
    ensures m + a < SIZE_T_RANGE
    ensures var lead := LeadSize(m, a);
      && MIN_CHUNK_SIZE <= lead && lead % ALIGNMENT == 0 && (m + lead) % a == 0 && nb + ALIGNMENT <= s - lead
  {
    hide LeadSize, BitAnd;
    LeadValue(m, a);
    ModDivides(m, a);
    EightApart(a, m % a);
  }

  lemma EightApart(a: nat, r: nat)
    requires a % ALIGNMENT == 0 && r % ALIGNMENT == 0 && 0 < r < a
    ensures (a - r) % ALIGNMENT == 0 && (a - r + a) % ALIGNMENT == 0 && a - r >= ALIGNMENT && r >= ALIGNMENT
  {
  }

  lemma ModDivides(m: nat, a: nat)
    requires a > 0 && a % MIN_CHUNK_SIZE == 0 && m % ALIGNMENT == 0
    ensures m % a % ALIGNMENT == 0 && a % ALIGNMENT == 0
  {
    var q, r, b := m / a, m % a, a / ALIGNMENT;
    assert a == ALIGNMENT * b;
    Eights(m, q, b, a, r);
  }

  lemma Eights(m: nat, q: nat, b: nat, a: nat, r: nat)
    requires m == q * a + r && a == ALIGNMENT * b && m % ALIGNMENT == 0
    ensures r % ALIGNMENT == 0
  {
    assert q * a == ALIGNMENT * (q * b);
    EightLess(m, q * b);
  }

  lemma EightLess(m: nat, t: nat)
    requires m % ALIGNMENT == 0
    ensures (m - ALIGNMENT * t) % ALIGNMENT == 0
  {
  }

  // internal_memalign
  method Memalign(ms: Mspace, alignment: SizeT, bytes: SizeT) returns (mem: Addr, ghost a: nat, ghost s: nat)
    requires ms.Valid() && RoundingEnds(alignment)
    modifies ms`heads, ms`feet, ms`chunks, ms`dv, ms`dvsize, ms`top, ms`topsize, ms.small, ms.large, ms.large.bins
    ensures ms.Valid() && IsPower(a) && alignment <= a
    ensures a < 2 * alignment || a == if alignment <= ALIGNMENT then ALIGNMENT else MIN_CHUNK_SIZE
    ensures mem == 0 <==>
      || (alignment > ALIGNMENT && bytes >= MAX_REQUEST - a)
      || !SomeFits(old(ms.FreeSet()), old(ms.top), RequestSize(if alignment <= ALIGNMENT then bytes else Padded(bytes, a)))
    ensures mem == 0 ==> ms.LiveSet() == old(ms.LiveSet()) && ms.FreeSet() == old(ms.FreeSet())
    ensures mem != 0 ==> mem % a == 0 && RequestSize(bytes) <= s <= RequestSize(bytes) + MIN_CHUNK_SIZE
    ensures mem != 0 ==> mem >= TWO_SIZE_T_SIZES && ms.LiveSet() == old(ms.LiveSet()) + {(mem - TWO_SIZE_T_SIZES, s)}
    ensures mem != 0 ==> NewTo(old(ms.LiveSet()), mem - TWO_SIZE_T_SIZES)
  {
    hide ms.Valid, GoodChoice, FreeChunks, LiveChunks, BitAnd;
    ghost var from;
    if alignment <= ALIGNMENT {
      mem, from, s := ms.Malloc(bytes);
      a := ALIGNMENT;
      EightIsPower();
    } else {
      var al := RoundAlignment(alignment);
      a := al;
      mem, s := 0, 0;
      if bytes < MAX_REQUEST - al {
        mem, s := MallocAligned(ms, al, bytes);
      }
    }
  }

  // The request, enlarged so that it has room for the alignment.
  function Padded(bytes: nat, a: nat): nat {
    RequestSize(bytes) + a + MIN_CHUNK_SIZE - CHUNK_OVERHEAD
  }

  method MallocAligned(ms: Mspace, a: SizeT, bytes: SizeT) returns (mem: Addr, ghost s: nat)
    requires ms.Valid() && IsPower(a) && a % MIN_CHUNK_SIZE == 0 && bytes < MAX_REQUEST - a
    modifies ms`heads, ms`feet, ms`chunks, ms`dv, ms`dvsize, ms`top, ms`topsize, ms.small, ms.large, ms.large.bins
    ensures ms.Valid()
    ensures mem == 0 <==> !SomeFits(old(ms.FreeSet()), old(ms.top), RequestSize(Padded(bytes, a)))
    ensures mem == 0 ==> ms.LiveSet() == old(ms.LiveSet()) && ms.FreeSet() == old(ms.FreeSet())
    ensures mem != 0 ==> mem % a == 0 && RequestSize(bytes) <= s <= RequestSize(bytes) + MIN_CHUNK_SIZE
    ensures mem != 0 ==> mem >= TWO_SIZE_T_SIZES && ms.LiveSet() == old(ms.LiveSet()) + {(mem - TWO_SIZE_T_SIZES, s)}
    ensures mem != 0 ==> NewTo(old(ms.LiveSet()), mem - TWO_SIZE_T_SIZES)
  {
    hide ms.Valid, GoodChoice, FreeChunks, LiveChunks;
    var nb := RequestSize(bytes);
    var req := Padded(bytes, a);
    RequestSizes(bytes);
    RequestSizes(req);
    ghost var from;
    ghost var live := ms.LiveSet();
    mem, from, s := ms.Malloc(req);
    if mem != 0 {
      mem, s := PlaceAligned(ms, mem, a, nb, s, live);
    }
  }

  lemma SizeInHead(ms: Mspace, p: Addr, s: nat)
    requires (p, s) in ms.LiveSet()
    ensures p in ms.heads && ms.heads[p].size == s
  {
  }

  // The part of internal_memalign after the allocation.
  method PlaceAligned(ms: Mspace, m: Addr, a: SizeT, nb: nat, ghost s0: nat, ghost live: set<(Addr, nat)>)
    returns (mem: Addr, ghost s: nat)
    requires ms.Valid() && m > TWO_SIZE_T_SIZES && ms.LiveSet() == live + {(m - TWO_SIZE_T_SIZES, s0)}
    requires NewTo(live, m - TWO_SIZE_T_SIZES)
    requires IsPower(a) && a % MIN_CHUNK_SIZE == 0 && m % ALIGNMENT == 0 && m + s0 < SIZE_T_RANGE + TWO_SIZE_T_SIZES
    requires s0 >= nb + a + MIN_CHUNK_SIZE && nb >= MIN_CHUNK_SIZE && nb % ALIGNMENT == 0
    modifies ms`heads, ms`feet, ms`chunks, ms`dv, ms`dvsize, ms`top, ms`topsize, ms.small, ms.large, ms.large.bins
    ensures ms.Valid() && mem % a == 0 && nb <= s <= nb + MIN_CHUNK_SIZE && mem >= TWO_SIZE_T_SIZES
    ensures ms.LiveSet() == live + {(mem - TWO_SIZE_T_SIZES, s)} && NewTo(live, mem - TWO_SIZE_T_SIZES)
  {
    hide ms.Valid, FreeChunks, LiveChunks, BitAnd;
    var p: Addr := m - TWO_SIZE_T_SIZES;
    var leader := p;
    mem := m;
    assert (p, s0) in ms.LiveSet();
    SizeInHead(ms, p, s0);
    var size: nat := ms.heads[p].size;
    ghost var before: set<(Addr, nat)> := {};
    if m % a != 0 {
      AlignedSpot(m, a, size, nb);
      var lead: nat := LeadSize(m, a);
      Divide(ms, p, lead, size, live);
      before := {(p, lead)};
      mem := m + lead;
      p := p + lead;
      size := size - lead;
    }
    s := TrimEnd(ms, p, nb, size, leader, live, before);
  }

  // The spare room at the end is cut off; then leader and trailer are given back.
  method TrimEnd(ms: Mspace, p: Addr, nb: nat, size: nat, leader: Addr, ghost live: set<(Addr, nat)>, ghost before: set<(Addr, nat)>)
    returns (ghost s: nat)
    requires ms.Valid() && ms.LiveSet() == live + before + {(p, size)} && NewTo(live, p) && NewTo(live, leader)
    requires leader <= p && before == if leader == p then {} else {(leader, p - leader)}
    requires nb <= size && nb >= MIN_CHUNK_SIZE && nb % ALIGNMENT == 0
    modifies ms`heads, ms`feet, ms`chunks, ms`dv, ms`dvsize, ms`top, ms`topsize, ms.small, ms.large, ms.large.bins
    ensures ms.Valid() && nb <= s <= nb + MIN_CHUNK_SIZE && ms.LiveSet() == live + {(p, s)}
  {
    hide ms.Valid, FreeChunks, LiveChunks;
    s := size;
    ghost var after: set<(Addr, nat)> := {};
    if size > nb + MIN_CHUNK_SIZE {
      Divide(ms, p, nb, size, live + before);
      s := nb;
      after := {(p + nb, size - nb)};
    }
    assert ms.LiveSet() == live + after + {(p, s)} + before;
    if leader != p {
      GiveBack(ms, leader, p - leader, live + after + {(p, s)});
    }
    if size > nb + MIN_CHUNK_SIZE {
      assert ms.LiveSet() == live + {(p, s)} + {(p + nb, size - nb)};
      GiveBack(ms, p + nb, size - nb, live + {(p, s)});
    }
  }

  lemma EightIsPower()
    ensures IsPower(ALIGNMENT)
  {
    Powers();
    assert Pow2(3) == ALIGNMENT;
  }
}
