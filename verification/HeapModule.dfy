// One segment of an mspace as boundary tags describe it: consecutive chunks,
// each with a head word, and a foot behind each free one.
module HeapModule {
  import opened TreeIndex
  import opened Trie

  const ALIGNMENT: nat := 8
  const MIN_CHUNK_SIZE: nat := 32

  // The head word of a chunk: its size, whether it is in use, and whether the
  // chunk before it is.
  datatype Head = Head(size: nat, cinuse: bool, pinuse: bool)

  // heads and feet are memory, by the address of the chunk that holds the
  // word; chunks are the addresses where a chunk starts; limit is the end of top.
  datatype Heap = Heap(base: Addr, limit: nat, chunks: set<Addr>, heads: map<Addr, Head>, feet: map<Addr, nat>, top: Addr)

  // do_check_any_chunk, do_check_inuse_chunk, do_check_free_chunk
  ghost predicate ChunkOk(h: Heap, a: Addr) {
    && a in h.heads && h.base <= a && a % ALIGNMENT == 0
    && var c := h.heads[a];
    && c.size > 0 && c.size % ALIGNMENT == 0 && a + c.size <= h.limit
    && (a != h.top ==>
          && c.size >= MIN_CHUNK_SIZE
          && a + c.size in h.chunks && a + c.size in h.heads && h.heads[a + c.size].pinuse == c.cinuse)
    && (!c.cinuse ==> c.pinuse)
    && (!c.pinuse ==> BehindFree(h, a))
  }

  // The chunk before a is free, and its foot says where it starts.
  ghost predicate BehindFree(h: Heap, a: Addr) {
    && a in h.feet && h.feet[a] <= a
    && var q := a - h.feet[a];
       q in h.chunks && q in h.heads && q < a && h.heads[q].size == h.feet[a] && !h.heads[q].cinuse
  }

  ghost predicate Disjoint(h: Heap, a: Addr, b: Addr) {
    a < b ==> a in h.heads && a + h.heads[a].size <= b
  }

  ghost predicate TopOk(h: Heap) {
    && h.top in h.chunks && h.top in h.heads
    && !h.heads[h.top].cinuse && h.top + h.heads[h.top].size == h.limit
  }

  ghost predicate HeapOk(h: Heap) {
    && 0 < h.base && h.limit < SIZE_T_RANGE && h.base in h.chunks && h.base in h.heads && h.heads[h.base].pinuse
    && TopOk(h)
    && (forall a {:trigger ChunkOk(h, a)} :: a in h.chunks ==> ChunkOk(h, a))
    && forall a, b {:trigger Disjoint(h, a, b)} :: a in h.chunks && b in h.chunks ==> Disjoint(h, a, b)
  }

  ghost function FreeChunks(h: Heap): (free: set<(Addr, nat)>)
    ensures forall c :: c in free <==> c.0 in h.chunks && c.0 in h.heads && !h.heads[c.0].cinuse && h.heads[c.0].size == c.1
  {
    set a | a in h.chunks && a in h.heads && !h.heads[a].cinuse :: (a, h.heads[a].size)
  }

  ghost function LiveChunks(h: Heap): (live: set<(Addr, nat)>)
    ensures forall c :: c in live <==> c.0 in h.chunks && c.0 in h.heads && h.heads[c.0].cinuse && h.heads[c.0].size == c.1
  {
    set a | a in h.chunks && a in h.heads && h.heads[a].cinuse :: (a, h.heads[a].size)
  }

  // ----- what the tags say about neighbours -----

  // next_pinuse, prev_chunk and the foot agree.
  lemma FootIsSize(h: Heap, a: Addr)
    requires HeapOk(h) && a in h.chunks && a != h.top
    ensures a in h.heads
    ensures var n := a + h.heads[a].size;
      && n in h.heads && (h.heads[n].pinuse <==> h.heads[a].cinuse)
      && (!h.heads[a].cinuse ==> n in h.feet && h.feet[n] == h.heads[a].size && h.heads[n].cinuse)
  {
    assert ChunkOk(h, a);
    var n := a + h.heads[a].size;
    assert ChunkOk(h, n);
    if !h.heads[a].cinuse {
      var q := n - h.feet[n];
      assert ChunkOk(h, q);
      assert Disjoint(h, a, q) && Disjoint(h, q, a);
    }
  }

  // Walking from chunk to chunk from the base meets every address of the segment.
  lemma {:induction false} Reaches(h: Heap, a: Addr, x: nat) returns (c: Addr)
    requires HeapOk(h) && a in h.chunks && a <= x < h.limit
    ensures c in h.chunks && c in h.heads && c <= x < c + h.heads[c].size
    decreases h.limit - a
  {
    assert ChunkOk(h, a);
    if x < a + h.heads[a].size {
      c := a;
    } else {
      c := Reaches(h, a + h.heads[a].size, x);
    }
  }

  // Every address of the segment lies in exactly one chunk.
  lemma ChunksTile(h: Heap, x: nat) returns (c: Addr)
    requires HeapOk(h) && h.base <= x < h.limit
    ensures c in h.chunks && c in h.heads && c <= x < c + h.heads[c].size
    ensures forall d :: d in h.chunks && d in h.heads && d <= x < d + h.heads[d].size ==> d == c
  {
    c := Reaches(h, h.base, x);
    forall d | d in h.chunks && d in h.heads && d <= x < d + h.heads[d].size
      ensures d == c
    {
      assert Disjoint(h, c, d) && Disjoint(h, d, c);
    }
  }

  // Two chunks, live or free, share no address.
  lemma ChunksShareNothing(h: Heap, c: (Addr, nat), d: (Addr, nat))
    requires HeapOk(h) && c in LiveChunks(h) + FreeChunks(h) && d in LiveChunks(h) + FreeChunks(h) && c != d
    ensures c.0 + c.1 <= d.0 || d.0 + d.1 <= c.0
  {
    assert Disjoint(h, c.0, d.0) && Disjoint(h, d.0, c.0);
  }

  // No two free chunks touch.
  lemma FreeChunksApart(h: Heap, a: Addr, b: Addr)
    requires HeapOk(h) && a in h.chunks && b in h.chunks && a in h.heads && b in h.heads
    requires b == a + h.heads[a].size
    ensures h.heads[a].cinuse || h.heads[b].cinuse
  {
    assert ChunkOk(h, a) && ChunkOk(h, b);
  }

  // The owner of a live chunk may write all of it but its head: nothing the
  // heap relies on is there.
  lemma PayloadIsFree(h: Heap, h': Heap)
    requires HeapOk(h) && h' == h.(heads := h'.heads, feet := h'.feet)
    requires forall a :: a in h.chunks && a in h.heads ==> a in h'.heads && h'.heads[a] == h.heads[a]
    requires forall a :: a in h.chunks && a in h.heads && !h.heads[a].pinuse && a in h.feet ==> a in h'.feet && h'.feet[a] == h.feet[a]
    ensures HeapOk(h') && FreeChunks(h') == FreeChunks(h) && LiveChunks(h') == LiveChunks(h)
  {
    forall a | a in h.chunks
      ensures a in h.heads
    {
      assert ChunkOk(h, a);
    }
    forall a {:trigger ChunkOk(h', a)} | a in h.chunks
      ensures ChunkOk(h', a)
    {
      assert ChunkOk(h, a);
      if a != h.top {
        assert ChunkOk(h, a + h.heads[a].size);
      }
    }
    forall a, b {:trigger Disjoint(h', a, b)} | a in h.chunks && b in h.chunks
      ensures Disjoint(h', a, b)
    {
      assert Disjoint(h, a, b);
    }
  }

  // ----- the writes of malloc and free -----

  // set_inuse_and_pinuse on a whole free chunk
  function Claim(h: Heap, p: Addr): Heap
    requires p in h.heads && p + h.heads[p].size in h.heads
  {
    var s := h.heads[p].size;
    var m := h.heads[p := Head(s, true, true)];
    if p + s !in m then h else
    h.(heads := m[p + s := m[p + s].(pinuse := true)])
  }

  // A free chunk cut in two, the first part in use.
  function Split(h: Heap, p: Addr, nb: nat, rsize: nat): Heap {
    h.(chunks := h.chunks + {p + nb},
       heads := h.heads[p := Head(nb, true, true)][p + nb := Head(rsize, false, true)],
       feet := h.feet[p + nb + rsize := rsize])
  }

  // Top cut in two, the first part in use.
  function SplitTop(h: Heap, nb: nat, rsize: nat): Heap {
    h.(chunks := h.chunks + {h.top + nb},
       heads := h.heads[h.top + nb := Head(rsize, false, true)][h.top := Head(nb, true, true)],
       top := h.top + nb)
  }

  // A live chunk seen together with the free chunk before it.
  function MergeBack(h: Heap, p: Addr): Heap
    requires p in h.heads && p in h.feet && h.feet[p] <= p
  {
    var q := p - h.feet[p];
    h.(chunks := h.chunks - {p}, heads := h.heads[q := Head(h.feet[p] + h.heads[p].size, true, true)])
  }

  // set_free_with_pinuse
  function Release(h: Heap, p: Addr, s: nat): Heap
    requires p + s in h.heads
  {
    var m := h.heads[p + s := h.heads[p + s].(pinuse := false)];
    h.(heads := m[p := Head(s, false, true)], feet := h.feet[p + s := s])
  }

  // set_size_and_pinuse_of_free_chunk over a live chunk and the free one after it
  function MergeForward(h: Heap, p: Addr, n: Addr, s: nat): Heap {
    h.(chunks := h.chunks - {n}, heads := h.heads[p := Head(s, false, true)], feet := h.feet[p + s := s])
  }

  // A live chunk before top becomes part of top.
  function MergeTop(h: Heap, p: Addr, s: nat): Heap {
    h.(chunks := h.chunks - {h.top}, heads := h.heads[p := Head(s, false, true)], top := p)
  }

  ghost predicate IsFree(h: Heap, p: Addr) {
    p in h.chunks && p in h.heads && !h.heads[p].cinuse
  }

  ghost predicate IsLive(h: Heap, p: Addr) {
    p in h.chunks && p in h.heads && h.heads[p].cinuse
  }

  lemma ClaimOk(h: Heap, p: Addr)
    requires HeapOk(h) && IsFree(h, p) && p != h.top
    ensures p + h.heads[p].size in h.heads
    ensures HeapOk(Claim(h, p))
  {
    assert ChunkOk(h, p);
    var n := p + h.heads[p].size;
    var h' := Claim(h, p);
    forall a {:trigger ChunkOk(h', a)} | a in h'.chunks
      ensures ChunkOk(h', a)
    {
      assert ChunkOk(h, a);
      assert Disjoint(h, p, a) && Disjoint(h, a, p);
    }
    forall a, b {:trigger Disjoint(h', a, b)} | a in h'.chunks && b in h'.chunks
      ensures Disjoint(h', a, b)
    {
      assert Disjoint(h, a, b);
    }
  }

  lemma ClaimMoves(h: Heap, p: Addr)
    requires HeapOk(h) && IsFree(h, p) && p != h.top && p + h.heads[p].size in h.heads
    ensures FreeChunks(Claim(h, p)) == FreeChunks(h) - {(p, h.heads[p].size)}
    ensures LiveChunks(Claim(h, p)) == LiveChunks(h) + {(p, h.heads[p].size)}
  {
    assert ChunkOk(h, p);
  }

  lemma CutIsNew(h: Heap, p: Addr, nb: nat)
    requires HeapOk(h) && p in h.chunks && p in h.heads && 0 < nb < h.heads[p].size
    ensures p + nb !in h.chunks
  {
    ChunksDisjoint(h, p, p + nb);
  }

  lemma ChunksDisjoint(h: Heap, a: Addr, b: Addr)
    requires HeapOk(h)
    ensures a in h.chunks && b in h.chunks ==> Disjoint(h, a, b)
  {
  }

  lemma SplitChunk(h: Heap, p: Addr, nb: nat, rsize: nat, a: Addr)
    requires HeapOk(h) && IsFree(h, p) && p != h.top && p + nb !in h.chunks && a in h.chunks + {p + nb}
    requires h.heads[p].size == nb + rsize && nb >= MIN_CHUNK_SIZE && rsize >= MIN_CHUNK_SIZE && nb % ALIGNMENT == 0
    ensures ChunkOk(Split(h, p, nb, rsize), a)
  {
    assert ChunkOk(h, p);
    FootIsSize(h, p);
    if a != p + nb {
      assert ChunkOk(h, a);
      assert Disjoint(h, p, a) && Disjoint(h, a, p);
    }
  }

  lemma SplitApart(h: Heap, p: Addr, nb: nat, rsize: nat, a: Addr, b: Addr)
    requires HeapOk(h) && IsFree(h, p) && p + nb !in h.chunks && h.heads[p].size == nb + rsize && nb > 0 && rsize > 0
    requires a in h.chunks + {p + nb} && b in h.chunks + {p + nb}
    ensures Disjoint(Split(h, p, nb, rsize), a, b)
  {
    hide ChunkOk, TopOk;
    if a in h.chunks && b in h.chunks {
      assert Disjoint(h, a, b);
    } else if a in h.chunks {
      assert Disjoint(h, a, p) && Disjoint(h, p, a);
    } else if b in h.chunks {
      assert Disjoint(h, p, b) && Disjoint(h, b, p);
    }
  }

  lemma SplitOk(h: Heap, p: Addr, nb: nat, rsize: nat)
    requires HeapOk(h) && IsFree(h, p) && p != h.top
    requires h.heads[p].size == nb + rsize && nb >= MIN_CHUNK_SIZE && rsize >= MIN_CHUNK_SIZE && nb % ALIGNMENT == 0
    ensures HeapOk(Split(h, p, nb, rsize))
  {
    hide ChunkOk, Disjoint;
    var h' := Split(h, p, nb, rsize);
    CutIsNew(h, p, nb);
    forall a {:trigger ChunkOk(h', a)} | a in h'.chunks
      ensures ChunkOk(h', a)
    {
      SplitChunk(h, p, nb, rsize, a);
    }
    forall a, b {:trigger Disjoint(h', a, b)} | a in h'.chunks && b in h'.chunks
      ensures Disjoint(h', a, b)
    {
      SplitApart(h, p, nb, rsize, a, b);
    }
  }

  lemma SplitMoves(h: Heap, p: Addr, nb: nat, rsize: nat)
    requires HeapOk(h) && IsFree(h, p) && p != h.top && h.heads[p].size == nb + rsize && nb > 0 && rsize > 0
    ensures p + nb !in h.chunks
    ensures FreeChunks(Split(h, p, nb, rsize)) == FreeChunks(h) - {(p, nb + rsize)} + {(p + nb, rsize)}
    ensures LiveChunks(Split(h, p, nb, rsize)) == LiveChunks(h) + {(p, nb)}
  {
    CutIsNew(h, p, nb);
  }

  lemma SplitTopChunk(h: Heap, nb: nat, rsize: nat, a: Addr)
    requires HeapOk(h) && h.heads[h.top].size == nb + rsize && rsize > 0 && nb >= MIN_CHUNK_SIZE && nb % ALIGNMENT == 0
    requires a in h.chunks + {h.top + nb} && h.top + nb !in h.chunks
    ensures ChunkOk(SplitTop(h, nb, rsize), a)
  {
    assert ChunkOk(h, h.top);
    if a != h.top + nb {
      assert ChunkOk(h, a);
      assert Disjoint(h, h.top, a) && Disjoint(h, a, h.top);
    }
  }

  lemma SplitTopApart(h: Heap, nb: nat, rsize: nat, a: Addr, b: Addr)
    requires HeapOk(h) && h.heads[h.top].size == nb + rsize && rsize > 0 && nb > 0
    requires a in h.chunks + {h.top + nb} && b in h.chunks + {h.top + nb}
    ensures Disjoint(SplitTop(h, nb, rsize), a, b)
  {
    hide BehindFree;
    ChunksDisjoint(h, a, b);
    ChunksDisjoint(h, a, h.top);
    ChunksDisjoint(h, h.top, b);
    ChunksDisjoint(h, h.top, a);
    if b in h.chunks { assert ChunkOk(h, b); }
  }

  lemma SplitTopOk(h: Heap, nb: nat, rsize: nat)
    requires HeapOk(h) && h.heads[h.top].size == nb + rsize && rsize > 0 && nb >= MIN_CHUNK_SIZE && nb % ALIGNMENT == 0
    ensures HeapOk(SplitTop(h, nb, rsize))
  {
    hide ChunkOk, Disjoint;
    var h' := SplitTop(h, nb, rsize);
    CutIsNew(h, h.top, nb);
    forall a {:trigger ChunkOk(h', a)} | a in h'.chunks
      ensures ChunkOk(h', a)
    {
      SplitTopChunk(h, nb, rsize, a);
    }
    forall a, b {:trigger Disjoint(h', a, b)} | a in h'.chunks && b in h'.chunks
      ensures Disjoint(h', a, b)
    {
      SplitTopApart(h, nb, rsize, a, b);
    }
  }

  lemma SplitTopMoves(h: Heap, nb: nat, rsize: nat)
    requires HeapOk(h) && h.heads[h.top].size == nb + rsize && nb > 0 && rsize > 0
    ensures h.top + nb !in h.chunks
    ensures FreeChunks(SplitTop(h, nb, rsize)) == FreeChunks(h) - {(h.top, nb + rsize)} + {(h.top + nb, rsize)}
    ensures LiveChunks(SplitTop(h, nb, rsize)) == LiveChunks(h) + {(h.top, nb)}
  {
    CutIsNew(h, h.top, nb);
  }

  // prev_chunk of a chunk whose pinuse bit is clear
  lemma PrevChunk(h: Heap, p: Addr)
    requires HeapOk(h) && IsLive(h, p) && !h.heads[p].pinuse
    ensures p in h.feet && h.feet[p] < p
    ensures var q := p - h.feet[p];
      && IsFree(h, q) && h.heads[q].size == h.feet[p] && q != h.top && h.heads[q].pinuse && h.base <= q
  {
    assert ChunkOk(h, p);
    assert ChunkOk(h, p - h.feet[p]);
  }

  lemma MergeBackOk(h: Heap, p: Addr)
    requires HeapOk(h) && IsLive(h, p) && !h.heads[p].pinuse
    ensures p in h.feet && h.feet[p] <= p
    ensures HeapOk(MergeBack(h, p))
  {
    PrevChunk(h, p);
    var q := p - h.feet[p];
    assert ChunkOk(h, p);
    assert ChunkOk(h, q);
    var h' := MergeBack(h, p);
    forall a {:trigger ChunkOk(h', a)} | a in h'.chunks
      ensures ChunkOk(h', a)
    {
      assert ChunkOk(h, a);
      assert Disjoint(h, q, a) && Disjoint(h, a, q) && Disjoint(h, p, a) && Disjoint(h, a, p);
    }
    forall a, b {:trigger Disjoint(h', a, b)} | a in h'.chunks && b in h'.chunks
      ensures Disjoint(h', a, b)
    {
      assert Disjoint(h, a, b) && Disjoint(h, p, b);
    }
  }

  lemma MergeBackMoves(h: Heap, p: Addr)
    requires HeapOk(h) && IsLive(h, p) && !h.heads[p].pinuse && p in h.feet && h.feet[p] <= p
    ensures var q := p - h.feet[p];
      && FreeChunks(MergeBack(h, p)) == FreeChunks(h) - {(q, h.feet[p])}
      && LiveChunks(MergeBack(h, p)) == LiveChunks(h) - {(p, h.heads[p].size)} + {(q, h.feet[p] + h.heads[p].size)}
  {
    PrevChunk(h, p);
  }

  // A live chunk is never the last one.
  lemma NextChunk(h: Heap, p: Addr)
    requires HeapOk(h) && IsLive(h, p)
    ensures var n := p + h.heads[p].size;
      && h.heads[p].size >= MIN_CHUNK_SIZE && h.heads[p].size % ALIGNMENT == 0
      && h.base <= p && n in h.chunks && n in h.heads && n != p && h.heads[n].pinuse
      && (h.heads[n].cinuse ==> n != h.top)
      && p + h.heads[p].size + h.heads[n].size <= h.limit
  {
    assert ChunkOk(h, p);
    assert ChunkOk(h, p + h.heads[p].size);
  }

  lemma ReleaseOk(h: Heap, p: Addr)
    requires HeapOk(h) && IsLive(h, p) && h.heads[p].pinuse
    requires p + h.heads[p].size in h.heads && h.heads[p + h.heads[p].size].cinuse
    ensures HeapOk(Release(h, p, h.heads[p].size))
  {
    var s := h.heads[p].size;
    NextChunk(h, p);
    var h' := Release(h, p, s);
    forall a {:trigger ChunkOk(h', a)} | a in h'.chunks
      ensures ChunkOk(h', a)
    {
      assert ChunkOk(h, a);
      assert Disjoint(h, p, a) && Disjoint(h, a, p);
    }
    forall a, b {:trigger Disjoint(h', a, b)} | a in h'.chunks && b in h'.chunks
      ensures Disjoint(h', a, b)
    {
      assert Disjoint(h, a, b);
    }
  }

  lemma ReleaseMoves(h: Heap, p: Addr)
    requires HeapOk(h) && IsLive(h, p) && p + h.heads[p].size in h.heads
    ensures FreeChunks(Release(h, p, h.heads[p].size)) == FreeChunks(h) + {(p, h.heads[p].size)}
    ensures LiveChunks(Release(h, p, h.heads[p].size)) == LiveChunks(h) - {(p, h.heads[p].size)}
  {
    NextChunk(h, p);
  }

  lemma MergeForwardChunk(h: Heap, p: Addr, a: Addr)
    requires HeapOk(h) && IsLive(h, p) && h.heads[p].pinuse
    requires p + h.heads[p].size in h.heads && IsFree(h, p + h.heads[p].size) && p + h.heads[p].size != h.top
    requires a in h.chunks && a != p + h.heads[p].size
    ensures var n := p + h.heads[p].size;
      ChunkOk(MergeForward(h, p, n, h.heads[p].size + h.heads[n].size), a)
  {
    NextChunk(h, p);
    var n := p + h.heads[p].size;
    FootIsSize(h, n);
    assert ChunkOk(h, n) && ChunkOk(h, a);
    assert Disjoint(h, p, a) && Disjoint(h, a, p) && Disjoint(h, n, a) && Disjoint(h, a, n);
  }

  lemma MergeForwardApart(h: Heap, p: Addr, a: Addr, b: Addr)
    requires HeapOk(h) && IsLive(h, p) && h.heads[p].pinuse
    requires p + h.heads[p].size in h.heads && IsFree(h, p + h.heads[p].size) && p + h.heads[p].size != h.top
    requires a in h.chunks && b in h.chunks && b != p + h.heads[p].size
    ensures var n := p + h.heads[p].size;
      Disjoint(MergeForward(h, p, n, h.heads[p].size + h.heads[n].size), a, b)
  {
    NextChunk(h, p);
    assert Disjoint(h, a, b) && Disjoint(h, p + h.heads[p].size, b);
  }

  lemma MergeForwardOk(h: Heap, p: Addr)
    requires HeapOk(h) && IsLive(h, p) && h.heads[p].pinuse
    requires p + h.heads[p].size in h.heads && IsFree(h, p + h.heads[p].size) && p + h.heads[p].size != h.top
    ensures var n := p + h.heads[p].size;
      HeapOk(MergeForward(h, p, n, h.heads[p].size + h.heads[n].size))
  {
    hide ChunkOk, Disjoint;
    NextChunk(h, p);
    var n := p + h.heads[p].size;
    var h' := MergeForward(h, p, n, h.heads[p].size + h.heads[n].size);
    forall a {:trigger ChunkOk(h', a)} | a in h'.chunks
      ensures ChunkOk(h', a)
    {
      MergeForwardChunk(h, p, a);
    }
    forall a, b {:trigger Disjoint(h', a, b)} | a in h'.chunks && b in h'.chunks
      ensures Disjoint(h', a, b)
    {
      MergeForwardApart(h, p, a, b);
    }
  }

  lemma MergeForwardMoves(h: Heap, p: Addr)
    requires HeapOk(h) && IsLive(h, p)
    requires p + h.heads[p].size in h.heads && IsFree(h, p + h.heads[p].size)
    ensures var n := p + h.heads[p].size;
      var h' := MergeForward(h, p, n, h.heads[p].size + h.heads[n].size);
      && FreeChunks(h') == FreeChunks(h) - {(n, h.heads[n].size)} + {(p, h.heads[p].size + h.heads[n].size)}
      && LiveChunks(h') == LiveChunks(h) - {(p, h.heads[p].size)}
  {
    NextChunk(h, p);
  }

  lemma MergeTopOk(h: Heap, p: Addr)
    requires HeapOk(h) && IsLive(h, p) && h.heads[p].pinuse && p + h.heads[p].size == h.top
    ensures HeapOk(MergeTop(h, p, h.heads[p].size + h.heads[h.top].size))
  {
    NextChunk(h, p);
    assert ChunkOk(h, h.top);
    var h' := MergeTop(h, p, h.heads[p].size + h.heads[h.top].size);
    forall a {:trigger ChunkOk(h', a)} | a in h'.chunks
      ensures ChunkOk(h', a)
    {
      assert ChunkOk(h, a);
      assert Disjoint(h, p, a) && Disjoint(h, a, p) && Disjoint(h, h.top, a) && Disjoint(h, a, h.top);
    }
    forall a, b {:trigger Disjoint(h', a, b)} | a in h'.chunks && b in h'.chunks
      ensures Disjoint(h', a, b)
    {
      assert Disjoint(h, a, b) && Disjoint(h, h.top, b);
    }
  }

  lemma MergeTopMoves(h: Heap, p: Addr)
    requires HeapOk(h) && IsLive(h, p) && p + h.heads[p].size == h.top
    ensures var h' := MergeTop(h, p, h.heads[p].size + h.heads[h.top].size);
      && FreeChunks(h') == FreeChunks(h) - {(h.top, h.heads[h.top].size)} + {(p, h.heads[p].size + h.heads[h.top].size)}
      && LiveChunks(h') == LiveChunks(h) - {(p, h.heads[p].size)}
  {
    NextChunk(h, p);
  }
}
