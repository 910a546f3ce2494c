// mspace_malloc and mspace_free on one segment, with a system that refuses
// further memory.
module MspaceModule {
  import opened Bits
  import opened TreeIndex
  import opened Trie
  import opened SmallBinsModule
  import opened BestFit
  import opened TreeBinsModule
  import opened HeapModule
  import TrieMemory

  const CHUNK_OVERHEAD: nat := 8
  const TWO_SIZE_T_SIZES: nat := 16
  const MIN_REQUEST: nat := MIN_CHUNK_SIZE - CHUNK_OVERHEAD - 1
  const MAX_SMALL_REQUEST: nat := MIN_LARGE_SIZE - 1 - (ALIGNMENT - 1) - CHUNK_OVERHEAD
  const MAX_REQUEST: nat := SIZE_T_RANGE - 4 * MIN_CHUNK_SIZE
  const MAX_SIZE_T: nat := SIZE_T_RANGE - 1

  // pad_request
  function PadRequest(bytes: nat): nat {
    (bytes + CHUNK_OVERHEAD + ALIGNMENT - 1) / ALIGNMENT * ALIGNMENT
  }

  // The chunk size a request asks for; one that is too large asks for a size
  // that nothing has.
  function RequestSize(bytes: nat): nat {
    if bytes < MIN_REQUEST then MIN_CHUNK_SIZE
    else if bytes < MAX_REQUEST then PadRequest(bytes)
    else MAX_SIZE_T
  }

  lemma Limits()
    ensures MAX_SMALL_REQUEST < MAX_REQUEST && ALIGNMENT == 8 && TWO_SIZE_T_SIZES == 16 && MIN_CHUNK_SIZE == 32
    ensures MIN_LARGE_SIZE == 256
  {
  }

  lemma RequestSizes(bytes: SizeT)
    ensures var nb := RequestSize(bytes);
      && MIN_CHUNK_SIZE <= nb < SIZE_T_RANGE
      && (bytes <= MAX_SMALL_REQUEST <==> nb < MIN_LARGE_SIZE)
      && (bytes < MAX_REQUEST ==> nb % ALIGNMENT == 0 && bytes + CHUNK_OVERHEAD <= nb)
      && (bytes >= MAX_REQUEST ==> nb == MAX_SIZE_T)
  {
  }

  // Every free chunk is exactly one of top, the designated victim, or listed
  // in the bins under its size.
  ghost predicate Accounted(free: set<(Addr, nat)>, binned: set<(Addr, nat)>, dv: Addr, dvsize: nat, top: Addr, topsize: nat) {
    && (dv == 0 <==> dvsize == 0) && dv != top
    && (dv, dvsize) !in binned && (top, topsize) !in binned
    && free == binned + {(top, topsize)} + Victim(dv, dvsize)
  }

  ghost function Victim(dv: Addr, dvsize: nat): set<(Addr, nat)> {
    if dv == 0 then {} else {(dv, dvsize)}
  }

  // A chunk of size s is handed out of the free chunk from; the rest stays free.
  ghost predicate Served(h: Heap, h': Heap, nb: nat, from: (Addr, nat), s: nat) {
    && from in FreeChunks(h) && nb <= s <= from.1 && s < nb + MIN_CHUNK_SIZE
    && LiveChunks(h') == LiveChunks(h) + {(from.0, s)}
    && FreeChunks(h') == FreeChunks(h) - {from} + (if s == from.1 then {} else {(from.0 + s, from.1 - s)})
  }

  // What decides the choice of from: top is a last resort, a small request
  // takes the victim unless a small bin nearly fits, a large one if no tree
  // chunk is smaller, and the bins give the best fit they have.
  ghost predicate GoodChoice(free: set<(Addr, nat)>, dv: Addr, top: Addr, nb: nat, from: (Addr, nat)) {
    forall c :: c in free && c.0 != top && c.1 >= nb ==>
      if from.0 == top then false
      else if (from.0 == dv) == (c.0 == dv) then from.1 <= c.1
      else if nb >= MIN_LARGE_SIZE then if from.0 == dv then from.1 <= c.1 else from.1 < c.1
      else if from.0 == dv then !NearFit(nb, c.1) else NearFit(nb, from.1)
  }

  // The sizes the small bins are asked for before the victim.
  predicate NearFit(nb: nat, size: nat) {
    nb <= size < nb + 2 * ALIGNMENT && size < MIN_LARGE_SIZE
  }

  // A request for 240 bytes takes a chunk 8 bytes too large from the bins
  // though the victim would do; for 248 bytes such a chunk is kept in a tree,
  // and the victim is taken.
  lemma FirstTreeSizePassedOver(free: set<(Addr, nat)>, dv: Addr, top: Addr, p: Addr, s: nat, nb: nat, from: (Addr, nat))
    requires nb in {240, 248} && (dv, s) in free && (p, nb + ALIGNMENT) in free && s >= nb && dv != p && top !in {dv, p}
    requires forall c :: c in free && c.0 == dv ==> c.1 == s
    requires forall c :: c in free && c.0 !in {dv, top} && c.1 >= nb ==> c.1 == nb + ALIGNMENT
    requires from in free && from.1 >= nb && GoodChoice(free, dv, top, nb, from)
    ensures from.0 == dv <==> nb == 248
  {
    assert from.0 != top;
  }

  // Some free chunk is large enough; of top something has to remain.
  ghost predicate SomeFits(free: set<(Addr, nat)>, top: Addr, nb: nat) {
    exists c :: c in free && if c.0 == top then c.1 > nb else c.1 >= nb
  }

  ghost predicate NewTo(live: set<(Addr, nat)>, p: Addr) {
    forall c :: c in live ==> c.0 != p
  }

  // Where a chunk just handed out lies.
  lemma AllottedAddress(h: Heap, h': Heap, nb: nat, from: (Addr, nat), s: nat)
    requires HeapOk(h) && HeapOk(h') && Served(h, h', nb, from, s)
    ensures (from.0, s) in LiveChunks(h') && NewTo(LiveChunks(h), from.0)
    ensures from.0 > 0 && from.0 % ALIGNMENT == 0 && from.0 + s < SIZE_T_RANGE && nb < MAX_SIZE_T
  {
    assert (from.0, s) in LiveChunks(h');
    assert ChunkOk(h', from.0);
    assert ChunkOk(h, from.0);
  }

  // What was served shows that something fitted: top is never used up.
  lemma ServedFits(h: Heap, h': Heap, nb: nat, from: (Addr, nat), s: nat)
    requires HeapOk(h) && HeapOk(h') && h'.limit == h.limit && Served(h, h', nb, from, s)
    ensures SomeFits(FreeChunks(h), h.top, nb)
  {
    assert from in FreeChunks(h) && (from.0, s) in LiveChunks(h');
    assert ChunkOk(h', h'.top) && ChunkOk(h', from.0);
    assert Disjoint(h', from.0, h'.top) && Disjoint(h', h'.top, from.0);
  }

  // Only top may be as large as this.
  ghost predicate OthersBelow(free: set<(Addr, nat)>, top: Addr, topsize: nat, nb: nat) {
    && (forall c :: c in free && c.0 != top ==> c.1 < nb)
    && forall c :: c in free && c.0 == top ==> c.1 == topsize
  }

  lemma NothingFits(free: set<(Addr, nat)>, top: Addr, topsize: nat, nb: nat)
    requires OthersBelow(free, top, topsize, nb) && topsize <= nb
    ensures !SomeFits(free, top, nb)
  {
  }

  lemma AllTop(base: Addr, limit: nat)
    requires 0 < base < limit < SIZE_T_RANGE && base % ALIGNMENT == 0 && (limit - base) % ALIGNMENT == 0
    ensures var h := Heap(base, limit, {base}, map[base := Head(limit - base, false, true)], map[], base);
      && HeapOk(h) && LiveChunks(h) == {} && FreeChunks(h) == {(base, limit - base)}
      && Accounted(FreeChunks(h), {}, 0, 0, base, limit - base)
  {
    var h := Heap(base, limit, {base}, map[base := Head(limit - base, false, true)], map[], base);
    assert ChunkOk(h, base);
  }

  class Mspace {
    ghost const base: Addr
    ghost const limit: nat
    ghost var chunks: set<Addr>
    var heads: map<Addr, Head>
    var feet: map<Addr, nat>
    var top: Addr
    var topsize: nat
    var dv: Addr
    var dvsize: nat
    const small: SmallBins
    const large: TreeBins

    ghost function Layout(): Heap
      reads this
    {
      Heap(base, limit, chunks, heads, feet, top)
    }

    ghost function FreeSet(): set<(Addr, nat)>
      reads this
    {
      FreeChunks(Layout())
    }

    ghost function LiveSet(): set<(Addr, nat)>
      reads this
    {
      LiveChunks(Layout())
    }

    ghost function Binned(): set<(Addr, nat)>
      reads small, large
    {
      small.Contents() + large.Contents()
    }

    ghost predicate Valid()
      reads this, small, large, large.bins
    {
      && small.Valid() && large.Valid() && HeapOk(Layout())
      && Accounted(FreeSet(), Binned(), dv, dvsize, top, topsize)
    }

    // A segment that is all top.
    constructor (base: Addr, limit: nat)
      requires 0 < base < limit < SIZE_T_RANGE && base % ALIGNMENT == 0 && (limit - base) % ALIGNMENT == 0
      ensures Valid() && LiveSet() == {} && FreeSet() == {(base, limit - base)}
      ensures fresh(small) && fresh(large) && fresh(large.bins)
    {
      this.base, this.limit := base, limit;
      chunks := {base};
      heads := map[base := Head(limit - base, false, true)];
      feet := map[];
      top, topsize := base, limit - base;
      dv, dvsize := 0, 0;
      small := new SmallBins();
      large := new TreeBins();
      new;
      AllTop(base, limit);
      assert small.Contents() + large.Contents() == {};
    }

    // Valid but for one free chunk that no bin lists.
    ghost predicate Loose(c: (Addr, nat))
      reads this, small, large, large.bins
    {
      LooseBut(c, dv, dvsize) && c.0 != dv
    }

    // The same when the victim is to be as given.
    ghost predicate LooseBut(c: (Addr, nat), dv: Addr, dvsize: nat)
      reads this, small, large, large.bins
    {
      && small.Valid() && large.Valid() && HeapOk(Layout())
      && c in FreeSet() && c.0 != 0 && c.0 != top
      && Accounted(FreeSet() - {c}, Binned(), dv, dvsize, top, topsize)
    }

    // What it says of that chunk, and how it is established.
    lemma LooseKnown(c: (Addr, nat), victim: Addr, victimSize: nat)
      requires LooseBut(c, victim, victimSize)
      ensures small.Valid() && large.Valid() && HeapOk(Layout())
      ensures c in FreeChunks(Layout()) && c.0 != 0 && c.0 != top
      ensures Accounted(FreeChunks(Layout()) - {c}, Binned(), victim, victimSize, top, topsize)
      ensures Layout() == Heap(base, limit, chunks, heads, feet, top)
      ensures FreeSet() == FreeChunks(Layout()) && LiveSet() == LiveChunks(Layout())
    {
      hide HeapOk, Accounted, FreeChunks, LiveChunks;
    }

    lemma LooseIs(c: (Addr, nat))
      ensures Loose(c) <==> LooseBut(c, dv, dvsize) && c.0 != dv
    {
      hide LooseBut;
    }

    lemma BinnedIs()
      ensures Binned() == small.Contents() + large.Contents()
      ensures large.Contents() == AllChunks(large.trees)
    {
    }

    lemma SizesApart()
      requires small.Valid() && large.Valid()
      ensures forall c :: c in small.Contents() ==> c.1 < MIN_LARGE_SIZE && c.1 % ALIGNMENT == 0
      ensures forall c :: c in large.Contents() ==> MIN_LARGE_SIZE <= c.1 < SIZE_T_RANGE
      ensures large.treemap == ZERO ==> large.Contents() == {}
    {
      LargeSizes(large.mem, large.bins[..], large.trees, large.treemap);
    }

    // ----- writes -----

    // set_inuse_and_pinuse
    method SetInuseAndPinuse(p: Addr, s: nat)
      requires HeapOk(Layout()) && (p, s) in FreeSet() && p != top
      modifies this`heads
      ensures HeapOk(Layout()) && FreeSet() == old(FreeSet()) - {(p, s)} && LiveSet() == old(LiveSet()) + {(p, s)}
    {
      ClaimOk(Layout(), p);
      ClaimMoves(Layout(), p);
      heads := heads[p := Head(s, true, true)];
      heads := heads[p + s := heads[p + s].(pinuse := true)];
    }

    // The two writes that cut a free chunk, the first part for use.
    method Cut(p: Addr, nb: nat, rsize: nat)
      requires HeapOk(Layout()) && (p, nb + rsize) in FreeSet() && p != top
      requires nb >= MIN_CHUNK_SIZE && rsize >= MIN_CHUNK_SIZE && nb % ALIGNMENT == 0
      modifies this`heads, this`feet, this`chunks
      ensures HeapOk(Layout()) && LiveSet() == old(LiveSet()) + {(p, nb)} && p + nb !in old(chunks)
      ensures FreeSet() == old(FreeSet()) - {(p, nb + rsize)} + {(p + nb, rsize)}
    {
      SplitOk(Layout(), p, nb, rsize);
      SplitMoves(Layout(), p, nb, rsize);
      heads := heads[p := Head(nb, true, true)];
      heads := heads[p + nb := Head(rsize, false, true)];
      feet := feet[p + nb + rsize := rsize];
      chunks := chunks + {p + nb};
    }

    // A chunk out of the bins is used whole.
    method UseWhole(p: Addr, s: nat, ghost nb: nat)
      requires Loose((p, s)) && nb <= s < nb + MIN_CHUNK_SIZE
      modifies this`heads
      ensures Valid() && Served(old(Layout()), Layout(), nb, (p, s), s)
    {
      hide BinsOk, ListsOk, HeapOk, FreeChunks, LiveChunks, AllChunks, Listed;
      SetInuseAndPinuse(p, s);
    }

    // A chunk out of the bins is cut; now its rest is out of the bins.
    method UseCut(p: Addr, nb: nat, rsize: nat) returns (r: Addr)
      requires Loose((p, nb + rsize)) && nb >= MIN_CHUNK_SIZE && rsize >= MIN_CHUNK_SIZE && nb % ALIGNMENT == 0
      modifies this`heads, this`feet, this`chunks
      ensures Loose((r, rsize)) && Served(old(Layout()), Layout(), nb, (p, nb + rsize), nb)
    {
      hide *;
      Limits();
      LooseIs((p, nb + rsize));
      LooseKnown((p, nb + rsize), dv, dvsize);
      CutAccounted(Layout(), Binned(), dv, dvsize, top, topsize, p, nb, rsize);
      r := p + nb;
      Cut(p, nb, rsize);
      LayoutIs();
      CutServes(old(Layout()), Layout(), p, nb, rsize);
      LooseIntro((r, rsize), dv, dvsize);
      LooseIs((r, rsize));
    }

    // ----- bins -----

    // insert_chunk
    method InsertChunk(p: Addr, s: nat)
      requires Loose((p, s))
      modifies small, large, large.bins
      ensures Valid()
    {
      hide *;
      Limits();
      LooseIs((p, s));
      LooseKnown((p, s), dv, dvsize);
      LooseChunk(Layout(), Binned(), dv, dvsize, top, topsize, p, s);
      BinnedIs();
      if IsSmall(s) {
        small.InsertSmallChunk(p, s);
      } else {
        InSomeTree(large.trees, p);
        large.InsertLargeChunk(p, s);
      }
      BinnedIs();
      OneBinned(FreeChunks(Layout()), old(Binned()), Binned(), dv, dvsize, top, topsize, (p, s));
      Whole();
    }

    // unlink_chunk
    method UnlinkFromBins(p: Addr, s: nat)
      requires small.Valid() && large.Valid() && (p, s) in Binned()
      requires forall c :: c in Binned() && c.0 == p ==> c.1 == s
      modifies small, large, large.bins
      ensures small.Valid() && large.Valid() && Binned() == old(Binned()) - {(p, s)}
      ensures (p, s) in old(large.Contents()) ==> unchanged(small)
    {
      hide BinsOk, ListsOk, HeapOk, FreeChunks, LiveChunks, AllChunks, Listed;
      SizesApart();
      if IsSmall(s) {
        small.UnlinkSmallChunk(p, s);
      } else {
        InSomeTree(large.trees, p);
        TakenOut(large.Contents(), p, s);
        large.UnlinkLargeChunk(p);
      }
    }

    // unlink_chunk on a heap that is whole.
    method UnlinkChunk(p: Addr, s: nat)
      requires Valid() && (p, s) in Binned()
      modifies small, large, large.bins
      ensures Loose((p, s))
    {
      hide BinsOk, ListsOk, HeapOk, FreeChunks, LiveChunks, AllChunks, Listed;
      UnlinkBinned(Layout(), Binned(), dv, dvsize, top, topsize, p, s);
      UnlinkFromBins(p, s);
    }

    // unlink_first_small_chunk
    method UnlinkFirstSmall(i: nat) returns (p: Addr)
      requires Valid() && i < NSMALLBINS && small.smallmap[i]
      modifies small
      ensures Loose((p, BinSize(i))) && (p, BinSize(i)) in old(small.Contents()) * FreeSet() && p != 0
    {
      hide BinsOk, ListsOk, HeapOk, FreeChunks, LiveChunks, AllChunks, Listed;
      SizesApart();
      p := small.UnlinkFirstSmallChunk(i);
      UnlinkBinned(Layout(), old(Binned()), dv, dvsize, top, topsize, p, BinSize(i));
    }

    // replace_dv
    method ReplaceDv(p: Addr, s: nat)
      requires Loose((p, s)) && s != 0 && IsSmall(dvsize)
      modifies this`dv, this`dvsize, small
      ensures Valid()
    {
      hide *;
      Limits();
      LooseIs((p, s));
      LooseKnown((p, s), dv, dvsize);
      FreeSizes(Layout());
      VictimFree(FreeChunks(Layout()) - {(p, s)}, Binned(), dv, dvsize, top, topsize);
      BinnedIs();
      if dvsize != 0 {
        VictimNotBinned(Layout(), Binned(), dv, dvsize, top, topsize, (p, s));
        small.InsertSmallChunk(dv, dvsize);
      }
      BinnedIs();
      VictimReplaced(FreeChunks(Layout()), old(Binned()), Binned(), dv, dvsize, top, topsize, (p, s));
      dvsize := s;
      dv := p;
      LayoutIs();
      Whole();
    }

    // ----- mspace_malloc -----

    lemma ChooseSmall(nb: nat, i: nat)
      requires Valid() && nb % ALIGNMENT == 0 && SmallIndex(nb) <= i < NSMALLBINS && small.smallmap[i]
      requires forall j :: SmallIndex(nb) <= j < i ==> !small.smallmap[j]
      requires i <= SmallIndex(nb) + 1 || dvsize < nb
      ensures forall p :: (p, BinSize(i)) in small.Contents() ==> GoodChoice(FreeSet(), dv, top, nb, (p, BinSize(i)))
    {
      SizesApart();
      SmallChoice(Layout(), small.lists, small.smallmap, large.Contents(), dv, dvsize, topsize, nb, i);
    }

    // A small bin whose chunks are used whole.
    method ServeWholeSmall(i: nat, nb: nat) returns (p: Addr)
      requires Valid() && i < NSMALLBINS && small.smallmap[i]
      requires nb <= BinSize(i) < nb + MIN_CHUNK_SIZE && nb % ALIGNMENT == 0
      requires i <= SmallIndex(nb) + 1 || dvsize < nb
      requires forall j :: SmallIndex(nb) <= j < i ==> !small.smallmap[j]
      modifies this`heads, small
      ensures Valid() && p != 0 && GoodChoice(old(FreeSet()), old(dv), old(top), nb, (p, BinSize(i)))
      ensures Served(old(Layout()), Layout(), nb, (p, BinSize(i)), BinSize(i))
    {
      hide Loose, GoodChoice, BinsOk, ListsOk, HeapOk, FreeChunks, LiveChunks, AllChunks, Listed;
      ChooseSmall(nb, i);
      p := UnlinkFirstSmall(i);
      UseWhole(p, BinSize(i), nb);
    }

    // A small bin whose chunks are cut, the rest being the new victim.
    method ServeCutSmall(i: nat, nb: nat) returns (p: Addr)
      requires Valid() && i < NSMALLBINS && small.smallmap[i]
      requires MIN_CHUNK_SIZE <= nb <= BinSize(i) - MIN_CHUNK_SIZE && nb % ALIGNMENT == 0 && dvsize < nb
      requires forall j :: SmallIndex(nb) <= j < i ==> !small.smallmap[j]
      modifies this`heads, this`feet, this`chunks, this`dv, this`dvsize, small
      ensures Valid() && p != 0 && GoodChoice(old(FreeSet()), old(dv), old(top), nb, (p, BinSize(i)))
      ensures Served(old(Layout()), Layout(), nb, (p, BinSize(i)), nb)
    {
      hide Loose, GoodChoice, BinsOk, ListsOk, HeapOk, FreeChunks, LiveChunks, AllChunks, Listed;
      ChooseSmall(nb, i);
      p := UnlinkFirstSmall(i);
      var rsize := BinSize(i) - nb;
      var r := UseCut(p, nb, rsize);
      ReplaceDv(r, rsize);
    }

    // tmalloc_large; null leaves the request to the victim or to top.
    method TmallocLarge(nb: SizeT) returns (v: Addr, ghost from: (Addr, nat), ghost s: nat)
      requires Valid() && nb >= MIN_LARGE_SIZE && nb % ALIGNMENT == 0
      modifies this`heads, this`feet, this`chunks, small, large, large.bins
      ensures Valid()
      ensures v != 0 ==> v == from.0 && Served(old(Layout()), Layout(), nb, from, s)
      ensures v != 0 ==> GoodChoice(old(FreeSet()), old(dv), old(top), nb, from)
      ensures v == 0 ==> unchanged(this, small, large, large.bins)
      ensures v == 0 ==> forall c :: c in large.Contents() && c.1 >= nb ==> nb <= dvsize <= c.1
    {
      hide Loose, BinsOk, ListsOk, HeapOk, FreeChunks, LiveChunks, AllChunks, Listed;
      var rsize;
      from, s := (0, 0), 0;
      v, rsize := large.FindBestFit(nb);
      FreeSizes(Layout());
      RemainderOfVictim(dvsize, nb);
      if v != 0 && rsize < Remainder(dvsize, nb) {
        from := (v, nb + rsize);
        SizesApart();
        BinChoice(Layout(), Binned(), dv, dvsize, topsize, nb, from);
        UnlinkChunk(v, nb + rsize);
        if rsize < MIN_CHUNK_SIZE {
          s := nb + rsize;
          UseWhole(v, rsize + nb, nb);
        } else {
          s := nb;
          var r := UseCut(v, nb, rsize);
          InsertChunk(r, rsize);
        }
      } else {
        v := 0;
      }
    }

    // tmalloc_small
    method TmallocSmall(nb: SizeT) returns (v: Addr, ghost from: (Addr, nat), ghost s: nat)
      requires Valid() && MIN_CHUNK_SIZE <= nb < MIN_LARGE_SIZE && nb % ALIGNMENT == 0
      requires large.treemap != ZERO && dvsize < nb
      modifies this`heads, this`feet, this`chunks, this`dv, this`dvsize, small, large, large.bins
      requires forall c :: c in small.Contents() ==> c.1 < nb
      ensures Valid() && v != 0 && v == from.0 && GoodChoice(old(FreeSet()), old(dv), old(top), nb, from)
      ensures Served(old(Layout()), Layout(), nb, from, s)
    {
      hide *;
      Limits();
      Parts();
      BinnedIs();
      SizesApart();
      var rsize;
      v, rsize := large.FindSmallest(nb);
      from := (v, nb + rsize);
      TreeChoice(Layout(), small.Contents(), large.Contents(), dv, dvsize, topsize, nb);
      UnlinkChunk(v, nb + rsize);
      if rsize < MIN_CHUNK_SIZE {
        s := nb + rsize;
        UseWhole(v, rsize + nb, nb);
      } else {
        s := nb;
        var r := UseCut(v, nb, rsize);
        LayoutIs();
        ReplaceDv(r, rsize);
        LayoutIs();
      }
    }

    // The victim is cut, or used up.
    method ServeVictim(nb: nat) returns (p: Addr, ghost s: nat)
      requires Valid() && MIN_CHUNK_SIZE <= nb <= dvsize && nb % ALIGNMENT == 0
      modifies this`heads, this`feet, this`chunks, this`dv, this`dvsize
      ensures Valid() && p == old(dv) && Served(old(Layout()), Layout(), nb, (old(dv), old(dvsize)), s)
    {
      hide BinsOk, ListsOk, HeapOk, FreeChunks, LiveChunks, AllChunks, Listed;
      var rsize := dvsize - nb;
      var size := dvsize;
      p := dv;
      VictimLoose(Layout(), Binned(), dv, dvsize, top, topsize);
      dv := 0;
      dvsize := 0;
      if rsize >= MIN_CHUNK_SIZE {
        s := nb;
        dv := UseCut(p, nb, rsize);
        dvsize := rsize;
        VictimAgain(Layout(), Binned(), dv, dvsize, top, topsize);
      } else {
        s := size;
        UseWhole(p, size, nb);
      }
    }

    // Top is cut; something always remains.
    method ServeTop(nb: nat) returns (p: Addr)
      requires Valid() && MIN_CHUNK_SIZE <= nb < topsize && nb % ALIGNMENT == 0
      modifies this`heads, this`chunks, this`top, this`topsize
      ensures Valid() && p == old(top) && Served(old(Layout()), Layout(), nb, (old(top), old(topsize)), nb)
    {
      hide *;
      Parts();
      TopSplit(Layout(), Binned(), dv, dvsize, topsize, nb);
      topsize := topsize - nb;
      p := top;
      top := p + nb;
      heads := heads[top := Head(topsize, false, true)];
      heads := heads[p := Head(nb, true, true)];
      chunks := chunks + {top};
      LayoutIs();
      Whole();
    }

    lemma NoneListed(nb: nat)
      requires Valid() && nb % ALIGNMENT == 0 && nb < MIN_LARGE_SIZE
      ensures (forall j :: SmallIndex(nb) <= j < WORD_BITS ==> !small.smallmap[j]) ==> forall c :: c in small.Contents() ==> c.1 < nb
      ensures (forall j :: SmallIndex(nb) <= j < WORD_BITS ==> !small.smallmap[j]) && large.treemap == ZERO ==> BinsPassed(Binned(), dvsize, nb)
      ensures nb <= dvsize && !small.smallmap[SmallIndex(nb)] && (SmallIndex(nb) + 1 < WORD_BITS ==> !small.smallmap[SmallIndex(nb) + 1])
        ==> BinsPassed(Binned(), dvsize, nb)
    {
      hide BinsOk, HeapOk, FreeChunks, LiveChunks, AllChunks, Accounted;
      SizesApart();
      NoSmall(small.lists, small.smallmap, nb);
    }

    method NextSmallBin(idx: nat, smallbits: Word) returns (i: nat)
      requires idx < NSMALLBINS && !small.smallmap[idx] && smallbits == ShiftRightBy(small.smallmap, idx) && smallbits != ZERO
      ensures idx < i < NSMALLBINS && small.smallmap[i] && forall j :: idx <= j < i ==> !small.smallmap[j]
    {
      NextMarked(small.smallmap, idx);
      i := BitScanForward(LeastBit(And(ShiftLeftBy(smallbits, idx), LeftBits(Bit(idx)))));
    }

    // The bins' part of a small request; null leaves it to the victim or to top.
    method SmallRequest(nb: nat) returns (p: Addr, ghost from: (Addr, nat), ghost s: nat)
      requires Valid() && MIN_CHUNK_SIZE <= nb < MIN_LARGE_SIZE && nb % ALIGNMENT == 0
      modifies this`heads, this`feet, this`chunks, this`dv, this`dvsize, small, large, large.bins
      ensures Valid()
      ensures p != 0 ==> p == from.0 && Served(old(Layout()), Layout(), nb, from, s)
      ensures p != 0 ==> GoodChoice(old(FreeSet()), old(dv), old(top), nb, from)
      ensures p == 0 ==> unchanged(this, small, large, large.bins) && BinsPassed(Binned(), dvsize, nb)
    {
      hide Valid, GoodChoice, Served, BinsPassed;
      NoneListed(nb);
      var idx := SmallIndex(nb);
      var smallbits := ShiftRightBy(small.smallmap, idx);
      assert smallbits[0] == small.smallmap[idx] && smallbits[1] == (idx + 1 < WORD_BITS && small.smallmap[idx + 1]);
      from, s, p := (0, 0), 0, 0;
      if smallbits[0] || smallbits[1] {
        idx := if smallbits[0] then idx else idx + 1;
        s := BinSize(idx);
        p := ServeWholeSmall(idx, nb);
        from := (p, s);
      } else if nb > dvsize {
        if smallbits != ZERO {
          var i := NextSmallBin(idx, smallbits);
          if BinSize(i) - nb < MIN_CHUNK_SIZE {
            s := BinSize(i);
            p := ServeWholeSmall(i, nb);
          } else {
            s := nb;
            p := ServeCutSmall(i, nb);
          }
          from := (p, BinSize(i));
        } else {
          NothingRight(small.smallmap, idx);
          if large.treemap != ZERO {
            p, from, s := TmallocSmall(nb);
          }
        }
      }
    }

    // The bins' part of a large request.
    method LargeRequest(nb: SizeT) returns (p: Addr, ghost from: (Addr, nat), ghost s: nat)
      requires Valid() && nb >= MIN_LARGE_SIZE && nb % ALIGNMENT == 0
      modifies this`heads, this`feet, this`chunks, small, large, large.bins
      ensures Valid()
      ensures p != 0 ==> p == from.0 && Served(old(Layout()), Layout(), nb, from, s)
      ensures p != 0 ==> GoodChoice(old(FreeSet()), old(dv), old(top), nb, from)
      ensures p == 0 ==> unchanged(this, small, large, large.bins) && BinsPassed(Binned(), dvsize, nb)
    {
      hide GoodChoice, Served, BinsOk, ListsOk, HeapOk, Accounted, FreeChunks, LiveChunks, AllChunks, Listed;
      SizesApart();
      p, from, s := 0, (0, 0), 0;
      if large.treemap != ZERO {
        p, from, s := TmallocLarge(nb);
      }
    }

    lemma LeftToVictim(nb: nat)
      requires Valid() && BinsPassed(Binned(), dvsize, nb) && nb > 0
      ensures (top, topsize) in FreeSet() && top != 0
      ensures nb <= dvsize ==> dv != 0 && (dv, dvsize) in FreeSet() && GoodChoice(FreeSet(), dv, top, nb, (dv, dvsize))
      ensures dvsize < nb ==> GoodChoice(FreeSet(), dv, top, nb, (top, topsize))
      ensures dvsize < nb ==> OthersBelow(FreeSet(), top, topsize, nb)
    {
      hide BinsOk, ListsOk;
      FreeSizes(Layout());
    }

    lemma HugePasses()
      requires Valid()
      ensures BinsPassed(Binned(), dvsize, MAX_SIZE_T) && dvsize < MAX_SIZE_T && topsize < MAX_SIZE_T
    {
      hide BinsOk, ListsOk;
      HugeSizes(Layout());
    }

    lemma Allotted(h: Heap, nb: nat, from: (Addr, nat), s: nat)
      requires Valid() && HeapOk(h) && h.limit == limit && Served(h, Layout(), nb, from, s)
      ensures NewTo(LiveChunks(h), from.0)
      ensures from.0 > 0 && from.0 % ALIGNMENT == 0 && from.0 + s < SIZE_T_RANGE && nb < MAX_SIZE_T
      ensures SomeFits(FreeChunks(h), h.top, nb)
    {
      AllottedAddress(h, Layout(), nb, from, s);
      ServedFits(h, Layout(), nb, from, s);
    }

    lemma HeapIsOk()
      requires Valid()
      ensures HeapOk(Layout())
    {
    }

    // mspace_malloc: null exactly when nothing that is free fits.
    method Malloc(bytes: SizeT) returns (mem: Addr, ghost from: (Addr, nat), ghost s: nat)
      requires Valid()
      modifies this`heads, this`feet, this`chunks, this`dv, this`dvsize, this`top, this`topsize, small, large, large.bins
      ensures Valid()
      ensures mem != 0 ==> mem == from.0 + TWO_SIZE_T_SIZES && Served(old(Layout()), Layout(), RequestSize(bytes), from, s)
      ensures mem != 0 ==> GoodChoice(old(FreeSet()), old(dv), old(top), RequestSize(bytes), from)
      ensures mem != 0 ==> mem % ALIGNMENT == 0 && NewTo(old(LiveSet()), from.0) && 0 < from.0 && from.0 + s < SIZE_T_RANGE && RequestSize(bytes) < MAX_SIZE_T
      ensures mem == 0 ==> unchanged(this, small, large, large.bins)
      ensures mem == 0 <==> !SomeFits(old(FreeSet()), old(top), RequestSize(bytes))
    {
      hide *;
      HeapIsOk();
      LayoutIs();
      RequestSizes(bytes);
      Limits();
      var nb: SizeT := RequestSize(bytes);
      var p: Addr := 0;
      from, s := (0, 0), 0;
      if bytes <= MAX_SMALL_REQUEST {
        p, from, s := SmallRequest(nb);
      } else if bytes >= MAX_REQUEST {
        HugePasses();
      } else {
        p, from, s := LargeRequest(nb);
      }
      if p != 0 {
        Allotted(old(Layout()), nb, from, s);
        return p + TWO_SIZE_T_SIZES, from, s;
      }
      LeftToVictim(nb);
      if nb <= dvsize {
        from := (dv, dvsize);
        p, s := ServeVictim(nb);
      } else if nb < topsize {
        from, s := (top, topsize), nb;
        p := ServeTop(nb);
      } else {
        NothingFits(FreeSet(), top, topsize, nb);
        return 0, from, s;
      }
      Allotted(old(Layout()), nb, from, s);
      mem := p + TWO_SIZE_T_SIZES;
    }

    // ----- mspace_free -----

    // The segment with [p, p + psize) as one live chunk behind another one.
    ghost function Seen(p: Addr, psize: nat): Heap
      reads this
    {
      Layout().(heads := heads[p := Head(psize, true, true)])
    }

    // The chunk to free has absorbed what was free before it.
    ghost predicate Pending(p: Addr, psize: nat, dv: Addr, dvsize: nat)
      reads this, small, large, large.bins
    {
      && small.Valid() && large.Valid() && HeapOk(Seen(p, psize)) && p in chunks
      && Accounted(FreeChunks(Seen(p, psize)), Binned(), dv, dvsize, top, topsize)
    }

    // Consolidate backward, leaving the victim's own fields for later.
    method MergeBackward(p0: Addr) returns (p: Addr, psize: nat)
      requires Valid() && IsLive(Layout(), p0)
      modifies this`chunks, small, large, large.bins
      ensures p == dv ==> Pending(p, psize, 0, 0)
      ensures p != dv ==> Pending(p, psize, dv, dvsize)
      ensures p + psize == p0 + heads[p0].size && p != 0
      ensures (p, psize) == Absorbed(old(Layout()), p0)
      ensures FreeChunks(Seen(p, psize)) == old(FreeSet()) - Behind(old(Layout()), p0)
      ensures LiveChunks(Seen(p, psize)) - {(p, psize)} == old(LiveSet()) - {(p0, heads[p0].size)}
    {
      hide *;
      Parts();
      Behindhand(Layout(), Binned(), dv, dvsize, topsize, p0);
      p, psize := p0, heads[p0].size;
      if !heads[p].pinuse {
        var prevsize := feet[p];
        psize := psize + prevsize;
        p := p - prevsize;
        if p != dv {
          UnlinkChunk(p, prevsize);
          LooseParts((p, prevsize));
        }
        chunks := chunks - {p0};
      }
      SeenIs(p, psize);
      if p == dv {
        PendingIntro(p, psize, 0, 0);
      } else {
        PendingIntro(p, psize, dv, dvsize);
      }
    }

    lemma SeenIs(p: Addr, psize: nat)
      ensures Seen(p, psize) == Heap(base, limit, chunks, heads[p := Head(psize, true, true)], feet, top)
    {
    }

    lemma LooseParts(c: (Addr, nat))
      requires Loose(c)
      ensures small.Valid() && large.Valid()
      ensures Accounted(FreeChunks(Layout()) - {c}, Binned(), dv, dvsize, top, topsize)
    {
      hide HeapOk, Accounted, FreeChunks;
    }

    lemma PendingIntro(p: Addr, psize: nat, victim: Addr, victimSize: nat)
      requires small.Valid() && large.Valid() && HeapOk(Seen(p, psize)) && p in chunks
      requires Accounted(FreeChunks(Seen(p, psize)), Binned(), victim, victimSize, top, topsize)
      ensures Pending(p, psize, victim, victimSize)
    {
      hide HeapOk, Accounted, FreeChunks;
    }

    // What the invariant says, and how it is established.
    lemma Parts()
      requires Valid()
      ensures small.Valid() && large.Valid() && HeapOk(Layout())
      ensures Accounted(FreeChunks(Layout()), Binned(), dv, dvsize, top, topsize)
      ensures Layout() == Heap(base, limit, chunks, heads, feet, top)
      ensures FreeSet() == FreeChunks(Layout()) && LiveSet() == LiveChunks(Layout())
    {
      hide HeapOk, Accounted, FreeChunks, LiveChunks;
    }

    lemma Whole()
      requires small.Valid() && large.Valid() && HeapOk(Layout())
      requires Accounted(FreeChunks(Layout()), Binned(), dv, dvsize, top, topsize)
      ensures Valid() && FreeSet() == FreeChunks(Layout()) && LiveSet() == LiveChunks(Layout())
    {
      hide HeapOk, Accounted, FreeChunks, LiveChunks;
    }

    lemma LayoutIs()
      ensures Layout() == Heap(base, limit, chunks, heads, feet, top)
      ensures FreeSet() == FreeChunks(Layout()) && LiveSet() == LiveChunks(Layout())
    {
    }

    lemma LooseIntro(c: (Addr, nat), dv: Addr, dvsize: nat)
      requires small.Valid() && large.Valid() && HeapOk(Layout()) && c in FreeSet() && c.0 != 0 && c.0 != top
      requires Accounted(FreeSet() - {c}, Binned(), dv, dvsize, top, topsize)
      ensures LooseBut(c, dv, dvsize)
    {
    }

    // The segment and the bins while the chunk is about to be freed.
    lemma PendingParts(p: Addr, psize: nat, victim: Addr, victimSize: nat)
      requires Pending(p, psize, victim, victimSize)
      ensures small.Valid() && large.Valid() && HeapOk(Seen(p, psize)) && IsLive(Seen(p, psize), p) && p in chunks
      ensures Seen(p, psize) == Heap(base, limit, chunks, heads[p := Head(psize, true, true)], feet, top)
      ensures Accounted(FreeChunks(Seen(p, psize)), Binned(), victim, victimSize, top, topsize)
    {
      hide BinsOk, ListsOk, HeapOk, FreeChunks, LiveChunks;
    }

    // set_free_with_pinuse: the chunk after is in use.
    method SetFreeWithPinuse(p: Addr, psize: nat, n: Addr, ghost victim: Addr, ghost victimSize: nat)
      requires Pending(p, psize, victim, victimSize) && n == p + psize && n in heads && heads[n].cinuse
      modifies this`heads, this`feet
      ensures LooseBut((p, psize), victim, victimSize)
      ensures FreeSet() == FreeChunks(old(Seen(p, psize))) + {(p, psize)}
      ensures LiveSet() == LiveChunks(old(Seen(p, psize))) - {(p, psize)}
    {
      hide *;
      ghost var h := Seen(p, psize);
      PendingParts(p, psize, victim, victimSize);
      Released(h, Binned(), victim, victimSize, topsize, p, psize);
      heads := heads[n := heads[n].(pinuse := false)];
      heads := heads[p := Head(psize, false, true)];
      feet := feet[n := psize];
      assert heads == h.heads[n := h.heads[n].(pinuse := false)][p := Head(psize, false, true)];
      LayoutIs();
      LooseIntro((p, psize), victim, victimSize);
    }

    // The chunk after is top.
    method MergeIntoTop(p: Addr, psize: nat)
      requires if p == dv then Pending(p, psize, 0, 0) else Pending(p, psize, dv, dvsize)
      requires p + psize == top
      modifies this`heads, this`chunks, this`top, this`topsize, this`dv, this`dvsize
      ensures Valid()
      ensures FreeSet() == FreeChunks(old(Seen(p, psize))) - {(old(top), old(topsize))} + {(p, psize + old(topsize))}
      ensures LiveSet() == LiveChunks(old(Seen(p, psize))) - {(p, psize)}
    {
      hide *;
      ghost var h := Seen(p, psize);
      PendingParts(p, psize, if p == dv then 0 else dv, if p == dv then 0 else dvsize);
      TopMerged(h, Binned(), if p == dv then 0 else dv, if p == dv then 0 else dvsize, topsize, p);
      topsize := topsize + psize;
      chunks := chunks - {top};
      top := p;
      heads := heads[p := Head(topsize, false, true)];
      if p == dv {
        dv := 0;
        dvsize := 0;
      }
      LayoutIs();
      assert heads == h.heads[p := Head(topsize, false, true)];
      Whole();
    }

    // The writes over a chunk and the free one after it, which is not top.
    method MergeNext(p: Addr, psize: nat, n: Addr, nsize: nat)
      requires HeapOk(Seen(p, psize)) && p in chunks && n == p + psize && (n, nsize) in FreeChunks(Seen(p, psize)) && n != top
      modifies this`heads, this`feet, this`chunks
      ensures HeapOk(Layout()) && (p, psize + nsize) in FreeSet() && p != 0 && p != top
      ensures FreeSet() == FreeChunks(old(Seen(p, psize))) - {(n, nsize)} + {(p, psize + nsize)}
      ensures LiveSet() == LiveChunks(old(Seen(p, psize))) - {(p, psize)}
      ensures (p, psize + nsize) !in FreeChunks(old(Seen(p, psize)))
    {
      hide BinsOk, ListsOk, FreeChunks, LiveChunks, AllChunks, Listed;
      ghost var h := Seen(p, psize);
      LiveChunk(h, p);
      MergeForwardOk(h, p);
      MergeForwardMoves(h, p);
      chunks := chunks - {n};
      heads := heads[p := Head(psize + nsize, false, true)];
      feet := feet[p + psize + nsize := psize + nsize];
      assert Layout() == MergeForward(h, p, n, psize + nsize);
    }

    // The chunk after is the victim: together they are the new victim.
    method MergeWithVictim(p: Addr, psize: nat)
      requires Pending(p, psize, dv, dvsize) && p + psize == dv && p != dv
      modifies this`heads, this`feet, this`chunks, this`dv, this`dvsize
      ensures Valid()
      ensures FreeSet() == FreeChunks(old(Seen(p, psize))) - {(old(dv), old(dvsize))} + {(p, psize + old(dvsize))}
      ensures LiveSet() == LiveChunks(old(Seen(p, psize))) - {(p, psize)}
    {
      hide *;
      var n, nsize := dv, dvsize;
      PendingParts(p, psize, dv, dvsize);
      VictimKnown(Seen(p, psize), Binned(), dv, dvsize, topsize);
      VictimLoose(Seen(p, psize), Binned(), dv, dvsize, top, topsize);
      dvsize := dvsize + psize;
      dv := p;
      SeenIs(p, psize);
      MergeNext(p, psize, n, nsize);
      LayoutIs();
      GrownVictim(FreeChunks(old(Seen(p, psize))), Binned(), (n, nsize), top, topsize, (p, psize + nsize));
      Whole();
    }

    // The chunk after is in the bins.
    method MergeWithBinned(p: Addr, psize: nat, n: Addr, nsize: nat, ghost victim: Addr, ghost victimSize: nat)
      requires Pending(p, psize, victim, victimSize) && n == p + psize && (n, nsize) in FreeChunks(Seen(p, psize))
      requires n != top && n != victim
      modifies this`heads, this`feet, this`chunks, small, large, large.bins
      ensures LooseBut((p, psize + nsize), victim, victimSize)
      ensures FreeSet() == FreeChunks(old(Seen(p, psize))) - {(n, nsize)} + {(p, psize + nsize)}
      ensures LiveSet() == LiveChunks(old(Seen(p, psize))) - {(p, psize)}
    {
      hide BinsOk, ListsOk, HeapOk, FreeChunks, LiveChunks, AllChunks, Listed;
      UnlinkBinned(Seen(p, psize), Binned(), victim, victimSize, top, topsize, n, nsize);
      UnlinkFromBins(n, nsize);
      MergeNext(p, psize, n, nsize);
    }

    // A free chunk that is to be the victim again, or to go to its bin.
    method Settle(p: Addr, psize: nat)
      requires psize > 0
      requires if p == dv then LooseBut((p, psize), 0, 0) else Loose((p, psize))
      modifies this`dvsize, small, large, large.bins
      ensures Valid()
    {
      hide BinsOk, ListsOk, HeapOk, FreeChunks, LiveChunks, AllChunks, Listed;
      if p == dv {
        VictimAgain(Layout(), Binned(), p, psize, top, topsize);
        dvsize := psize;
      } else {
        InsertChunk(p, psize);
      }
    }

    // The chunk after the one to free, as its head describes it.
    ghost predicate NextKnown(p: Addr, psize: nat, victim: Addr, victimSize: nat)
      reads this
    {
      var n := p + psize;
      && psize > 0 && n != p && n in heads
      && (!heads[n].cinuse ==> n != 0 && (n, heads[n].size) in FreeChunks(Seen(p, psize)))
      && (n == top ==> !heads[n].cinuse && heads[n].size == topsize)
      && (n == victim ==> !heads[n].cinuse && heads[n].size == victimSize)
    }

    lemma PendingNext(p: Addr, psize: nat, victim: Addr, victimSize: nat)
      requires Pending(p, psize, victim, victimSize)
      ensures NextKnown(p, psize, victim, victimSize)
    {
      hide *;
      PendingParts(p, psize, victim, victimSize);
      NextWord(Seen(p, psize), Binned(), victim, victimSize, topsize, p, psize);
      NextIntro(p, psize, victim, victimSize);
    }

    lemma NextIntro(p: Addr, psize: nat, victim: Addr, victimSize: nat)
      requires Seen(p, psize) == Heap(base, limit, chunks, heads[p := Head(psize, true, true)], feet, top)
      requires NextIs(Seen(p, psize), victim, victimSize, topsize, p, psize)
      ensures NextKnown(p, psize, victim, victimSize)
    {
    }

    // mspace_free
    method Free(mem: Addr)
      requires Valid() && (mem != 0 ==> mem >= TWO_SIZE_T_SIZES && IsLive(Layout(), mem - TWO_SIZE_T_SIZES))
      modifies this`heads, this`feet, this`chunks, this`dv, this`dvsize, this`top, this`topsize, small, large, large.bins
      ensures Valid()
      ensures mem == 0 ==> unchanged(this, small, large, large.bins)
      ensures mem != 0 ==> Freed(old(Layout()), Layout(), mem - TWO_SIZE_T_SIZES)
    {
      hide Valid, Pending, LooseBut, FreeChunks, LiveChunks;
      if mem == 0 {
        return;
      }
      var p0 := mem - TWO_SIZE_T_SIZES;
      var n := p0 + heads[p0].size;
      var p, psize := MergeBackward(p0);
      ghost var victim, victimSize := if p == dv then 0 else dv, if p == dv then 0 else dvsize;
      PendingNext(p, psize, victim, victimSize);
      if heads[n].cinuse {
        SetFreeWithPinuse(p, psize, n, victim, victimSize);
        Settle(p, psize);
      } else if n == top {
        MergeIntoTop(p, psize);
      } else if n == dv {
        MergeWithVictim(p, psize);
      } else {
        var nsize := heads[n].size;
        MergeWithBinned(p, psize, n, nsize, victim, victimSize);
        psize := psize + nsize;
        Settle(p, psize);
      }
    }
  }

  lemma TopMerged(h: Heap, binned: set<(Addr, nat)>, dv: Addr, dvsize: nat, topsize: nat, p: Addr)
    requires HeapOk(h) && IsLive(h, p) && h.heads[p].pinuse && p + h.heads[p].size == h.top
    requires Accounted(FreeChunks(h), binned, dv, dvsize, h.top, topsize)
    ensures (h.top, topsize) in FreeChunks(h)
    ensures var h' := MergeTop(h, p, topsize + h.heads[p].size);
      && h' == h.(chunks := h.chunks - {h.top}, heads := h.heads[p := Head(topsize + h.heads[p].size, false, true)], top := p)
      && HeapOk(h') && Accounted(FreeChunks(h'), binned, dv, dvsize, p, topsize + h.heads[p].size)
      && FreeChunks(h') == FreeChunks(h) - {(h.top, topsize)} + {(p, h.heads[p].size + topsize)}
      && LiveChunks(h') == LiveChunks(h) - {(p, h.heads[p].size)}
  {
    assert (h.top, topsize) in FreeChunks(h);
    LiveChunk(h, p);
    MergeTopOk(h, p);
    MergeTopMoves(h, p);
    FreeSizes(h);
    assert (p, topsize + h.heads[p].size) !in FreeChunks(h);
  }

  // Start and size of a live chunk with the free one before it, if any.
  ghost function Absorbed(h: Heap, p: Addr): (Addr, nat)
    requires p in h.heads
  {
    if h.heads[p].pinuse || p !in h.feet || h.feet[p] > p then (p, h.heads[p].size)
    else (p - h.feet[p], h.feet[p] + h.heads[p].size)
  }

  // The free chunk before p, if any.
  ghost function Behind(h: Heap, p: Addr): set<(Addr, nat)>
    requires p in h.heads
  {
    if h.heads[p].pinuse || p !in h.feet || h.feet[p] > p then {} else {(p - h.feet[p], h.feet[p])}
  }

  // The free chunk after p, if any.
  ghost function Ahead(h: Heap, p: Addr): set<(Addr, nat)>
    requires p in h.heads
  {
    var n := p + h.heads[p].size;
    if n !in h.heads || h.heads[n].cinuse then {} else {(n, h.heads[n].size)}
  }

  lemma MergedBack(h: Heap, binned: set<(Addr, nat)>, dv: Addr, dvsize: nat, topsize: nat, p: Addr)
    requires HeapOk(h) && IsLive(h, p) && !h.heads[p].pinuse
    requires Accounted(FreeChunks(h), binned, dv, dvsize, h.top, topsize)
    ensures p in h.feet && 0 < h.feet[p] < p
    ensures var c := (p - h.feet[p], h.feet[p]);
      var h' := MergeBack(h, p);
      && c in FreeChunks(h) && c.0 in h'.chunks && HeapOk(h') && FreeChunks(h') == FreeChunks(h) - {c}
      && LiveChunks(h') - {(c.0, c.1 + h.heads[p].size)} == LiveChunks(h) - {(p, h.heads[p].size)}
      && (c.0 == dv ==> Accounted(FreeChunks(h'), binned, 0, 0, h.top, topsize))
      && (c.0 != dv ==> c in binned)
  {
    PrevChunk(h, p);
    MergeBackOk(h, p);
    MergeBackMoves(h, p);
    FreeSizes(h);
    if p - h.feet[p] == dv {
      VictimLoose(h, binned, dv, dvsize, h.top, topsize);
    }
  }

  // The writes that absorb the free chunk before p, and what they make.
  lemma Behindhand(h: Heap, binned: set<(Addr, nat)>, dv: Addr, dvsize: nat, topsize: nat, p: Addr)
    requires HeapOk(h) && IsLive(h, p) && Accounted(FreeChunks(h), binned, dv, dvsize, h.top, topsize)
    ensures p in h.heads && p in h.chunks && p != 0
    ensures h.heads[p].pinuse ==>
      && Absorbed(h, p) == (p, h.heads[p].size) && Behind(h, p) == {} && p != dv && FreeChunks(h) - {} == FreeChunks(h)
      && h.(heads := h.heads[p := Head(h.heads[p].size, true, true)]) == h
    ensures !h.heads[p].pinuse ==> p in h.feet && 0 < h.feet[p] < p
    ensures !h.heads[p].pinuse ==>
      var c, s := (p - h.feet[p], h.feet[p]), h.heads[p].size + h.feet[p];
      var h' := h.(chunks := h.chunks - {p}, heads := h.heads[c.0 := Head(s, true, true)]);
      && Absorbed(h, p) == (c.0, s) && Behind(h, p) == {c} && c.0 in h'.chunks && c.0 != 0
      && HeapOk(h') && FreeChunks(h') == FreeChunks(h) - {c} && LiveChunks(h') - {(c.0, s)} == LiveChunks(h) - {(p, h.heads[p].size)}
      && (c.0 == dv ==> Accounted(FreeChunks(h'), binned, 0, 0, h.top, topsize)) && (c.0 != dv ==> c in binned)
  {
    hide Accounted, FreeChunks, LiveChunks;
    if h.heads[p].pinuse {
      LiveNotVictim(h, binned, dv, dvsize, topsize, p);
      assert h.heads[p := h.heads[p]] == h.heads;
    } else {
      MergedBack(h, binned, dv, dvsize, topsize, p);
    }
    FreeSizes(h);
    LiveChunk(h, p);
  }

  lemma LiveNotVictim(h: Heap, binned: set<(Addr, nat)>, dv: Addr, dvsize: nat, topsize: nat, p: Addr)
    requires HeapOk(h) && IsLive(h, p) && Accounted(FreeChunks(h), binned, dv, dvsize, h.top, topsize)
    ensures p != dv
  {
    LiveChunk(h, p);
  }

  lemma VictimKnown(h: Heap, binned: set<(Addr, nat)>, dv: Addr, dvsize: nat, topsize: nat)
    requires HeapOk(h) && Accounted(FreeChunks(h), binned, dv, dvsize, h.top, topsize)
    ensures dvsize == 0 <==> dv == 0
    ensures dv != 0 ==> dv != h.top
  {
    hide HeapOk;
  }

  lemma GrownVictim(free: set<(Addr, nat)>, binned: set<(Addr, nat)>, v: (Addr, nat), top: Addr, topsize: nat, v': (Addr, nat))
    requires Accounted(free, binned, v.0, v.1, top, topsize) && v in free && v'.0 !in {0, top} && v'.1 > 0 && v' !in free
    ensures Accounted(free - {v} + {v'}, binned, v'.0, v'.1, top, topsize)
  {
    assert v.0 != 0 ==> v in free;
  }

  // A live chunk with the free ones on both sides.
  ghost function Merged(h: Heap, p: Addr): (Addr, nat)
    requires p in h.heads
  {
    var (q, s) := Absorbed(h, p);
    var n := p + h.heads[p].size;
    if n !in h.heads || h.heads[n].cinuse then (q, s) else (q, s + h.heads[n].size)
  }

  // One live chunk fewer, and one free chunk that takes in its free neighbours.
  ghost predicate Freed(h: Heap, h': Heap, p: Addr) {
    && p in h.heads
    && LiveChunks(h') == LiveChunks(h) - {(p, h.heads[p].size)}
    && FreeChunks(h') == FreeChunks(h) - Behind(h, p) - Ahead(h, p) + {Merged(h, p)}
  }

  ghost predicate NextIs(h: Heap, victim: Addr, victimSize: nat, topsize: nat, p: Addr, s: nat) {
    var n := p + s;
    && s > 0 && n in h.heads
    && (!h.heads[n].cinuse ==> n != 0 && (n, h.heads[n].size) in FreeChunks(h))
    && (n == h.top ==> !h.heads[n].cinuse && h.heads[n].size == topsize)
    && (n == victim ==> !h.heads[n].cinuse && h.heads[n].size == victimSize)
  }

  lemma NextWord(h: Heap, binned: set<(Addr, nat)>, victim: Addr, victimSize: nat, topsize: nat, p: Addr, s: nat)
    requires HeapOk(h) && IsLive(h, p) && h.heads[p] == Head(s, true, true)
    requires Accounted(FreeChunks(h), binned, victim, victimSize, h.top, topsize)
    ensures NextIs(h, victim, victimSize, topsize, p, s)
  {
    hide HeapOk;
    NextChunk(h, p);
    FreeSizes(h);
    assert (h.top, topsize) in FreeChunks(h);
  }

  // What releasing a chunk makes of the heap, and which words it writes.
  lemma Released(h: Heap, binned: set<(Addr, nat)>, victim: Addr, victimSize: nat, topsize: nat, p: Addr, s: nat)
    requires HeapOk(h) && IsLive(h, p) && h.heads[p] == Head(s, true, true) && p + s in h.heads && h.heads[p + s].cinuse
    requires Accounted(FreeChunks(h), binned, victim, victimSize, h.top, topsize)
    ensures p != 0 && p != h.top && p + s != p && (p, s) in FreeChunks(Release(h, p, s))
    ensures HeapOk(Release(h, p, s)) && FreeChunks(Release(h, p, s)) == FreeChunks(h) + {(p, s)}
    ensures LiveChunks(Release(h, p, s)) == LiveChunks(h) - {(p, s)}
    ensures Accounted(FreeChunks(Release(h, p, s)) - {(p, s)}, binned, victim, victimSize, h.top, topsize)
    ensures Release(h, p, s) ==
      h.(heads := h.heads[p + s := h.heads[p + s].(pinuse := false)][p := Head(s, false, true)], feet := h.feet[p + s := s])
  {
    hide FreeChunks, LiveChunks, HeapOk, Accounted;
    LiveChunk(h, p);
    NextChunk(h, p);
    ReleaseOk(h, p);
    ReleaseMoves(h, p);
    NotYetFree(h, p, s);
    assert FreeChunks(Release(h, p, s)) - {(p, s)} == FreeChunks(h);
  }

  lemma NotYetFree(h: Heap, p: Addr, s: nat)
    requires IsLive(h, p)
    ensures (p, s) !in FreeChunks(h)
  {
  }

  lemma LiveChunk(h: Heap, p: Addr)
    requires HeapOk(h) && IsLive(h, p)
    ensures p != 0 && h.heads[p].size > 0 && (p, h.heads[p].size) in LiveChunks(h) && p != h.top
    ensures h.heads[p].pinuse ==> h.heads[p := Head(h.heads[p].size, true, true)] == h.heads
    ensures !h.heads[p].pinuse ==> p in h.feet && h.feet[p] < p
  {
    NextChunk(h, p);
    if !h.heads[p].pinuse {
      PrevChunk(h, p);
    }
  }

  // No bin has a chunk that would serve the request better than the victim.
  ghost predicate BinsPassed(binned: set<(Addr, nat)>, dvsize: nat, nb: nat) {
    forall c :: c in binned && c.1 >= nb ==>
      nb <= dvsize && if nb >= MIN_LARGE_SIZE then dvsize <= c.1 else c.1 >= nb + 2 * ALIGNMENT || c.1 >= MIN_LARGE_SIZE
  }

  lemma BinnedElsewhere(h: Heap, binned: set<(Addr, nat)>, dv: Addr, dvsize: nat, topsize: nat, c: (Addr, nat))
    requires HeapOk(h) && Accounted(FreeChunks(h), binned, dv, dvsize, h.top, topsize) && c in binned
    ensures c.0 != h.top && c.0 != dv
  {
    FreeSizes(h);
    assert (h.top, topsize) in FreeChunks(h);
  }

  // A chunk of the bins is a good choice when it fits best among them and the
  // victim is not to be preferred.
  lemma BinChoice(h: Heap, binned: set<(Addr, nat)>, dv: Addr, dvsize: nat, topsize: nat, nb: nat, from: (Addr, nat))
    requires HeapOk(h) && Accounted(FreeChunks(h), binned, dv, dvsize, h.top, topsize)
    requires from in binned && forall c :: c in binned && c.1 >= nb ==> from.1 <= c.1
    requires dvsize >= nb ==> if nb >= MIN_LARGE_SIZE then from.1 < dvsize else NearFit(nb, from.1)
    ensures GoodChoice(FreeChunks(h), dv, h.top, nb, from)
  {
    BinnedElsewhere(h, binned, dv, dvsize, topsize, from);
    FreeSizes(h);
    hide HeapOk;
    forall c | c in FreeChunks(h) && c.0 != h.top && c.1 >= nb
      ensures c.0 == dv ==> c.1 == dvsize
      ensures c.0 != dv ==> c in binned
    {
    }
  }

  // The first small bin that is not empty has the best fit among the bins.
  lemma SmallChoice(h: Heap, lists: seq<seq<Addr>>, smallmap: Word, large: set<(Addr, nat)>, dv: Addr, dvsize: nat, topsize: nat,
                    nb: nat, i: nat)
    requires HeapOk(h) && ListsOk(lists, smallmap) && Accounted(FreeChunks(h), Listed(lists) + large, dv, dvsize, h.top, topsize)
    requires nb % ALIGNMENT == 0 && SmallIndex(nb) <= i < NSMALLBINS && smallmap[i]
    requires forall j :: SmallIndex(nb) <= j < i ==> !smallmap[j]
    requires forall c :: c in large ==> c.1 >= MIN_LARGE_SIZE
    requires i <= SmallIndex(nb) + 1 || dvsize < nb
    ensures forall p :: (p, BinSize(i)) in Listed(lists) ==> GoodChoice(FreeChunks(h), dv, h.top, nb, (p, BinSize(i)))
  {
    hide HeapOk, GoodChoice;
    forall p | (p, BinSize(i)) in Listed(lists)
      ensures GoodChoice(FreeChunks(h), dv, h.top, nb, (p, BinSize(i)))
    {
      forall c | c in Listed(lists) && c.1 >= nb
        ensures BinSize(i) <= c.1
      {
        assert smallmap[SmallIndex(c.1)];
      }
      BinChoice(h, Listed(lists) + large, dv, dvsize, topsize, nb, (p, BinSize(i)));
    }
  }

  lemma NoSmall(lists: seq<seq<Addr>>, smallmap: Word, nb: nat)
    requires ListsOk(lists, smallmap) && nb % ALIGNMENT == 0 && nb < MIN_LARGE_SIZE
    ensures (forall j :: SmallIndex(nb) <= j < WORD_BITS ==> !smallmap[j]) ==> forall c :: c in Listed(lists) ==> c.1 < nb
    ensures !smallmap[SmallIndex(nb)] && (SmallIndex(nb) + 1 < WORD_BITS ==> !smallmap[SmallIndex(nb) + 1])
      ==> forall c :: c in Listed(lists) && c.1 >= nb ==> c.1 >= nb + 2 * ALIGNMENT
  {
    assert forall c :: c in Listed(lists) ==> smallmap[SmallIndex(c.1)];
  }

  lemma TreeChoice(h: Heap, small: set<(Addr, nat)>, large: set<(Addr, nat)>, dv: Addr, dvsize: nat, topsize: nat, nb: nat)
    requires HeapOk(h) && Accounted(FreeChunks(h), small + large, dv, dvsize, h.top, topsize) && dvsize < nb < MIN_LARGE_SIZE
    requires forall c :: c in small ==> c.1 < nb
    ensures forall from :: from in large && (forall c :: c in large ==> from.1 <= c.1) ==> GoodChoice(FreeChunks(h), dv, h.top, nb, from)
  {
    forall from | from in large && forall c :: c in large ==> from.1 <= c.1
      ensures GoodChoice(FreeChunks(h), dv, h.top, nb, from)
    {
      BinChoice(h, small + large, dv, dvsize, topsize, nb, from);
    }
  }

  lemma NothingRight(x: Word, n: nat)
    requires n < WORD_BITS && !x[n] && ShiftRightBy(x, n) == ZERO
    ensures forall j :: n <= j < WORD_BITS ==> !x[j]
  {
    NextMarked(x, n);
  }

  lemma HugeSizes(h: Heap)
    requires HeapOk(h)
    ensures forall c :: c in FreeChunks(h) ==> c.1 < MAX_SIZE_T
  {
    forall c | c in FreeChunks(h)
      ensures c.1 < MAX_SIZE_T
    {
      assert ChunkOk(h, c.0);
    }
  }

  // The unsigned difference a tree chunk has to beat.
  lemma RemainderOfVictim(dvsize: nat, nb: SizeT)
    requires dvsize < SIZE_T_RANGE && nb > 0
    ensures nb <= dvsize ==> Remainder(dvsize, nb) == dvsize - nb
    ensures dvsize < nb ==> Remainder(dvsize, nb) == SIZE_T_RANGE + dvsize - nb
  {
    if dvsize < nb {
      assert (dvsize - nb) % SIZE_T_RANGE == dvsize - nb + SIZE_T_RANGE;
    }
  }

  lemma VictimLoose(h: Heap, binned: set<(Addr, nat)>, dv: Addr, dvsize: nat, top: Addr, topsize: nat)
    requires HeapOk(h) && Accounted(FreeChunks(h), binned, dv, dvsize, top, topsize) && dvsize != 0
    ensures (dv, dvsize) in FreeChunks(h) && top != 0
    ensures Accounted(FreeChunks(h) - {(dv, dvsize)}, binned, 0, 0, top, topsize)
  {
    FreeSizes(h);
    assert (top, topsize) in FreeChunks(h);
  }

  lemma VictimAgain(h: Heap, binned: set<(Addr, nat)>, dv: Addr, dvsize: nat, top: Addr, topsize: nat)
    requires HeapOk(h) && (dv, dvsize) in FreeChunks(h) && dv != top && dv != 0 && dvsize != 0
    requires Accounted(FreeChunks(h) - {(dv, dvsize)}, binned, 0, 0, top, topsize)
    ensures Accounted(FreeChunks(h), binned, dv, dvsize, top, topsize)
  {
  }

  lemma TopSplit(h: Heap, binned: set<(Addr, nat)>, dv: Addr, dvsize: nat, topsize: nat, nb: nat)
    requires HeapOk(h) && Accounted(FreeChunks(h), binned, dv, dvsize, h.top, topsize)
    requires MIN_CHUNK_SIZE <= nb < topsize && nb % ALIGNMENT == 0
    ensures h.top in h.heads && h.heads[h.top].size == topsize
    ensures var h' := SplitTop(h, nb, topsize - nb);
      && h' == h.(chunks := h.chunks + {h.top + nb},
                  heads := h.heads[h.top + nb := Head(topsize - nb, false, true)][h.top := Head(nb, true, true)], top := h.top + nb)
      && HeapOk(h') && Accounted(FreeChunks(h'), binned, dv, dvsize, h'.top, topsize - nb)
      && Served(h, h', nb, (h.top, topsize), nb)
  {
    hide HeapOk, Accounted, FreeChunks, LiveChunks;
    TopKnown(h, binned, dv, dvsize, topsize);
    SplitTopOk(h, nb, topsize - nb);
    SplitTopMoves(h, nb, topsize - nb);
    NotAChunk(h, h.top + nb);
    TopMoves(FreeChunks(h), binned, dv, dvsize, h.top, topsize, h.top + nb, topsize - nb);
  }

  lemma TopKnown(h: Heap, binned: set<(Addr, nat)>, dv: Addr, dvsize: nat, topsize: nat)
    requires HeapOk(h) && Accounted(FreeChunks(h), binned, dv, dvsize, h.top, topsize)
    ensures (h.top, topsize) in FreeChunks(h) && h.top in h.heads && h.heads[h.top].size == topsize
  {
    hide HeapOk;
    assert (h.top, topsize) in FreeChunks(h);
  }

  lemma NotAChunk(h: Heap, a: Addr)
    requires a !in h.chunks
    ensures forall c :: c in FreeChunks(h) ==> c.0 != a
  {
  }

  lemma TopMoves(free: set<(Addr, nat)>, binned: set<(Addr, nat)>, dv: Addr, dvsize: nat, top: Addr, topsize: nat, top': Addr, topsize': nat)
    requires Accounted(free, binned, dv, dvsize, top, topsize) && (forall c :: c in free ==> c.0 != top') && top' > 0
    ensures Accounted(free - {(top, topsize)} + {(top', topsize')}, binned, dv, dvsize, top', topsize')
  {
    assert dv != 0 ==> (dv, dvsize) in free;
  }

  lemma CutServes(h: Heap, h': Heap, p: Addr, nb: nat, rsize: nat)
    requires (p, nb + rsize) in FreeChunks(h) && rsize > 0
    requires LiveChunks(h') == LiveChunks(h) + {(p, nb)}
    requires FreeChunks(h') == FreeChunks(h) - {(p, nb + rsize)} + {(p + nb, rsize)}
    ensures Served(h, h', nb, (p, nb + rsize), nb)
  {
  }

  lemma FreeSizes(h: Heap)
    requires HeapOk(h)
    ensures forall c :: c in FreeChunks(h) ==> c.0 != 0 && 0 < c.1 < SIZE_T_RANGE && c.1 % ALIGNMENT == 0
  {
    forall c | c in FreeChunks(h)
      ensures c.0 != 0 && 0 < c.1 < SIZE_T_RANGE && c.1 % ALIGNMENT == 0
    {
      assert ChunkOk(h, c.0);
    }
  }

  // A listed chunk that is unlinked is the one missing from the bins.
  lemma UnlinkBinned(h: Heap, binned: set<(Addr, nat)>, dv: Addr, dvsize: nat, top: Addr, topsize: nat, p: Addr, s: nat)
    requires HeapOk(h) && h.top == top && (p, s) in binned
    requires Accounted(FreeChunks(h), binned, dv, dvsize, top, topsize)
    ensures (p, s) in FreeChunks(h) && p != top && p != dv && p != 0
    ensures forall c :: c in binned && c.0 == p ==> c.1 == s
    ensures Accounted(FreeChunks(h) - {(p, s)}, binned - {(p, s)}, dv, dvsize, top, topsize)
  {
    assert ChunkOk(h, p);
  }

  lemma LooseChunk(h: Heap, binned: set<(Addr, nat)>, dv: Addr, dvsize: nat, top: Addr, topsize: nat, p: Addr, s: nat)
    requires HeapOk(h) && (p, s) in FreeChunks(h)
    requires Accounted(FreeChunks(h) - {(p, s)}, binned, dv, dvsize, top, topsize)
    ensures s % ALIGNMENT == 0 && s < SIZE_T_RANGE
    ensures forall c :: c in binned ==> c.0 != p
  {
    assert ChunkOk(h, p);
  }

  // After the cut only the rest is unaccounted for.
  lemma CutAccounted(h: Heap, binned: set<(Addr, nat)>, dv: Addr, dvsize: nat, top: Addr, topsize: nat, p: Addr, nb: nat, rsize: nat)
    requires HeapOk(h) && (p, nb + rsize) in FreeChunks(h) && p != top && nb > 0 && rsize > 0
    requires Accounted(FreeChunks(h) - {(p, nb + rsize)}, binned, dv, dvsize, top, topsize)
    ensures p + nb !in h.chunks && p + nb != top && p + nb != dv
    ensures p + nb != 0
    ensures var free' := FreeChunks(h) - {(p, nb + rsize)} + {(p + nb, rsize)};
      (p + nb, rsize) in free' && free' - {(p + nb, rsize)} == FreeChunks(h) - {(p, nb + rsize)}
  {
    CutIsNew(h, p, nb);
    if dv != 0 {
      assert (dv, dvsize) in FreeChunks(h);
    }
    assert (top, topsize) in FreeChunks(h);
  }

  // The chunk that was loose is in the bins now.
  lemma OneBinned(free: set<(Addr, nat)>, binned: set<(Addr, nat)>, binned': set<(Addr, nat)>, dv: Addr, dvsize: nat, top: Addr, topsize: nat,
                  c: (Addr, nat))
    requires Accounted(free - {c}, binned, dv, dvsize, top, topsize) && c in free && binned' == binned + {c} && c.0 !in {dv, top}
    ensures Accounted(free, binned', dv, dvsize, top, topsize)
  {
  }

  lemma VictimFree(free: set<(Addr, nat)>, binned: set<(Addr, nat)>, dv: Addr, dvsize: nat, top: Addr, topsize: nat)
    requires Accounted(free, binned, dv, dvsize, top, topsize)
    ensures dvsize != 0 ==> (dv, dvsize) in free && (dv, dvsize) !in binned && dv != 0 && dv != top
  {
  }

  lemma VictimNotBinned(h: Heap, binned: set<(Addr, nat)>, dv: Addr, dvsize: nat, top: Addr, topsize: nat, c: (Addr, nat))
    requires Accounted(FreeChunks(h) - {c}, binned, dv, dvsize, top, topsize) && dvsize != 0
    ensures forall b :: b in binned ==> b.0 != dv
  {
    assert (dv, dvsize) in FreeChunks(h);
  }

  // It is the victim, and the former victim is in the bins.
  lemma VictimReplaced(free: set<(Addr, nat)>, binned: set<(Addr, nat)>, binned': set<(Addr, nat)>, dv: Addr, dvsize: nat,
                       top: Addr, topsize: nat, c: (Addr, nat))
    requires Accounted(free - {c}, binned, dv, dvsize, top, topsize) && c in free && c.0 !in {0, top} && c.1 != 0
    requires binned' == if dvsize != 0 then binned + {(dv, dvsize)} else binned
    requires c.0 != dv
    ensures Accounted(free, binned', c.0, c.1, top, topsize)
  {
  }

  lemma InSomeTree(trees: seq<Tree>, p: Addr)
    ensures TreeBinsModule.Free(trees, p) <==> exists s :: (p, s) in AllChunks(trees)
  {
    if i :| 0 <= i < |trees| && p in Addrs(trees[i]) {
      ChunksAgree(trees[i]);
      var s :| (p, s) in Chunks(trees[i]);
      assert (p, s) in AllChunks(trees);
    }
    if s :| (p, s) in AllChunks(trees) {
      var i :| 0 <= i < |trees| && (p, s) in Chunks(trees[i]);
      ChunksAgree(trees[i]);
    }
  }

  lemma TakenOut(all: set<(Addr, nat)>, p: Addr, s: nat)
    requires forall c :: c in all && c.0 == p ==> c.1 == s
    ensures (set c | c in all && c.0 != p) == all - {(p, s)}
  {
  }

  lemma LargeSizes(mem: map<Addr, TrieMemory.TreeChunk>, bins: seq<Addr>, trees: seq<Tree>, treemap: Word)
    requires BinsOk(mem, bins, trees, treemap)
    ensures forall c :: c in AllChunks(trees) ==> MIN_LARGE_SIZE <= c.1 < SIZE_T_RANGE
    ensures treemap == ZERO ==> AllChunks(trees) == {}
  {
    forall c | c in AllChunks(trees)
      ensures MIN_LARGE_SIZE <= c.1 < SIZE_T_RANGE && treemap != ZERO
    {
      var i :| 0 <= i < |trees| && c in Chunks(trees[i]);
      assert BinOk(mem, bins[i], trees[i], treemap[i], i);
      SizesLarge(trees[i], i);
      SizeOfChunk(trees[i], c);
      assert treemap[i] && !ZERO[i];
    }
  }
}
