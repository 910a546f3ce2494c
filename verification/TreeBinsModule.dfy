// The tree bins of a malloc_state: 32 roots, their bitmap and the chunks
// linked below them.
module TreeBinsModule {
  import opened Bits
  import opened TreeIndex
  import opened Digits
  import opened Trie
  import opened TrieMemory
  import opened TrieUnlink
  import opened BestFit

  // Every size of a bin's tree is one the bin is for.
  ghost predicate SizesFit(t: Tree, i: nat) {
    forall s :: s in Sizes(t) ==> InTreeBin(s, i) && s < SIZE_T_RANGE
  }

  ghost predicate BinOk(mem: Memory, root: Addr, t: Tree, marked: bool, i: nat)
    requires i < NTREEBINS
  {
    && Stored(mem, i, root, t, BinSlot)
    && Ok(t, Base(i), Width(i)) && Separate(t) && SizesFit(t, i)
    && (marked <==> t.Node?)
  }

  lemma BinParts(mem: Memory, root: Addr, t: Tree, marked: bool, i: nat)
    requires i < NTREEBINS && BinOk(mem, root, t, marked, i)
    ensures Stored(mem, i, root, t, BinSlot) && Ok(t, Base(i), Width(i)) && Separate(t) && SizesFit(t, i) && (marked <==> t.Node?)
  {
    hide Stored, Ok, Separate, SizesFit;
  }

  lemma BinWhole(mem: Memory, root: Addr, t: Tree, marked: bool, i: nat)
    requires i < NTREEBINS && Stored(mem, i, root, t, BinSlot)
    requires Ok(t, Base(i), Width(i)) && Separate(t) && SizesFit(t, i) && (marked <==> t.Node?)
    ensures BinOk(mem, root, t, marked, i)
  {
    hide Stored, Ok, Separate, SizesFit;
  }

  lemma MapSlot(treemap: Word, i: nat)
    requires i < NTREEBINS
    ensures i < |treemap| && i < WORD_BITS && Mark(treemap, i) == treemap[i := true]
  {
  }

  lemma WritesMore(m0: Memory, m: Memory, addrs: set<Addr>, more: set<Addr>)
    requires OnlyWrites(m0, m, addrs) && addrs <= more
    ensures OnlyWrites(m0, m, more)
  {
  }

  ghost predicate Apart(trees: seq<Tree>) {
    forall i, j :: 0 <= i < j < |trees| ==> Addrs(trees[i]) !! Addrs(trees[j])
  }

  ghost predicate BinsOk(mem: Memory, bins: seq<Addr>, trees: seq<Tree>, treemap: Word) {
    && |bins| == NTREEBINS && |trees| == NTREEBINS
    && (forall i :: 0 <= i < NTREEBINS ==> BinOk(mem, bins[i], trees[i], treemap[i], i))
    && Apart(trees)
  }

  ghost function AllChunks(trees: seq<Tree>): (chunks: set<(Addr, nat)>)
    ensures forall c :: c in chunks <==> exists i :: 0 <= i < |trees| && c in Chunks(trees[i])
  {
    if trees == [] then {}
    else
      var n := |trees| - 1;
      assert forall i :: 0 <= i < n ==> trees[..n][i] == trees[i];
      AllChunks(trees[..n]) + Chunks(trees[n])
  }

  ghost predicate Free(trees: seq<Tree>, x: Addr) {
    exists i :: 0 <= i < |trees| && x in Addrs(trees[i])
  }

  lemma NotInside(a: Addr, b: Addr, x: Addr, addrs: set<Addr>)
    requires a in addrs && b in addrs && x !in addrs
    ensures x != a && x != b
  {
  }

  lemma NotFree(trees: seq<Tree>, x: Addr)
    requires !Free(trees, x)
    ensures forall i :: 0 <= i < |trees| ==> x !in Addrs(trees[i])
  {
  }

  ghost function HomeOf(trees: seq<Tree>, x: Addr): (home: nat)
    requires Free(trees, x)
    ensures home < |trees| && x in Addrs(trees[home])
  {
    var i :| 0 <= i < |trees| && x in Addrs(trees[i]);
    i
  }

  class TreeBins {
    const bins: array<Addr>
    var mem: Memory
    var treemap: Word
    ghost var trees: seq<Tree>

    ghost predicate Valid()
      reads this, bins
    {
      bins.Length == NTREEBINS && BinsOk(mem, bins[..], trees, treemap)
    }

    ghost function Contents(): set<(Addr, nat)>
      reads this
    {
      AllChunks(trees)
    }

    lemma Shape()
      requires Valid()
      ensures bins.Length == NTREEBINS == |trees| == |treemap|
    {
    }

    // What the invariant says of one bin, and of the others.
    lemma Known(i: nat)
      requires Valid() && i < NTREEBINS
      ensures bins.Length == NTREEBINS == |trees| && BinsOk(mem, bins[..], trees, treemap) && Apart(trees)
      ensures BinOk(mem, bins[i], trees[i], treemap[i], i) && Stored(mem, i, bins[i], trees[i], BinSlot)
      ensures forall j :: 0 <= j < NTREEBINS && j != i ==> Addrs(trees[j]) !! Addrs(trees[i])
      ensures Contents() == AllChunks(trees)
    {
      hide Stored, Ok, Separate, SizesFit;
    }

    lemma Conclude()
      requires bins.Length == NTREEBINS && BinsOk(mem, bins[..], trees, treemap)
      ensures Valid() && Contents() == AllChunks(trees)
    {
    }

    constructor ()
      ensures Valid() && fresh(bins) && Contents() == {} && treemap == ZERO
    {
      bins := new Addr[NTREEBINS](_ => 0);
      mem := map[];
      treemap := ZERO;
      trees := seq(NTREEBINS, _ => Nil);
    }

    // The walk of insert_large_chunk down a non-empty bin.
    method FindStop(i: nat, size: SizeT, ghost t: Tree) returns (at: Addr, right: bool)
      requires i < NTREEBINS && i < bins.Length
      requires At(mem, i, bins[i], t, BinSlot, Base(i), Width(i), ShiftedSize(size, i), size)
      ensures Base(i) <= size < Base(i) + Pow2(Width(i))
      ensures (at, right) == Stop(t, Base(i), Width(i), size)
    {
      at := bins[i];
      right := false;
      var k: SizeT := ShiftedSize(size, i);
      ghost var cur, lo: nat, w: nat, parent := t, Base(i), Width(i), BinSlot;
      while mem[at].size != size
        invariant At(mem, i, at, cur, parent, lo, w, k, size) && !right
        invariant Stop(t, Base(i), Width(i), size) == Stop(cur, lo, w, size)
        decreases w
      {
        ghost var next, lo': nat := WalkDown(mem, i, at, cur, parent, lo, w, k, size);
        right := k >= SIGN_BIT;
        k := ShiftOne(k);
        var c := if right then mem[at].child1 else mem[at].child0;
        if c == 0 {
          return;
        }
        cur, lo, w, parent := next, lo', w - 1, Below(at);
        at := c;
        right := false;
      }
    }

    // The writes of insert_large_chunk where the walk ended.
    method LinkAt(at: Addr, right: bool, x: Addr, size: nat, i: nat)
      requires at in mem && mem[at].fd in mem && x != at && x != mem[at].fd
      modifies this`mem
      ensures mem == WriteInsert(old(mem), i, at, right, x, size)
    {
      if mem[at].size != size {
        mem := mem[x := TreeChunk(size, x, x, 0, 0, Below(at), i)];
        mem := mem[at := if right then mem[at].(child1 := x) else mem[at].(child0 := x)];
      } else {
        var f := mem[at].fd;
        mem := mem[x := TreeChunk(size, f, at, 0, 0, NoParent, i)];
        mem := mem[at := mem[at].(fd := x)];
        mem := mem[f := mem[f].(bk := x)];
      }
    }

    // The first chunk of an empty bin.
    method LinkRoot(x: Addr, size: nat, i: nat)
      requires i < NTREEBINS && bins.Length == NTREEBINS && x != 0
      modifies this`mem, this`treemap, bins
      ensures treemap == Mark(old(treemap), i) && bins[..] == old(bins[..])[i := x]
      ensures OnlyWrites(old(mem), mem, {x})
      ensures Stored(mem, i, x, Node([x], size, Nil, Nil), BinSlot)
    {
      treemap := Mark(treemap, i);
      bins[i] := x;
      mem := mem[x := TreeChunk(size, x, x, 0, 0, BinSlot, i)];
      assert Linked(mem, i, [x], size, 0);
    }

    // insert_large_chunk once the bin is known; u is the tree it makes.
    method InsertIntoBin(i: nat, x: Addr, size: SizeT, ghost t: Tree) returns (ghost u: Tree)
      requires i < NTREEBINS && bins.Length == NTREEBINS && InTreeBin(size, i) && x !in Addrs(t) && x != 0
      requires BinOk(mem, bins[i], t, treemap[i], i)
      modifies this`mem, this`treemap, bins
      ensures BinOk(mem, bins[i], u, true, i)
      ensures bins[..] == old(bins[..])[i := bins[i]] && treemap == old(treemap)[i := true]
      ensures OnlyWrites(old(mem), mem, Addrs(t) + {x})
      ensures Addrs(u) == Addrs(t) + {x} && Chunks(u) == Chunks(t) + {(x, size)}
    {
      hide *;
      MapSlot(treemap, i);
      BinParts(mem, bins[i], t, treemap[i], i);
      u := InsertFits(t, i, size, x);
      if !treemap[i] {
        LinkRoot(x, size, i);
        WritesMore(old(mem), mem, {x}, Addrs(t) + {x});
      } else {
        BeforeWalk(mem, bins[i], t, i, size);
        var at, right := FindStop(i, size, t);
        AfterWalk(mem, bins[i], t, i, size, x);
        NotInside(at, mem[at].fd, x, Addrs(t));
        LinkAt(at, right, x, size, i);
        SameSlot(bins[..], i);
        SameSlot(treemap, i);
      }
      BinWhole(mem, bins[i], u, true, i);
    }

    // Link a free chunk of a large size into its tree.
    method InsertLargeChunk(x: Addr, size: SizeT)
      requires Valid() && x != 0 && size >= MIN_LARGE_SIZE && !Free(trees, x)
      modifies this, bins
      ensures Valid()
      ensures Contents() == old(Contents()) + {(x, size)}
    {
      hide *;
      var i := ComputeTreeIndex(size);
      Known(i);
      NotFree(trees, x);
      ghost var t := trees[i];
      ghost var u := InsertIntoBin(i, x, size, t);
      ChangeBin(old(mem), mem, old(bins[..]), trees, old(treemap), i, bins[i], u, true, Addrs(t) + {x});
      NewContents(trees, i, u);
      NewContents(trees, i, t);
      SameSlot(trees, i);
      trees := trees[i := u];
      Conclude();
    }

    // ----- unlink_large_chunk -----

    // The walk to the leaf that replaces x, stopping at the slot that names it.
    method FindLeaf(x: Addr, ghost i: nat, ghost h: Tree, ghost hp: Parent) returns (r: Addr, at: Addr, right: bool)
      requires h.Node? && Stored(mem, i, x, h, hp) && (h.left.Node? || h.right.Node?)
      ensures (at, right) == LeafSlot(h)
      ensures LastLeaf(h).ring != [] && r == LastLeaf(h).ring[0]
    {
      right := mem[x].child1 != 0;
      r := if right then mem[x].child1 else mem[x].child0;
      at := x;
      ghost var cur := if h.right.Node? then h.right else h.left;
      ChildrenStored(mem, i, x, h, hp);
      ChildrenStored(mem, i, r, cur, Below(at));
      while mem[r].child1 != 0 || mem[r].child0 != 0
        invariant cur.Node? && Stored(mem, i, r, cur, Below(at)) && r in mem
        invariant (mem[r].child1 == 0 <==> cur.right.Nil?) && (mem[r].child0 == 0 <==> cur.left.Nil?)
        invariant LastLeaf(h) == LastLeaf(cur)
        invariant LeafSlot(h) == if cur.right.Node? || cur.left.Node? then LeafSlot(cur) else (at, right)
        decreases cur
      {
        at := r;
        right := mem[at].child1 != 0;
        r := if right then mem[at].child1 else mem[at].child0;
        cur := if cur.right.Node? then cur.right else cur.left;
        ChildrenStored(mem, i, r, cur, Below(at));
      }
    }

    // Out of the ring, or cut the leaf that replaces x.
    method Detach(x: Addr, ghost i: nat, ghost h: Tree, ghost hp: Parent) returns (r: Addr)
      requires h.Node? && x in h.ring && hp != NoParent
      requires Stored(mem, i, h.ring[0], h, hp) && Separate(h)
      modifies this`mem
      ensures Detached(old(mem), mem, i, x, h, hp, r)
    {
      AloneInRing(mem, i, x, h, hp);
      if mem[x].bk != x {
        DetachRing(mem, i, x, h, hp);
        var f := mem[x].fd;
        r := mem[x].bk;
        mem := mem[f := mem[f].(bk := r)];
        mem := mem[r := mem[r].(fd := f)];
      } else {
        ChildrenStored(mem, i, x, h, hp);
        if mem[x].child1 != 0 || mem[x].child0 != 0 {
          DetachLeaf(mem, i, x, h, hp);
          var at, right;
          r, at, right := FindLeaf(x, i, h, hp);
          mem := mem[at := if right then mem[at].(child1 := 0) else mem[at].(child0 := 0)];
        } else {
          DetachNothing(mem, i, x, h, hp);
          r := 0;
        }
      }
    }

    // R takes the parent and the children of X.
    method TakeOverChildren(x: Addr, r: Addr, xp: Parent)
      requires x in mem && r in mem && x != r
      requires mem[x].child0 == 0 || mem[x].child0 in mem
      requires mem[x].child1 == 0 || mem[x].child1 in mem
      modifies this`mem
      ensures mem == WriteTakeOver(old(mem), x, r, xp)
    {
      mem := mem[r := mem[r].(parent := xp)];
      var c0 := mem[x].child0;
      if c0 != 0 {
        mem := mem[r := mem[r].(child0 := c0)];
        mem := mem[c0 := mem[c0].(parent := Below(r))];
      }
      var c1 := mem[x].child1;
      if c1 != 0 {
        mem := mem[r := mem[r].(child1 := c1)];
        mem := mem[c1 := mem[c1].(parent := Below(r))];
      }
    }

    // unlink_large_chunk on the root of the bin, head of its ring.
    method ReplaceRoot(i: nat, x: Addr, ghost m0: Memory, ghost t: Tree, r: Addr)
      requires i < NTREEBINS && bins.Length == NTREEBINS
      requires t.Node? && t.ring != [] && x == t.ring[0] && Detached(m0, mem, i, x, t, BinSlot, r)
      modifies this`mem, this`treemap, bins
      ensures bins[..] == old(bins[..])[i := r]
      ensures treemap == if r == 0 then old(treemap)[i := false] else old(treemap)
      ensures Stored(mem, i, r, RemoveHere(t, x), BinSlot)
      ensures OnlyWrites(m0, mem, Addrs(t))
    {
      bins[i] := r;
      if r == 0 {
        treemap := Clear(treemap, i);
      } else {
        ghost var m := mem;
        TakeOverChildren(x, r, BinSlot);
        TakenWrites(m0, m, x, r, BinSlot, Addrs(t));
      }
    }

    // unlink_large_chunk on a head that hangs below chunk a.
    method ReplaceBelow(i: nat, x: Addr, a: Addr, ghost m0: Memory, ghost p: Addr, ghost t: Tree, r: Addr)
      requires BelowT(m0, mem, i, p, t, BinSlot, x, r) && x == Holder(t, x).ring[0]
      requires HolderParent(t, x, BinSlot) == Below(a)
      modifies this`mem
      ensures Stored(mem, i, p, Remove(t, x), BinSlot)
      ensures OnlyWrites(m0, mem, Addrs(t))
    {
      ParentSlot(m0, mem, i, p, t, BinSlot, x, r);
      HolderStored(m0, i, p, t, BinSlot, x);
      ghost var m := mem;
      if r == 0 {
        UnlinkBelowLast(m0, mem, i, p, t, BinSlot, x);
      } else {
        UnlinkBelowHead(m0, mem, i, p, t, BinSlot, x, r);
      }
      if mem[a].child0 == x {
        mem := mem[a := mem[a].(child0 := r)];
      } else {
        mem := mem[a := mem[a].(child1 := r)];
      }
      if r != 0 {
        ghost var linked := mem;
        TakeOverChildren(x, r, Below(a));
        TakenWrites(m0, linked, x, r, Below(a), Addrs(t));
      }
    }

    method UnlinkInBin(i: nat, x: Addr, ghost t: Tree) returns (ghost u: Tree)
      requires i < NTREEBINS && bins.Length == NTREEBINS && x in Addrs(t)
      requires BinOk(mem, bins[i], t, treemap[i], i)
      modifies this`mem, this`treemap, bins
      ensures BinOk(mem, bins[i], u, treemap[i], i)
      ensures bins[..] == old(bins[..])[i := bins[i]] && treemap == old(treemap)[i := treemap[i]]
      ensures OnlyWrites(old(mem), mem, Addrs(t))
      ensures Addrs(u) == Addrs(t) - {x} && Chunks(u) == (set c | c in Chunks(t) && c.0 != x)
    {
      hide *;
      ghost var m0, p, h, hp := mem, bins[i], Holder(t, x), HolderParent(t, x, BinSlot);
      MapSlot(treemap, i);
      BinParts(mem, p, t, treemap[i], i);
      HolderKnown(mem, i, p, t, x);
      u := RemoveFits(t, i, x);
      var xp := mem[x].parent;
      var r := Detach(x, i, h, hp);
      SameSlot(bins[..], i);
      SameSlot(treemap, i);
      DetachCases(m0, mem, i, p, t, x, r);
      if xp != NoParent {
        if bins[i] == x {
          ReplaceRoot(i, x, m0, t, r);
          StoredNode(mem, i, r, u);
        } else {
          ReplaceBelow(i, x, xp.a, m0, p, t, r);
          StoredNode(mem, i, p, u);
        }
      } else {
        StoredNode(mem, i, p, u);
      }
      BinWhole(mem, bins[i], u, treemap[i], i);
    }

    // Take a chunk, wherever it is, out of its tree.
    method UnlinkLargeChunk(x: Addr)
      requires Valid() && Free(trees, x)
      modifies this, bins
      ensures Valid()
      ensures Contents() == set c | c in old(Contents()) && c.0 != x
    {
      hide *;
      Shape();
      ghost var home := HomeOf(trees, x);
      Known(home);
      IndexField(mem, home, bins[home], trees[home], BinSlot, x);
      var i := mem[x].index;
      ghost var t := trees[i];
      ghost var u := UnlinkInBin(i, x, t);
      ChangeBin(old(mem), mem, old(bins[..]), trees, old(treemap), i, bins[i], u, treemap[i], Addrs(t));
      RemovedContents(trees, i, u, x);
      trees := trees[i := u];
      Conclude();
    }

    // ----- the searches of tmalloc_large and tmalloc_small -----

    // The walk toward the digits of nb, remembering the deepest untaken right
    // subtree; t is where the leftmost descent has to go on.
    method PathSearch(i: nat, nb: SizeT, ghost root: Tree)
      returns (v: Addr, rsize: SizeT, t: Addr, ghost place: Place)
      requires i < NTREEBINS && bins.Length == NTREEBINS && InTreeBin(nb, i) && nb > 0
      requires root.Node? && BinOk(mem, bins[i], root, true, i)
      ensures PlaceOk(mem, i, t, root, place) && Fitting(place.cur, rsize, nb)
      ensures Descending(root, place.cur, rsize, nb) && Found(root, v, rsize, nb)
    {
      v := 0;
      rsize := SIZE_T_RANGE - nb;
      t := bins[i];
      var bits: SizeT := ShiftedSize(nb, i);
      var rst: Addr := 0;
      BeforeWalk(mem, t, root, i, nb);
      ghost var cur, reserve := SearchStart(mem, i, t, root, bits, nb);
      while true
        invariant Searching(mem, i, t, root, cur, rst, reserve, bits, nb, v, rsize)
        decreases cur.w
      {
        VisitNode(mem, i, t, root, cur, nb, v, rsize);
        var trem := Remainder(mem[t].size, nb);
        if trem < rsize {
          AheadOfBetter(root, cur, reserve, rsize, trem, nb);
          v := t;
          rsize := trem;
          if rsize == 0 {
            place := cur;
            return;
          }
        }
        ghost var next, r, rst' := StepPath(mem, i, t, root, cur, rst, reserve, bits, nb, v, rsize);
        var rt := mem[t].child1;
        t := if bits >= SIGN_BIT then mem[t].child1 else mem[t].child0;
        if rt != 0 && rt != t {
          rst := rt;
        }
        if t == 0 {
          t := rst;
          place := r;
          return;
        }
        cur, reserve := next, r;
        bits := ShiftOne(bits);
      }
    }

    // Down the leftmost children, keeping the best chunk met.
    method Descend(ghost i: nat, nb: SizeT, ghost root: Tree, t0: Addr, v0: Addr, rsize0: SizeT, ghost place0: Place)
      returns (v: Addr, rsize: SizeT)
      requires PlaceOk(mem, i, t0, root, place0) && Fitting(place0.cur, rsize0, nb) && nb > 0
      requires Descending(root, place0.cur, rsize0, nb) && Found(root, v0, rsize0, nb)
      ensures Found(root, v, rsize, nb) && (v0 != 0 || t0 != 0 ==> v != 0)
      ensures forall z :: z in Sizes(root) && z >= nb ==> z - nb >= rsize
    {
      v, rsize := v0, rsize0;
      var t: Addr := t0;
      ghost var place := place0;
      while t != 0
        invariant PlaceOk(mem, i, t, root, place) && Fitting(place.cur, rsize, nb)
        invariant Descending(root, place.cur, rsize, nb) && Found(root, v, rsize, nb)
        invariant (v0 != 0 ==> v != 0) && (v == 0 ==> t == t0)
        decreases place.cur
      {
        StoredInMemory(mem, i, t, place.cur, place.parent);
        VisitNode(mem, i, t, root, place, nb, v, rsize);
        NodeSize(place.cur);
        var trem := Remainder(mem[t].size, nb);
        ghost var next := DescendStep(mem, i, t, root, place, nb, rsize);
        if trem < rsize {
          rsize := trem;
          v := t;
        }
        t := if mem[t].child0 != 0 then mem[t].child0 else mem[t].child1;
        place := next;
      }
    }

    // The root of the next bin that is not empty; null if there is none.
    method NextRoot(nb: SizeT, idx: nat) returns (t: Addr, ghost home: nat, ghost place: Place)
      requires Valid() && InTreeBin(nb, idx)
      ensures idx <= home < NTREEBINS
      ensures t == 0 ==> home == idx && forall j :: idx < j < NTREEBINS ==> Sizes(trees[j]) == {}
      ensures t != 0 ==> home > idx && forall j :: idx < j < home ==> Sizes(trees[j]) == {}
      ensures PlaceOk(mem, home, t, trees[home], place) && place.cur == (if t == 0 then Nil else trees[home])
      ensures Fitting(place.cur, SIZE_T_RANGE - nb, nb)
    {
      t := 0;
      home := idx;
      place := Place(Nil, 0, 0, NoParent);
      var leftbits := And(LeftBits(Bit(idx)), treemap);
      NextBin(idx, treemap);
      if leftbits != ZERO {
        var i := BitScanForward(LeastBit(leftbits));
        EmptyBins(mem, bins[..], trees, treemap, idx, i);
        t := bins[i];
        home := i;
        place := StartAtRoot(mem, bins[..], trees, treemap, nb, idx, i);
      } else {
        EmptyBins(mem, bins[..], trees, treemap, idx, NTREEBINS);
      }
    }

    // The search of tmalloc_large: the best fitting chunk of all tree bins.
    method FindBestFit(nb: SizeT) returns (v: Addr, rsize: SizeT)
      requires Valid() && nb >= MIN_LARGE_SIZE
      ensures v == 0 ==> rsize == SIZE_T_RANGE - nb && forall c :: c in Contents() ==> c.1 < nb
      ensures v != 0 ==> (v, rsize + nb) in Contents() && forall c :: c in Contents() && c.1 >= nb ==> rsize + nb <= c.1
    {
      hide Descending, Fitting, Ok, Separate, AllChunks, InTreeBin;
      var idx := ComputeTreeIndex(nb);
      v := 0;
      rsize := SIZE_T_RANGE - nb;
      var t: Addr := 0;
      ghost var place, home: nat := Place(Nil, 0, 0, NoParent), idx;
      assert BinOk(mem, bins[idx], trees[idx], treemap[idx], idx);
      RootPresence(mem, bins[idx], trees[idx], idx);
      if bins[idx] != 0 {
        v, rsize, t, place := PathSearch(idx, nb, trees[idx]);
      }
      if t == 0 && v == 0 {
        NoneFits(mem, idx, trees[idx], place, rsize, nb);
        t, home, place := NextRoot(nb, idx);
      }
      v, rsize := Descend(home, nb, trees[home], t, v, rsize, place);
      BestOfAll(mem, bins[..], trees, treemap, nb, idx, home, v, rsize);
    }

    // The search of tmalloc_small: the smallest chunk of all tree bins.
    method FindSmallest(nb: SizeT) returns (v: Addr, rsize: SizeT)
      requires Valid() && treemap != ZERO && 0 < nb < MIN_LARGE_SIZE
      ensures v != 0 && (v, rsize + nb) in Contents()
      ensures forall c :: c in Contents() ==> rsize + nb <= c.1
    {
      FirstMarked(treemap);
      var i := BitScanForward(LeastBit(treemap));
      ghost var place := SmallestStart(mem, bins[..], trees, treemap, nb, i);
      v, rsize := SmallestInTree(i, nb, trees[i], bins[i], place);
      SmallestOfAll(mem, bins[..], trees, treemap, nb, i, v, rsize);
    }

    // The leftmost descent of tmalloc_small, from a root that fits.
    method SmallestInTree(ghost i: nat, nb: SizeT, ghost root: Tree, t0: Addr, ghost place0: Place)
      returns (v: Addr, rsize: SizeT)
      requires place0.cur.Node? && PlaceOk(mem, i, t0, root, place0) && t0 != 0 && t0 in mem && nb > 0
      requires mem[t0].size == place0.cur.size && nb <= mem[t0].size < SIZE_T_RANGE
      requires Leftmost(mem, i, t0, root, place0, t0, mem[t0].size - nb, nb)
      ensures v != 0 && Found(root, v, rsize, nb)
      ensures forall z :: z in Sizes(root) && z >= nb ==> z - nb >= rsize
    {
      var t: Addr := t0;
      ghost var place := place0;
      v := t;
      rsize := mem[t].size - nb;
      while true
        invariant Leftmost(mem, i, t, root, place, v, rsize, nb)
        decreases place.cur
      {
        ChildrenApart(mem, i, t, place.cur, place.parent);
        place := DescendStep(mem, i, t, root, place, nb, rsize);
        t := if mem[t].child0 != 0 then mem[t].child0 else mem[t].child1;
        if t == 0 {
          break;
        }
        StoredInMemory(mem, i, t, place.cur, place.parent);
        VisitNode(mem, i, t, root, place, nb, v, rsize);
        var trem := Remainder(mem[t].size, nb);
        if trem < rsize {
          BetterDescending(root, place.cur, rsize, trem, nb);
          rsize := trem;
          v := t;
        }
      }
    }
  }

  // The state of the leftmost descent, the node at t being compared already.
  ghost predicate Leftmost(mem: Memory, i: nat, t: Addr, root: Tree, place: Place, v: Addr, rsize: nat, nb: nat) {
    && place.cur.Node? && PlaceOk(mem, i, t, root, place) && Fitting(place.cur, rsize, nb)
    && Descending(root, place.cur, rsize, nb) && Found(root, v, rsize, nb) && v != 0
    && rsize == Better(rsize, place.cur.size, nb)
  }

  lemma BetterDescending(root: Tree, cur: Tree, rsize: nat, better: nat, nb: nat)
    requires Descending(root, cur, rsize, nb) && better <= rsize
    ensures Descending(root, cur, better, nb)
  {
  }

  lemma SmallestStart(mem: Memory, bins: seq<Addr>, trees: seq<Tree>, treemap: Word, nb: SizeT, i: nat)
    returns (place: Place)
    requires BinsOk(mem, bins, trees, treemap) && i < NTREEBINS && treemap[i] && 0 < nb < MIN_LARGE_SIZE
    ensures place == Place(trees[i], Base(i), Width(i), BinSlot) && place.cur.Node?
    ensures bins[i] != 0 && bins[i] in mem && mem[bins[i]].size == trees[i].size >= nb
    ensures PlaceOk(mem, i, bins[i], trees[i], place) && trees[i].size < SIZE_T_RANGE
    ensures Leftmost(mem, i, bins[i], trees[i], place, bins[i], trees[i].size - nb, nb)
  {
    assert BinOk(mem, bins[i], trees[i], treemap[i], i);
    place := Place(trees[i], Base(i), Width(i), BinSlot);
    SizesLarge(trees[i], i);
    NodeSize(trees[i]);
    StoredInMemory(mem, i, bins[i], trees[i], BinSlot);
    assert (trees[i].ring[0], trees[i].size) in RingChunks(trees[i].ring, trees[i].size);
  }

  lemma SizesLarge(t: Tree, i: nat)
    requires i < NTREEBINS && SizesFit(t, i)
    ensures forall y :: y in Sizes(t) ==> MIN_LARGE_SIZE <= y < SIZE_T_RANGE
  {
    MinSizeGrows(0, i);
    FirstBound();
  }

  // A size found in bin j is large, and belongs to no bin before the first
  // marked one.
  lemma SmallerBin(mem: Memory, bins: seq<Addr>, trees: seq<Tree>, treemap: Word, i: nat, j: nat, size: nat)
    requires BinsOk(mem, bins, trees, treemap) && i < NTREEBINS && j < NTREEBINS && !SomeBelow(treemap, i) && size in Sizes(trees[j])
    ensures i <= j && InTreeBin(size, j) && MIN_LARGE_SIZE <= size
    ensures forall z :: z in Sizes(trees[i]) ==> InTreeBin(z, i)
  {
    hide Stored, Ok, Separate;
    assert BinOk(mem, bins[j], trees[j], treemap[j], j);
    assert BinOk(mem, bins[i], trees[i], treemap[i], i);
    SizesLarge(trees[j], j);
    assert trees[j].Node?;
  }

  lemma SmallestOfAll(mem: Memory, bins: seq<Addr>, trees: seq<Tree>, treemap: Word, nb: SizeT, i: nat, v: Addr, rsize: nat)
    requires BinsOk(mem, bins, trees, treemap) && i < NTREEBINS && 0 < nb < MIN_LARGE_SIZE
    requires v != 0 && Found(trees[i], v, rsize, nb) && !SomeBelow(treemap, i)
    requires forall z :: z in Sizes(trees[i]) && z >= nb ==> z - nb >= rsize
    ensures (v, rsize + nb) in AllChunks(trees)
    ensures forall c :: c in AllChunks(trees) ==> rsize + nb <= c.1
  {
    hide Chunks, Stored, Ok, Separate, Sizes, AllChunks;
    forall c | c in AllChunks(trees)
      ensures rsize + nb <= c.1
    {
      var j :| 0 <= j < |trees| && c in Chunks(trees[j]);
      SizeOfChunk(trees[j], c);
      SmallerBin(mem, bins, trees, treemap, i, j, c.1);
      if j > i {
        SizeOfChunk(trees[i], (v, rsize + nb));
        LaterBinIsLarger(rsize + nb, i, c.1, j);
      }
    }
  }

  // The whole tree of a later bin is searched from its root.
  lemma StartAtRoot(mem: Memory, bins: seq<Addr>, trees: seq<Tree>, treemap: Word, nb: SizeT, idx: nat, i: nat)
    returns (place: Place)
    requires BinsOk(mem, bins, trees, treemap) && InTreeBin(nb, idx) && idx < i < NTREEBINS && treemap[i]
    ensures place == Place(trees[i], Base(i), Width(i), BinSlot)
    ensures bins[i] != 0 && PlaceOk(mem, i, bins[i], trees[i], place)
    ensures Descending(trees[i], place.cur, SIZE_T_RANGE - nb, nb) && Fitting(place.cur, SIZE_T_RANGE - nb, nb)
  {
    assert BinOk(mem, bins[i], trees[i], treemap[i], i);
    place := Place(trees[i], Base(i), Width(i), BinSlot);
    LargerBin(trees[i], i, nb, idx);
    RootPresence(mem, bins[i], trees[i], i);
  }

  // The state of the path search, at the node at t.
  ghost predicate Searching(mem: Memory, i: nat, t: Addr, root: Tree, cur: Place, rst: Addr, reserve: Place,
                            bits: nat, nb: nat, v: Addr, rsize: nat) {
    && Walking(mem, i, t, root, cur, bits, nb) && Reserved(mem, i, rst, root, reserve, nb)
    && Found(root, v, rsize, nb) && rsize > 0 && Ahead(root, cur, reserve, rsize, nb)
  }

  lemma SearchStart(mem: Memory, i: nat, t: Addr, root: Tree, bits: nat, nb: SizeT) returns (cur: Place, reserve: Place)
    requires i < NTREEBINS && root.Node? && BinOk(mem, t, root, true, i) && nb > 0
    requires At(mem, i, t, root, BinSlot, Base(i), Width(i), bits, nb)
    ensures Searching(mem, i, t, root, cur, 0, reserve, bits, nb, 0, SIZE_T_RANGE - nb)
  {
    cur, reserve := Place(root, Base(i), Width(i), BinSlot), Place(Nil, 0, 0, NoParent);
    SizesPositive(root, i);
  }

  lemma SizesPositive(t: Tree, i: nat)
    requires i < NTREEBINS && SizesFit(t, i)
    ensures forall y :: y in Sizes(t) ==> 0 < y < SIZE_T_RANGE
  {
    MinSizeGrows(0, i);
    FirstBound();
  }

  // One step of the path search, once the node at t has been compared.
  lemma StepPath(mem: Memory, i: nat, t: Addr, root: Tree, place: Place, rst: Addr, reserve: Place,
                 bits: SizeT, nb: SizeT, v: Addr, rsize: nat)
    returns (next: Place, r: Place, rst': Addr)
    requires Searching(mem, i, t, root, place, rst, reserve, bits, nb, v, rsize)
    requires rsize == Better(rsize, place.cur.size, nb)
    ensures next.w < place.w && t in mem
    ensures var c := if bits >= SIGN_BIT then mem[t].child1 else mem[t].child0;
      && rst' == (if mem[t].child1 != 0 && mem[t].child1 != c then mem[t].child1 else rst)
      && Reserved(mem, i, rst', root, r, nb)
      && (c == 0 ==> Descending(root, r.cur, rsize, nb))
      && (c != 0 ==> Searching(mem, i, c, root, next, rst', r, ShiftOne(bits), nb, v, rsize))
  {
    if bits >= SIGN_BIT {
      next := StepPathRight(mem, i, t, root, place, reserve, bits, nb, rsize);
      r, rst' := reserve, rst;
    } else {
      next, r := StepPathLeft(mem, i, t, root, place, rst, reserve, bits, nb, rsize);
      rst' := if mem[t].child1 != 0 then mem[t].child1 else rst;
    }
    if next.cur.Nil? {
      PathEnds(root, r.cur, rsize, nb);
    }
  }

  lemma RootPresence(mem: Memory, root: Addr, t: Tree, i: nat)
    requires Stored(mem, i, root, t, BinSlot)
    ensures root == 0 <==> t.Nil?
  {
    StoredInMemory(mem, i, root, t, BinSlot);
  }

  lemma DescendStep(mem: Memory, i: nat, t: Addr, root: Tree, place: Place, nb: SizeT, rsize: nat) returns (next: Place)
    requires PlaceOk(mem, i, t, root, place) && place.cur.Node? && Fitting(place.cur, rsize, nb)
    requires Descending(root, place.cur, rsize, nb)
    ensures t in mem && next.cur == LeftmostChild(place.cur)
    ensures PlaceOk(mem, i, if mem[t].child0 != 0 then mem[t].child0 else mem[t].child1, root, next)
    ensures Fitting(next.cur, Better(rsize, place.cur.size, nb), nb)
    ensures Descending(root, next.cur, Better(rsize, place.cur.size, nb), nb)
  {
    var w := if place.w == 0 then 0 else place.w - 1;
    ChildrenApart(mem, i, t, place.cur, place.parent);
    NodeSize(place.cur);
    if rsize > 0 {
      StepDown(root, place.cur, rsize, nb, place.lo, place.w);
    }
    next := if place.cur.left.Node? then Place(place.cur.left, place.lo, w, Below(t))
            else Place(place.cur.right, if place.w == 0 then 0 else place.lo + Pow2(w), w, Below(t));
  }

  // A subtree met during a search, with the digits rule it obeys.
  datatype Place = Place(cur: Tree, lo: nat, w: nat, parent: Parent)

  ghost predicate PlaceOk(mem: Memory, i: nat, t: Addr, root: Tree, place: Place) {
    && Stored(mem, i, t, place.cur, place.parent)
    && Ok(place.cur, place.lo, place.w)
    && Chunks(place.cur) <= Chunks(root) && Sizes(place.cur) <= Sizes(root)
    && forall y :: y in Sizes(place.cur) ==> y > 0 && y < SIZE_T_RANGE
  }

  ghost predicate Walking(mem: Memory, i: nat, t: Addr, root: Tree, place: Place, k: nat, nb: nat) {
    PlaceOk(mem, i, t, root, place) && At(mem, i, t, place.cur, place.parent, place.lo, place.w, k, nb)
  }

  // The best chunk so far; none if v is null.
  ghost predicate Found(root: Tree, v: Addr, rsize: nat, nb: nat) {
    && rsize <= SIZE_T_RANGE - nb
    && (v == 0 ==> rsize == SIZE_T_RANGE - nb)
    && (v != 0 ==> (v, rsize + nb) in Chunks(root))
  }

  // Either the search is over, or everything ahead is large enough.
  ghost predicate Fitting(cur: Tree, rsize: nat, nb: nat) {
    rsize == 0 || forall y :: y in Sizes(cur) ==> y >= nb
  }

  lemma VisitNode(mem: Memory, i: nat, t: Addr, root: Tree, place: Place, nb: SizeT, v: Addr, rsize: SizeT)
    requires PlaceOk(mem, i, t, root, place) && place.cur.Node? && nb > 0 && Found(root, v, rsize, nb)
    ensures t != 0 && t in mem && mem[t].size == place.cur.size
    ensures var trem := Remainder(mem[t].size, nb);
      && (trem < rsize ==> Found(root, t, trem, nb) && trem == Better(rsize, place.cur.size, nb))
      && (trem >= rsize ==> rsize == Better(rsize, place.cur.size, nb))
    ensures Better(rsize, place.cur.size, nb) == Better(Better(rsize, place.cur.size, nb), place.cur.size, nb)
  {
    NodeSize(place.cur);
    StoredInMemory(mem, i, t, place.cur, place.parent);
    RemainderBeats(place.cur.size, nb, rsize);
    assert (t, place.cur.size) in RingChunks(place.cur.ring, place.cur.size);
  }

  lemma AheadOfBetter(root: Tree, place: Place, reserve: Place, rsize: nat, better: nat, nb: nat)
    requires Ahead(root, place, reserve, rsize, nb) && better <= rsize
    ensures Ahead(root, place, reserve, better, nb)
  {
  }

  ghost predicate Reserved(mem: Memory, i: nat, rst: Addr, root: Tree, reserve: Place, nb: nat) {
    PlaceOk(mem, i, rst, root, reserve) && forall y :: y in Sizes(reserve.cur) ==> y > nb
  }

  // What is left to search once the node at t has been compared.
  ghost predicate Ahead(root: Tree, place: Place, reserve: Place, rsize: nat, nb: nat) {
    && Covered(root, place.cur, reserve.cur, rsize, nb)
    && Beyond(reserve.cur, place.lo, place.w)
  }

  lemma ChildPlace(mem: Memory, i: nat, t: Addr, root: Tree, place: Place, right: bool)
    requires PlaceOk(mem, i, t, root, place) && place.cur.Node? && place.w > 0
    ensures t in mem
    ensures var next := if right then place.cur.right else place.cur.left;
      PlaceOk(mem, i, if right then mem[t].child1 else mem[t].child0, root,
              Place(next, if right then place.lo + Pow2(place.w - 1) else place.lo, place.w - 1, Below(t)))
  {
    NodeSize(place.cur);
  }

  // One step of the path search to the right: the reserve stays.
  lemma StepPathRight(mem: Memory, i: nat, t: Addr, root: Tree, place: Place, reserve: Place, bits: SizeT, nb: SizeT, rsize: nat)
    returns (next: Place)
    requires Walking(mem, i, t, root, place, bits, nb) && bits >= SIGN_BIT
    requires 0 < rsize == Better(rsize, place.cur.size, nb) && Ahead(root, place, reserve, rsize, nb)
    ensures place.w > 0 && next.w < place.w
    ensures mem[t].child1 == 0 <==> next.cur.Nil?
    ensures mem[t].child1 != 0 ==> Walking(mem, i, mem[t].child1, root, next, ShiftOne(bits), nb)
    ensures Ahead(root, next, reserve, rsize, nb)
  {
    hide Covered, Beyond, Chunks, Stored, Separate, Ok;
    var cur, lo, w := place.cur, place.lo, place.w;
    assert cur.size != nb;
    DigitLeft(cur, lo, w, nb);
    ReadDigit(bits, nb, lo, w);
    ChildPlace(mem, i, t, root, place, true);
    ChildrenApart(mem, i, t, cur, place.parent);
    StepRight(root, cur, reserve.cur, rsize, nb, lo, w);
    next := Place(cur.right, lo + Pow2(w - 1), w - 1, Below(t));
  }

  // One step to the left: a right subtree, if any, becomes the reserve.
  lemma StepPathLeft(mem: Memory, i: nat, t: Addr, root: Tree, place: Place, rst: Addr, reserve: Place, bits: SizeT, nb: SizeT, rsize: nat)
    returns (next: Place, r: Place)
    requires Walking(mem, i, t, root, place, bits, nb) && bits < SIGN_BIT && Reserved(mem, i, rst, root, reserve, nb)
    requires 0 < rsize == Better(rsize, place.cur.size, nb) && Ahead(root, place, reserve, rsize, nb)
    ensures place.w > 0 && next.w < place.w
    ensures mem[t].child0 == 0 <==> next.cur.Nil?
    ensures mem[t].child0 != 0 ==> Walking(mem, i, mem[t].child0, root, next, ShiftOne(bits), nb)
    ensures mem[t].child0 != 0 ==> mem[t].child0 != mem[t].child1
    ensures Ahead(root, next, r, rsize, nb)
    ensures Reserved(mem, i, if mem[t].child1 != 0 then mem[t].child1 else rst, root, r, nb)
  {
    hide Covered, Beyond, Chunks, Stored, Separate, Ok;
    var cur, lo, w := place.cur, place.lo, place.w;
    assert cur.size != nb;
    DigitLeft(cur, lo, w, nb);
    ReadDigit(bits, nb, lo, w);
    ChildPlace(mem, i, t, root, place, false);
    HalvesApart(cur, lo, w);
    ChildrenApart(mem, i, t, cur, place.parent);
    StepLeft(root, cur, reserve.cur, rsize, nb, lo, w);
    next := Place(cur.left, lo, w - 1, Below(t));
    r := LeftReserve(mem, i, t, root, place, rst, reserve, nb);
  }

  // The reserve after a step to the left.
  lemma LeftReserve(mem: Memory, i: nat, t: Addr, root: Tree, place: Place, rst: Addr, reserve: Place, nb: nat)
    returns (r: Place)
    requires PlaceOk(mem, i, t, root, place) && place.cur.Node? && place.w > 0
    requires nb < place.lo + Pow2(place.w - 1) && Reserved(mem, i, rst, root, reserve, nb)
    ensures t in mem
    ensures r.cur == if place.cur.right.Node? then place.cur.right else reserve.cur
    ensures Reserved(mem, i, if mem[t].child1 != 0 then mem[t].child1 else rst, root, r, nb)
  {
    ChildrenApart(mem, i, t, place.cur, place.parent);
    if place.cur.right.Node? {
      ChildPlace(mem, i, t, root, place, true);
      r := Place(place.cur.right, place.lo + Pow2(place.w - 1), place.w - 1, Below(t));
      SizesInRange(r.cur, r.lo, r.w);
    } else {
      r := reserve;
    }
  }

  lemma HalvesApart(t: Tree, lo: nat, w: nat)
    requires t.Node? && w > 0 && Ok(t, lo, w)
    ensures Sizes(t.left) !! Sizes(t.right)
  {
    SizesInRange(t.left, lo, w - 1);
    SizesInRange(t.right, lo + Pow2(w - 1), w - 1);
  }

  lemma ChildrenApart(mem: Memory, i: nat, t: Addr, cur: Tree, parent: Parent)
    requires cur.Node? && Stored(mem, i, t, cur, parent)
    ensures t in mem
    ensures (mem[t].child0 == 0 <==> cur.left.Nil?) && (mem[t].child1 == 0 <==> cur.right.Nil?)
    ensures cur.left.Node? ==> mem[t].child0 in mem && mem[mem[t].child0].size == cur.left.size && cur.left.ring != [] && mem[t].child0 == cur.left.ring[0]
    ensures cur.right.Node? ==> mem[t].child1 in mem && mem[mem[t].child1].size == cur.right.size && cur.right.ring != [] && mem[t].child1 == cur.right.ring[0]
    ensures cur.left.Node? && cur.right.Node? && Sizes(cur.left) !! Sizes(cur.right) ==> mem[t].child0 != mem[t].child1
  {
    StoredInMemory(mem, i, mem[t].child0, cur.left, Below(t));
    StoredInMemory(mem, i, mem[t].child1, cur.right, Below(t));
    if cur.left.Node? && cur.right.Node? {
      NodeSize(cur.left);
      NodeSize(cur.right);
    }
  }

  lemma StoredNode(mem: Memory, i: nat, p: Addr, t: Tree)
    requires Stored(mem, i, p, t, BinSlot)
    ensures p == 0 <==> t.Nil?
  {
    if t.Node? {
      StoredInMemory(mem, i, p, t, BinSlot);
    }
  }

  lemma HolderKnown(mem: Memory, i: nat, p: Addr, t: Tree, x: Addr)
    requires Stored(mem, i, p, t, BinSlot) && Separate(t) && x in Addrs(t)
    ensures var h, hp := Holder(t, x), HolderParent(t, x, BinSlot);
      h.Node? && x in h.ring && hp != NoParent && h.ring != [] && Stored(mem, i, h.ring[0], h, hp) && Separate(h)
    ensures x in mem && t.Node? && p != 0
  {
    StoredInMemory(mem, i, p, t, BinSlot);
    HolderStored(mem, i, p, t, BinSlot, x);
  }

  // Where the chunk was: head of the root's ring, head below another chunk, or
  // behind a head, when nothing else is to be done.
  lemma DetachCases(m0: Memory, m: Memory, i: nat, p: Addr, t: Tree, x: Addr, r: Addr)
    requires Stored(m0, i, p, t, BinSlot) && Separate(t) && x in Addrs(t)
    requires Holder(t, x).Node? && x in Holder(t, x).ring && Detached(m0, m, i, x, Holder(t, x), HolderParent(t, x, BinSlot), r)
    ensures x in m0
    ensures m0[x].parent != NoParent && p == x ==>
      && t.Node? && t.ring != [] && x == t.ring[0] && Detached(m0, m, i, x, t, BinSlot, r) && RemoveHere(t, x) == Remove(t, x)
    ensures m0[x].parent != NoParent && p != x ==>
      && BelowT(m0, m, i, p, t, BinSlot, x, r) && x == Holder(t, x).ring[0] && HolderParent(t, x, BinSlot) == m0[x].parent
      && m0[x].parent.Below?
    ensures m0[x].parent == NoParent ==>
      && Stored(m, i, p, Remove(t, x), BinSlot) && OnlyWrites(m0, m, Addrs(t))
  {
    StoredInMemory(m0, i, p, t, BinSlot);
    HolderStored(m0, i, p, t, BinSlot, x);
    if x !in t.ring && m0[x].parent == NoParent {
      UnlinkBelowBehind(m0, m, i, p, t, BinSlot, x, r);
    }
  }

  lemma RemoveFits(t: Tree, i: nat, x: Addr) returns (u: Tree)
    requires i < NTREEBINS && Ok(t, Base(i), Width(i)) && Separate(t) && SizesFit(t, i)
    ensures u == Remove(t, x)
    ensures Ok(u, Base(i), Width(i)) && Separate(u) && SizesFit(u, i)
    ensures Addrs(u) == Addrs(t) - {x} && Chunks(u) == (set c | c in Chunks(t) && c.0 != x)
  {
    u := Remove(t, x);
    RemoveOk(t, Base(i), Width(i), x);
    RemoveSeparate(t, x);
    RemoveTakes(t, x);
  }

  lemma {:induction false} IndexField(mem: Memory, i: nat, p: Addr, t: Tree, parent: Parent, x: Addr)
    requires Stored(mem, i, p, t, parent) && x in Addrs(t)
    ensures x in mem && mem[x].index == i
    decreases t
  {
    if x in t.ring {
      var k :| 0 <= k < |t.ring| && t.ring[k] == x;
      assert Linked(mem, i, t.ring, t.size, k);
    } else if x in Addrs(t.left) {
      IndexField(mem, i, mem[p].child0, t.left, Below(p), x);
    } else {
      IndexField(mem, i, mem[p].child1, t.right, Below(p), x);
    }
  }

  lemma RemovedContents(trees: seq<Tree>, i: nat, u: Tree, x: Addr)
    requires i < |trees| && Apart(trees) && x in Addrs(trees[i])
    requires Chunks(u) == set c | c in Chunks(trees[i]) && c.0 != x
    ensures AllChunks(trees[i := u]) == set c | c in AllChunks(trees) && c.0 != x
  {
    hide AllChunks, OtherChunks, Chunks;
    NewContents(trees, i, u);
    NewContents(trees, i, trees[i]);
    SameSlot(trees, i);
    OthersElsewhere(trees, i, x);
  }

  lemma OthersElsewhere(trees: seq<Tree>, i: nat, x: Addr)
    requires i < |trees| && Apart(trees) && x in Addrs(trees[i])
    ensures forall c :: c in OtherChunks(trees, i) ==> c.0 != x
  {
    hide Chunks, Addrs;
    var rest := trees[..i] + trees[i + 1..];
    forall c | c in OtherChunks(trees, i)
      ensures c.0 != x
    {
      var j :| 0 <= j < |rest| && c in Chunks(rest[j]);
      ChunkAddr(rest[j], c);
      assert rest[j] == trees[if j < i then j else j + 1];
    }
  }

  lemma ChunkAddr(t: Tree, c: (Addr, nat))
    requires c in Chunks(t)
    ensures c.0 in Addrs(t)
  {
    ChunksAgree(t);
  }

  lemma TakenWrites(m0: Memory, m: Memory, x: Addr, r: Addr, xp: Parent, addrs: set<Addr>)
    requires x in m && r in m && x != r && r in addrs
    requires m[x].child0 == 0 || (m[x].child0 in m && m[x].child0 in addrs)
    requires m[x].child1 == 0 || (m[x].child1 in m && m[x].child1 in addrs)
    requires OnlyWrites(m0, m, addrs)
    ensures OnlyWrites(m0, WriteTakeOver(m, x, r, xp), addrs)
  {
  }

  lemma ChildrenStored(mem: Memory, i: nat, p: Addr, t: Tree, parent: Parent)
    requires t.Node? && Stored(mem, i, p, t, parent)
    ensures p in mem
    ensures mem[p].child0 == 0 <==> t.left.Nil?
    ensures mem[p].child1 == 0 <==> t.right.Nil?
  {
    StoredInMemory(mem, i, mem[p].child0, t.left, Below(p));
    StoredInMemory(mem, i, mem[p].child1, t.right, Below(p));
  }

  lemma SameSlot<T>(s: seq<T>, i: nat)
    requires i < |s|
    ensures s[i := s[i]] == s
  {
  }

  lemma InsertFits(t: Tree, i: nat, size: SizeT, x: Addr) returns (u: Tree)
    requires i < NTREEBINS && InTreeBin(size, i) && x !in Addrs(t)
    requires Ok(t, Base(i), Width(i)) && Separate(t) && SizesFit(t, i)
    ensures u == Insert(t, Base(i), Width(i), size, x)
    ensures u.Node? && Ok(u, Base(i), Width(i)) && Separate(u) && SizesFit(u, i)
    ensures Addrs(u) == Addrs(t) + {x} && Chunks(u) == Chunks(t) + {(x, size)}
    ensures t.Nil? ==> u == Node([x], size, Nil, Nil)
  {
    u := Insert(t, Base(i), Width(i), size, x);
    InBinDigits(size, i);
    InsertOk(t, Base(i), Width(i), size, x);
    InsertSeparate(t, Base(i), Width(i), size, x);
    InsertAddrs(t, Base(i), Width(i), size, x);
    InsertAdds(t, Base(i), Width(i), size, x);
  }

  lemma BeforeWalk(mem: Memory, root: Addr, t: Tree, i: nat, size: SizeT)
    requires i < NTREEBINS && t.Node? && InTreeBin(size, i)
    requires Stored(mem, i, root, t, BinSlot) && Ok(t, Base(i), Width(i))
    ensures At(mem, i, root, t, BinSlot, Base(i), Width(i), ShiftedSize(size, i), size)
  {
    StartReading(size, i);
    StoredInMemory(mem, i, root, t, BinSlot);
  }

  lemma AfterWalk(mem: Memory, root: Addr, t: Tree, i: nat, size: SizeT, x: Addr)
    requires i < NTREEBINS && t.Node? && InTreeBin(size, i) && x !in Addrs(t) && x != 0
    requires Stored(mem, i, root, t, BinSlot) && Ok(t, Base(i), Width(i)) && Separate(t)
    ensures Base(i) <= size < Base(i) + Pow2(Width(i))
    ensures var (at, right) := Stop(t, Base(i), Width(i), size);
      && at in Addrs(t) && at in mem && mem[at].fd in Addrs(t) && mem[at].fd in mem
      && Stored(WriteInsert(mem, i, at, right, x, size), i, root, Insert(t, Base(i), Width(i), size, x), BinSlot)
      && OnlyWrites(mem, WriteInsert(mem, i, at, right, x, size), Addrs(t) + {x})
  {
    InBinDigits(size, i);
    InsertStored(mem, i, root, t, BinSlot, Base(i), Width(i), size, x);
  }

  // One bin changes and only addrs, which meets no other tree, is written.
  lemma ChangeBin(mem: Memory, mem': Memory, bins: seq<Addr>, trees: seq<Tree>, treemap: Word,
                  i: nat, root: Addr, u: Tree, marked: bool, addrs: set<Addr>)
    requires BinsOk(mem, bins, trees, treemap) && i < NTREEBINS
    requires OnlyWrites(mem, mem', addrs) && Addrs(u) <= addrs
    requires forall j :: 0 <= j < NTREEBINS && j != i ==> Addrs(trees[j]) !! addrs
    requires BinOk(mem', root, u, marked, i)
    ensures BinsOk(mem', bins[i := root], trees[i := u], treemap[i := marked])
  {
    forall j | 0 <= j < NTREEBINS && j != i
      ensures BinOk(mem', bins[j], trees[j], treemap[j], j)
    {
      assert BinOk(mem, bins[j], trees[j], treemap[j], j);
      Frame(mem, mem', j, bins[j], trees[j], BinSlot);
    }
  }

  // The chunks of all bins but one.
  ghost function OtherChunks(trees: seq<Tree>, i: nat): set<(Addr, nat)>
    requires i < |trees|
  {
    AllChunks(trees[..i] + trees[i + 1..])
  }

  lemma OthersAre(trees: seq<Tree>, i: nat)
    requires i < |trees|
    ensures forall c :: c in OtherChunks(trees, i) <==> exists j :: 0 <= j < |trees| && j != i && c in Chunks(trees[j])
  {
    hide Chunks, AllChunks;
    var rest := trees[..i] + trees[i + 1..];
    assert forall j :: 0 <= j < |rest| ==> rest[j] == trees[if j < i then j else j + 1];
    forall c, j | 0 <= j < |trees| && j != i && c in Chunks(trees[j])
      ensures c in AllChunks(rest)
    {
      assert rest[if j < i then j else j - 1] == trees[j];
    }
  }

  lemma NewContents(trees: seq<Tree>, i: nat, u: Tree)
    requires i < |trees|
    ensures AllChunks(trees[i := u]) == OtherChunks(trees, i) + Chunks(u)
  {
    hide *;
    OthersAre(trees, i);
    var now := trees[i := u];
    forall c
      ensures c in AllChunks(now) <==> c in OtherChunks(trees, i) + Chunks(u)
    {
      if j :| 0 <= j < |now| && c in Chunks(now[j]) {
        assert j != i ==> trees[j] == now[j];
      }
      if j :| 0 <= j < |trees| && j != i && c in Chunks(trees[j]) {
        assert now[j] == trees[j];
      }
      assert now[i] == u;
    }
  }

  // The walk stands at address at, where cur is stored, with w digits left.
  ghost predicate At(mem: Memory, i: nat, at: Addr, cur: Tree, parent: Parent, lo: nat, w: nat, k: nat, size: nat) {
    && cur.Node? && Stored(mem, i, at, cur, parent) && Ok(cur, lo, w) && Reads(k, size, lo, w)
    && at in mem && mem[at].size == cur.size && at == cur.ring[0]
  }

  lemma WalkDown(mem: Memory, i: nat, at: Addr, cur: Tree, parent: Parent, lo: nat, w: nat, k: SizeT, size: nat)
    returns (next: Tree, lo': nat)
    requires At(mem, i, at, cur, parent, lo, w, k, size) && cur.size != size
    ensures w > 0
    ensures var right := k >= SIGN_BIT;
      var c := if right then mem[at].child1 else mem[at].child0;
      && (c == 0 ==> Stop(cur, lo, w, size) == (at, right))
      && (c != 0 ==> At(mem, i, c, next, Below(at), lo', w - 1, ShiftOne(k), size))
      && (c != 0 ==> Stop(cur, lo, w, size) == Stop(next, lo', w - 1, size))
  {
    hide *;
    AtParts(mem, i, at, cur, parent, lo, w, k, size);
    DigitLeft(cur, lo, w, size);
    ReadDigit(k, size, lo, w);
    if k >= SIGN_BIT {
      next, lo' := cur.right, lo + Pow2(w - 1);
    } else {
      next, lo' := cur.left, lo;
    }
    StopBelow(cur, lo, w, size, at);
    if next.Node? {
      AtWhole(mem, i, if k >= SIGN_BIT then mem[at].child1 else mem[at].child0, next, Below(at), lo', w - 1, ShiftOne(k), size);
    }
  }

  lemma AtParts(mem: Memory, i: nat, at: Addr, cur: Tree, parent: Parent, lo: nat, w: nat, k: nat, size: nat)
    requires At(mem, i, at, cur, parent, lo, w, k, size)
    ensures cur.Node? && Ok(cur, lo, w) && Reads(k, size, lo, w) && lo <= size < lo + Pow2(w) && cur.ring != [] && cur.ring[0] == at && at in mem
    ensures (mem[at].child0 == 0 <==> cur.left.Nil?) && (mem[at].child1 == 0 <==> cur.right.Nil?)
    ensures Stored(mem, i, mem[at].child0, cur.left, Below(at)) && Stored(mem, i, mem[at].child1, cur.right, Below(at))
    ensures w > 0 ==> Ok(cur.left, lo, w - 1) && Ok(cur.right, lo + Pow2(w - 1), w - 1)
  {
    hide Stored, Ok, Pow2, ShiftOne;
    OkParts(cur, lo, w);
    NodeParts(mem, i, at, cur, parent);
    ChildrenStored(mem, i, at, cur, parent);
  }

  lemma AtWhole(mem: Memory, i: nat, at: Addr, cur: Tree, parent: Parent, lo: nat, w: nat, k: nat, size: nat)
    requires cur.Node? && Stored(mem, i, at, cur, parent) && Ok(cur, lo, w) && Reads(k, size, lo, w)
    ensures At(mem, i, at, cur, parent, lo, w, k, size)
  {
    hide Ok, Reads, Pow2;
    StoredInMemory(mem, i, at, cur, parent);
  }

  // Where the walk for a size ends, one step further down.
  lemma StopBelow(t: Tree, lo: nat, w: nat, size: nat, at: Addr)
    requires t.Node? && w > 0 && t.size != size && t.ring != [] && t.ring[0] == at && Ok(t, lo, w) && lo <= size < lo + Pow2(w)
    ensures var right := size >= lo + Pow2(w - 1);
      var next := if right then t.right else t.left;
      Stop(t, lo, w, size) == if next.Nil? then (at, right) else Stop(next, if right then lo + Pow2(w - 1) else lo, w - 1, size)
  {
  }

  // Two different sizes cannot both be left when no digit is.
  lemma DigitLeft(t: Tree, lo: nat, w: nat, size: nat)
    requires t.Node? && Ok(t, lo, w) && lo <= size < lo + Pow2(w) && t.size != size
    ensures w > 0
  {
  }

  // ----- all bins together -----

  // The path search of the first bin found nothing.
  lemma NoneFits(mem: Memory, i: nat, root: Tree, place: Place, rsize: nat, nb: nat)
    requires i < NTREEBINS && SizesFit(root, i)
    requires place.cur.Nil? && rsize == SIZE_T_RANGE - nb && (root.Nil? || Descending(root, place.cur, rsize, nb))
    ensures forall z :: z in Sizes(root) ==> z < nb
  {
  }

  // The lowest marked bin to the left of idx.
  lemma NextBin(idx: nat, treemap: Word)
    requires idx < WORD_BITS
    ensures var leftbits := And(LeftBits(Bit(idx)), treemap);
      && (leftbits == ZERO ==> forall j :: idx < j < WORD_BITS ==> !treemap[j])
      && (leftbits != ZERO ==>
            && (exists j :: 0 <= j < WORD_BITS && LeastBit(leftbits)[j])
            && var i := BitScanForward(LeastBit(leftbits));
               idx < i < WORD_BITS && treemap[i] && forall j :: idx < j < i ==> !treemap[j])
  {
    var leftbits: Word := And(LeftBits(Bit(idx)), treemap);
    forall j: nat | j < WORD_BITS
      ensures leftbits[j] <==> treemap[j] && j > idx
    {
      LeftBitsAt(idx, j);
    }
    if leftbits != ZERO {
      FirstMarked(leftbits);
    }
  }

  lemma LargerBin(t: Tree, i: nat, nb: nat, idx: nat)
    requires idx < i < NTREEBINS && SizesFit(t, i) && InTreeBin(nb, idx)
    ensures forall y :: y in Sizes(t) ==> nb < y < SIZE_T_RANGE
  {
    forall y | y in Sizes(t)
      ensures nb < y
    {
      LaterBinIsLarger(nb, idx, y, i);
    }
  }

  lemma SizeOfChunk(t: Tree, c: (Addr, nat))
    requires c in Chunks(t)
    ensures c.1 in Sizes(t)
  {
    ChunksAgree(t);
  }

  // What the search has established: home is the first bin with chunks that
  // fit, or, when nothing is found, all chunks are too small.
  ghost predicate Searched(trees: seq<Tree>, nb: nat, idx: nat, home: nat, v: Addr, rsize: nat)
    requires |trees| == NTREEBINS
  {
    && idx <= home < NTREEBINS && Found(trees[home], v, rsize, nb)
    && (forall z :: z in Sizes(trees[home]) && z >= nb ==> z - nb >= rsize)
    && (forall j, z :: idx <= j < NTREEBINS && (v == 0 || j < home) && z in Sizes(trees[j]) ==> z < nb)
  }

  lemma NotBetter(mem: Memory, bins: seq<Addr>, trees: seq<Tree>, treemap: Word, nb: SizeT, idx: nat, home: nat,
                  v: Addr, rsize: nat, c: (Addr, nat), j: nat)
    requires BinsOk(mem, bins, trees, treemap) && InTreeBin(nb, idx)
    requires Searched(trees, nb, idx, home, v, rsize) && j < NTREEBINS && c in Chunks(trees[j])
    ensures v == 0 ==> c.1 < nb
    ensures v != 0 && c.1 >= nb ==> rsize + nb <= c.1
  {
    SizeOfChunk(trees[j], c);
    assert BinOk(mem, bins[j], trees[j], treemap[j], j);
    if j < idx {
      LaterBinIsLarger(c.1, j, nb, idx);
    } else if j > home && v != 0 {
      SizeOfChunk(trees[home], (v, rsize + nb));
      assert BinOk(mem, bins[home], trees[home], treemap[home], home);
      LaterBinIsLarger(rsize + nb, home, c.1, j);
    }
  }

  // The best of the bin searched is the best of all.
  lemma BestOfAll(mem: Memory, bins: seq<Addr>, trees: seq<Tree>, treemap: Word, nb: SizeT, idx: nat, home: nat, v: Addr, rsize: nat)
    requires BinsOk(mem, bins, trees, treemap) && InTreeBin(nb, idx)
    requires Searched(trees, nb, idx, home, v, rsize)
    ensures v == 0 ==> forall c :: c in AllChunks(trees) ==> c.1 < nb
    ensures v != 0 ==> (v, rsize + nb) in AllChunks(trees)
    ensures v != 0 ==> forall c :: c in AllChunks(trees) && c.1 >= nb ==> rsize + nb <= c.1
  {
    forall c | c in AllChunks(trees)
      ensures v == 0 ==> c.1 < nb
      ensures v != 0 && c.1 >= nb ==> rsize + nb <= c.1
    {
      var j :| 0 <= j < |trees| && c in Chunks(trees[j]);
      NotBetter(mem, bins, trees, treemap, nb, idx, home, v, rsize, c, j);
    }
  }

  lemma EmptyBins(mem: Memory, bins: seq<Addr>, trees: seq<Tree>, treemap: Word, from: nat, to: nat)
    requires BinsOk(mem, bins, trees, treemap) && to <= NTREEBINS
    requires forall j :: from < j < to ==> !treemap[j]
    ensures forall j :: from < j < to ==> Sizes(trees[j]) == {}
  {
    forall j | from < j < to
      ensures Sizes(trees[j]) == {}
    {
      assert BinOk(mem, bins[j], trees[j], treemap[j], j);
    }
  }
}
