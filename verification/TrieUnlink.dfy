// unlink_large_chunk in memory: leaving a ring, cutting the replacing leaf,
// taking over the children, and relinking from above.
module TrieUnlink {
  import opened Collections
  import opened Trie
  import opened TrieMemory

  // ----- leaving a ring of several chunks -----

  // F->bk = R; R->fd = F
  function WriteRingUnlink(mem: Memory, x: Addr): Memory
    requires x in mem && mem[x].fd in mem && mem[x].bk in mem
  {
    var f := mem[x].fd;
    var r := mem[x].bk;
    var m := mem[f := mem[f].(bk := r)];
    m[r := m[r].(fd := f)]
  }

  // The links alone of one chunk in a ring, whoever the head is.
  ghost predicate LinksOk(mem: Memory, index: nat, ring: seq<Addr>, size: nat, k: nat)
    requires k < |ring|
  {
    && ring[k] in mem && ring[k] != 0
    && mem[ring[k]].size == size && mem[ring[k]].index == index
    && mem[ring[k]].fd == ring[Next(k, |ring|)]
    && mem[ring[k]].bk == ring[Prev(k, |ring|)]
  }

  // Index in the old ring of element k of the new one.
  function OldIndex(n: nat, i: nat, k: nat): nat
    requires i < n && k < n - 1
  {
    if i == 0 then (if k == 0 then n - 1 else k) else if k < i then k else k + 1
  }

  lemma RingUnlinkLinks(mem: Memory, index: nat, ring: seq<Addr>, size: nat, i: nat, k: nat)
    requires RingOk(mem, index, ring, size) && NoDup(ring) && i < |ring| && |ring| > 1 && k < |ring| - 1
    requires ring[i] in mem && mem[ring[i]].fd in mem && mem[ring[i]].bk in mem
    ensures LinksOk(WriteRingUnlink(mem, ring[i]), index, RotateRemove(ring, i), size, k)
  {
    var n := |ring|;
    var out := RotateRemove(ring, i);
    var m := WriteRingUnlink(mem, ring[i]);
    var j := OldIndex(n, i, k);
    assert out[k] == ring[j];
    assert Linked(mem, index, ring, size, i);
    assert Linked(mem, index, ring, size, j);
    assert mem[ring[i]].fd == ring[Next(i, n)] && mem[ring[i]].bk == ring[Prev(i, n)];
    assert (ring[j] == ring[Next(i, n)] <==> j == Next(i, n)) && (ring[j] == ring[Prev(i, n)] <==> j == Prev(i, n));
    NextOf(n, i, k);
    PrevOf(n, i, k);
    assert out[Next(k, n - 1)] == ring[OldIndex(n, i, Next(k, n - 1))];
    assert out[Prev(k, n - 1)] == ring[OldIndex(n, i, Prev(k, n - 1))];
  }

  lemma NextOf(n: nat, i: nat, k: nat)
    requires 1 < n && i < n && k < n - 1
    ensures Next(k, n - 1) < n - 1
    ensures OldIndex(n, i, Next(k, n - 1)) ==
      if OldIndex(n, i, k) == Prev(i, n) then Next(i, n) else Next(OldIndex(n, i, k), n)
  {
  }

  lemma PrevOf(n: nat, i: nat, k: nat)
    requires 1 < n && i < n && k < n - 1
    ensures Prev(k, n - 1) < n - 1
    ensures OldIndex(n, i, Prev(k, n - 1)) ==
      if OldIndex(n, i, k) == Next(i, n) then Prev(i, n) else Prev(OldIndex(n, i, k), n)
  {
  }

  lemma RingUnlinkOk(mem: Memory, index: nat, ring: seq<Addr>, size: nat, i: nat)
    requires RingOk(mem, index, ring, size) && NoDup(ring) && i < |ring| && |ring| > 1
    ensures ring[i] in mem && mem[ring[i]].fd in ring && mem[ring[i]].bk in ring
    ensures mem[ring[i]].fd in mem && mem[ring[i]].bk in mem
    ensures RingOk(WriteRingUnlink(mem, ring[i]), index, RotateRemove(ring, i), size)
    ensures i == 0 ==> mem[ring[0]].bk == RotateRemove(ring, 0)[0]
    ensures i == 0 ==> var r := mem[ring[0]].bk; mem[r].child0 == 0 && mem[r].child1 == 0
  {
    var n := |ring|;
    assert ring[i] in ring && Linked(mem, index, ring, size, i);
    assert Linked(mem, index, ring, size, n - 1);
    var m := WriteRingUnlink(mem, ring[i]);
    var out := RotateRemove(ring, i);
    forall k | 0 <= k < |out|
      ensures Linked(m, index, out, size, k) && out[k] in m && out[k] != 0
    {
      RingUnlinkLinks(mem, index, ring, size, i, k);
      assert out[k] == ring[OldIndex(n, i, k)];
      assert Linked(mem, index, ring, size, OldIndex(n, i, k));
    }
  }

  lemma RingUnlinkFrame(mem: Memory, x: Addr, a: Addr)
    requires x in mem && mem[x].fd in mem && mem[x].bk in mem && a in mem
    ensures var m := WriteRingUnlink(mem, x);
      && a in m
      && m[a].child0 == mem[a].child0 && m[a].child1 == mem[a].child1 && m[a].parent == mem[a].parent
      && (a != mem[x].fd && a != mem[x].bk ==> m[a] == mem[a])
  {
  }

  // ----- taking over the children of x -----

  function WriteTakeOver(mem: Memory, x: Addr, r: Addr, xp: Parent): Memory
    requires x in mem && r in mem && x != r
    requires mem[x].child0 == 0 || mem[x].child0 in mem
    requires mem[x].child1 == 0 || mem[x].child1 in mem
  {
    var c0 := mem[x].child0;
    var c1 := mem[x].child1;
    var m := mem[r := mem[r].(parent := xp)];
    var m0 := if c0 == 0 then m
              else var a := m[r := m[r].(child0 := c0)]; a[c0 := a[c0].(parent := Below(r))];
    if c1 == 0 then m0
    else var b := m0[r := m0[r].(child1 := c1)]; b[c1 := b[c1].(parent := Below(r))]
  }

  lemma RingReparented(mem: Memory, mem': Memory, index: nat, ring: seq<Addr>, size: nat, parent': Parent)
    requires RingOk(mem, index, ring, size) && NoDup(ring) && ring != [] && ring[0] in mem && ring[0] in mem'
    requires mem'[ring[0]] == mem[ring[0]].(parent := parent')
    requires forall a :: a in ring && a != ring[0] ==> a in mem && a in mem' && mem'[a] == mem[a]
    ensures RingOk(mem', index, ring, size)
  {
    forall k | 0 <= k < |ring|
      ensures Linked(mem', index, ring, size, k)
    {
      assert Linked(mem, index, ring, size, k);
      assert ring[k] in ring;
    }
  }

  lemma RingPart(mem: Memory, index: nat, p: Addr, t: Tree, parent: Parent)
    requires t.Node? && Stored(mem, index, p, t, parent) && Separate(t)
    ensures RingOk(mem, index, t.ring, t.size) && NoDup(t.ring) && t.ring[0] in t.ring
    ensures t.ring[0] !in Addrs(t.left) && t.ring[0] !in Addrs(t.right)
    ensures Node(t.ring, t.size, t.left, t.right) == t
  {
  }

  lemma Reparent(mem: Memory, mem': Memory, index: nat, p: Addr, t: Tree, parent: Parent, parent': Parent)
    requires Stored(mem, index, p, t, parent) && Separate(t)
    requires t.Node? ==> p in mem && p in mem' && mem'[p] == mem[p].(parent := parent')
    requires forall a :: a in Addrs(t) && a != p ==> a in mem && a in mem' && mem'[a] == mem[a]
    ensures Stored(mem', index, p, t, parent')
  {
    hide *;
    if t.Node? {
      NodeParts(mem, index, p, t, parent);
      RingPart(mem, index, p, t, parent);
      KeptOn(mem, mem', Addrs(t.left));
      KeptOn(mem, mem', Addrs(t.right));
      Frame(mem, mem', index, mem[p].child0, t.left, Below(p));
      Frame(mem, mem', index, mem[p].child1, t.right, Below(p));
      RingReparented(mem, mem', index, t.ring, t.size, parent');
      BuildNode(mem', index, t.ring, t.size, t.left, t.right, parent');
    } else {
      EmptyStored(mem, mem', index, p, parent, parent');
    }
  }

  lemma KeptOn(mem: Memory, mem': Memory, addrs: set<Addr>)
    requires forall a :: a in addrs ==> a in mem && a in mem' && mem'[a] == mem[a]
    ensures SameOn(mem, mem', addrs)
  {
  }

  lemma EmptyStored(mem: Memory, mem': Memory, index: nat, p: Addr, parent: Parent, parent': Parent)
    requires Stored(mem, index, p, Nil, parent)
    ensures Stored(mem', index, p, Nil, parent')
  {
  }

  lemma RootKnown(mem: Memory, index: nat, p: Addr, t: Tree, parent: Parent)
    requires Stored(mem, index, p, t, parent)
    ensures p == 0 <==> t.Nil?
    ensures t.Node? ==> p in mem && p in Addrs(t)
    ensures forall a :: a in Addrs(t) ==> a in mem
  {
    StoredInMemory(mem, index, p, t, parent);
  }

  lemma BuildNode(mem: Memory, index: nat, ring: seq<Addr>, size: nat, left: Tree, right: Tree, parent: Parent)
    requires ring != [] && ring[0] in mem && mem[ring[0]].parent == parent && RingOk(mem, index, ring, size)
    requires Stored(mem, index, mem[ring[0]].child0, left, Below(ring[0])) && Stored(mem, index, mem[ring[0]].child1, right, Below(ring[0]))
    ensures Stored(mem, index, ring[0], Node(ring, size, left, right), parent)
  {
  }

  // What taking over writes: r gets the parent and the children, and each
  // child gets a new parent.
  lemma TakeOverAt(mem: Memory, x: Addr, r: Addr, xp: Parent)
    requires x in mem && r in mem && x != r && mem[r].child0 == 0 && mem[r].child1 == 0
    requires mem[x].child0 == 0 || (mem[x].child0 in mem && mem[x].child0 != r)
    requires mem[x].child1 == 0 || (mem[x].child1 in mem && mem[x].child1 != r)
    requires mem[x].child0 != 0 ==> mem[x].child0 != mem[x].child1
    ensures var c0, c1, m := mem[x].child0, mem[x].child1, WriteTakeOver(mem, x, r, xp);
      && m.Keys == mem.Keys && m[r] == mem[r].(parent := xp, child0 := c0, child1 := c1)
      && (c0 != 0 ==> m[c0] == mem[c0].(parent := Below(r)))
      && (c1 != 0 ==> m[c1] == mem[c1].(parent := Below(r)))
      && (forall a :: a in mem && a != r && (c0 == 0 || a != c0) && (c1 == 0 || a != c1) ==> m[a] == mem[a])
  {
  }

  lemma RingRelinked(mem: Memory, m: Memory, index: nat, ring: seq<Addr>, size: nat)
    requires ring != [] && NoDup(ring) && RingOk(mem, index, ring, size) && m.Keys == mem.Keys
    requires m[ring[0]].size == mem[ring[0]].size && m[ring[0]].index == mem[ring[0]].index
    requires m[ring[0]].fd == mem[ring[0]].fd && m[ring[0]].bk == mem[ring[0]].bk
    requires forall a :: a in ring && a != ring[0] ==> m[a] == mem[a]
    ensures RingOk(m, index, ring, size)
  {
    forall k | 0 <= k < |ring|
      ensures Linked(m, index, ring, size, k)
    {
      assert Linked(mem, index, ring, size, k);
      assert ring[k] in ring;
      assert k > 0 ==> ring[k] != ring[0];
    }
  }

  lemma TakeOver(mem: Memory, index: nat, x: Addr, ring: seq<Addr>, size: nat, left: Tree, right: Tree, xp: Parent)
    requires ring != [] && NoDup(ring) && RingOk(mem, index, ring, size) && x in mem && x !in ring
    requires ring[0] in mem && mem[ring[0]].child0 == 0 && mem[ring[0]].child1 == 0
    requires Stored(mem, index, mem[x].child0, left, Below(x)) && Stored(mem, index, mem[x].child1, right, Below(x))
    requires Separate(left) && Separate(right) && Addrs(left) !! Addrs(right)
    requires forall a :: a in ring ==> a !in Addrs(left) && a !in Addrs(right)
    requires x !in Addrs(left) && x !in Addrs(right)
    ensures mem[x].child0 == 0 || mem[x].child0 in mem
    ensures mem[x].child1 == 0 || mem[x].child1 in mem
    ensures Stored(WriteTakeOver(mem, x, ring[0], xp), index, ring[0], Node(ring, size, left, right), xp)
  {
    hide Stored, Separate, Addrs, WriteTakeOver;
    var r := ring[0];
    RootKnown(mem, index, mem[x].child0, left, Below(x));
    RootKnown(mem, index, mem[x].child1, right, Below(x));
    assert r in ring;
    TakeOverAt(mem, x, r, xp);
    var m := WriteTakeOver(mem, x, r, xp);
    Reparent(mem, m, index, mem[x].child0, left, Below(x), Below(r));
    Reparent(mem, m, index, mem[x].child1, right, Below(x), Below(r));
    RingRelinked(mem, m, index, ring, size);
    BuildNode(m, index, ring, size, left, right, xp);
  }

  // ----- cutting the replacing leaf -----

  // The child pointer, as chunk and side, that the walk to the leaf stops at.
  ghost function LeafSlot(t: Tree): (Addr, bool)
    requires t.Node? && t.ring != [] && (t.right.Node? || t.left.Node?)
  {
    if t.right.Node? then
      if t.right.ring != [] && (t.right.right.Node? || t.right.left.Node?) then LeafSlot(t.right) else (t.ring[0], true)
    else
      if t.left.ring != [] && (t.left.right.Node? || t.left.left.Node?) then LeafSlot(t.left) else (t.ring[0], false)
  }

  function WriteCut(mem: Memory, at: Addr, right: bool): Memory
    requires at in mem
  {
    mem[at := if right then mem[at].(child1 := 0) else mem[at].(child0 := 0)]
  }

  lemma CutHere(mem: Memory, index: nat, p: Addr, t: Tree, parent: Parent, right: bool)
    requires t.Node? && Stored(mem, index, p, t, parent) && Separate(t)
    ensures Stored(WriteCut(mem, p, right), index, p, if right then t.(right := Nil) else t.(left := Nil), parent)
  {
    StoredInMemory(mem, index, p, t, parent);
    var m := WriteCut(mem, p, right);
    if right {
      Frame(mem, m, index, mem[p].child0, t.left, Below(p));
    } else {
      Frame(mem, m, index, mem[p].child1, t.right, Below(p));
    }
    forall k | 0 <= k < |t.ring|
      ensures Linked(m, index, t.ring, t.size, k)
    {
      assert Linked(mem, index, t.ring, t.size, k);
      assert t.ring[k] in t.ring;
    }
  }

  lemma {:induction false} CutStored(mem: Memory, index: nat, p: Addr, t: Tree, parent: Parent)
    requires t.Node? && Stored(mem, index, p, t, parent) && Separate(t)
    requires t.right.Node? || t.left.Node?
    ensures var (at, right) := LeafSlot(t);
      && at in Addrs(t) && at in mem
      && Stored(WriteCut(mem, at, right), index, p, CutLeaf(t), parent)
      && LastLeaf(t).ring != []
      && (if right then mem[at].child1 else mem[at].child0) == LastLeaf(t).ring[0]
    decreases t
  {
    StoredInMemory(mem, index, p, t, parent);
    var (at, right) := LeafSlot(t);
    var c := if t.right.Node? then t.right else t.left;
    var a := if t.right.Node? then mem[p].child1 else mem[p].child0;
    if c.right.Node? || c.left.Node? {
      CutStored(mem, index, a, c, Below(p));
      var m := WriteCut(mem, at, right);
      if t.right.Node? {
        Frame(mem, m, index, mem[p].child0, t.left, Below(p));
        Rebuild(mem, m, index, p, t, t.left, CutLeaf(t.right), parent);
      } else {
        Rebuild(mem, m, index, p, t, CutLeaf(t.left), t.right, parent);
      }
    } else {
      CutHere(mem, index, p, t, parent, t.right.Node?);
    }
  }

  lemma {:induction false} LeafStored(mem: Memory, index: nat, p: Addr, t: Tree, parent: Parent)
    requires t.Node? && Stored(mem, index, p, t, parent)
    ensures var leaf := LastLeaf(t);
      && leaf.ring != [] && RingOk(mem, index, leaf.ring, leaf.size)
      && leaf.ring[0] in mem && mem[leaf.ring[0]].child0 == 0 && mem[leaf.ring[0]].child1 == 0
    decreases t
  {
    if t.right.Node? {
      LeafStored(mem, index, mem[p].child1, t.right, Below(p));
    } else if t.left.Node? {
      LeafStored(mem, index, mem[p].child0, t.left, Below(p));
    }
  }

  // ----- at the node whose ring holds x -----

  // Everything outside addrs is left alone.
  ghost predicate OnlyWrites(mem: Memory, mem': Memory, addrs: set<Addr>) {
    forall a :: a in mem && a !in addrs ==> a in mem' && mem'[a] == mem[a]
  }

  // x heads a ring of several chunks: the chunk behind it takes its place.
  lemma UnlinkHead(mem: Memory, index: nat, x: Addr, h: Tree, parent: Parent)
    requires h.Node? && |h.ring| > 1 && h.ring[0] == x
    requires Stored(mem, index, x, h, parent) && Separate(h)
    ensures x in mem && mem[x].fd in mem && mem[x].bk in mem && mem[x].bk != x && mem[x].bk != 0
    ensures mem[x].child0 == 0 || mem[x].child0 in mem
    ensures mem[x].child1 == 0 || mem[x].child1 in mem
    ensures var r := mem[x].bk;
      var m := WriteTakeOver(WriteRingUnlink(mem, x), x, r, parent);
      && Stored(m, index, r, RemoveHere(h, x), parent)
      && OnlyWrites(mem, m, Addrs(h))
  {
    StoredInMemory(mem, index, x, h, parent);
    RingUnlinkOk(mem, index, h.ring, h.size, 0);
    RingRemoveKeeps(h.ring, x);
    var m := WriteRingUnlink(mem, x);
    var out := RotateRemove(h.ring, 0);
    assert IndexIn(h.ring, x) == 0 && RingRemove(h.ring, x) == out;
    StoredInMemory(mem, index, mem[x].child0, h.left, Below(x));
    StoredInMemory(mem, index, mem[x].child1, h.right, Below(x));
    RingUnlinkFrame(mem, x, x);
    Frame(mem, m, index, mem[x].child0, h.left, Below(x));
    Frame(mem, m, index, mem[x].child1, h.right, Below(x));
    RingUnlinkFrame(mem, x, out[0]);
    TakeOver(m, index, x, out, h.size, h.left, h.right, parent);
  }

  // x sits behind the head: only its ring changes.
  lemma UnlinkBehind(mem: Memory, index: nat, x: Addr, h: Tree, parent: Parent)
    requires h.Node? && x in h.ring && h.ring[0] != x
    requires Stored(mem, index, h.ring[0], h, parent) && Separate(h)
    ensures x in mem && mem[x].fd in mem && mem[x].bk in mem && mem[x].parent == NoParent && mem[x].bk != x
    ensures var m := WriteRingUnlink(mem, x);
      && Stored(m, index, h.ring[0], RemoveHere(h, x), parent)
      && OnlyWrites(mem, m, Addrs(h))
  {
    var i := IndexIn(h.ring, x);
    var head := h.ring[0];
    StoredInMemory(mem, index, head, h, parent);
    assert Linked(mem, index, h.ring, h.size, i);
    RingUnlinkOk(mem, index, h.ring, h.size, i);
    var m := WriteRingUnlink(mem, x);
    RingUnlinkFrame(mem, x, head);
    Frame(mem, m, index, mem[head].child0, h.left, Below(head));
    Frame(mem, m, index, mem[head].child1, h.right, Below(head));
    assert RotateRemove(h.ring, i)[0] == head;
  }

  // Memory once the leaf that will replace x is cut from the tree below x.
  lemma CutBelow(mem: Memory, index: nat, x: Addr, h: Tree, parent: Parent)
    requires h.Node? && h.ring == [x] && (h.right.Node? || h.left.Node?)
    requires Stored(mem, index, x, h, parent) && Separate(h)
    ensures var (at, right) := LeafSlot(h);
      var leaf, rest := LastLeaf(h), CutLeaf(h);
      && at in mem && at in Addrs(h) && leaf.ring != []
      && (if right then mem[at].child1 else mem[at].child0) == leaf.ring[0]
      && var cut := WriteCut(mem, at, right);
      && Stored(cut, index, x, rest, parent)
      && RingOk(cut, index, leaf.ring, leaf.size)
      && leaf.ring[0] in cut && cut[leaf.ring[0]].child0 == 0 && cut[leaf.ring[0]].child1 == 0
      && RingSet(leaf) !! Addrs(rest) && RingSet(leaf) <= Addrs(h)
  {
    StoredInMemory(mem, index, x, h, parent);
    CutStored(mem, index, x, h, parent);
    LeafStored(mem, index, x, h, parent);
    CutLeafSeparate(h);
    CutSlotKept(h);
    var (at, right) := LeafSlot(h);
    var leaf := LastLeaf(h);
    assert leaf.ring[0] in leaf.ring;
    assert forall a :: a in leaf.ring ==> a in RingSet(leaf) && a != at;
    SameRing(mem, WriteCut(mem, at, right), index, leaf.ring, leaf.size);
  }

  // x is alone of its size over some children: a leaf from below replaces it.
  lemma UnlinkLast(mem: Memory, index: nat, x: Addr, h: Tree, parent: Parent)
    requires h.Node? && h.ring == [x] && (h.right.Node? || h.left.Node?)
    requires Stored(mem, index, x, h, parent) && Separate(h)
    ensures x in mem && LastLeaf(h).ring != []
    ensures var (at, right) := LeafSlot(h);
      && at in mem && at in Addrs(h)
      && var r := LastLeaf(h).ring[0];
      && r in mem && r != x && r != 0
      && (if right then mem[at].child1 else mem[at].child0) == r
      && var cut := WriteCut(mem, at, right);
      && (cut[x].child0 == 0 || cut[x].child0 in cut)
      && (cut[x].child1 == 0 || cut[x].child1 in cut)
      && var m := WriteTakeOver(cut, x, r, parent);
      && Stored(m, index, r, RemoveHere(h, x), parent)
      && OnlyWrites(mem, m, Addrs(h))
  {
    hide *;
    NodeParts(mem, index, x, h, parent);
    CutBelow(mem, index, x, h, parent);
    CutLeafSeparate(h);
    LeafApart(h);
    LastRemoved(h, x);
    var (at, right) := LeafSlot(h);
    var leaf, rest := LastLeaf(h), CutLeaf(h);
    LeafTakesOver(WriteCut(mem, at, right), index, x, leaf.ring, leaf.size, rest, parent);
    CutWrites(mem, at, right, WriteTakeOver(WriteCut(mem, at, right), x, leaf.ring[0], parent), Addrs(rest) + {leaf.ring[0]}, Addrs(h));
  }

  lemma LeafApart(h: Tree)
    requires h.Node? && LastLeaf(h).ring != [] && RingSet(LastLeaf(h)) !! Addrs(CutLeaf(h)) && RingSet(LastLeaf(h)) <= Addrs(h)
    requires Addrs(h) == Addrs(CutLeaf(h)) + RingSet(LastLeaf(h))
    ensures forall a :: a in LastLeaf(h).ring ==> a !in Addrs(CutLeaf(h)) && a in Addrs(h)
    ensures LastLeaf(h).ring[0] in Addrs(h) && Addrs(CutLeaf(h)) + {LastLeaf(h).ring[0]} <= Addrs(h)
  {
    assert forall a :: a in LastLeaf(h).ring ==> a in RingSet(LastLeaf(h));
  }

  lemma LastRemoved(h: Tree, x: Addr)
    requires h.Node? && h.ring == [x] && (h.right.Node? || h.left.Node?)
    ensures RemoveHere(h, x) == Node(LastLeaf(h).ring, LastLeaf(h).size, CutLeaf(h).left, CutLeaf(h).right)
    ensures CutLeaf(h).Node? && CutLeaf(h).ring == [x]
  {
  }

  lemma CutWrites(mem: Memory, at: Addr, right: bool, m: Memory, addrs: set<Addr>, all: set<Addr>)
    requires at in mem && at in all && addrs <= all && OnlyWrites(WriteCut(mem, at, right), m, addrs)
    ensures OnlyWrites(mem, m, all)
  {
  }

  lemma LeafTakesOver(cut: Memory, index: nat, x: Addr, ring: seq<Addr>, size: nat, rest: Tree, parent: Parent)
    requires rest.Node? && rest.ring == [x] && Separate(rest) && Stored(cut, index, x, rest, parent)
    requires ring != [] && NoDup(ring) && RingOk(cut, index, ring, size)
    requires ring[0] in cut && cut[ring[0]].child0 == 0 && cut[ring[0]].child1 == 0
    requires forall a :: a in ring ==> a !in Addrs(rest)
    ensures x in cut && ring[0] != x && ring[0] != 0
    ensures cut[x].child0 == 0 || cut[x].child0 in cut
    ensures cut[x].child1 == 0 || cut[x].child1 in cut
    ensures var m := WriteTakeOver(cut, x, ring[0], parent);
      && Stored(m, index, ring[0], Node(ring, size, rest.left, rest.right), parent)
      && OnlyWrites(cut, m, Addrs(rest) + {ring[0]})
  {
    assert x in rest.ring && x in Addrs(rest) && ring[0] in ring;
    TakeOver(cut, index, x, ring, size, rest.left, rest.right, parent);
    TakeOverWrites(cut, index, x, ring[0], rest, parent);
  }

  lemma TakeOverWrites(mem: Memory, index: nat, x: Addr, r: Addr, t: Tree, xp: Parent)
    requires t.Node? && Stored(mem, index, x, t, xp) && r in mem && r != x
    ensures mem[x].child0 == 0 || mem[x].child0 in mem
    ensures mem[x].child1 == 0 || mem[x].child1 in mem
    ensures OnlyWrites(mem, WriteTakeOver(mem, x, r, xp), Addrs(t) + {r})
  {
    StoredInMemory(mem, index, mem[x].child0, t.left, Below(x));
    StoredInMemory(mem, index, mem[x].child1, t.right, Below(x));
  }

  lemma {:induction false} CutSlotKept(t: Tree)
    requires t.Node? && t.ring != [] && Separate(t) && (t.right.Node? || t.left.Node?)
    ensures LeafSlot(t).0 in Addrs(CutLeaf(t))
  {
    assert t.ring[0] in t.ring;
    if t.right.Node? {
      if t.right.ring != [] && (t.right.right.Node? || t.right.left.Node?) { CutSlotKept(t.right); }
    } else {
      if t.left.ring != [] && (t.left.right.Node? || t.left.left.Node?) { CutSlotKept(t.left); }
    }
  }

  // ----- relinking from above -----

  ghost function Holder(t: Tree, x: Addr): (h: Tree)
    requires x in Addrs(t)
    ensures h.Node? && x in h.ring
  {
    if x in t.ring then t else if x in Addrs(t.left) then Holder(t.left, x) else Holder(t.right, x)
  }

  ghost function HolderParent(t: Tree, x: Addr, parent: Parent): Parent
    requires x in Addrs(t)
  {
    if x in t.ring then parent
    else if t.ring == [] then parent
    else if x in Addrs(t.left) then HolderParent(t.left, x, Below(t.ring[0]))
    else HolderParent(t.right, x, Below(t.ring[0]))
  }

  // if (XP->child[0] == X) XP->child[0] = R; else XP->child[1] = R;
  function Relinked(n: TreeChunk, x: Addr, r: Addr): TreeChunk {
    if n.child0 == x then n.(child0 := r) else n.(child1 := r)
  }

  lemma {:induction false} HolderStored(mem: Memory, index: nat, p: Addr, t: Tree, parent: Parent, x: Addr)
    requires Stored(mem, index, p, t, parent) && Separate(t) && x in Addrs(t)
    ensures var h := Holder(t, x);
      && h.ring != [] && Separate(h) && Addrs(h) <= Addrs(t)
      && Stored(mem, index, h.ring[0], h, HolderParent(t, x, parent))
      && (h == t || HolderParent(t, x, parent).Below?)
      && (HolderParent(t, x, parent) == parent || HolderParent(t, x, parent).Below?)
    ensures HolderParent(t, x, parent).Below? && x !in t.ring ==>
      HolderParent(t, x, parent).a in Addrs(t) && HolderParent(t, x, parent).a !in Addrs(Holder(t, x))
    decreases t
  {
    if x !in t.ring {
      assert t.ring[0] in t.ring;
      if x in Addrs(t.left) {
        HolderStored(mem, index, mem[p].child0, t.left, Below(p), x);
      } else {
        HolderStored(mem, index, mem[p].child1, t.right, Below(p), x);
      }
    }
  }

  // Memory where the holder of x has been replaced by r, and its parent points to r.
  ghost predicate Relinks(mem: Memory, mem': Memory, t: Tree, h: Tree, hp: Parent, r: Addr)
    requires h.Node? && h.ring != []
  {
    forall a :: a in Addrs(t) && a !in Addrs(h) && a in mem ==>
      a in mem' && mem'[a] == if hp == Below(a) then Relinked(mem[a], h.ring[0], r) else mem[a]
  }

  // The holder hangs right below t: its slot in t now points to r.
  lemma RelinkHere(mem: Memory, mem': Memory, index: nat, p: Addr, t: Tree, parent: Parent, x: Addr, r: Addr)
    requires Stored(mem, index, p, t, parent) && Separate(t) && x in Addrs(t) && x !in t.ring
    requires var inLeft := x in Addrs(t.left);
      var c, other := if inLeft then t.left else t.right, if inLeft then t.right else t.left;
      && x in c.ring && c.ring != []
      && (forall a :: a in t.ring ==> a in mem && a in mem' && mem'[a] == if a == p then Relinked(mem[a], c.ring[0], r) else mem[a])
      && Stored(mem', index, if inLeft then mem[p].child1 else mem[p].child0, other, Below(p))
      && Stored(mem', index, r, RemoveHere(c, x), Below(p))
    ensures Stored(mem', index, p, Remove(t, x), parent)
  {
    var inLeft := x in Addrs(t.left);
    StoredInMemory(mem, index, mem[p].child0, t.left, Below(p));
    StoredInMemory(mem, index, mem[p].child1, t.right, Below(p));
    assert t.ring[0] in t.ring;
    var c := if inLeft then t.left else t.right;
    assert c.ring[0] in c.ring && c.ring[0] in Addrs(c);
    forall k | 0 <= k < |t.ring|
      ensures Linked(mem', index, t.ring, t.size, k)
    {
      assert Linked(mem, index, t.ring, t.size, k);
      assert t.ring[k] in t.ring && (k > 0 ==> t.ring[k] != p);
    }
    assert RingOk(mem', index, t.ring, t.size);
  }

  lemma {:induction false} RemoveStored(mem: Memory, mem': Memory, index: nat, p: Addr, t: Tree, parent: Parent, x: Addr, r: Addr)
    requires Stored(mem, index, p, t, parent) && Separate(t) && x in Addrs(t) && x !in t.ring
    requires Holder(t, x).ring != []
    requires Relinks(mem, mem', t, Holder(t, x), HolderParent(t, x, parent), r)
    requires Stored(mem', index, r, RemoveHere(Holder(t, x), x), HolderParent(t, x, parent))
    ensures Stored(mem', index, p, Remove(t, x), parent)
    decreases t
  {
    hide *;
    NotEmpty(t, x);
    NodeParts(mem, index, p, t, parent);
    RelinkElsewhere(mem, mem', index, p, t, parent, x, r);
    var inLeft := x in Addrs(t.left);
    var c := if inLeft then t.left else t.right;
    HolderBelow(t, p, parent, x);
    RemoveBelow(t, x);
    if x in c.ring {
      HeldHere(mem, mem', t, c, p, parent, x, r);
      RelinkHere(mem, mem', index, p, t, parent, x, r);
    } else {
      RelinksBelow(mem, mem', t, c, Holder(t, x), HolderParent(t, x, parent), r);
      if inLeft {
        RemoveStored(mem, mem', index, mem[p].child0, c, Below(p), x, r);
        Rebuild(mem, mem', index, p, t, Remove(t.left, x), t.right, parent);
      } else {
        RemoveStored(mem, mem', index, mem[p].child1, c, Below(p), x, r);
        Rebuild(mem, mem', index, p, t, t.left, Remove(t.right, x), parent);
      }
    }
  }

  lemma RemoveBelow(t: Tree, x: Addr)
    requires t.Node? && x in Addrs(t) && x !in t.ring
    ensures Remove(t, x) == if x in Addrs(t.left) then t.(left := Remove(t.left, x)) else t.(right := Remove(t.right, x))
    ensures (if x in Addrs(t.left) then t.left else t.right).Node?
  {
  }

  lemma HeldHere(mem: Memory, mem': Memory, t: Tree, c: Tree, p: Addr, parent: Parent, x: Addr, r: Addr)
    requires t.Node? && c == (if x in Addrs(t.left) then t.left else t.right) && c.Node? && x in c.ring && Separate(t)
    requires x in Addrs(t) && x !in t.ring && x in Addrs(c) && Holder(t, x) == Holder(c, x) && HolderParent(t, x, parent) == Below(p)
    requires Holder(t, x).ring != [] && Relinks(mem, mem', t, Holder(t, x), HolderParent(t, x, parent), r)
    requires forall a :: a in Addrs(t) ==> a in mem
    ensures Holder(t, x) == c && c.ring != []
    ensures forall a :: a in t.ring ==> a in mem && a in mem' && mem'[a] == if a == p then Relinked(mem[a], c.ring[0], r) else mem[a]
  {
    assert forall a :: a in t.ring ==> a in Addrs(t) && a !in Addrs(c);
  }

  lemma RelinksBelow(mem: Memory, mem': Memory, t: Tree, c: Tree, h: Tree, hp: Parent, r: Addr)
    requires t.Node? && (c == t.left || c == t.right) && h.Node? && h.ring != [] && Relinks(mem, mem', t, h, hp, r)
    ensures Relinks(mem, mem', c, h, hp, r)
  {
    assert Addrs(c) <= Addrs(t);
  }

  // The side without x, and the ring above, as the relinking leaves them.
  lemma RelinkElsewhere(mem: Memory, mem': Memory, index: nat, p: Addr, t: Tree, parent: Parent, x: Addr, r: Addr)
    requires Stored(mem, index, p, t, parent) && Separate(t) && x in Addrs(t) && x !in t.ring
    requires Holder(t, x).ring != []
    requires Relinks(mem, mem', t, Holder(t, x), HolderParent(t, x, parent), r)
    ensures var inLeft := x in Addrs(t.left);
      var c, other := if inLeft then t.left else t.right, if inLeft then t.right else t.left;
      && Stored(mem', index, if inLeft then mem[p].child1 else mem[p].child0, other, Below(p))
      && (x in c.ring ==> HolderParent(t, x, parent) == Below(p))
      && (x !in c.ring ==> forall a :: a in t.ring ==> a in mem' && mem'[a] == mem[a])
  {
    hide *;
    NotEmpty(t, x);
    NodeParts(mem, index, p, t, parent);
    var inLeft := x in Addrs(t.left);
    var c, other := if inLeft then t.left else t.right, if inLeft then t.right else t.left;
    HolderBelow(t, p, parent, x);
    HolderStored(mem, index, if inLeft then mem[p].child0 else mem[p].child1, c, Below(p), x);
    RelinkKeeps(mem, mem', t, c, other, p, parent, x, r);
    Frame(mem, mem', index, if inLeft then mem[p].child1 else mem[p].child0, other, Below(p));
  }

  lemma NotEmpty(t: Tree, x: Addr)
    requires x in Addrs(t)
    ensures t.Node?
  {
  }

  lemma HolderBelow(t: Tree, p: Addr, parent: Parent, x: Addr)
    requires t.Node? && Separate(t) && x in Addrs(t) && x !in t.ring && t.ring != [] && p == t.ring[0]
    ensures var c := if x in Addrs(t.left) then t.left else t.right;
      && x in Addrs(c) && Separate(c) && Holder(t, x) == Holder(c, x)
      && HolderParent(t, x, parent) == HolderParent(c, x, Below(p)) && (x in c.ring ==> HolderParent(t, x, parent) == Below(p))
  {
  }

  // Only the slot of the holder's parent changes, and that is not over here.
  lemma RelinkKeeps(mem: Memory, mem': Memory, t: Tree, c: Tree, other: Tree, p: Addr, parent: Parent, x: Addr, r: Addr)
    requires t.Node? && Separate(t) && x in Addrs(t) && x !in t.ring && t.ring != [] && p == t.ring[0]
    requires c == (if x in Addrs(t.left) then t.left else t.right) && other == (if x in Addrs(t.left) then t.right else t.left)
    requires (forall a :: a in Addrs(t) ==> a in mem) && Holder(t, x).ring != [] && Relinks(mem, mem', t, Holder(t, x), HolderParent(t, x, parent), r)
    requires x in Addrs(c) && Addrs(Holder(t, x)) <= Addrs(c)
    requires x in c.ring ==> HolderParent(t, x, parent) == Below(p)
    requires x !in c.ring ==> HolderParent(t, x, parent).Below? && HolderParent(t, x, parent).a in Addrs(c)
    ensures SameOn(mem, mem', Addrs(other))
    ensures x !in c.ring ==> forall a :: a in t.ring ==> a in mem' && mem'[a] == mem[a]
  {
    hide Holder, HolderParent;
    assert t.ring[0] in t.ring;
    assert Addrs(t) == (set a | a in t.ring) + Addrs(t.left) + Addrs(t.right);
  }

  // ----- the whole of unlink_large_chunk, as values -----

  // What the first half of unlink_large_chunk leaves: x is out of its ring, or
  // the leaf r that replaces it is cut; r is 0 if nothing is left.
  ghost predicate Detached(mem: Memory, m: Memory, index: nat, x: Addr, h: Tree, hp: Parent, r: Addr)
    requires h.Node? && x in h.ring
  {
    && x in mem && x in m && m[x].parent == mem[x].parent
    && OnlyWrites(mem, m, Addrs(h))
    && (mem[x].parent == NoParent <==> x != h.ring[0])
    && (x != h.ring[0] ==> Stored(m, index, h.ring[0], RemoveHere(h, x), hp))
    && (x == h.ring[0] ==> mem[x].parent == hp)
    && (x == h.ring[0] && r == 0 ==> RemoveHere(h, x).Nil?)
    && (x == h.ring[0] && r != 0 ==>
          && r in m && r != x && r in Addrs(h)
          && (m[x].child0 == 0 || (m[x].child0 in m && m[x].child0 in Addrs(h)))
          && (m[x].child1 == 0 || (m[x].child1 in m && m[x].child1 in Addrs(h)))
          && Stored(WriteTakeOver(m, x, r, hp), index, r, RemoveHere(h, x), hp))
  }

  lemma DetachRing(mem: Memory, index: nat, x: Addr, h: Tree, hp: Parent)
    requires h.Node? && x in h.ring && |h.ring| > 1 && hp != NoParent
    requires Stored(mem, index, h.ring[0], h, hp) && Separate(h)
    ensures x in mem && mem[x].fd in mem && mem[x].bk in mem && mem[x].bk != x
    ensures Detached(mem, WriteRingUnlink(mem, x), index, x, h, hp, mem[x].bk)
  {
    StoredInMemory(mem, index, h.ring[0], h, hp);
    if x == h.ring[0] {
      UnlinkHead(mem, index, x, h, hp);
      StoredInMemory(mem, index, mem[x].child0, h.left, Below(x));
      StoredInMemory(mem, index, mem[x].child1, h.right, Below(x));
    } else {
      UnlinkBehind(mem, index, x, h, hp);
    }
    RingUnlinkFrame(mem, x, x);
  }

  lemma AloneInRing(mem: Memory, index: nat, x: Addr, h: Tree, hp: Parent)
    requires h.Node? && x in h.ring && Stored(mem, index, h.ring[0], h, hp) && Separate(h)
    ensures x in mem && (mem[x].bk == x <==> h.ring == [x])
    ensures mem[x].parent == NoParent <==> x != h.ring[0] || hp == NoParent
  {
    var i := IndexIn(h.ring, x);
    assert Linked(mem, index, h.ring, h.size, i);
    if |h.ring| > 1 {
      assert h.ring[Prev(i, |h.ring|)] != h.ring[i];
    } else {
      assert h.ring == [x];
    }
  }

  lemma DetachLeaf(mem: Memory, index: nat, x: Addr, h: Tree, hp: Parent)
    requires h.Node? && h.ring == [x] && hp != NoParent && (h.left.Node? || h.right.Node?)
    requires Stored(mem, index, x, h, hp) && Separate(h)
    ensures LeafSlot(h).0 in mem && LastLeaf(h).ring != []
    ensures Detached(mem, WriteCut(mem, LeafSlot(h).0, LeafSlot(h).1), index, x, h, hp, LastLeaf(h).ring[0])
  {
    StoredInMemory(mem, index, x, h, hp);
    UnlinkLast(mem, index, x, h, hp);
    CutBelow(mem, index, x, h, hp);
    var cut := WriteCut(mem, LeafSlot(h).0, LeafSlot(h).1);
    var rest := CutLeaf(h);
    StoredInMemory(cut, index, x, rest, hp);
    StoredInMemory(cut, index, cut[x].child0, rest.left, Below(x));
    StoredInMemory(cut, index, cut[x].child1, rest.right, Below(x));
    CutLeafSeparate(h);
    assert LastLeaf(h).ring[0] in LastLeaf(h).ring && LastLeaf(h).ring[0] in RingSet(LastLeaf(h));
  }

  lemma DetachNothing(mem: Memory, index: nat, x: Addr, h: Tree, hp: Parent)
    requires h.Node? && h.ring == [x] && hp != NoParent && h.left.Nil? && h.right.Nil?
    requires Stored(mem, index, x, h, hp)
    ensures Detached(mem, mem, index, x, h, hp, 0)
  {
    StoredInMemory(mem, index, x, h, hp);
  }

  // The second half, when the holder hangs below chunk a.
  function WriteBelow(m: Memory, a: Addr, x: Addr, r: Addr): Memory
    requires a in m && x in m && a != x
    requires r != 0 ==> r in m && r != x
    requires m[x].child0 == 0 || m[x].child0 in m
    requires m[x].child1 == 0 || m[x].child1 in m
  {
    var linked := m[a := Relinked(m[a], x, r)];
    if r == 0 then linked else WriteTakeOver(linked, x, r, Below(a))
  }

  ghost predicate BelowT(mem: Memory, m: Memory, index: nat, p: Addr, t: Tree, parent: Parent, x: Addr, r: Addr) {
    && Stored(mem, index, p, t, parent) && Separate(t) && x in Addrs(t) && x !in t.ring
    && Holder(t, x).ring != []
    && Detached(mem, m, index, x, Holder(t, x), HolderParent(t, x, parent), r)
  }

  lemma UnlinkBelowBehind(mem: Memory, m: Memory, index: nat, p: Addr, t: Tree, parent: Parent, x: Addr, r: Addr)
    requires BelowT(mem, m, index, p, t, parent, x, r) && x != Holder(t, x).ring[0]
    ensures Stored(m, index, p, Remove(t, x), parent)
  {
    StoredInMemory(mem, index, p, t, parent);
    SameRelink(mem, index, p, t, parent, x);
    HolderStored(mem, index, p, t, parent, x);
    RemoveStored(mem, m, index, p, t, parent, x, Holder(t, x).ring[0]);
  }

  lemma ParentSlot(mem: Memory, m: Memory, index: nat, p: Addr, t: Tree, parent: Parent, x: Addr, r: Addr)
    requires BelowT(mem, m, index, p, t, parent, x, r)
    ensures var h, hp := Holder(t, x), HolderParent(t, x, parent);
      && hp.Below? && hp.a in mem && hp.a in m && m[hp.a] == mem[hp.a]
      && hp.a in Addrs(t) && hp.a !in Addrs(h) && hp.a != x
      && Separate(h)
  {
    StoredInMemory(mem, index, p, t, parent);
    HolderStored(mem, index, p, t, parent, x);
    assert x in Addrs(Holder(t, x));
  }

  lemma UnlinkBelowLast(mem: Memory, m: Memory, index: nat, p: Addr, t: Tree, parent: Parent, x: Addr)
    requires BelowT(mem, m, index, p, t, parent, x, 0) && x == Holder(t, x).ring[0]
    ensures var hp := HolderParent(t, x, parent);
      && hp.Below? && hp.a in m
      && Stored(m[hp.a := Relinked(m[hp.a], x, 0)], index, p, Remove(t, x), parent)
  {
    var hp := HolderParent(t, x, parent);
    ParentSlot(mem, m, index, p, t, parent, x, 0);
    RemoveStored(mem, m[hp.a := Relinked(m[hp.a], x, 0)], index, p, t, parent, x, 0);
  }

  lemma UnlinkBelowHead(mem: Memory, m: Memory, index: nat, p: Addr, t: Tree, parent: Parent, x: Addr, r: Addr)
    requires BelowT(mem, m, index, p, t, parent, x, r) && x == Holder(t, x).ring[0] && r != 0
    ensures var hp := HolderParent(t, x, parent);
      && hp.Below? && hp.a in m && hp.a != x && r in m && r != x
      && (m[x].child0 == 0 || m[x].child0 in m)
      && (m[x].child1 == 0 || m[x].child1 in m)
      && Stored(WriteBelow(m, hp.a, x, r), index, p, Remove(t, x), parent)
  {
    var h, hp := Holder(t, x), HolderParent(t, x, parent);
    ParentSlot(mem, m, index, p, t, parent, x, r);
    var last := WriteBelow(m, hp.a, x, r);
    var taken := WriteTakeOver(m, x, r, hp);
    RemoveHereAddrs(h, x);
    TakenElsewhere(m, x, r, hp.a, Addrs(h));
    Frame(taken, last, index, r, RemoveHere(h, x), hp);
    TakenRelinks(mem, m, index, p, t, parent, x, r);
    RemoveStored(mem, last, index, p, t, parent, x, r);
  }

  lemma TakenElsewhere(m: Memory, x: Addr, r: Addr, a: Addr, addrs: set<Addr>)
    requires x in m && r in m && x != r && r != 0 && a in m && a != x && a !in addrs
    requires m[x].child0 == 0 || (m[x].child0 in m && m[x].child0 in addrs)
    requires m[x].child1 == 0 || (m[x].child1 in m && m[x].child1 in addrs)
    ensures SameOn(WriteTakeOver(m, x, r, Below(a)), WriteBelow(m, a, x, r), addrs)
  {
  }

  lemma TakenRelinks(mem: Memory, m: Memory, index: nat, p: Addr, t: Tree, parent: Parent, x: Addr, r: Addr)
    requires BelowT(mem, m, index, p, t, parent, x, r) && x == Holder(t, x).ring[0] && r != 0
    requires var hp := HolderParent(t, x, parent); hp.Below? && hp.a in m && hp.a in mem && hp.a != x && m[hp.a] == mem[hp.a]
    ensures Relinks(mem, WriteBelow(m, HolderParent(t, x, parent).a, x, r), t, Holder(t, x), HolderParent(t, x, parent), r)
  {
  }

  lemma RemoveHereAddrs(h: Tree, x: Addr)
    requires h.Node? && x in h.ring && Separate(h)
    ensures Addrs(RemoveHere(h, x)) <= Addrs(h)
  {
    RemoveSeparate(h, x);
  }

  // Relinking a slot to the chunk it already names changes nothing.
  lemma {:induction false} SameRelink(mem: Memory, index: nat, p: Addr, t: Tree, parent: Parent, x: Addr)
    requires Stored(mem, index, p, t, parent) && Separate(t) && x in Addrs(t) && x !in t.ring
    ensures var h, hp := Holder(t, x), HolderParent(t, x, parent);
      && h.ring != [] && hp.Below? && hp.a in mem
      && Relinked(mem[hp.a], h.ring[0], h.ring[0]) == mem[hp.a]
    decreases t
  {
    assert t.ring[0] in t.ring;
    if x in Addrs(t.left) {
      if x !in t.left.ring {
        SameRelink(mem, index, mem[p].child0, t.left, Below(p), x);
      }
    } else {
      if x !in t.right.ring {
        SameRelink(mem, index, mem[p].child1, t.right, Below(p), x);
      }
    }
  }
}
