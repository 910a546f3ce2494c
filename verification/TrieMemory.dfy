// The trees of dlmalloc.c as they lie in memory: tree chunks linked by child,
// parent and ring pointers, written in place.
module TrieMemory {
  import opened TreeIndex
  import opened Collections
  import opened Trie

  // What a chunk's parent field denotes: nothing for the chunks of a ring
  // behind its head, the bin for a root, another tree chunk otherwise.
  datatype Parent = NoParent | BinSlot | Below(a: Addr)

  // The fields of a malloc_tree_chunk that tree code touches; address 0 is null.
  datatype TreeChunk = TreeChunk(size: nat, fd: Addr, bk: Addr, child0: Addr, child1: Addr, parent: Parent, index: nat)

  type Memory = map<Addr, TreeChunk>

  function Next(k: nat, n: nat): nat {
    if k + 1 == n then 0 else k + 1
  }

  function Prev(k: nat, n: nat): nat
    requires n > 0
  {
    if k == 0 then n - 1 else k - 1
  }

  // The place of one chunk in a ring.
  ghost predicate Linked(mem: Memory, index: nat, ring: seq<Addr>, size: nat, k: nat)
    requires k < |ring|
  {
    && ring[k] in mem && ring[k] != 0
    && mem[ring[k]].size == size && mem[ring[k]].index == index
    && mem[ring[k]].fd == ring[Next(k, |ring|)]
    && mem[ring[k]].bk == ring[Prev(k, |ring|)]
    && (k >= 1 ==> mem[ring[k]].parent == NoParent && mem[ring[k]].child0 == 0 && mem[ring[k]].child1 == 0)
  }

  // A circular list of chunks of one size; only the head is in the tree.
  ghost predicate RingOk(mem: Memory, index: nat, ring: seq<Addr>, size: nat) {
    && (forall a :: a in ring ==> a in mem && a != 0)
    && forall k :: 0 <= k < |ring| ==> Linked(mem, index, ring, size, k)
  }

  // Memory holds tree t of a bin, rooted at address p.
  ghost predicate Stored(mem: Memory, index: nat, p: Addr, t: Tree, parent: Parent)
    decreases t
  {
    match t
    case Nil => p == 0
    case Node(ring, size, left, right) =>
      && ring != [] && p == ring[0] && p in mem
      && RingOk(mem, index, ring, size)
      && mem[p].parent == parent
      && Stored(mem, index, mem[p].child0, left, Below(p))
      && Stored(mem, index, mem[p].child1, right, Below(p))
  }

  ghost predicate SameOn(mem: Memory, mem': Memory, addrs: set<Addr>) {
    forall a :: a in addrs && a in mem ==> a in mem' && mem'[a] == mem[a]
  }

  lemma SameRing(mem: Memory, mem': Memory, index: nat, ring: seq<Addr>, size: nat)
    requires RingOk(mem, index, ring, size)
    requires forall a :: a in ring ==> a in mem' && mem'[a] == mem[a]
    ensures RingOk(mem', index, ring, size)
  {
    forall k | 0 <= k < |ring|
      ensures Linked(mem', index, ring, size, k)
    {
      assert Linked(mem, index, ring, size, k);
      assert ring[k] in ring;
    }
  }

  // A node whose own ring is untouched, over new subtrees.
  lemma Rebuild(mem: Memory, mem': Memory, index: nat, p: Addr, t: Tree, left: Tree, right: Tree, parent: Parent)
    requires t.Node? && Stored(mem, index, p, t, parent)
    requires forall a :: a in t.ring ==> a in mem' && mem'[a] == mem[a]
    requires Stored(mem', index, mem[p].child0, left, Below(p))
    requires Stored(mem', index, mem[p].child1, right, Below(p))
    ensures Stored(mem', index, p, t.(left := left, right := right), parent)
  {
    SameRing(mem, mem', index, t.ring, t.size);
    assert t.ring[0] in t.ring;
  }

  lemma {:induction false} Frame(mem: Memory, mem': Memory, index: nat, p: Addr, t: Tree, parent: Parent)
    requires Stored(mem, index, p, t, parent) && SameOn(mem, mem', Addrs(t))
    ensures Stored(mem', index, p, t, parent)
    decreases t
  {
    if t.Node? {
      assert forall a :: a in t.ring ==> a in Addrs(t);
      Frame(mem, mem', index, mem[p].child0, t.left, Below(p));
      Frame(mem, mem', index, mem[p].child1, t.right, Below(p));
      Rebuild(mem, mem', index, p, t, t.left, t.right, parent);
    }
  }

  lemma {:induction false} StoredInMemory(mem: Memory, index: nat, p: Addr, t: Tree, parent: Parent)
    requires Stored(mem, index, p, t, parent)
    ensures forall a :: a in Addrs(t) ==> a in mem && a != 0
    ensures t.Node? ==> p in Addrs(t) && p in mem && mem[p].parent == parent && mem[p].size == t.size && mem[p].index == index
    ensures t.Node? ==> mem[p].fd in t.ring && mem[p].bk in t.ring
    decreases t
  {
    if t.Node? {
      assert Linked(mem, index, t.ring, t.size, 0);
      StoredInMemory(mem, index, mem[p].child0, t.left, Below(p));
      StoredInMemory(mem, index, mem[p].child1, t.right, Below(p));
    }
  }

  // ----- insert_large_chunk -----

  // Where the walk of insert_large_chunk ends, and on which side it would go on.
  ghost function Stop(t: Tree, lo: nat, w: nat, size: nat): (Addr, bool)
    requires t.Node? && Ok(t, lo, w) && lo <= size < lo + Pow2(w)
  {
    if t.size == size then (t.ring[0], false)
    else if size < lo + Pow2(w - 1) then
      if t.left.Nil? then (t.ring[0], false) else Stop(t.left, lo, w - 1, size)
    else
      if t.right.Nil? then (t.ring[0], true) else Stop(t.right, lo + Pow2(w - 1), w - 1, size)
  }

  // The pointer writes of insert_large_chunk at chunk at.
  function WriteInsert(mem: Memory, index: nat, at: Addr, right: bool, x: Addr, size: nat): Memory
    requires at in mem && mem[at].fd in mem
  {
    if mem[at].size != size then
      var m := mem[x := TreeChunk(size, x, x, 0, 0, Below(at), index)];
      m[at := if right then m[at].(child1 := x) else m[at].(child0 := x)]
    else
      var f := mem[at].fd;
      var m := mem[x := TreeChunk(size, f, at, 0, 0, NoParent, index)];
      var m1 := m[at := m[at].(fd := x)];
      m1[f := m1[f].(bk := x)]
  }

  lemma RingWriteInsertAt(mem: Memory, index: nat, ring: seq<Addr>, size: nat, x: Addr, k: nat)
    requires ring != [] && RingOk(mem, index, ring, size) && NoDup(ring) && x !in ring && x != 0
    requires k <= |ring|
    requires ring[0] in mem && mem[ring[0]].fd in mem
    ensures Linked(WriteInsert(mem, index, ring[0], false, x, size), index, [ring[0], x] + ring[1..], size, k)
  {
    var n := |ring|;
    var out := [ring[0], x] + ring[1..];
    assert Linked(mem, index, ring, size, 0);
    var f := mem[ring[0]].fd;
    var m := WriteInsert(mem, index, ring[0], false, x, size);
    if k == 0 {
      assert n > 1 ==> ring[n - 1] != ring[0];
    } else if k == 1 {
      assert n > 1 ==> out[2] == ring[1];
    } else {
      assert out[k] == ring[k - 1];
      assert Linked(mem, index, ring, size, k - 1);
      assert ring[k - 1] != ring[0] && ring[k - 1] != x;
      if k == 2 {
        assert f == ring[1];
        assert m[f] == mem[f].(bk := x);
      } else {
        assert f == ring[1] && ring[k - 1] != ring[1];
        assert m[ring[k - 1]] == mem[ring[k - 1]];
        assert out[k - 1] == ring[k - 2];
      }
    }
  }

  lemma RingWriteInsert(mem: Memory, index: nat, ring: seq<Addr>, size: nat, x: Addr)
    requires ring != [] && RingOk(mem, index, ring, size) && NoDup(ring) && x !in ring && x != 0
    requires ring[0] in mem && mem[ring[0]].fd in mem
    ensures RingOk(WriteInsert(mem, index, ring[0], false, x, size), index, [ring[0], x] + ring[1..], size)
  {
    var out := [ring[0], x] + ring[1..];
    var m := WriteInsert(mem, index, ring[0], false, x, size);
    forall k | 0 <= k < |out|
      ensures Linked(m, index, out, size, k)
    {
      RingWriteInsertAt(mem, index, ring, size, x, k);
    }
    RingInsert(ring, x);
  }

  lemma InsertRingHere(mem: Memory, index: nat, p: Addr, t: Tree, parent: Parent, x: Addr)
    requires t.Node? && Stored(mem, index, p, t, parent) && Separate(t) && x !in Addrs(t) && x != 0
    ensures p in mem && mem[p].fd in mem && mem[p].fd in Addrs(t)
    ensures Stored(WriteInsert(mem, index, p, false, x, t.size), index, p,
                   t.(ring := [t.ring[0], x] + t.ring[1..]), parent)
  {
    StoredInMemory(mem, index, p, t, parent);
    RingWriteInsert(mem, index, t.ring, t.size, x);
    var m := WriteInsert(mem, index, p, false, x, t.size);
    Frame(mem, m, index, mem[p].child0, t.left, Below(p));
    Frame(mem, m, index, mem[p].child1, t.right, Below(p));
  }

  lemma InsertLeafHere(mem: Memory, index: nat, p: Addr, t: Tree, parent: Parent, size: nat, x: Addr, right: bool)
    requires t.Node? && Stored(mem, index, p, t, parent) && Separate(t) && t.size != size
    requires x !in Addrs(t) && x != 0
    requires if right then t.right.Nil? else t.left.Nil?
    ensures p in mem && mem[p].fd in mem && mem[p].fd in Addrs(t)
    ensures Stored(WriteInsert(mem, index, p, right, x, size), index, p,
                   if right then t.(right := Node([x], size, Nil, Nil)) else t.(left := Node([x], size, Nil, Nil)), parent)
  {
    StoredInMemory(mem, index, p, t, parent);
    var m := WriteInsert(mem, index, p, right, x, size);
    assert Linked(m, index, [x], size, 0);
    assert Stored(m, index, x, Node([x], size, Nil, Nil), Below(p));
    if right {
      Frame(mem, m, index, mem[p].child0, t.left, Below(p));
    } else {
      Frame(mem, m, index, mem[p].child1, t.right, Below(p));
    }
    forall k | 0 <= k < |t.ring|
      ensures Linked(m, index, t.ring, t.size, k)
    {
      assert Linked(mem, index, t.ring, t.size, k);
      assert t.ring[k] in t.ring;
    }
  }

  // Writing at the end of the walk turns the stored tree into the one with x.
  lemma {:induction false} InsertStored(mem: Memory, index: nat, p: Addr, t: Tree, parent: Parent, lo: nat, w: nat, size: nat, x: Addr)
    requires t.Node? && Stored(mem, index, p, t, parent) && Ok(t, lo, w) && Separate(t)
    requires lo <= size < lo + Pow2(w) && x !in Addrs(t) && x != 0
    ensures var (at, right) := Stop(t, lo, w, size);
      && at in Addrs(t) && at in mem && mem[at].fd in Addrs(t) && mem[at].fd in mem
      && Stored(WriteInsert(mem, index, at, right, x, size), index, p, Insert(t, lo, w, size, x), parent)
    decreases t
  {
    hide Stored, Ok, Separate, WriteInsert, Insert, Stop;
    NodeParts(mem, index, p, t, parent);
    OkParts(t, lo, w);
    SeparateParts(t, x);
    InsertStep(t, lo, w, size, x);
    StopStep(t, lo, w, size);
    if t.size == size {
      InsertRingHere(mem, index, p, t, parent, x);
    } else if w > 0 {
      var inLeft := size < lo + Pow2(w - 1);
      var c := if inLeft then t.left else t.right;
      if c.Nil? {
        InsertLeafHere(mem, index, p, t, parent, size, x, !inLeft);
        InsertNil(lo, w - 1, size, x);
        InsertNil(lo + Pow2(w - 1), w - 1, size, x);
      } else {
        if inLeft {
          InsertStored(mem, index, mem[p].child0, t.left, Below(p), lo, w - 1, size, x);
        } else {
          InsertStored(mem, index, mem[p].child1, t.right, Below(p), lo + Pow2(w - 1), w - 1, size, x);
        }
        InsertBelow(mem, index, p, t, parent, lo, w, size, x);
      }
    }
  }

  lemma NodeParts(mem: Memory, index: nat, p: Addr, t: Tree, parent: Parent)
    requires t.Node? && Stored(mem, index, p, t, parent)
    ensures p in mem && Stored(mem, index, mem[p].child0, t.left, Below(p)) && Stored(mem, index, mem[p].child1, t.right, Below(p))
    ensures t.ring != [] && p == t.ring[0] && forall a :: a in Addrs(t) ==> a in mem
    ensures forall a :: a in t.ring || a in Addrs(t.left) || a in Addrs(t.right) ==> a in Addrs(t)
  {
    StoredInMemory(mem, index, p, t, parent);
  }

  // Writing in one subtree leaves the ring above and the other subtree alone.
  lemma InsertWrites(mem: Memory, index: nat, at: Addr, right: bool, x: Addr, size: nat, t: Tree, inLeft: bool)
    requires t.Node? && Separate(t) && x !in Addrs(t) && at in mem && mem[at].fd in mem && (forall a :: a in Addrs(t) ==> a in mem)
    requires var c := if inLeft then t.left else t.right; at in Addrs(c) && mem[at].fd in Addrs(c)
    ensures var m := WriteInsert(mem, index, at, right, x, size);
      && (forall a :: a in t.ring ==> a in m && m[a] == mem[a])
      && SameOn(mem, m, Addrs(if inLeft then t.right else t.left))
  {
  }

  // Where the walk stops at this node or which way it goes on.
  lemma StopStep(t: Tree, lo: nat, w: nat, size: nat)
    requires t.Node? && Ok(t, lo, w) && lo <= size < lo + Pow2(w)
    ensures t.size != size ==> w > 0
    ensures t.ring != [] && (t.size == size ==> Stop(t, lo, w, size) == (t.ring[0], false))
    ensures w > 0 && t.size != size && size < lo + Pow2(w - 1) && t.left.Nil? ==> Stop(t, lo, w, size) == (t.ring[0], false)
    ensures w > 0 && t.size != size && size >= lo + Pow2(w - 1) && t.right.Nil? ==> Stop(t, lo, w, size) == (t.ring[0], true)
    ensures w > 0 && t.size != size && size < lo + Pow2(w - 1) && t.left.Node? ==> Ok(t.left, lo, w - 1) && Stop(t, lo, w, size) == Stop(t.left, lo, w - 1, size)
    ensures w > 0 && t.size != size && size >= lo + Pow2(w - 1) && t.right.Node? ==>
      Ok(t.right, lo + Pow2(w - 1), w - 1) && Stop(t, lo, w, size) == Stop(t.right, lo + Pow2(w - 1), w - 1, size)
  {
  }

  lemma InsertNil(lo: nat, w: nat, size: nat, x: Addr)
    ensures Insert(Nil, lo, w, size, x) == Node([x], size, Nil, Nil)
  {
  }

  lemma InsertBelow(mem: Memory, index: nat, p: Addr, t: Tree, parent: Parent, lo: nat, w: nat, size: nat, x: Addr)
    requires t.Node? && Stored(mem, index, p, t, parent) && Ok(t, lo, w) && Separate(t)
    requires lo <= size < lo + Pow2(w) && x !in Addrs(t) && t.size != size && w > 0
    requires var (at, right) := Stop(t, lo, w, size);
      && at in mem && mem[at].fd in mem
      && var m := WriteInsert(mem, index, at, right, x, size);
         if size < lo + Pow2(w - 1) then
           && t.left.Node? && at in Addrs(t.left) && mem[at].fd in Addrs(t.left)
           && Stored(m, index, mem[p].child0, Insert(t.left, lo, w - 1, size, x), Below(p))
         else
           && t.right.Node? && at in Addrs(t.right) && mem[at].fd in Addrs(t.right)
           && Stored(m, index, mem[p].child1, Insert(t.right, lo + Pow2(w - 1), w - 1, size, x), Below(p))
    ensures var (at, right) := Stop(t, lo, w, size);
      Stored(WriteInsert(mem, index, at, right, x, size), index, p, Insert(t, lo, w, size, x), parent)
  {
    hide Stored, Ok, Separate, WriteInsert, Insert, Stop;
    var (at, right) := Stop(t, lo, w, size);
    var m := WriteInsert(mem, index, at, right, x, size);
    var inLeft := size < lo + Pow2(w - 1);
    NodeParts(mem, index, p, t, parent);
    StopStep(t, lo, w, size);
    InsertStep(t, lo, w, size, x);
    InsertWrites(mem, index, at, right, x, size, t, inLeft);
    if inLeft {
      Frame(mem, m, index, mem[p].child1, t.right, Below(p));
      Rebuild(mem, m, index, p, t, Insert(t.left, lo, w - 1, size, x), t.right, parent);
    } else {
      Frame(mem, m, index, mem[p].child0, t.left, Below(p));
      Rebuild(mem, m, index, p, t, t.left, Insert(t.right, lo + Pow2(w - 1), w - 1, size, x), parent);
    }
  }
}
