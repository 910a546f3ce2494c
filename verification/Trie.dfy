// The bitwise digital trees of dlmalloc.c as values: each node holds the ring
// of free chunks of one size, and each level splits the sizes by one digit.
module Trie {
  import opened Collections
  import opened TreeIndex

  type Addr = nat

  datatype Tree = Nil | Node(ring: seq<Addr>, size: nat, left: Tree, right: Tree)

  function Sizes(t: Tree): set<nat> {
    match t
    case Nil => {}
    case Node(_, size, left, right) => {size} + Sizes(left) + Sizes(right)
  }

  function Addrs(t: Tree): set<Addr> {
    match t
    case Nil => {}
    case Node(ring, _, left, right) => (set a | a in ring) + Addrs(left) + Addrs(right)
  }

  function RingChunks(ring: seq<Addr>, size: nat): set<(Addr, nat)> {
    set a | a in ring :: (a, size)
  }

  // The chunks of a tree, each with its size.
  function Chunks(t: Tree): set<(Addr, nat)> {
    match t
    case Nil => {}
    case Node(ring, size, left, right) => RingChunks(ring, size) + Chunks(left) + Chunks(right)
  }

  // Sizes are unique, rings are not empty, and at every depth the sizes of a
  // subtree share the digits already read: they lie in [lo, lo + 2^w).
  ghost predicate Ok(t: Tree, lo: nat, w: nat) {
    t.Node? ==>
      && t.ring != []
      && lo <= t.size < lo + Pow2(w)
      && t.size !in Sizes(t.left) && t.size !in Sizes(t.right)
      && if w == 0 then t.left.Nil? && t.right.Nil?
         else Ok(t.left, lo, w - 1) && Ok(t.right, lo + Pow2(w - 1), w - 1)
  }

  // No chunk appears twice.
  ghost predicate Separate(t: Tree) {
    t.Node? ==>
      && NoDup(t.ring)
      && (forall a :: a in t.ring ==> a !in Addrs(t.left) && a !in Addrs(t.right))
      && Addrs(t.left) !! Addrs(t.right)
      && Separate(t.left) && Separate(t.right)
  }

  lemma {:induction false} SizesInRange(t: Tree, lo: nat, w: nat)
    requires Ok(t, lo, w)
    ensures forall s :: s in Sizes(t) ==> lo <= s < lo + Pow2(w)
  {
    if t.Node? && w > 0 {
      SizesInRange(t.left, lo, w - 1);
      SizesInRange(t.right, lo + Pow2(w - 1), w - 1);
    }
  }

  lemma {:induction false} ChunksAgree(t: Tree)
    ensures forall c :: c in Chunks(t) ==> c.0 in Addrs(t) && c.1 in Sizes(t)
    ensures forall a :: a in Addrs(t) ==> exists s :: (a, s) in Chunks(t)
  {
    if t.Node? {
      ChunksAgree(t.left);
      ChunksAgree(t.right);
      forall a | a in Addrs(t)
        ensures exists s :: (a, s) in Chunks(t)
      {
        if a in t.ring {
          assert (a, t.size) in Chunks(t);
        } else if a in Addrs(t.left) {
          var s :| (a, s) in Chunks(t.left);
          assert (a, s) in Chunks(t);
        } else {
          assert a in Addrs(t.right);
          var s :| (a, s) in Chunks(t.right);
          assert (a, s) in Chunks(t);
        }
      }
    }
  }

  // ----- inserting -----

  function Insert(t: Tree, lo: nat, w: nat, size: nat, x: Addr): Tree {
    match t
    case Nil => Node([x], size, Nil, Nil)
    case Node(ring, s, left, right) =>
      if s == size then Node(if ring == [] then [x] else [ring[0], x] + ring[1..], s, left, right)
      else if w == 0 then t
      else if size < lo + Pow2(w - 1) then Node(ring, s, Insert(left, lo, w - 1, size, x), right)
      else Node(ring, s, left, Insert(right, lo + Pow2(w - 1), w - 1, size, x))
  }

  lemma RingInsert(ring: seq<Addr>, x: Addr)
    requires ring != []
    ensures var out := [ring[0], x] + ring[1..];
      && (forall a :: a in out <==> a in ring || a == x)
      && (NoDup(ring) && x !in ring ==> NoDup(out))
  {
    assert ring == [ring[0]] + ring[1..];
  }

  // Inserting keeps the digits rule and the uniqueness of sizes.
  lemma {:induction false} InsertOk(t: Tree, lo: nat, w: nat, size: nat, x: Addr)
    requires Ok(t, lo, w) && lo <= size < lo + Pow2(w)
    ensures Ok(Insert(t, lo, w, size, x), lo, w)
    ensures Sizes(Insert(t, lo, w, size, x)) == Sizes(t) + {size}
  {
    if t.Node? && t.size != size && w > 0 {
      if size < lo + Pow2(w - 1) {
        InsertOk(t.left, lo, w - 1, size, x);
      } else {
        InsertOk(t.right, lo + Pow2(w - 1), w - 1, size, x);
      }
    }
  }

  lemma {:induction false} InsertAddrs(t: Tree, lo: nat, w: nat, size: nat, x: Addr)
    requires Ok(t, lo, w) && lo <= size < lo + Pow2(w)
    ensures Addrs(Insert(t, lo, w, size, x)) == Addrs(t) + {x}
  {
    if t.Node? {
      if t.size == size {
        RingInsert(t.ring, x);
      } else if w > 0 {
        if size < lo + Pow2(w - 1) {
          InsertAddrs(t.left, lo, w - 1, size, x);
        } else {
          InsertAddrs(t.right, lo + Pow2(w - 1), w - 1, size, x);
        }
      }
    }
  }

  // A subtree may be changed as long as it gains nothing found elsewhere.
  lemma NewLeft(t: Tree, left: Tree, x: Addr)
    requires t.Node? && Separate(t) && Separate(left)
    requires Addrs(left) <= Addrs(t.left) + {x} && x !in t.ring && x !in Addrs(t.right)
    ensures Separate(t.(left := left))
  {
  }

  lemma NewRight(t: Tree, right: Tree, x: Addr)
    requires t.Node? && Separate(t) && Separate(right)
    requires Addrs(right) <= Addrs(t.right) + {x} && x !in t.ring && x !in Addrs(t.left)
    ensures Separate(t.(right := right))
  {
  }

  lemma NewRing(t: Tree, ring: seq<Addr>, x: Addr)
    requires t.Node? && Separate(t) && NoDup(ring)
    requires (forall a :: a in ring ==> a in t.ring || a == x) && x !in Addrs(t.left) && x !in Addrs(t.right)
    ensures Separate(t.(ring := ring))
  {
  }

  lemma InsertStep(t: Tree, lo: nat, w: nat, size: nat, x: Addr)
    requires Ok(t, lo, w)
    ensures t.Nil? ==> Insert(t, lo, w, size, x) == Node([x], size, Nil, Nil) && Separate(Insert(t, lo, w, size, x))
    ensures t.Node? && t.size == size ==> Insert(t, lo, w, size, x) == t.(ring := [t.ring[0], x] + t.ring[1..])
    ensures t.Node? && t.size != size && w == 0 ==> Insert(t, lo, w, size, x) == t
    ensures t.Node? && t.size != size && w > 0 && size < lo + Pow2(w - 1) ==>
      Insert(t, lo, w, size, x) == t.(left := Insert(t.left, lo, w - 1, size, x))
    ensures t.Node? && t.size != size && w > 0 && size >= lo + Pow2(w - 1) ==>
      Insert(t, lo, w, size, x) == t.(right := Insert(t.right, lo + Pow2(w - 1), w - 1, size, x))
  {
    if t.Nil? {
      assert NoDup([x]);
    }
  }

  lemma SeparateParts(t: Tree, x: Addr)
    requires t.Node? && Separate(t) && x !in Addrs(t)
    ensures Separate(t.left) && Separate(t.right) && NoDup(t.ring)
    ensures x !in t.ring && x !in Addrs(t.left) && x !in Addrs(t.right)
    ensures forall a :: a in t.ring ==> a !in Addrs(t.left) && a !in Addrs(t.right)
  {
  }

  lemma OkParts(t: Tree, lo: nat, w: nat)
    requires t.Node? && Ok(t, lo, w)
    ensures t.ring != [] && lo <= t.size < lo + Pow2(w)
    ensures w > 0 ==> Pow2(w) == 2 * Pow2(w - 1)
    ensures w > 0 ==> Ok(t.left, lo, w - 1) && Ok(t.right, lo + Pow2(w - 1), w - 1)
  {
  }

  lemma {:induction false} InsertSeparate(t: Tree, lo: nat, w: nat, size: nat, x: Addr)
    requires Ok(t, lo, w) && lo <= size < lo + Pow2(w)
    requires Separate(t) && x !in Addrs(t)
    ensures Separate(Insert(t, lo, w, size, x))
  {
    hide *;
    InsertStep(t, lo, w, size, x);
    if t.Node? {
      SeparateParts(t, x);
      OkParts(t, lo, w);
      if t.size == size {
        RingInsert(t.ring, x);
        NewRing(t, [t.ring[0], x] + t.ring[1..], x);
      } else if w > 0 {
        if size < lo + Pow2(w - 1) {
          InsertSeparate(t.left, lo, w - 1, size, x);
          InsertAddrs(t.left, lo, w - 1, size, x);
          NewLeft(t, Insert(t.left, lo, w - 1, size, x), x);
        } else {
          InsertSeparate(t.right, lo + Pow2(w - 1), w - 1, size, x);
          InsertAddrs(t.right, lo + Pow2(w - 1), w - 1, size, x);
          NewRight(t, Insert(t.right, lo + Pow2(w - 1), w - 1, size, x), x);
        }
      }
    }
  }

  // Inserting adds exactly one chunk.
  lemma {:induction false} InsertAdds(t: Tree, lo: nat, w: nat, size: nat, x: Addr)
    requires Ok(t, lo, w) && lo <= size < lo + Pow2(w)
    ensures Chunks(Insert(t, lo, w, size, x)) == Chunks(t) + {(x, size)}
  {
    if t.Node? {
      if t.size == size {
        RingInsert(t.ring, x);
      } else if w > 0 {
        if size < lo + Pow2(w - 1) {
          InsertAdds(t.left, lo, w - 1, size, x);
        } else {
          InsertAdds(t.right, lo + Pow2(w - 1), w - 1, size, x);
        }
      }
    }
  }

  // ----- removing -----

  // The leaf that the rightmost walk reaches, and the tree without it.
  function LastLeaf(t: Tree): (leaf: Tree)
    requires t.Node?
    ensures leaf.Node? && leaf.left.Nil? && leaf.right.Nil?
  {
    if t.right.Node? then LastLeaf(t.right)
    else if t.left.Node? then LastLeaf(t.left)
    else t
  }

  function CutLeaf(t: Tree): (rest: Tree)
    requires t.Node?
    ensures rest.Node? <==> t.left.Node? || t.right.Node?
    ensures rest.Node? ==> rest.ring == t.ring && rest.size == t.size
  {
    if t.right.Node? then t.(right := CutLeaf(t.right))
    else if t.left.Node? then t.(left := CutLeaf(t.left))
    else Nil
  }

  // A node whose last chunk leaves is replaced by a leaf from below it.
  function ReplaceTop(t: Tree): Tree
    requires t.Node?
  {
    if t.right.Nil? && t.left.Nil? then Nil
    else
      var leaf := LastLeaf(t);
      var rest := CutLeaf(t);
      Node(leaf.ring, leaf.size, rest.left, rest.right)
  }

  function IndexIn(ring: seq<Addr>, x: Addr): (i: nat)
    requires x in ring
    ensures i < |ring| && ring[i] == x
  {
    if ring[0] == x then 0 else 1 + IndexIn(ring[1..], x)
  }

  // Taking element i out of a ring of several chunks: if it is the head, the
  // chunk behind it becomes the head.
  function RotateRemove(ring: seq<Addr>, i: nat): seq<Addr>
    requires i < |ring| && |ring| > 1
  {
    if i == 0 then [ring[|ring| - 1]] + ring[1..|ring| - 1] else ring[..i] + ring[i + 1..]
  }

  function RingRemove(ring: seq<Addr>, x: Addr): seq<Addr>
    requires x in ring && |ring| > 1
  {
    RotateRemove(ring, IndexIn(ring, x))
  }

  function RemoveHere(t: Tree, x: Addr): Tree
    requires t.Node? && x in t.ring
  {
    if |t.ring| > 1 then t.(ring := RingRemove(t.ring, x)) else ReplaceTop(t)
  }

  function Remove(t: Tree, x: Addr): Tree {
    match t
    case Nil => Nil
    case Node(ring, _, left, right) =>
      if x in ring then RemoveHere(t, x)
      else if x in Addrs(left) then t.(left := Remove(left, x))
      else t.(right := Remove(right, x))
  }

  lemma RingRemoveKeeps(ring: seq<Addr>, x: Addr)
    requires x in ring && |ring| > 1 && NoDup(ring)
    ensures var out := RingRemove(ring, x);
      && out != [] && NoDup(out)
      && forall a :: a in out <==> a in ring && a != x
  {
    var i := IndexIn(ring, x);
    var out := RingRemove(ring, x);
    if i == 0 {
      assert ring == [x] + ring[1..|ring| - 1] + [ring[|ring| - 1]];
    } else {
      assert ring == ring[..i] + [x] + ring[i + 1..];
    }
  }

  // The sizes on both sides of a node.
  lemma Halves(t: Tree, lo: nat, w: nat)
    requires t.Node? && Ok(t, lo, w)
    ensures Sizes(t) == {t.size} + Sizes(t.left) + Sizes(t.right) && (t.left.Nil? ==> Sizes(t.left) == {})
    ensures w == 0 ==> t.left.Nil? && t.right.Nil? && Sizes(t.right) == {}
    ensures w > 0 ==>
      && Pow2(w) == 2 * Pow2(w - 1)
      && (forall y :: y in Sizes(t.left) ==> lo <= y < lo + Pow2(w - 1))
      && (forall y :: y in Sizes(t.right) ==> lo + Pow2(w - 1) <= y < lo + Pow2(w))
  {
    if w > 0 {
      SizesInRange(t.left, lo, w - 1);
      SizesInRange(t.right, lo + Pow2(w - 1), w - 1);
    }
  }

  lemma NodeOk(ring: seq<Addr>, size: nat, left: Tree, right: Tree, lo: nat, w: nat)
    requires ring != [] && lo <= size < lo + Pow2(w) && size !in Sizes(left) && size !in Sizes(right)
    requires if w == 0 then left.Nil? && right.Nil? else Ok(left, lo, w - 1) && Ok(right, lo + Pow2(w - 1), w - 1)
    ensures Ok(Node(ring, size, left, right), lo, w) && Sizes(Node(ring, size, left, right)) == {size} + Sizes(left) + Sizes(right)
  {
  }

  lemma NodeSizes(t: Tree, lo: nat, w: nat)
    requires t.Node? && Ok(t, lo, w)
    ensures t.size !in Sizes(t.left) && t.size !in Sizes(t.right)
  {
  }

  lemma Leaf(t: Tree, lo: nat, w: nat)
    requires t.Node? && t.left.Nil? && t.right.Nil?
    ensures CutLeaf(t) == Nil && LastLeaf(t) == t && Ok(Nil, lo, w) && Sizes(t) == {t.size} && Sizes(Nil) == {} && Sizes(t.left) == {} == Sizes(t.right)
  {
  }

  lemma Branch(t: Tree)
    requires t.Node?
    ensures t.right.Node? ==> CutLeaf(t) == Node(t.ring, t.size, t.left, CutLeaf(t.right)) && LastLeaf(t) == LastLeaf(t.right)
    ensures t.right.Nil? && t.left.Node? ==> CutLeaf(t) == Node(t.ring, t.size, CutLeaf(t.left), t.right) && LastLeaf(t) == LastLeaf(t.left)
    ensures t.right.Nil? ==> Sizes(t.right) == {}
  {
  }

  lemma {:induction false} CutLeafOk(t: Tree, lo: nat, w: nat)
    requires t.Node? && Ok(t, lo, w)
    ensures Ok(CutLeaf(t), lo, w)
    ensures LastLeaf(t).ring != [] && lo <= LastLeaf(t).size < lo + Pow2(w)
    ensures LastLeaf(t).size !in Sizes(CutLeaf(t))
    ensures Sizes(t) == Sizes(CutLeaf(t)) + {LastLeaf(t).size}
  {
    hide *;
    Halves(t, lo, w);
    OkParts(t, lo, w);
    NodeSizes(t, lo, w);
    Branch(t);
    if t.right.Node? {
      CutLeafOk(t.right, lo + Pow2(w - 1), w - 1);
      NodeOk(t.ring, t.size, t.left, CutLeaf(t.right), lo, w);
    } else if t.left.Node? {
      CutLeafOk(t.left, lo, w - 1);
      NodeOk(t.ring, t.size, CutLeaf(t.left), t.right, lo, w);
    } else {
      Leaf(t, lo, w);
    }
  }

  function RingSet(t: Tree): set<Addr>
    requires t.Node?
  {
    set a | a in t.ring
  }

  lemma {:induction false} CutLeafSeparate(t: Tree)
    requires t.Node? && Separate(t)
    ensures Separate(CutLeaf(t)) && NoDup(LastLeaf(t).ring)
    ensures RingSet(LastLeaf(t)) !! Addrs(CutLeaf(t))
    ensures Addrs(t) == Addrs(CutLeaf(t)) + RingSet(LastLeaf(t))
  {
    if t.right.Node? {
      CutLeafSeparate(t.right);
    } else if t.left.Node? {
      CutLeafSeparate(t.left);
    }
  }

  lemma {:induction false} CutLeafTakes(t: Tree)
    requires t.Node?
    ensures Chunks(t) == Chunks(CutLeaf(t)) + RingChunks(LastLeaf(t).ring, LastLeaf(t).size)
  {
    if t.right.Node? {
      CutLeafTakes(t.right);
    } else if t.left.Node? {
      CutLeafTakes(t.left);
    }
  }

  lemma TopReplaced(t: Tree)
    requires t.Node?
    ensures t.left.Nil? && t.right.Nil? ==> ReplaceTop(t) == Nil
    ensures t.left.Node? || t.right.Node? ==>
      ReplaceTop(t) == Node(LastLeaf(t).ring, LastLeaf(t).size, CutLeaf(t).left, CutLeaf(t).right)
  {
  }

  lemma ReplaceTopOk(t: Tree, lo: nat, w: nat)
    requires t.Node? && Ok(t, lo, w)
    ensures Ok(ReplaceTop(t), lo, w)
    ensures Sizes(ReplaceTop(t)) == Sizes(t) - {t.size}
  {
    hide *;
    Halves(t, lo, w);
    OkParts(t, lo, w);
    NodeSizes(t, lo, w);
    Branch(t);
    TopReplaced(t);
    if t.right.Node? {
      CutLeafOk(t.right, lo + Pow2(w - 1), w - 1);
      NodeOk(LastLeaf(t).ring, LastLeaf(t).size, t.left, CutLeaf(t.right), lo, w);
    } else if t.left.Node? {
      CutLeafOk(t.left, lo, w - 1);
      NodeOk(LastLeaf(t).ring, LastLeaf(t).size, CutLeaf(t.left), t.right, lo, w);
    } else {
      Leaf(t, lo, w);
    }
  }

  lemma ReplaceTopSeparate(t: Tree)
    requires t.Node? && Separate(t)
    ensures Separate(ReplaceTop(t))
    ensures Addrs(ReplaceTop(t)) == Addrs(t) - RingSet(t)
  {
    if t.right.Node? {
      CutLeafSeparate(t.right);
    } else if t.left.Node? {
      CutLeafSeparate(t.left);
    }
  }

  lemma ReplaceTopTakes(t: Tree)
    requires t.Node?
    ensures Chunks(t) == Chunks(ReplaceTop(t)) + RingChunks(t.ring, t.size)
  {
    if t.right.Node? {
      CutLeafTakes(t.right);
    } else if t.left.Node? {
      CutLeafTakes(t.left);
    }
  }

  lemma SeparateSides(t: Tree)
    requires t.Node? && Separate(t)
    ensures NoDup(t.ring) && Separate(t.left) && Separate(t.right)
  {
  }

  // Removing a chunk keeps the digits rule and the uniqueness of sizes.
  lemma {:induction false} RemoveOk(t: Tree, lo: nat, w: nat, x: Addr)
    requires Ok(t, lo, w) && Separate(t)
    ensures Ok(Remove(t, x), lo, w)
    ensures Sizes(Remove(t, x)) <= Sizes(t)
  {
    hide Separate, RingRemove, ReplaceTop, CutLeaf, LastLeaf, Addrs;
    if t.Node? {
      SeparateSides(t);
      if x in t.ring {
        if |t.ring| > 1 {
          RingRemoveKeeps(t.ring, x);
        } else {
          ReplaceTopOk(t, lo, w);
        }
      } else if w > 0 {
        RemoveOk(t.left, lo, w - 1, x);
        RemoveOk(t.right, lo + Pow2(w - 1), w - 1, x);
      }
    }
  }

  lemma {:induction false} RemoveSeparate(t: Tree, x: Addr)
    requires Separate(t)
    ensures Separate(Remove(t, x))
    ensures Addrs(Remove(t, x)) == Addrs(t) - {x}
  {
    if t.Node? {
      if x in t.ring {
        if |t.ring| > 1 {
          RingRemoveKeeps(t.ring, x);
        } else {
          assert RingSet(t) == {x};
          ReplaceTopSeparate(t);
        }
      } else {
        RemoveSeparate(t.left, x);
        RemoveSeparate(t.right, x);
      }
    }
  }

  // Removing takes exactly one chunk out.
  lemma {:induction false} RemoveTakes(t: Tree, x: Addr)
    requires Separate(t)
    ensures Chunks(Remove(t, x)) == set c | c in Chunks(t) && c.0 != x
  {
    if t.Node? {
      ChunksAgree(t.left);
      ChunksAgree(t.right);
      if x in t.ring {
        if |t.ring| > 1 {
          RingRemoveKeeps(t.ring, x);
        } else {
          ReplaceTopTakes(t);
          ReplaceTopSeparate(t);
          ChunksAgree(ReplaceTop(t));
        }
      } else {
        RemoveTakes(t.left, x);
        RemoveTakes(t.right, x);
      }
    }
  }
}
