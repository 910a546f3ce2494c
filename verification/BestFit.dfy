// Why the search of tmalloc_large finds the smallest chunk that is large enough.
module BestFit {
  import opened TreeIndex
  import opened Trie

  // Every size of the bin that is large enough is still ahead in cur, is in
  // the reserved right subtree rst, is no better than rsize, or is no better
  // than anything in rst.
  ghost predicate Covered(root: Tree, cur: Tree, rst: Tree, rsize: nat, nb: nat) {
    forall z :: z in Sizes(root) && z >= nb ==>
      || z in Sizes(cur) || z in Sizes(rst) || z - nb >= rsize
      || (rst.Node? && forall y :: y in Sizes(rst) ==> y <= z)
  }

  // Everything reserved is beyond the interval [lo, lo + 2^w) still explored.
  ghost predicate Beyond(rst: Tree, lo: nat, w: nat) {
    forall y :: y in Sizes(rst) ==> y >= lo + Pow2(w)
  }

  function Remainder(size: nat, nb: nat): nat {
    (size - nb) % SIZE_T_RANGE
  }

  // The unsigned difference beats the current best only for a chunk that fits.
  lemma RemainderBeats(size: nat, nb: nat, rsize: nat)
    requires 0 < size < SIZE_T_RANGE && 0 < nb < SIZE_T_RANGE && rsize <= SIZE_T_RANGE - nb
    ensures Remainder(size, nb) < rsize <==> nb <= size && size - nb < rsize
    ensures nb <= size ==> Remainder(size, nb) == size - nb
  {
    if size < nb {
      assert (size - nb) % SIZE_T_RANGE == size - nb + SIZE_T_RANGE;
    }
  }

  function Better(rsize: nat, size: nat, nb: nat): nat {
    if nb <= size && size - nb < rsize then size - nb else rsize
  }

  lemma NodeSize(t: Tree)
    requires t.Node?
    ensures t.size in Sizes(t) && Sizes(t.left) <= Sizes(t) && Sizes(t.right) <= Sizes(t)
  {
  }

  // One step to the right: the left half is too small.
  lemma StepRight(root: Tree, cur: Tree, rst: Tree, rsize: nat, nb: nat, lo: nat, w: nat)
    requires cur.Node? && w > 0 && Ok(cur, lo, w) && nb >= lo + Pow2(w - 1)
    requires Covered(root, cur, rst, rsize, nb) && Beyond(rst, lo, w)
    ensures Covered(root, cur.right, rst, Better(rsize, cur.size, nb), nb)
    ensures Beyond(rst, lo + Pow2(w - 1), w - 1)
  {
    hide Ok, Sizes, Pow2;
    Halves(cur, lo, w);
  }

  // One step to the left: a non-empty right half becomes the reserve.
  lemma StepLeft(root: Tree, cur: Tree, rst: Tree, rsize: nat, nb: nat, lo: nat, w: nat)
    requires cur.Node? && w > 0 && Ok(cur, lo, w) && nb < lo + Pow2(w - 1)
    requires Covered(root, cur, rst, rsize, nb) && Beyond(rst, lo, w)
    ensures var r := if cur.right.Node? then cur.right else rst;
      && Covered(root, cur.left, r, Better(rsize, cur.size, nb), nb)
      && Beyond(r, lo, w - 1)
      && (cur.right.Node? ==> forall y :: y in Sizes(r) ==> y > nb)
  {
    hide Ok, Sizes, Pow2;
    Halves(cur, lo, w);
    var r := if cur.right.Node? then cur.right else rst;
    if cur.right.Node? {
      forall z | z in Sizes(root) && z >= nb && !(z in Sizes(cur.left) || z in Sizes(r) || z - nb >= Better(rsize, cur.size, nb))
        ensures forall y :: y in Sizes(r) ==> y <= z
      {
        if z !in Sizes(rst) {
          NodeSize(rst);
          assert rst.size <= z && rst.size >= lo + Pow2(w);
        }
      }
    } else {
      NoSizes(cur.right);
    }
  }

  lemma NoSizes(t: Tree)
    requires t.Nil?
    ensures Sizes(t) == {}
  {
  }

  // ----- the leftmost descent -----

  ghost predicate Descending(root: Tree, cur: Tree, rsize: nat, nb: nat) {
    forall z :: z in Sizes(root) && z >= nb ==>
      || z in Sizes(cur) || z - nb >= rsize
      || (cur.Node? && forall y :: y in Sizes(cur) ==> y <= z)
  }

  // leftmost_child
  function LeftmostChild(t: Tree): Tree
    requires t.Node?
  {
    if t.left.Node? then t.left else t.right
  }

  lemma StepDown(root: Tree, cur: Tree, rsize: nat, nb: nat, lo: nat, w: nat)
    requires cur.Node? && Ok(cur, lo, w) && Descending(root, cur, rsize, nb)
    requires forall y :: y in Sizes(cur) ==> y >= nb
    ensures Descending(root, LeftmostChild(cur), Better(rsize, cur.size, nb), nb)
  {
    hide Ok, Sizes, Pow2;
    Halves(cur, lo, w);
    var next := LeftmostChild(cur);
    forall z | z in Sizes(root) && z >= nb && !(z in Sizes(next) || z - nb >= Better(rsize, cur.size, nb))
      ensures next.Node? && forall y :: y in Sizes(next) ==> y <= z
    {
      assert cur.size in Sizes(cur);
    }
  }

  // At the end of the path the reserve takes over, and at the end of the
  // descent nothing better is left.
  lemma PathEnds(root: Tree, rst: Tree, rsize: nat, nb: nat)
    requires Covered(root, Nil, rst, rsize, nb)
    ensures Descending(root, rst, rsize, nb)
  {
  }
}
