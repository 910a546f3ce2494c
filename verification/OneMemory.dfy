// The words of the allocator in one memory: heads, feet and the links of free
// chunks lie in the chunks themselves, over one another's payload. Elsewhere
// each field is a map of its own; here is why that makes no difference.
module OneMemory {
  import opened TreeIndex
  import opened Trie
  import opened TrieMemory
  import opened TreeBinsModule
  import opened SmallBinsModule
  import opened HeapModule
  import opened MspaceModule

  // The words of struct malloc_chunk and struct malloc_tree_chunk. The foot of
  // a chunk is the prev_foot of the next one.
  datatype Field = HeadField | Foot | Fd | Bk | Child0 | Child1 | ParentField | IndexField

  datatype Word = Tags(head: Head) | Size(n: nat) | Pointer(a: Addr) | Link(node: Node) | Up(parent: Parent) | Bin(i: nat)

  // The heap with its fields in separate maps; small and large are the chunks
  // listed in bins.
  datatype Fields = Fields(h: Heap, links: LinkMemory, small: set<Addr>, tree: Memory, large: set<Addr>)

  ghost predicate ListedOk(s: Fields, a: Addr) {
    && a in s.h.chunks && a in s.h.heads && !s.h.heads[a].cinuse && a != s.h.top
    && (a in s.small ==> Chunk(a) in s.links)
    && (a in s.large ==> a in s.tree && s.h.heads[a].size >= MIN_LARGE_SIZE)
  }

  ghost predicate FieldsOk(s: Fields) {
    HeapOk(s.h) && s.small !! s.large && forall a {:trigger ListedOk(s, a)} :: a in s.small || a in s.large ==> ListedOk(s, a)
  }

  // Which words the allocator relies on.
  predicate Uses(s: Fields, a: Addr, f: Field): (used: bool)
    ensures used ==> a in s.h.chunks && a in s.h.heads
  {
    a in s.h.chunks && a in s.h.heads &&
    match f
    case HeadField => true
    case Foot => !s.h.heads[a].cinuse && a != s.h.top
    case Fd => a in s.small || a in s.large
    case Bk => a in s.small || a in s.large
    case _ => a in s.large
  }

  // Where they lie, by byte address.
  function WordAt(h: Heap, a: Addr, f: Field): nat
    requires a in h.heads
  {
    match f
    case HeadField => a + 8
    case Fd => a + 16
    case Bk => a + 24
    case Child0 => a + 32
    case Child1 => a + 40
    case ParentField => a + 48
    case IndexField => a + 56
    case Foot => a + h.heads[a].size
  }

  ghost function ValueOf(s: Fields, a: Addr, f: Field): Word
    requires FieldsOk(s) && Uses(s, a, f)
  {
    Own(s, a, f);
    match f
    case HeadField => Tags(s.h.heads[a])
    case Foot => Size(s.h.feet[a + s.h.heads[a].size])
    case Fd => if a in s.small then Link(s.links[Chunk(a)].fd) else Pointer(s.tree[a].fd)
    case Bk => if a in s.small then Link(s.links[Chunk(a)].bk) else Pointer(s.tree[a].bk)
    case Child0 => Pointer(s.tree[a].child0)
    case Child1 => Pointer(s.tree[a].child1)
    case ParentField => Up(s.tree[a].parent)
    case IndexField => Bin(s.tree[a].index)
  }

  // The words of a chunk lie behind its prev_foot and before the head of the
  // next chunk, one behind the other.
  lemma Own(s: Fields, a: Addr, f: Field)
    requires FieldsOk(s) && Uses(s, a, f)
    ensures a + 8 <= WordAt(s.h, a, f) < a + 8 + s.h.heads[a].size && a % 8 == 0 && s.h.heads[a].size % 8 == 0 && WordAt(s.h, a, f) % 8 == 0
    ensures f == Foot ==> a + s.h.heads[a].size in s.h.feet && s.h.feet[a + s.h.heads[a].size] == s.h.heads[a].size
    ensures f == Fd || f == Bk ==> if a in s.small then Chunk(a) in s.links else a in s.tree
    ensures f in {Child0, Child1, ParentField, IndexField} ==> a in s.tree
    ensures forall g :: Uses(s, a, g) && WordAt(s.h, a, g) == WordAt(s.h, a, f) ==> g == f
  {
    hide BehindFree, TopOk;
    assert ChunkOk(s.h, a);
    if a in s.small || a in s.large { assert ListedOk(s, a); }
    if f == Foot { FootIsSize(s.h, a); }
  }

  lemma ChunksApart(h: Heap, a: Addr, b: Addr)
    requires HeapOk(h) && a in h.chunks && b in h.chunks && a != b
    ensures a in h.heads && b in h.heads && (a + h.heads[a].size <= b || b + h.heads[b].size <= a)
  {
    assert ChunkOk(h, a) && ChunkOk(h, b);
    assert Disjoint(h, a, b) && Disjoint(h, b, a);
  }

  // No two of them share a word.
  lemma WordsApart(s: Fields, a: Addr, f: Field, b: Addr, g: Field)
    requires FieldsOk(s) && Uses(s, a, f) && Uses(s, b, g) && WordAt(s.h, a, f) == WordAt(s.h, b, g)
    ensures a == b && f == g
  {
    hide HeapOk, WordAt;
    Own(s, a, f);
    Own(s, b, g);
    if a != b {
      ChunksApart(s.h, a, b);
    }
  }

  // The payload of a live chunk, the prev_foot of the next one included, holds
  // none of them.
  lemma PayloadApart(s: Fields, a: Addr, x: nat, b: Addr, g: Field)
    requires FieldsOk(s) && a in s.h.chunks && a in s.h.heads && s.h.heads[a].cinuse
    requires a + 16 <= x < a + 8 + s.h.heads[a].size && Uses(s, b, g)
    ensures x < WordAt(s.h, b, g) || WordAt(s.h, b, g) + 8 <= x
  {
    hide HeapOk;
    Own(s, b, g);
    LiveNotListed(s, a);
    if a != b {
      ChunksApart(s.h, a, b);
    }
  }

  lemma LiveNotListed(s: Fields, a: Addr)
    requires FieldsOk(s) && a in s.h.heads && s.h.heads[a].cinuse
    ensures a !in s.small && a !in s.large
  {
    assert a in s.small || a in s.large ==> ListedOk(s, a);
  }

  // ----- one memory -----

  // The memory has every field where it lies.
  ghost predicate Holds(w: map<nat, Word>, s: Fields)
    requires FieldsOk(s)
  {
    forall a: Addr, f {:trigger Uses(s, a, f)} :: Uses(s, a, f) ==> WordAt(s.h, a, f) in w && w[WordAt(s.h, a, f)] == ValueOf(s, a, f)
  }

  // Some of them written, in this order.
  ghost function Written(w: map<nat, Word>, s: Fields, changed: seq<(Addr, Field)>): map<nat, Word>
    requires FieldsOk(s) && forall c: (Addr, Field) :: c in changed ==> Uses(s, c.0, c.1)
  {
    if changed == [] then w
    else
      var c := changed[|changed| - 1];
      assert c in changed && Uses(s, c.0, c.1) && c.0 in s.h.heads;
      Written(w, s, changed[..|changed| - 1])[WordAt(s.h, c.0, c.1) := ValueOf(s, c.0, c.1)]
  }

  lemma {:induction false} WrittenAt(w: map<nat, Word>, s: Fields, changed: seq<(Addr, Field)>, a: Addr, f: Field)
    requires FieldsOk(s) && (forall c: (Addr, Field) :: c in changed ==> Uses(s, c.0, c.1)) && Uses(s, a, f)
    ensures var x, out := WordAt(s.h, a, f), Written(w, s, changed);
      && ((a, f) in changed ==> x in out && out[x] == ValueOf(s, a, f))
      && ((a, f) !in changed && x in w ==> x in out && out[x] == w[x])
  {
    hide FieldsOk, Uses, WordAt, ValueOf;
    if changed != [] {
      var c := changed[|changed| - 1];
      WrittenAt(w, s, changed[..|changed| - 1], a, f);
      assert changed == changed[..|changed| - 1] + [c];
      if WordAt(s.h, c.0, c.1) == WordAt(s.h, a, f) {
        WordsApart(s, c.0, c.1, a, f);
      }
    }
  }

  lemma {:induction false} WrittenElsewhere(w: map<nat, Word>, s: Fields, changed: seq<(Addr, Field)>, x: nat)
    requires FieldsOk(s) && forall c: (Addr, Field) :: c in changed ==> Uses(s, c.0, c.1) && WordAt(s.h, c.0, c.1) != x
    ensures x in Written(w, s, changed) <==> x in w
    ensures x in w ==> Written(w, s, changed)[x] == w[x]
  {
    hide FieldsOk, Uses, WordAt, ValueOf;
    if changed != [] {
      assert changed == changed[..|changed| - 1] + [changed[|changed| - 1]];
      WrittenElsewhere(w, s, changed[..|changed| - 1], x);
    }
  }

  // The field is what and where it was.
  ghost predicate Same(s: Fields, s': Fields, a: Addr, f: Field)
    requires FieldsOk(s) && FieldsOk(s') && Uses(s', a, f)
  {
    Uses(s, a, f) && WordAt(s'.h, a, f) == WordAt(s.h, a, f) && ValueOf(s', a, f) == ValueOf(s, a, f)
  }

  // A step between two heaps that are whole is done by writing the fields that
  // changed, in any order, and reaches the payload of no live chunk: separate
  // maps and one memory tell the same story.
  lemma StepInOneMemory(w: map<nat, Word>, s: Fields, s': Fields, changed: seq<(Addr, Field)>)
    requires FieldsOk(s) && FieldsOk(s') && Holds(w, s)
    requires forall c: (Addr, Field) :: c in changed ==> Uses(s', c.0, c.1)
    requires forall a: Addr, f {:trigger Uses(s', a, f)} :: Uses(s', a, f) && (a, f) !in changed ==> Same(s, s', a, f)
    ensures Holds(Written(w, s', changed), s')
    ensures forall a: Addr, x :: a in s'.h.chunks && a in s'.h.heads && s'.h.heads[a].cinuse && a + 16 <= x < a + 8 + s'.h.heads[a].size ==>
      (x in Written(w, s', changed) <==> x in w) && (x in w ==> Written(w, s', changed)[x] == w[x])
  {
    hide FieldsOk, WordAt, ValueOf, Written, Uses;
    forall a: Addr, f {:trigger Uses(s', a, f)} | Uses(s', a, f)
      ensures WordAt(s'.h, a, f) in Written(w, s', changed) && Written(w, s', changed)[WordAt(s'.h, a, f)] == ValueOf(s', a, f)
    {
      WrittenAt(w, s', changed, a, f);
    }
    forall a: Addr, x | a in s'.h.chunks && a in s'.h.heads && s'.h.heads[a].cinuse && a + 16 <= x < a + 8 + s'.h.heads[a].size
      ensures (x in Written(w, s', changed) <==> x in w) && (x in w ==> Written(w, s', changed)[x] == w[x])
    {
      forall c | c in changed ensures WordAt(s'.h, c.0, c.1) != x {
        PayloadApart(s', a, x, c.0, c.1);
      }
      WrittenElsewhere(w, s', changed, x);
    }
  }

  // Every heap that is whole has its memory.
  lemma MemoryExists(s: Fields) returns (w: map<nat, Word>)
    requires FieldsOk(s)
    ensures Holds(w, s)
  {
    var all := set a, f | a in s.h.chunks && f in {HeadField, Foot, Fd, Bk, Child0, Child1, ParentField, IndexField} && Uses(s, a, f) :: (a, f);
    var fields := Listing(all);
    w := Written(map[], s, fields);
    forall a: Addr, f {:trigger Uses(s, a, f)} | Uses(s, a, f)
      ensures WordAt(s.h, a, f) in w && w[WordAt(s.h, a, f)] == ValueOf(s, a, f)
    {
      assert (a, f) in all;
      WrittenAt(map[], s, fields, a, f);
    }
  }

  lemma Listing<T>(all: set<T>) returns (q: seq<T>)
    ensures forall x :: x in q <==> x in all
  {
    q := [];
    if all != {} {
      var x :| x in all;
      var rest := Listing(all - {x});
      q := [x] + rest;
    }
  }

  // ----- the fields of an mspace -----

  ghost function FieldsOf(ms: Mspace): Fields
    reads ms, ms.small, ms.large
  {
    Fields(ms.Layout(), ms.small.links, set c | c in ms.small.Contents() :: c.0, ms.large.mem, set c | c in ms.large.Contents() :: c.0)
  }

  lemma SmallInMemory(small: SmallBins, c: (Addr, nat))
    requires small.Valid() && c in small.Contents()
    ensures Chunk(c.0) in small.links
  {
    var i := SmallIndex(c.1);
    var k :| 0 <= k < |small.lists[i]| && small.lists[i][k] == c.0;
    assert Circle(small.links, Around(i, small.lists[i]));
    assert LinkAt(small.links, Around(i, small.lists[i]), k + 1);
  }

  lemma LargeInMemory(large: TreeBins, c: (Addr, nat))
    requires large.Valid() && c in large.Contents()
    ensures c.0 in large.mem
  {
    hide Stored, Ok, Separate, SizesFit;
    var i :| 0 <= i < |large.trees| && c in Chunks(large.trees[i]);
    ChunksAgree(large.trees[i]);
    large.Known(i);
    StoredInMemory(large.mem, i, large.bins[i], large.trees[i], BinSlot);
  }

  // It is whole between two calls, and while one free chunk is out of the bins.
  lemma FieldsOfOk(ms: Mspace)
    requires ms.small.Valid() && ms.large.Valid() && HeapOk(ms.Layout()) && ms.Binned() <= ms.FreeSet()
    requires forall c :: c in ms.Binned() ==> c.0 != ms.top
    ensures FieldsOk(FieldsOf(ms))
  {
    hide HeapOk, ListsOk, BinsLinked, BinsOk, Listed, AllChunks;
    var s := FieldsOf(ms);
    ms.BinnedIs();
    ms.SizesApart();
    forall a {:trigger ListedOk(s, a)} | a in s.small || a in s.large
      ensures ListedOk(s, a) && !(a in s.small && a in s.large)
    {
      if a in s.small {
        var c :| c in ms.small.Contents() && c.0 == a;
        SmallInMemory(ms.small, c);
        assert c in ms.Binned();
      }
      if a in s.large {
        var c :| c in ms.large.Contents() && c.0 == a;
        LargeInMemory(ms.large, c);
        assert c in ms.Binned();
      }
    }
  }

  lemma WholeFields(ms: Mspace)
    requires ms.Valid()
    ensures FieldsOk(FieldsOf(ms))
  {
    hide HeapOk, ListsOk, BinsLinked, BinsOk, Listed, AllChunks;
    TopNotBinned(ms.Layout(), ms.Binned(), {}, ms.dv, ms.dvsize, ms.topsize);
    FieldsOfOk(ms);
  }

  lemma LooseFields(ms: Mspace, c: (Addr, nat))
    requires ms.Loose(c)
    ensures FieldsOk(FieldsOf(ms))
  {
    hide HeapOk, ListsOk, BinsLinked, BinsOk, Listed, AllChunks;
    TopNotBinned(ms.Layout(), ms.Binned(), {c}, ms.dv, ms.dvsize, ms.topsize);
    FieldsOfOk(ms);
  }

  lemma TopNotBinned(h: Heap, binned: set<(Addr, nat)>, out: set<(Addr, nat)>, dv: Addr, dvsize: nat, topsize: nat)
    requires Accounted(FreeChunks(h) - out, binned, dv, dvsize, h.top, topsize)
    ensures binned <= FreeChunks(h) && forall c :: c in binned ==> c.0 != h.top
  {
    assert (h.top, topsize) in FreeChunks(h);
  }
}
