// The small bins of a malloc_state: 32 circular lists of free chunks, one size
// each, linked through the chunks and the head of the bin, and their bitmap.
module SmallBinsModule {
  import opened Bits
  import opened Collections
  import opened Trie
  import TrieMemory

  const NSMALLBINS: nat := 32
  // small_index
  function SmallIndex(size: nat): nat {
    size / 8
  }

  // small_index2size
  function BinSize(i: nat): (size: nat)
    ensures SmallIndex(size) == i && size % 8 == 0
  {
    8 * i
  }

  predicate IsSmall(size: nat): (small: bool)
    ensures small <==> size < 256
  {
    SmallIndex(size) < NSMALLBINS
  }

  ghost predicate ListsOk(lists: seq<seq<Addr>>, smallmap: Word) {
    && |lists| == NSMALLBINS
    && forall i :: 0 <= i < NSMALLBINS ==> NoDup(lists[i]) && (smallmap[i] <==> lists[i] != [])
  }

  ghost function Listed(lists: seq<seq<Addr>>): (chunks: set<(Addr, nat)>)
    ensures forall c :: c in chunks <==>
      c.1 % 8 == 0 && SmallIndex(c.1) < |lists| && c.0 in lists[SmallIndex(c.1)]
  {
    set i, a | 0 <= i < |lists| && a in lists[i] :: (a, BinSize(i))
  }

  lemma ListedGrows(lists: seq<seq<Addr>>, i: nat, p: Addr)
    requires i < |lists|
    ensures Listed(lists[i := [p] + lists[i]]) == Listed(lists) + {(p, BinSize(i))}
  {
  }

  lemma ListedShrinks(lists: seq<seq<Addr>>, i: nat, k: nat)
    requires i < |lists| && k < |lists[i]| && NoDup(lists[i])
    ensures var out := lists[i][..k] + lists[i][k + 1..];
      && NoDup(out)
      && Listed(lists[i := out]) == Listed(lists) - {(lists[i][k], BinSize(i))}
  {
    var list := lists[i];
    assert list == list[..k] + [list[k]] + list[k + 1..];
  }

  // ----- circular lists in memory -----

  // What fd and bk point to: the head of a bin or a chunk.
  datatype Node = BinHead(i: nat) | Chunk(a: Addr)

  datatype Links = Links(fd: Node, bk: Node)

  type LinkMemory = map<Node, Links>

  ghost predicate LinkAt(mem: LinkMemory, r: seq<Node>, k: nat)
    requires k < |r|
  {
    r[k] in mem && mem[r[k]] == Links(r[TrieMemory.Next(k, |r|)], r[TrieMemory.Prev(k, |r|)])
  }

  // The nodes, each linked to the next one and to the one before it.
  ghost predicate Circle(mem: LinkMemory, r: seq<Node>) {
    NoDup(r) && forall k :: 0 <= k < |r| ==> LinkAt(mem, r, k)
  }

  function Nodes(list: seq<Addr>): (r: seq<Node>)
    ensures |r| == |list| && forall k :: 0 <= k < |list| ==> r[k] == Chunk(list[k])
  {
    seq(|list|, k requires 0 <= k < |list| => Chunk(list[k]))
  }

  function Around(i: nat, list: seq<Addr>): (r: seq<Node>)
    ensures |r| == |list| + 1 && r[0] == BinHead(i) && forall k :: 1 <= k <= |list| ==> r[k] == Chunk(list[k - 1])
  {
    [BinHead(i)] + Nodes(list)
  }

  lemma AroundDistinct(i: nat, list: seq<Addr>)
    requires NoDup(list)
    ensures NoDup(Around(i, list))
  {
  }

  // B->fd = P; F->bk = P; P->fd = F; P->bk = B
  function LinkedIn(mem: LinkMemory, b: Node, f: Node, p: Node): LinkMemory
    requires b in mem && f in mem
  {
    var m := mem[b := mem[b].(fd := p)];
    var m' := m[f := m[f].(bk := p)];
    m'[p := Links(f, b)]
  }

  // F->bk = B; B->fd = F
  function LinkedOut(mem: LinkMemory, b: Node, f: Node): LinkMemory
    requires b in mem && f in mem
  {
    var m := mem[f := mem[f].(bk := b)];
    m[b := m[b].(fd := f)]
  }

  // A node behind the head; the head of an empty bin is not looked at.
  lemma LinkedCircle(mem: LinkMemory, r: seq<Node>, p: Node)
    requires r != [] && p !in r && NoDup(r) && r[0] in mem && (|r| > 1 ==> Circle(mem, r))
    ensures r[TrieMemory.Next(0, |r|)] in mem
    ensures Circle(LinkedIn(mem, r[0], r[TrieMemory.Next(0, |r|)], p), [r[0], p] + r[1..])
  {
    assert forall k :: 0 <= k < |r| ==> r[k] in r;
    assert |r| > 1 ==> LinkAt(mem, r, 0) && LinkAt(mem, r, 1);
    var out, m := [r[0], p] + r[1..], LinkedIn(mem, r[0], r[TrieMemory.Next(0, |r|)], p);
    forall k | 0 <= k < |out|
      ensures LinkAt(m, out, k)
    {
      if k >= 2 {
        assert out[k] == r[k - 1] && LinkAt(mem, r, k - 1);
      }
    }
  }

  // A node other than the head leaves.
  lemma UnlinkedCircle(mem: LinkMemory, r: seq<Node>, i: nat)
    requires Circle(mem, r) && 0 < i < |r| && |r| > 2
    ensures r[i] in mem && mem[r[i]] == Links(r[TrieMemory.Next(i, |r|)], r[i - 1]) && mem[r[i]].fd in mem && mem[r[i]].bk in mem && mem[r[i]].fd != mem[r[i]].bk
    ensures Circle(LinkedOut(mem, mem[r[i]].bk, mem[r[i]].fd), r[..i] + r[i + 1..])
  {
    hide LinkedOut, LinkAt;
    var out := r[..i] + r[i + 1..];
    NodesAround(mem, r, i);
    forall k | 0 <= k < |out|
      ensures LinkAt(LinkedOut(mem, mem[r[i]].bk, mem[r[i]].fd), out, k)
    {
      UnlinkedAt(mem, r, i, k);
    }
  }

  lemma NodesAround(mem: LinkMemory, r: seq<Node>, i: nat)
    requires Circle(mem, r) && 0 < i < |r| && |r| > 2
    ensures r[i] in mem && mem[r[i]] == Links(r[TrieMemory.Next(i, |r|)], r[i - 1]) && mem[r[i]].fd in mem && mem[r[i]].bk in mem && mem[r[i]].fd != mem[r[i]].bk
  {
    assert LinkAt(mem, r, i) && LinkAt(mem, r, TrieMemory.Next(i, |r|)) && LinkAt(mem, r, i - 1);
  }

  lemma UnlinkedAt(mem: LinkMemory, r: seq<Node>, i: nat, k: nat)
    requires Circle(mem, r) && 0 < i < |r| && |r| > 2 && k < |r| - 1
    requires r[i] in mem && mem[r[i]] == Links(r[TrieMemory.Next(i, |r|)], r[i - 1]) && mem[r[i]].fd in mem && mem[r[i]].bk in mem
    ensures LinkAt(LinkedOut(mem, mem[r[i]].bk, mem[r[i]].fd), r[..i] + r[i + 1..], k)
  {
    var j := if k < i then k else k + 1;
    assert (r[..i] + r[i + 1..])[k] == r[j] && LinkAt(mem, r, j);
  }

  lemma CircleKept(mem: LinkMemory, mem': LinkMemory, r: seq<Node>)
    requires Circle(mem, r) && forall x :: x in r ==> x in mem' && x in mem && mem'[x] == mem[x]
    ensures Circle(mem', r)
  {
    forall k | 0 <= k < |r|
      ensures LinkAt(mem', r, k)
    {
      assert LinkAt(mem, r, k) && r[k] in r;
    }
  }

  // No chunk is in two bins.
  ghost predicate BinsApart(lists: seq<seq<Addr>>) {
    forall i, j, a :: 0 <= i < |lists| && 0 <= j < |lists| && a in lists[i] && a in lists[j] ==> i == j
  }

  // The bins that are marked are circles; the links of the head of another one
  // are whatever they were left.
  ghost predicate BinsLinked(lists: seq<seq<Addr>>, links: LinkMemory) {
    && BinsApart(lists)
    && (forall i: nat :: i < |lists| ==> BinHead(i) in links)
    && forall i: nat {:trigger Around(i, lists[i])} :: i < |lists| && lists[i] != [] ==> Circle(links, Around(i, lists[i]))
  }

  // Only nodes of the bin have other links.
  ghost predicate SameBut(links: LinkMemory, links': LinkMemory, i: nat, was: seq<Addr>, list: seq<Addr>) {
    && BinHead(i) in links'
    && forall x :: x in links && x != BinHead(i) && (x.Chunk? ==> x.a !in was && x.a !in list) ==> x in links' && links'[x] == links[x]
  }

  // One bin changes, and with it the links of its own nodes.
  lemma OneBinLinked(lists: seq<seq<Addr>>, links: LinkMemory, links': LinkMemory, i: nat, list: seq<Addr>)
    requires BinsLinked(lists, links) && i < |lists| && SameBut(links, links', i, lists[i], list)
    requires forall a, j :: a in list && 0 <= j < |lists| && j != i ==> a !in lists[j]
    requires list != [] ==> Circle(links', Around(i, list))
    ensures BinsLinked(lists[i := list], links')
  {
    var lists' := lists[i := list];
    forall j: nat {:trigger Around(j, lists'[j])} | j < |lists'| && lists'[j] != []
      ensures Circle(links', Around(j, lists'[j]))
    {
      if j != i {
        assert Circle(links, Around(j, lists[j]));
        forall x | x in Around(j, lists[j])
          ensures x in links && x in links' && links'[x] == links[x]
        {
          var k :| 0 <= k < |Around(j, lists[j])| && Around(j, lists[j])[k] == x;
          assert LinkAt(links, Around(j, lists[j]), k);
          assert x.Chunk? ==> x.a in lists[j];
        }
        CircleKept(links, links', Around(j, lists[j]));
      }
    }
  }

  class SmallBins {
    var links: LinkMemory
    var smallmap: Word
    ghost var lists: seq<seq<Addr>>

    ghost predicate Valid()
      reads this
    {
      ListsOk(lists, smallmap) && BinsLinked(lists, links)
    }

    ghost function Contents(): set<(Addr, nat)>
      reads this
    {
      Listed(lists)
    }

    constructor ()
      ensures Valid() && Contents() == {}
    {
      lists := seq(NSMALLBINS, _ => []);
      links := map i: nat | i < NSMALLBINS :: BinHead(i) := Links(BinHead(i), BinHead(i));
      smallmap := ZERO;
    }

    // insert_small_chunk: to the front of the list of its size.
    method InsertSmallChunk(p: Addr, size: nat)
      requires Valid() && IsSmall(size) && size % 8 == 0 && forall s :: (p, s) !in Contents()
      modifies this
      ensures Valid() && Contents() == old(Contents()) + {(p, size)}
      ensures lists == old(lists)[SmallIndex(size) := [p] + old(lists[SmallIndex(size)])]
    {
      hide *;
      var i := SmallIndex(size);
      ValidIs();
      InsertReady(lists, smallmap, links, size);
      var b := BinHead(i);
      var f := b;
      if !smallmap[i] {
        smallmap := Mark(smallmap, i);
      } else {
        f := links[b].fd;
      }
      Inserted(lists, old(smallmap), smallmap, links, f, p, size);
      links := LinkedIn(links, b, f, Chunk(p));
      lists := lists[i := [p] + lists[i]];
      ValidIs();
    }

    // unlink_first_small_chunk
    method UnlinkFirstSmallChunk(i: nat) returns (p: Addr)
      requires Valid() && i < NSMALLBINS && smallmap[i]
      modifies this
      ensures Valid() && (p, BinSize(i)) in old(Contents())
      ensures Contents() == old(Contents()) - {(p, BinSize(i))}
    {
      hide *;
      ValidIs();
      FirstOf(lists, smallmap, links, i);
      var b := BinHead(i);
      p := links[b].fd.a;
      UnlinkReady(lists, smallmap, links, i, 0);
      var f := links[Chunk(p)].fd;
      if b == f {
        smallmap := Clear(smallmap, i);
      } else {
        links := LinkedOut(links, b, f);
      }
      lists := lists[i := lists[i][..0] + lists[i][1..]];
      ValidIs();
    }

    // unlink_small_chunk: a chunk anywhere in its list.
    method UnlinkSmallChunk(p: Addr, size: nat)
      requires Valid() && (p, size) in Contents()
      modifies this
      ensures Valid() && Contents() == old(Contents()) - {(p, size)}
    {
      hide *;
      ValidIs();
      ghost var k := PlaceOfChunk(lists, smallmap, p, size);
      var i := SmallIndex(size);
      UnlinkReady(lists, smallmap, links, i, k);
      var f, b := links[Chunk(p)].fd, links[Chunk(p)].bk;
      if f == b {
        smallmap := Clear(smallmap, i);
      } else {
        links := LinkedOut(links, b, f);
      }
      lists := lists[i := lists[i][..k] + lists[i][k + 1..]];
      ValidIs();
    }

    lemma ValidIs()
      ensures Valid() <==> ListsOk(lists, smallmap) && BinsLinked(lists, links)
      ensures Contents() == Listed(lists)
    {
      hide ListsOk, BinsLinked;
    }
  }

  lemma InsertReady(lists: seq<seq<Addr>>, smallmap: Word, links: LinkMemory, size: nat)
    requires ListsOk(lists, smallmap) && BinsLinked(lists, links) && IsSmall(size)
    ensures var i := SmallIndex(size);
      && i < |lists| == NSMALLBINS == |smallmap| && BinHead(i) in links && (!smallmap[i] <==> lists[i] == [])
  {
  }

  lemma Inserted(lists: seq<seq<Addr>>, smallmap: Word, smallmap': Word, links: LinkMemory, f: Node, p: Addr, size: nat)
    requires ListsOk(lists, smallmap) && BinsLinked(lists, links) && IsSmall(size) && size % 8 == 0
    requires forall s :: (p, s) !in Listed(lists)
    requires var i := SmallIndex(size);
      && i < |smallmap| && BinHead(i) in links
      && smallmap' == (if smallmap[i] then smallmap else Mark(smallmap, i)) && f == if smallmap[i] then links[BinHead(i)].fd else BinHead(i)
    ensures var i := SmallIndex(size);
      && i < |lists| && f in links
      && ListsOk(lists[i := [p] + lists[i]], smallmap') && BinsLinked(lists[i := [p] + lists[i]], LinkedIn(links, BinHead(i), f, Chunk(p)))
      && Listed(lists[i := [p] + lists[i]]) == Listed(lists) + {(p, size)}
  {
    hide *;
    InsertReady(lists, smallmap, links, size);
    InsertedLists(lists, smallmap, p, size);
    InNoList(lists, p);
    InsertedLinks(lists, links, SmallIndex(size), f, p);
  }

  lemma InsertedLists(lists: seq<seq<Addr>>, smallmap: Word, p: Addr, size: nat)
    requires ListsOk(lists, smallmap) && IsSmall(size) && size % 8 == 0 && forall s :: (p, s) !in Listed(lists)
    ensures var i := SmallIndex(size);
      && i < |lists| && i < |smallmap| && NoDup(lists[i])
      && ListsOk(lists[i := [p] + lists[i]], if smallmap[i] then smallmap else Mark(smallmap, i))
      && Listed(lists[i := [p] + lists[i]]) == Listed(lists) + {(p, size)}
  {
    InNoList(lists, p);
    ListedGrows(lists, SmallIndex(size), p);
  }

  lemma InsertedLinks(lists: seq<seq<Addr>>, links: LinkMemory, i: nat, f: Node, p: Addr)
    requires BinsLinked(lists, links) && i < |lists| && NoDup(lists[i]) && forall j :: 0 <= j < |lists| ==> p !in lists[j]
    requires BinHead(i) in links && f == if lists[i] != [] then links[BinHead(i)].fd else BinHead(i)
    ensures f in links && BinsLinked(lists[i := [p] + lists[i]], LinkedIn(links, BinHead(i), f, Chunk(p)))
  {
    hide Circle, LinkedIn, NoDup, SameBut;
    var r := Around(i, lists[i]);
    AroundDistinct(i, lists[i]);
    if lists[i] != [] { HeadLinks(links, r); }
    LinkedCircle(links, r, Chunk(p));
    assert [r[0], Chunk(p)] + r[1..] == Around(i, [p] + lists[i]);
    if f.Chunk? { assert f == r[1] && f.a in lists[i]; }
    InsertedElsewhere(links, i, lists[i], f, p);
    OneBinLinked(lists, links, LinkedIn(links, BinHead(i), f, Chunk(p)), i, [p] + lists[i]);
  }

  lemma InsertedElsewhere(links: LinkMemory, i: nat, was: seq<Addr>, f: Node, p: Addr)
    requires BinHead(i) in links && f in links && (f == BinHead(i) || (f.Chunk? && f.a in was))
    ensures SameBut(links, LinkedIn(links, BinHead(i), f, Chunk(p)), i, was, [p] + was)
  {
    hide LinkedIn;
    LinkedElsewhere(links, BinHead(i), f, Chunk(p));
    assert p in [p] + was;
  }

  lemma InNoList(lists: seq<seq<Addr>>, p: Addr)
    requires forall s :: (p, s) !in Listed(lists)
    ensures forall j :: 0 <= j < |lists| ==> p !in lists[j]
  {
    forall j | 0 <= j < |lists|
      ensures p !in lists[j]
    {
      assert (p, BinSize(j)) !in Listed(lists);
    }
  }

  lemma HeadLinks(mem: LinkMemory, r: seq<Node>)
    requires Circle(mem, r) && |r| > 1
    ensures r[0] in mem && mem[r[0]].fd == r[1]
  {
    assert LinkAt(mem, r, 0);
  }

  lemma LinkedElsewhere(mem: LinkMemory, b: Node, f: Node, p: Node)
    requires b in mem && f in mem
    ensures forall x :: x in mem && x != b && x != f && x != p ==> x in LinkedIn(mem, b, f, p) && LinkedIn(mem, b, f, p)[x] == mem[x]
    ensures b in LinkedIn(mem, b, f, p)
    ensures forall x :: x in mem && x != b && x != f ==> x in LinkedOut(mem, b, f) && LinkedOut(mem, b, f)[x] == mem[x]
    ensures forall x :: x in mem ==> x in LinkedOut(mem, b, f)
  {
  }

  // A chunk leaves its bin, the first one or any other.
  lemma UnlinkReady(lists: seq<seq<Addr>>, smallmap: Word, links: LinkMemory, i: nat, k: nat)
    requires ListsOk(lists, smallmap) && BinsLinked(lists, links) && i < |lists| && k < |lists[i]|
    ensures var p, out := lists[i][k], lists[i := lists[i][..k] + lists[i][k + 1..]];
      && Chunk(p) in links && i < |smallmap|
      && (links[Chunk(p)].fd == links[Chunk(p)].bk <==> |lists[i]| == 1)
      && (k == 0 ==> links[Chunk(p)].bk == BinHead(i))
      && links[Chunk(p)].fd in links && links[Chunk(p)].bk in links
      && (|lists[i]| == 1 ==> ListsOk(out, Clear(smallmap, i)) && BinsLinked(out, links))
      && (|lists[i]| > 1 ==> ListsOk(out, smallmap) && BinsLinked(out, LinkedOut(links, links[Chunk(p)].bk, links[Chunk(p)].fd)))
      && Listed(out) == Listed(lists) - {(p, BinSize(i))} && (p, BinSize(i)) in Listed(lists)
  {
    hide *;
    UnlinkLists(lists, smallmap, i, k);
    UnlinkLinks(lists, links, i, k);
  }

  lemma UnlinkLists(lists: seq<seq<Addr>>, smallmap: Word, i: nat, k: nat)
    requires ListsOk(lists, smallmap) && i < |lists| && k < |lists[i]|
    ensures var p, out := lists[i][k], lists[i := lists[i][..k] + lists[i][k + 1..]];
      && i < |smallmap| && ListsOk(out, if |lists[i]| == 1 then Clear(smallmap, i) else smallmap)
      && Listed(out) == Listed(lists) - {(p, BinSize(i))} && (p, BinSize(i)) in Listed(lists) && NoDup(lists[i])
  {
    ListedShrinks(lists, i, k);
  }

  lemma UnlinkLinks(lists: seq<seq<Addr>>, links: LinkMemory, i: nat, k: nat)
    requires BinsLinked(lists, links) && i < |lists| && k < |lists[i]| && NoDup(lists[i])
    ensures var p, out := lists[i][k], lists[i := lists[i][..k] + lists[i][k + 1..]];
      && Chunk(p) in links
      && (links[Chunk(p)].fd == links[Chunk(p)].bk <==> |lists[i]| == 1)
      && (k == 0 ==> links[Chunk(p)].bk == BinHead(i))
      && links[Chunk(p)].fd in links && links[Chunk(p)].bk in links
      && BinsLinked(out, if |lists[i]| == 1 then links else LinkedOut(links, links[Chunk(p)].bk, links[Chunk(p)].fd))
  {
    hide Circle, LinkedOut, NoDup;
    var list, p := lists[i], lists[i][k];
    var r := Around(i, list);
    assert r[k + 1] == Chunk(p);
    Neighbours(links, r, k + 1);
    if |list| == 1 {
      BinEmptied(lists, links, i);
    } else {
      BinShortened(lists, links, i, k);
    }
  }

  lemma BinEmptied(lists: seq<seq<Addr>>, links: LinkMemory, i: nat)
    requires BinsLinked(lists, links) && i < |lists| && |lists[i]| == 1
    ensures BinsLinked(lists[i := lists[i][..0] + lists[i][1..]], links)
  {
    hide Circle;
    OneBinLinked(lists, links, links, i, lists[i][..0] + lists[i][1..]);
  }

  lemma BinShortened(lists: seq<seq<Addr>>, links: LinkMemory, i: nat, k: nat)
    requires BinsLinked(lists, links) && i < |lists| && k < |lists[i]| && |lists[i]| > 1 && NoDup(lists[i])
    requires var p := Chunk(lists[i][k]);
      && p in links && links[p].fd in links && links[p].bk in links
      && links[p].fd in Around(i, lists[i]) && links[p].bk in Around(i, lists[i])
    ensures var p := Chunk(lists[i][k]);
      BinsLinked(lists[i := lists[i][..k] + lists[i][k + 1..]], LinkedOut(links, links[p].bk, links[p].fd))
  {
    hide *;
    var list, p := lists[i], Chunk(lists[i][k]);
    var out, r := list[..k] + list[k + 1..], Around(i, lists[i]);
    CircleOf(lists, links, i);
    UnlinkedCircle(links, r, k + 1);
    AroundWithout(i, list, k);
    InAround(i, list, links[p].bk);
    InAround(i, list, links[p].fd);
    StillApart(lists, links, i, out);
    RemovedElsewhere(links, i, list, out, links[p].bk, links[p].fd);
    OneBinLinked(lists, links, LinkedOut(links, links[p].bk, links[p].fd), i, out);
  }

  lemma CircleOf(lists: seq<seq<Addr>>, links: LinkMemory, i: nat)
    requires BinsLinked(lists, links) && i < |lists|
    ensures BinHead(i) in links && (lists[i] != [] ==> Circle(links, Around(i, lists[i])))
  {
    hide Circle;
  }

  lemma AroundWithout(i: nat, list: seq<Addr>, k: nat)
    requires k < |list|
    ensures Around(i, list)[..k + 1] + Around(i, list)[k + 2..] == Around(i, list[..k] + list[k + 1..])
  {
  }

  lemma StillApart(lists: seq<seq<Addr>>, links: LinkMemory, i: nat, out: seq<Addr>)
    requires BinsLinked(lists, links) && i < |lists| && forall a :: a in out ==> a in lists[i]
    ensures forall a, j :: a in out && 0 <= j < |lists| && j != i ==> a !in lists[j]
  {
    hide Circle;
  }

  lemma RemovedElsewhere(links: LinkMemory, i: nat, was: seq<Addr>, list: seq<Addr>, b: Node, f: Node)
    requires b in links && f in links && BinHead(i) in links
    requires b == BinHead(i) || (b.Chunk? && b.a in was)
    requires f == BinHead(i) || (f.Chunk? && f.a in was)
    ensures SameBut(links, LinkedOut(links, b, f), i, was, list)
  {
    hide LinkedOut;
    LinkedElsewhere(links, b, f, b);
  }

  lemma InAround(i: nat, list: seq<Addr>, x: Node)
    requires x in Around(i, list)
    ensures x == BinHead(i) || (x.Chunk? && x.a in list)
  {
  }

  lemma Neighbours(mem: LinkMemory, r: seq<Node>, k: nat)
    requires Circle(mem, r) && 0 < k < |r|
    ensures r[k] in mem && mem[r[k]].fd == r[TrieMemory.Next(k, |r|)] && mem[r[k]].bk == r[k - 1]
    ensures mem[r[k]].fd in mem && mem[r[k]].bk in mem && mem[r[k]].fd in r && mem[r[k]].bk in r && (mem[r[k]].fd == mem[r[k]].bk <==> |r| == 2)
  {
    assert LinkAt(mem, r, k) && LinkAt(mem, r, k - 1) && LinkAt(mem, r, TrieMemory.Next(k, |r|));
  }

  lemma FirstOf(lists: seq<seq<Addr>>, smallmap: Word, links: LinkMemory, i: nat)
    requires ListsOk(lists, smallmap) && BinsLinked(lists, links) && i < NSMALLBINS && smallmap[i]
    ensures i < |lists| && lists[i] != [] && BinHead(i) in links && links[BinHead(i)].fd == Chunk(lists[i][0])
  {
    HeadLinks(links, Around(i, lists[i]));
  }

  lemma PlaceOfChunk(lists: seq<seq<Addr>>, smallmap: Word, p: Addr, size: nat) returns (k: nat)
    requires ListsOk(lists, smallmap) && (p, size) in Listed(lists)
    ensures SmallIndex(size) < |lists| && BinSize(SmallIndex(size)) == size
    ensures k < |lists[SmallIndex(size)]| && lists[SmallIndex(size)][k] == p
  {
    k :| 0 <= k < |lists[SmallIndex(size)]| && lists[SmallIndex(size)][k] == p;
  }
}
