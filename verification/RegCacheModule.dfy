// Regions of registered memory: the slots of the endpoint and the cache that
// keeps single-segment regions registered after their last use (omx_large.c).
module RegCacheModule {
  import opened Collections

  const USER_REGION_MAX: nat := 256

  // Who holds a region: a large send reserves it, a pull only uses it.
  datatype Holder = User | Reserver(request: nat)

  // What a request asks to register: vaddr and len are those of the single
  // segment; a vectorial request has more segments, not looked at here.
  datatype Segments = Segments(nseg: nat, vaddr: nat, len: nat)

  datatype Slot = Slot(nextFree: int, useCount: nat, reserver: Holder, segs: Segments)

  // The chain of free slots and the three lists of the endpoint.
  datatype Lists = Lists(free: seq<nat>, regs: seq<nat>, unused: seq<nat>, vects: seq<nat>)

  datatype Cache = Cache(slots: seq<Slot>, first: int, nrFree: nat, l: Lists,
                         holders: map<nat, multiset<Holder>>, registered: set<nat>)

  ghost predicate LinkAt(slots: seq<Slot>, free: seq<nat>, k: nat)
    requires k < |free|
  {
    free[k] < |slots| && slots[free[k]].nextFree == if k + 1 < |free| then free[k + 1] else -1
  }

  ghost predicate Chained(slots: seq<Slot>, first: int, free: seq<nat>) {
    && first == (if free == [] then -1 else free[0])
    && forall k :: 0 <= k < |free| ==> LinkAt(slots, free, k)
  }

  ghost predicate ListsOk(c: Cache) {
    && |c.slots| == USER_REGION_MAX && c.nrFree == |c.l.free|
    && Chained(c.slots, c.first, c.l.free)
    && NoDup(c.l.free) && NoDup(c.l.regs) && NoDup(c.l.unused) && NoDup(c.l.vects)
    && (forall id :: id in c.l.regs || id in c.l.vects || id in c.l.unused ==> id < USER_REGION_MAX)
    && (forall id :: id in c.holders <==> 0 <= id < USER_REGION_MAX)
  }

  // A slot is free, cached or vectorial; it has as many users as there are
  // holders, at most one of them reserving it; the unused ones are listed.
  ghost predicate SlotOk(c: Cache, cached: bool, id: nat) {
    && id < |c.slots| && id in c.holders
    && var slot := c.slots[id];
       var holders := c.holders[id];
       && (id in c.l.free || id in c.l.regs || id in c.l.vects)
       && !(id in c.l.free && id in c.l.regs) && !(id in c.l.free && id in c.l.vects) && !(id in c.l.regs && id in c.l.vects)
       && (id in c.l.free ==> holders == multiset{})
       && (id !in c.l.free ==> slot.useCount == |holders|)
       && (id !in c.l.free ==> forall x: nat :: holders[Reserver(x)] == if slot.reserver == Reserver(x) then 1 else 0)
       && (id in c.l.regs ==> slot.segs.nseg == 1)
       && (id in c.l.vects ==> slot.segs.nseg > 1 && slot.useCount == 1)
       && (id in c.l.regs && !cached ==> slot.useCount == 1)
       && (id in c.l.unused <==> cached && id in c.l.regs && slot.useCount == 0)
       && (id in c.registered <==> id in c.l.regs || id in c.l.vects)
  }

  ghost predicate OthersOk(c: Cache, cached: bool, id: nat) {
    ListsOk(c) && forall i {:trigger SlotOk(c, cached, i)} :: 0 <= i < USER_REGION_MAX && i != id ==> SlotOk(c, cached, i)
  }

  ghost predicate CacheOk(c: Cache, cached: bool) {
    ListsOk(c) && forall i {:trigger SlotOk(c, cached, i)} :: 0 <= i < USER_REGION_MAX ==> SlotOk(c, cached, i)
  }

  lemma {:induction false} SizeOfSet(q: seq<nat>)
    requires NoDup(q)
    ensures |SetOf(q)| == |q|
  {
    if q != [] {
      var last := q[|q| - 1];
      SizeOfSet(q[..|q| - 1]);
      assert q == q[..|q| - 1] + [last];
      assert SetOf(q) == SetOf(q[..|q| - 1]) + {last};
    }
  }

  lemma {:induction false} SizeOfRange(s: set<nat>, n: nat)
    requires forall i: nat :: i in s <==> i < n
    ensures |s| == n
  {
    if n == 0 {
      assert s == {};
    } else {
      assert n - 1 in s;
      SizeOfRange(s - {n - 1}, n - 1);
    }
  }

  // The free chain, the cached regions and the vectorial ones share out the slots.
  lemma SlotsShared(c: Cache, cached: bool)
    requires CacheOk(c, cached)
    ensures c.nrFree + |c.l.regs| + |c.l.vects| == USER_REGION_MAX
  {
    var free, regs, vects := SetOf(c.l.free), SetOf(c.l.regs), SetOf(c.l.vects);
    SizeOfSet(c.l.free);
    SizeOfSet(c.l.regs);
    SizeOfSet(c.l.vects);
    forall i: nat
      ensures i in free + regs + vects <==> i < USER_REGION_MAX
      ensures !(i in free && i in regs) && !(i in free && i in vects) && !(i in regs && i in vects)
    {
      if i in c.l.free {
        var k :| 0 <= k < |c.l.free| && c.l.free[k] == i;
        assert LinkAt(c.slots, c.l.free, k);
      }
      assert i < USER_REGION_MAX ==> SlotOk(c, cached, i);
    }
    SizeOfRange(free + regs + vects, USER_REGION_MAX);
    assert free !! regs && (free + regs) !! vects;
  }

  // A region has at most one holder who reserves it, and the unused list is
  // exactly the cached regions nobody holds.
  lemma OneReserver(c: Cache, cached: bool, id: nat)
    requires CacheOk(c, cached) && id < USER_REGION_MAX
    ensures forall x: nat, y: nat :: c.holders[id][Reserver(x)] > 0 && c.holders[id][Reserver(y)] > 0 ==> x == y && c.holders[id][Reserver(x)] == 1
    ensures id in c.l.unused <==> cached && id in c.l.regs && c.holders[id] == multiset{}
  {
    hide NoDup, Chained;
    assert SlotOk(c, cached, id);
  }

  // A slot taken out of the free chain and not yet listed anywhere.
  ghost predicate Loose(c: Cache, id: nat) {
    && id < |c.slots| && id in c.holders && c.holders[id] == multiset{} && c.slots[id].useCount == 0
    && id !in c.l.free && id !in c.l.regs && id !in c.l.vects && id !in c.l.unused
  }

  // Nothing about the slots other than id changes.
  ghost predicate SameSlot(c: Cache, d: Cache, i: nat)
    requires i < |c.slots| && i < |d.slots|
  {
    && d.slots[i] == c.slots[i]
    && (i in c.holders <==> i in d.holders) && (i in c.holders ==> d.holders[i] == c.holders[i])
    && (i in d.l.free <==> i in c.l.free) && (i in d.l.regs <==> i in c.l.regs)
    && (i in d.l.unused <==> i in c.l.unused) && (i in d.l.vects <==> i in c.l.vects)
    && (i in d.registered <==> i in c.registered)
  }

  ghost predicate OnlySlot(c: Cache, d: Cache, id: nat) {
    |d.slots| == |c.slots| && forall i {:trigger SameSlot(c, d, i)} :: 0 <= i < |c.slots| && i != id ==> SameSlot(c, d, i)
  }

  lemma OthersKept(c: Cache, d: Cache, cached: bool, id: nat)
    requires OthersOk(c, cached, id) && OnlySlot(c, d, id) && ListsOk(d)
    ensures OthersOk(d, cached, id)
  {
    hide NoDup, Chained;
    forall i {:trigger SlotOk(d, cached, i)} | 0 <= i < USER_REGION_MAX && i != id
      ensures SlotOk(d, cached, i)
    {
      assert SlotOk(c, cached, i) && SameSlot(c, d, i);
    }
  }

  lemma OnlySlotTrans(c: Cache, d: Cache, e: Cache, id: nat)
    requires OnlySlot(c, d, id) && OnlySlot(d, e, id)
    ensures OnlySlot(c, e, id)
  {
    forall i {:trigger SameSlot(c, e, i)} | 0 <= i < |c.slots| && i != id
      ensures SameSlot(c, e, i)
    {
      assert SameSlot(c, d, i) && SameSlot(d, e, i);
    }
  }

  lemma ChainHead(slots: seq<Slot>, first: int, free: seq<nat>, slots': seq<Slot>)
    requires Chained(slots, first, free) && free != [] && NoDup(free) && |slots'| == |slots|
    requires forall id :: 0 <= id < |slots| && id != free[0] ==> slots'[id].nextFree == slots[id].nextFree
    ensures 0 <= first < |slots| && first == free[0] && Chained(slots', slots[first].nextFree, free[1..]) && first !in free[1..]
    ensures NoDup(free[1..])
  {
    assert LinkAt(slots, free, 0);
    forall k | 0 <= k < |free[1..]|
      ensures LinkAt(slots', free[1..], k)
    {
      assert LinkAt(slots, free, k + 1);
    }
  }

  lemma ChainPush(slots: seq<Slot>, first: int, free: seq<nat>, id: nat, slots': seq<Slot>)
    requires Chained(slots, first, free) && id < |slots| && id !in free && |slots'| == |slots|
    requires forall i :: 0 <= i < |slots| && i != id ==> slots'[i].nextFree == slots[i].nextFree
    requires slots'[id].nextFree == first
    ensures Chained(slots', id, [id] + free)
  {
    var free' := [id] + free;
    forall k | 0 <= k < |free'|
      ensures LinkAt(slots', free', k)
    {
      if k > 0 {
        assert LinkAt(slots, free, k - 1);
        assert free[k - 1] in free;
      }
    }
  }

  lemma ChainKept(slots: seq<Slot>, first: int, free: seq<nat>, slots': seq<Slot>)
    requires Chained(slots, first, free) && |slots'| == |slots|
    requires forall i :: 0 <= i < |slots| && i in free ==> slots'[i].nextFree == slots[i].nextFree
    ensures Chained(slots', first, free)
  {
    forall k | 0 <= k < |free|
      ensures LinkAt(slots', free, k)
    {
      assert LinkAt(slots, free, k) && free[k] in free;
    }
  }

  // A slot that is not free gets a new content and new holders.
  lemma Rewritten(c: Cache, cached: bool, id: nat, slot: Slot, holders: multiset<Holder>)
    requires OthersOk(c, cached, id) && id < |c.slots| && id !in c.l.free
    ensures var d := c.(slots := c.slots[id := slot], holders := c.holders[id := holders]);
            OthersOk(d, cached, id) && OnlySlot(c, d, id)
  {
    hide NoDup, Chained;
    var d := c.(slots := c.slots[id := slot], holders := c.holders[id := holders]);
    ChainKept(c.slots, c.first, c.l.free, d.slots);
    OthersKept(c, d, cached, id);
  }

  // One holder less: the count and the reserver follow.
  lemma HolderLess(c: Cache, cached: bool, id: nat, h: Holder, slot: Slot)
    requires CacheOk(c, cached) && id in c.holders && h in c.holders[id] && id < |c.slots|
    requires slot == c.slots[id].(useCount := slot.useCount, reserver := if h.Reserver? then User else c.slots[id].reserver)
    requires slot.useCount + 1 == c.slots[id].useCount
    ensures var holders := c.holders[id] - multiset{h};
            && slot.useCount == |holders|
            && forall x: nat :: holders[Reserver(x)] == if slot.reserver == Reserver(x) then 1 else 0
  {
    hide NoDup, Chained;
    assert SlotOk(c, cached, id);
  }

  lemma HeldSlot(c: Cache, cached: bool, id: nat, h: Holder)
    requires CacheOk(c, cached) && id in c.holders && h in c.holders[id]
    ensures id < |c.slots| == USER_REGION_MAX && id !in c.l.free && c.slots[id].useCount > 0 && OthersOk(c, cached, id)
  {
    hide NoDup, Chained;
    assert SlotOk(c, cached, id);
  }

  // A cached region covers a request for a single segment.
  predicate Covers(cached: Segments, wanted: Segments) {
    cached.vaddr == wanted.vaddr && cached.len >= wanted.len
  }

  // The condition under which the cache reuses a region.
  predicate Reusable(slot: Slot, wanted: Segments, h: Holder, parallel: bool) {
    && (h.User? || slot.reserver.User?)
    && (parallel || slot.useCount == 0)
    && Covers(slot.segs, wanted)
  }

  predicate Intersect(begin1: nat, end1: nat, begin2: nat, end2: nat) {
    var minEnd := if end1 > end2 then end2 else end1;
    var maxBegin := if begin1 > begin2 then begin1 else begin2;
    minEnd > maxBegin
  }

  predicate Holds(begin: nat, end: nat, x: nat) {
    begin <= x < end
  }

  lemma IntersectMeansShared(begin1: nat, end1: nat, begin2: nat, end2: nat)
    ensures Intersect(begin1, end1, begin2, end2) <==> exists x: nat :: Holds(begin1, end1, x) && Holds(begin2, end2, x)
  {
    if Intersect(begin1, end1, begin2, end2) {
      var x := if begin1 > begin2 then begin1 else begin2;
      assert Holds(begin1, end1, x) && Holds(begin2, end2, x);
    }
  }

  // Nobody who holds a region sees it change: it keeps its place and segments.
  ghost predicate HeldKept(c: Cache, d: Cache) {
    |d.slots| == |c.slots| &&
    forall i {:trigger d.slots[i]} :: 0 <= i < |c.slots| && i in c.holders && c.holders[i] != multiset{} ==>
      d.slots[i].segs == c.slots[i].segs && (i in c.l.regs ==> i in d.l.regs) && (i in c.l.vects ==> i in d.l.vects)
  }

  lemma UnheldKept(c: Cache, d: Cache, id: nat)
    requires OnlySlot(c, d, id) && (id in c.holders ==> c.holders[id] == multiset{})
    ensures HeldKept(c, d)
  {
    forall i {:trigger d.slots[i]} | 0 <= i < |c.slots| && i in c.holders && c.holders[i] != multiset{}
      ensures d.slots[i].segs == c.slots[i].segs && (i in c.l.regs ==> i in d.l.regs) && (i in c.l.vects ==> i in d.l.vects)
    {
      assert SameSlot(c, d, i);
    }
  }

  lemma SameSegsKept(c: Cache, d: Cache, id: nat)
    requires OnlySlot(c, d, id) && id < |c.slots| && d.slots[id].segs == c.slots[id].segs
    requires id in c.l.regs ==> id in d.l.regs
    requires id in c.l.vects ==> id in d.l.vects
    ensures HeldKept(c, d)
  {
    forall i {:trigger d.slots[i]} | 0 <= i < |c.slots| && i in c.holders && c.holders[i] != multiset{}
      ensures d.slots[i].segs == c.slots[i].segs && (i in c.l.regs ==> i in d.l.regs) && (i in c.l.vects ==> i in d.l.vects)
    {
      if i != id {
        assert SameSlot(c, d, i);
      }
    }
  }

  ghost predicate AllHeld(c: Cache) {
    forall id :: id in c.holders ==> c.holders[id] != multiset{}
  }

  // With no free slot and no unused region, every slot is held.
  lemma NoneLeft(c: Cache, cached: bool)
    requires CacheOk(c, cached) && c.l.free == [] && (cached ==> c.l.unused == [])
    ensures AllHeld(c)
  {
    hide NoDup, Chained;
    forall id | id in c.holders
      ensures c.holders[id] != multiset{}
    {
      assert SlotOk(c, cached, id);
    }
  }

  ghost predicate HasReusable(c: Cache, cached: bool, wanted: Segments, h: Holder, parallel: bool) {
    cached && exists id :: id in c.l.regs && 0 <= id < |c.slots| && Reusable(c.slots[id], wanted, h, parallel)
  }

  predicate Touches(segs: Segments, begin: nat, end: nat) {
    Intersect(begin, end, segs.vaddr, segs.vaddr + segs.len)
  }

  class RegCache {
    const slots: array<Slot>
    const regcache: bool
    const parallel: bool
    var firstFree: int
    var nrFree: nat
    var regs: seq<nat>
    var unused: seq<nat>
    var vects: seq<nat>
    ghost var free: seq<nat>
    ghost var holders: map<nat, multiset<Holder>>
    ghost var registered: set<nat>

    ghost function Now(): Cache
      reads this, slots
    {
      Cache(slots[..], firstFree, nrFree, Lists(free, regs, unused, vects), holders, registered)
    }

    ghost predicate Valid()
      reads this, slots
    {
      CacheOk(Now(), regcache)
    }

    lemma NowIs()
      ensures Now() == Cache(slots[..], firstFree, nrFree, Lists(free, regs, unused, vects), holders, registered)
      ensures Valid() == CacheOk(Now(), regcache)
    {
    }

    // omx__endpoint_large_region_map_init
    constructor (regcache: bool, parallel: bool)
      ensures Valid() && fresh(slots)
      ensures this.regcache == regcache && this.parallel == parallel
      ensures nrFree == USER_REGION_MAX && registered == {} && forall id :: id in holders ==> holders[id] == multiset{}
    {
      this.regcache, this.parallel := regcache, parallel;
      slots := new Slot[256](i => Slot(if i < 255 then i + 1 else -1, 0, User, Segments(1, 0, 0)));
      firstFree, nrFree := 0, 256;
      regs, unused, vects := [], [], [];
      ghost var all: seq<nat> := seq(256, (i: nat) => i);
      free := all;
      holders := map i | i in SetOf(all) :: multiset{};
      registered := {};
      new;
      assert forall i :: 0 <= i < 256 ==> all[i] == i;
      assert forall i {:trigger i in all} :: 0 <= i < 256 ==> i in all by {
        forall i {:trigger i in all} | 0 <= i < 256
          ensures i in all
        {
          assert all[i] == i;
        }
      }
      forall k | 0 <= k < |free|
        ensures LinkAt(slots[..], free, k)
      {
      }
      forall i {:trigger SlotOk(Now(), regcache, i)} | 0 <= i < USER_REGION_MAX
        ensures SlotOk(Now(), regcache, i)
      {
        assert all[i] == i;
      }
    }

    // omx__endpoint_large_region_try_alloc
    method TryAlloc() returns (ok: bool, id: nat)
      requires Valid()
      modifies this, slots
      ensures ok <==> old(free) != []
      ensures !ok ==> Now() == old(Now())
      ensures ok ==> OthersOk(Now(), regcache, id) && Loose(Now(), id) && OnlySlot(old(Now()), Now(), id)
      ensures ok ==> id in old(free) && regs == old(regs) && vects == old(vects) && unused == old(unused) && registered == old(registered) && id !in registered
      ensures ok ==> holders == old(holders)
    {
      ghost var was := Now();
      if firstFree == -1 {
        return false, 0;
      }
      ok, id := true, firstFree;
      assert LinkAt(was.slots, free, 0);
      assert SlotOk(was, regcache, id);
      var next := slots[firstFree].nextFree;
      slots[firstFree] := slots[firstFree].(useCount := 0);
      ChainHead(was.slots, firstFree, free, slots[..]);
      firstFree, nrFree := next, nrFree - 1;
      free := free[1..];
      OthersKept(was, Now(), regcache, id);
    }

    // omx__endpoint_large_region_free
    method Free(id: nat)
      requires OthersOk(Now(), regcache, id) && Loose(Now(), id) && id !in registered
      modifies this, slots
      ensures Valid() && free == [id] + old(free) && OnlySlot(old(Now()), Now(), id)
      ensures regs == old(regs) && unused == old(unused) && vects == old(vects)
      ensures holders == old(holders) && registered == old(registered)
      ensures slots[id] == old(slots[id]).(nextFree := slots[id].nextFree)
    {
      hide NoDup, Chained;
      ghost var was := Now();
      slots[id] := slots[id].(nextFree := firstFree);
      ChainPush(was.slots, firstFree, free, id, slots[..]);
      AppendNoDup(free, id);
      firstFree, nrFree := id, nrFree + 1;
      free := [id] + free;
      OthersKept(was, Now(), regcache, id);
      assert SlotOk(Now(), regcache, id);
    }

    // omx__destroy_region, of a region nobody holds
    method DestroyRegion(id: nat)
      requires OthersOk(Now(), regcache, id) && id < slots.Length && (id in regs <==> id !in vects)
      requires id !in free && id !in unused
      requires slots[id].useCount == 0 && holders[id] == multiset{}
      modifies this, slots
      ensures Valid() && free == [id] + old(free) && OnlySlot(old(Now()), Now(), id)
      ensures regs == Without(old(regs), id) && vects == Without(old(vects), id) && unused == old(unused)
      ensures holders == old(holders) && registered == old(registered) - {id}
      ensures slots[id] == old(slots[id]).(nextFree := slots[id].nextFree)
    {
      hide NoDup, Chained;
      ghost var was := Now();
      registered := registered - {id};
      WithoutOk(regs, id);
      WithoutOk(vects, id);
      if id in regs {
        WithoutAbsent(vects, id);
        regs := Without(regs, id);
      } else {
        WithoutAbsent(regs, id);
        vects := Without(vects, id);
      }
      OthersKept(was, Now(), regcache, id);
      ghost var mid := Now();
      Free(id);
      OnlySlotTrans(was, mid, Now(), id);
    }

    // omx__endpoint_large_region_alloc: takes a free slot, or else that of the
    // region unused for the longest time.
    method Alloc() returns (ok: bool, id: nat)
      requires Valid()
      modifies this, slots
      ensures ok <==> old(free) != [] || (regcache && old(unused) != [])
      ensures !ok ==> Now() == old(Now()) && AllHeld(Now())
      ensures ok ==> OthersOk(Now(), regcache, id) && Loose(Now(), id) && id !in registered
      ensures ok ==> OnlySlot(old(Now()), Now(), id) && holders == old(holders)
      ensures ok ==> if old(free) != [] then id in old(free) else id == old(unused)[0]
    {
      hide NoDup, Chained;
      ghost var was := Now();
      ok, id := TryAlloc();
      if !ok && regcache && unused != [] {
        var region := unused[0];
        assert region in unused;
        assert SlotOk(was, regcache, region);
        WithoutHead(unused);
        WithoutOk(unused, region);
        unused := unused[1..];
        OthersKept(was, Now(), regcache, region);
        ghost var listed := Now();
        DestroyRegion(region);
        ghost var destroyed := Now();
        OnlySlotTrans(was, listed, destroyed, region);
        assert free == [region];
        ok, id := TryAlloc();
        OnlySlotTrans(was, destroyed, Now(), region);
      } else if ok {
        assert SlotOk(was, regcache, id);
      } else {
        NoneLeft(was, regcache);
      }
    }

    // omx__create_region; granted is the answer of the driver
    method Create(segs: Segments, granted: bool) returns (ok: bool, id: nat)
      requires Valid()
      modifies this, slots
      ensures HeldKept(old(Now()), Now()) && holders == old(holders)
      ensures !ok ==> Valid() && (!granted || AllHeld(Now()))
      ensures ok ==> OthersOk(Now(), regcache, id) && Loose(Now(), id) && OnlySlot(old(Now()), Now(), id) && id in registered
      ensures ok ==> granted && slots[id].segs == segs && slots[id].reserver == User
    {
      hide NoDup, Chained;
      ghost var was := Now();
      ok, id := Alloc();
      if !ok {
        return;
      }
      UnheldKept(was, Now(), id);
      ghost var taken := Now();
      slots[id] := slots[id].(segs := segs);
      ChainKept(taken.slots, firstFree, free, slots[..]);
      OthersKept(taken, Now(), regcache, id);
      OnlySlotTrans(was, taken, Now(), id);
      taken := Now();
      if !granted {
        Free(id);
        OnlySlotTrans(was, taken, Now(), id);
        UnheldKept(was, Now(), id);
        return false, id;
      }
      registered := registered + {id};
      slots[id] := slots[id].(reserver := User);
      ChainKept(taken.slots, firstFree, free, slots[..]);
      OthersKept(taken, Now(), regcache, id);
      OnlySlotTrans(was, taken, Now(), id);
      UnheldKept(was, Now(), id);
    }

    // The part of omx__get_contigous_region that looks for a cached region.
    method FirstReusable(wanted: Segments, h: Holder) returns (found: bool, id: nat)
      requires Valid()
      ensures found <==> HasReusable(Now(), regcache, wanted, h, parallel)
      ensures found ==> id in regs && Reusable(slots[id], wanted, h, parallel)
    {
      hide SlotOk, NoDup, Chained;
      assert forall k :: 0 <= k < |regs| ==> regs[k] in regs;
      for k := 0 to |regs|
        invariant regcache ==> forall j :: 0 <= j < k ==> !Reusable(slots[regs[j]], wanted, h, parallel)
      {
        if regcache && Reusable(slots[regs[k]], wanted, h, parallel) {
          assert slots[..][regs[k]] == slots[regs[k]];
          return true, regs[k];
        }
      }
      found, id := false, 0;
    }

    // One more holder of a cached region.
    method Reuse(id: nat, h: Holder)
      requires Valid() && id in regs && (h.Reserver? ==> slots[id].reserver == User) && regcache
      modifies this, slots
      ensures Valid() && OnlySlot(old(Now()), Now(), id) && regs == old(regs) && registered == old(registered)
      ensures id in old(holders) && holders == old(holders)[id := old(holders)[id] + multiset{h}]
      ensures slots[id].segs == old(slots[id].segs)
    {
      hide NoDup, Chained;
      ghost var was := Now();
      assert SlotOk(was, regcache, id);
      if slots[id].useCount == 0 {
        WithoutOk(unused, id);
        unused := Without(unused, id);
      }
      slots[id] := slots[id].(useCount := slots[id].useCount + 1, reserver := if h.Reserver? then h else slots[id].reserver);
      holders := holders[id := holders[id] + multiset{h}];
      ChainKept(was.slots, firstFree, free, slots[..]);
      OthersKept(was, Now(), regcache, id);
      assert SlotOk(Now(), regcache, id);
    }

    // The end of omx__get_contigous_region and omx__get_vect_region: the first
    // holder of a new region, put on the list for its kind.
    method Enlist(id: nat, h: Holder)
      requires OthersOk(Now(), regcache, id) && Loose(Now(), id) && id in registered
      requires slots[id].reserver == User && slots[id].segs.nseg >= 1
      modifies this, slots
      ensures Valid() && OnlySlot(old(Now()), Now(), id) && registered == old(registered)
      ensures holders == old(holders)[id := multiset{h}]
      ensures slots[id].segs == old(slots[id].segs) && id in if slots[id].segs.nseg == 1 then regs else vects
    {
      hide NoDup, Chained;
      ghost var was := Now();
      if slots[id].segs.nseg == 1 {
        AppendNoDup(regs, id);
        regs := regs + [id];
      } else {
        AppendNoDup(vects, id);
        vects := vects + [id];
      }
      slots[id] := slots[id].(useCount := 1, reserver := h);
      holders := holders[id := multiset{h}];
      ChainKept(was.slots, firstFree, free, slots[..]);
      OthersKept(was, Now(), regcache, id);
      assert SlotOk(Now(), regcache, id);
    }

    // omx__get_region; granted is the answer of the driver, should it be asked.
    // A vectorial region is never taken from the cache.
    method Get(wanted: Segments, h: Holder, granted: bool) returns (ok: bool, id: nat)
      requires Valid() && wanted.nseg >= 1
      modifies this, slots
      ensures Valid() && HeldKept(old(Now()), Now())
      ensures ok ==> id in old(holders) && holders == old(holders)[id := old(holders)[id] + multiset{h}]
      ensures ok && wanted.nseg == 1 ==> id in regs && Covers(slots[id].segs, wanted)
      ensures ok && wanted.nseg > 1 ==> id in vects && slots[id].segs == wanted && old(holders)[id] == multiset{}
      ensures ok && h.Reserver? ==> forall other: nat :: old(holders)[id][Reserver(other)] == 0
      ensures !ok ==> holders == old(holders) && (!granted || AllHeld(Now()))
      ensures wanted.nseg == 1 && HasReusable(old(Now()), regcache, wanted, h, parallel) ==> ok && registered == old(registered)
    {
      hide NoDup, Chained;
      ghost var was := Now();
      var found := false;
      if wanted.nseg == 1 {
        found, id := FirstReusable(wanted, h);
      }
      if found {
        assert SlotOk(was, regcache, id);
        Reuse(id, h);
        ok := true;
        SameSegsKept(was, Now(), id);
      } else {
        ok, id := Create(wanted, granted);
        if ok {
          ghost var created := Now();
          Enlist(id, h);
          OnlySlotTrans(was, created, Now(), id);
          UnheldKept(was, Now(), id);
          assert multiset{} + multiset{h} == multiset{h};
        }
      }
    }

    // The start of omx__put_region: one holder less.
    method Release(id: nat, h: Holder)
      requires Valid() && id in holders && h in holders[id]
      modifies slots, `holders
      ensures OthersOk(Now(), regcache, id) && OnlySlot(old(Now()), Now(), id)
      ensures holders == old(holders)[id := old(holders)[id] - multiset{h}]
      ensures slots[id].segs == old(slots[id].segs) && slots[id].useCount == |holders[id]|
      ensures forall x: nat :: holders[id][Reserver(x)] == if slots[id].reserver == Reserver(x) then 1 else 0
    {
      hide *;
      NowIs();
      ghost var was := Now();
      HeldSlot(was, regcache, id, h);
      holders := holders[id := holders[id] - multiset{h}];
      slots[id] := slots[id].(useCount := slots[id].useCount - 1, reserver := if h.Reserver? then User else slots[id].reserver);
      HolderLess(was, regcache, id, h, slots[id]);
      Rewritten(was, regcache, id, slots[id], holders[id]);
      NowIs();
      assert slots[..] == was.slots[id := slots[id]];
    }

    // omx__put_region, by one of the holders of the region: it stays
    // registered when the cache may use it again, else it goes.
    method Put(id: nat, h: Holder)
      requires Valid() && id in holders && h in holders[id]
      modifies this, slots
      ensures Valid() && OnlySlot(old(Now()), Now(), id)
      ensures holders == old(holders)[id := old(holders)[id] - multiset{h}]
      ensures registered == if regcache && old(slots[id].segs.nseg) == 1 then old(registered) else old(registered) - {id}
      ensures id in registered ==> slots[id].segs == old(slots[id].segs) && regs == old(regs)
      ensures id in registered ==> unused == if holders[id] == multiset{} then old(unused) + [id] else old(unused)
      ensures id !in registered ==> free == [id] + old(free)
    {
      hide NoDup, Chained;
      ghost var was := Now();
      assert SlotOk(was, regcache, id);
      Release(id, h);
      ghost var released := Now();
      if regcache && slots[id].segs.nseg == 1 {
        if slots[id].useCount == 0 {
          AppendNoDup(unused, id);
          unused := unused + [id];
        }
        OthersKept(released, Now(), regcache, id);
        OnlySlotTrans(was, released, Now(), id);
        assert SlotOk(Now(), regcache, id);
      } else {
        DestroyRegion(id);
        OnlySlotTrans(was, released, Now(), id);
      }
    }

    // One step of the cleaning: drops an unused region of the cache.
    method Drop(id: nat)
      requires Valid() && regcache && id in regs && slots[id].useCount == 0
      modifies this, slots
      ensures Valid() && holders == old(holders) && vects == old(vects) && regs == Without(old(regs), id)
      ensures registered == old(registered) - {id} && HeldKept(old(Now()), Now())
      ensures forall i :: 0 <= i < slots.Length ==> slots[i] == old(slots[i]).(nextFree := slots[i].nextFree)
    {
      hide NoDup, Chained;
      ghost var was := Now();
      assert SlotOk(was, regcache, id);
      WithoutOk(unused, id);
      WithoutAbsent(vects, id);
      unused := Without(unused, id);
      OthersKept(was, Now(), regcache, id);
      ghost var listed := Now();
      DestroyRegion(id);
      OnlySlotTrans(was, listed, Now(), id);
      UnheldKept(was, Now(), id);
      forall i | 0 <= i < slots.Length
        ensures slots[i] == was.slots[i].(nextFree := slots[i].nextFree)
      {
        assert i != id ==> SameSlot(was, Now(), i);
        assert slots[..][i] == slots[i];
      }
    }

    // omx__endpoint_regcache_clean, when the application frees [begin, end)
    method Clean(begin: nat, end: nat) returns (aborted: bool)
      requires Valid() && regcache
      modifies this, slots
      ensures Valid() && holders == old(holders) && vects == old(vects) && HeldKept(old(Now()), Now())
      ensures aborted <==> exists id {:trigger id in old(regs)} :: id in old(regs) && old(holders)[id] != multiset{} && Touches(old(slots[id].segs), begin, end)
      ensures !aborted ==> forall id {:trigger id in regs} :: id in regs <==> id in old(regs) && !Touches(old(slots[id].segs), begin, end)
    {
      hide Chained;
      ghost var was := Now();
      var todo: seq<nat> := regs;
      assert forall j :: 0 <= j < |todo| ==> todo[j] in regs;
      for k := 0 to |todo|
        invariant Valid() && holders == was.holders && vects == was.l.vects && HeldKept(was, Now())
        invariant forall i :: 0 <= i < slots.Length ==> slots[i].segs == was.slots[i].segs
        invariant forall j :: 0 <= j < |todo| ==> todo[j] < slots.Length
        invariant forall j :: 0 <= j < |todo| ==> (todo[j] in regs <==> j >= k || !Touches(was.slots[todo[j]].segs, begin, end))
        invariant forall j :: 0 <= j < k ==> was.holders[todo[j]] == multiset{} || !Touches(was.slots[todo[j]].segs, begin, end)
        invariant forall id :: id in regs ==> id in todo
      {
        var id := todo[k];
        assert SlotOk(Now(), regcache, id);
        if Touches(slots[id].segs, begin, end) {
          if slots[id].useCount != 0 {
            return true;
          }
          Drop(id);
        }
      }
      aborted := false;
    }
  }
}
