// The slots of the send queue: a chain of free entries threaded through the
// array that also records which request owns each used slot (omx_lib.h).
module SendqMapModule {
  import opened Collections

  const SENDQ_ENTRY_NR: nat := 1024

  datatype User = Nobody | Request(id: nat)

  datatype Entry = Entry(user: User, nextFree: int)

  ghost predicate LinkAt(entries: seq<Entry>, free: seq<nat>, k: nat)
    requires k < |free|
  {
    free[k] < |entries| && entries[free[k]].nextFree == if k + 1 < |free| then free[k + 1] else -1
  }

  // The chain starting at first runs through free, in order, and ends.
  ghost predicate Chained(entries: seq<Entry>, first: int, free: seq<nat>) {
    && first == (if free == [] then -1 else free[0])
    && forall k :: 0 <= k < |free| ==> LinkAt(entries, free, k)
  }

  ghost predicate SlotOk(entries: seq<Entry>, free: seq<nat>, i: nat)
    requires i < |entries|
  {
    entries[i].user.Nobody? <==> i in free
  }

  // A slot is in the chain if and only if nobody owns it; no slot is there twice.
  ghost predicate SlotsOk(entries: seq<Entry>, first: int, free: seq<nat>) {
    && Chained(entries, first, free) && NoDup(free)
    && forall i :: 0 <= i < |entries| ==> SlotOk(entries, free, i)
  }

  function OwnersOf(entries: seq<Entry>): (owners: map<nat, nat>)
    ensures forall i: nat :: i in owners <==> i < |entries| && entries[i].user.Request?
    ensures forall i: nat :: i in owners ==> owners[i] == entries[i].user.id
  {
    map i: nat | i < |entries| && entries[i].user.Request? :: entries[i].user.id
  }

  function Reversed(s: seq<nat>): (r: seq<nat>)
    ensures |r| == |s| && forall k :: 0 <= k < |s| ==> r[k] == s[|s| - 1 - k]
  {
    if s == [] then [] else Reversed(s[1..]) + [s[0]]
  }

  // The entries once the first n slots of the chain are taken for user.
  ghost predicate Taken(was: seq<Entry>, entries: seq<Entry>, free: seq<nat>, n: nat, id: nat)
    requires n <= |free|
  {
    && |entries| == |was|
    && forall i :: 0 <= i < |was| ==> entries[i] == if i in free[..n] then was[i].(user := Request(id)) else was[i]
  }

  lemma FirstOnes(free: seq<nat>, n: nat)
    requires NoDup(free) && n <= |free|
    ensures forall k :: n <= k < |free| ==> free[k] !in free[..n]
    ensures forall i :: i in free[n..] <==> i in free && i !in free[..n]
  {
    assert free == free[..n] + free[n..];
    forall i | i in free[n..]
      ensures i !in free[..n]
    {
      var k :| 0 <= k < |free[n..]| && free[n..][k] == i;
      assert free[n + k] == i;
    }
    forall k | n <= k < |free|
      ensures free[k] in free[n..]
    {
      assert free[n..][k - n] == free[k];
    }
  }

  lemma TakenOk(was: seq<Entry>, entries: seq<Entry>, free: seq<nat>, n: nat, id: nat)
    requires SlotsOk(was, if free == [] then -1 else free[0], free) && n <= |free| && Taken(was, entries, free, n, id)
    ensures SlotsOk(entries, if n == |free| then -1 else free[n], free[n..])
  {
    FirstOnes(free, n);
    forall k | 0 <= k < |free[n..]|
      ensures LinkAt(entries, free[n..], k)
    {
      assert LinkAt(was, free, n + k);
    }
    forall i | 0 <= i < |entries|
      ensures SlotOk(entries, free[n..], i)
    {
      assert SlotOk(was, free, i);
    }
  }

  lemma TakenOwners(was: seq<Entry>, entries: seq<Entry>, free: seq<nat>, n: nat, id: nat)
    requires SlotsOk(was, if free == [] then -1 else free[0], free) && n <= |free| && Taken(was, entries, free, n, id)
    ensures forall k :: 0 <= k < n ==> free[k] !in OwnersOf(was)
    ensures OwnersOf(entries) == OwnersOf(was) + map i | i in free[..n] :: id
  {
    forall k | 0 <= k < n
      ensures free[k] < |was| && free[k] !in OwnersOf(was)
    {
      assert LinkAt(was, free, k);
      assert SlotOk(was, free, free[k]);
    }
  }

  // Slots put back one by one: those done so far are chained.
  ghost predicate PutBack(was: seq<Entry>, entries: seq<Entry>, first: int, indexes: seq<nat>, n: nat)
    requires n <= |indexes|
  {
    && |entries| == |was|
    && (forall i :: 0 <= i < |was| && i !in indexes[..n] ==> entries[i] == was[i])
    && (forall k :: 0 <= k < n ==> PutAt(entries, first, indexes, k))
  }

  ghost predicate PutAt(entries: seq<Entry>, first: int, indexes: seq<nat>, k: nat)
    requires k < |indexes|
  {
    indexes[k] < |entries| && entries[indexes[k]] == Entry(Nobody, if k == 0 then first else indexes[k - 1])
  }

  ghost predicate AllUsed(was: seq<Entry>, indexes: seq<nat>) {
    forall i :: i in indexes ==> i < |was| && was[i].user.Request?
  }

  lemma PutOneMore(was: seq<Entry>, entries: seq<Entry>, first: int, indexes: seq<nat>, n: nat)
    requires n < |indexes| && NoDup(indexes) && indexes[n] < |was| && PutBack(was, entries, first, indexes, n)
    ensures PutBack(was, entries[indexes[n] := Entry(Nobody, if n == 0 then first else indexes[n - 1])], first, indexes, n + 1)
  {
    var now := entries[indexes[n] := Entry(Nobody, if n == 0 then first else indexes[n - 1])];
    assert indexes[..n + 1] == indexes[..n] + [indexes[n]];
    forall k | 0 <= k < n + 1
      ensures PutAt(now, first, indexes, k)
    {
      if k < n {
        assert PutAt(entries, first, indexes, k);
      }
    }
  }

  lemma ChainOf(free: seq<nat>, indexes: seq<nat>)
    requires NoDup(free) && NoDup(indexes) && forall i :: i in indexes ==> i !in free
    ensures NoDup(Reversed(indexes) + free)
    ensures forall i :: i in Reversed(indexes) + free <==> i in indexes || i in free
  {
    var r := Reversed(indexes);
    forall i
      ensures i in r <==> i in indexes
    {
      if i in indexes {
        var k :| 0 <= k < |indexes| && indexes[k] == i;
        assert r[|indexes| - 1 - k] == i;
      }
    }
    assert forall k :: 0 <= k < |r| ==> r[k] in indexes;
    assert forall k :: 0 <= k < |free| ==> free[k] in free;
    assert NoDup(r);
  }

  lemma PutBackOk(was: seq<Entry>, entries: seq<Entry>, first: int, free: seq<nat>, indexes: seq<nat>)
    requires SlotsOk(was, first, free) && NoDup(indexes) && |indexes| > 0 && AllUsed(was, indexes)
    requires PutBack(was, entries, first, indexes, |indexes|)
    ensures SlotsOk(entries, indexes[|indexes| - 1], Reversed(indexes) + free)
  {
    var chain := Reversed(indexes) + free;
    assert indexes[..|indexes|] == indexes;
    assert forall i :: i in indexes ==> SlotOk(was, free, i);
    ChainOf(free, indexes);
    forall k | 0 <= k < |chain|
      ensures LinkAt(entries, chain, k)
    {
      if k < |indexes| {
        assert PutAt(entries, first, indexes, |indexes| - 1 - k);
      } else {
        assert LinkAt(was, free, k - |indexes|);
        assert free[k - |indexes|] in free;
      }
    }
    forall i | 0 <= i < |entries|
      ensures SlotOk(entries, chain, i)
    {
      assert SlotOk(was, free, i);
      if i in indexes {
        var k :| 0 <= k < |indexes| && indexes[k] == i;
        assert PutAt(entries, first, indexes, k);
      }
    }
  }

  lemma PutBackOwners(was: seq<Entry>, entries: seq<Entry>, first: int, indexes: seq<nat>)
    requires PutBack(was, entries, first, indexes, |indexes|)
    ensures OwnersOf(entries) == OwnersOf(was) - SetOf(indexes)
  {
    assert indexes[..|indexes|] == indexes;
    forall i | i in indexes
      ensures i < |entries| && entries[i].user.Nobody?
    {
      var k :| 0 <= k < |indexes| && indexes[k] == i;
      assert PutAt(entries, first, indexes, k);
    }
  }

  class SendqMap {
    const slots: array<Entry>
    var firstFree: int
    var nrFree: nat
    ghost var free: seq<nat>

    ghost predicate Valid()
      reads this, slots
    {
      && slots.Length == SENDQ_ENTRY_NR && nrFree == |free|
      && SlotsOk(slots[..], firstFree, free)
    }

    // Which request owns each used slot.
    ghost function Owners(): map<nat, nat>
      reads this, slots
    {
      OwnersOf(slots[..])
    }

    // omx__endpoint_sendq_map_init
    constructor ()
      ensures Valid() && fresh(slots) && nrFree == SENDQ_ENTRY_NR && Owners() == map[]
    {
      slots := new Entry[SENDQ_ENTRY_NR](_ => Entry(Nobody, -1));
      firstFree := 0;
      nrFree := SENDQ_ENTRY_NR;
      free := seq(SENDQ_ENTRY_NR, i => i);
      new;
      for i := 0 to SENDQ_ENTRY_NR
        invariant firstFree == 0 && nrFree == SENDQ_ENTRY_NR && free == seq(SENDQ_ENTRY_NR, i => i)
        invariant forall k :: 0 <= k < i ==> slots[k] == Entry(Nobody, k + 1)
        invariant forall k :: i <= k < SENDQ_ENTRY_NR ==> slots[k].user.Nobody?
      {
        slots[i] := Entry(Nobody, i + 1);
      }
      slots[SENDQ_ENTRY_NR - 1] := slots[SENDQ_ENTRY_NR - 1].(nextFree := -1);
      forall i: nat | i < SENDQ_ENTRY_NR
        ensures SlotOk(slots[..], free, i)
      {
        assert free[i] == i;
      }
    }

    // omx__endpoint_sendq_map_get: all the slots wanted, or none.
    method Get(nr: nat, id: nat) returns (ok: bool, founds: seq<nat>)
      requires Valid()
      modifies this, slots
      ensures Valid() && ok == (nr <= old(nrFree))
      ensures !ok ==> unchanged(this, slots)
      ensures ok ==> |founds| == nr && NoDup(founds) && nrFree == old(nrFree) - nr
      ensures ok ==> nr <= |old(free)| && founds == old(free)[..nr] && free == old(free)[nr..]
      ensures ok ==> forall s :: s in founds ==> s !in old(Owners())
      ensures ok ==> Owners() == old(Owners()) + map s | s in founds :: id
    {
      founds := [];
      if nrFree < nr {
        return false, founds;
      }
      ghost var was := slots[..];
      var index := firstFree;
      for i := 0 to nr
        invariant firstFree == old(firstFree) && nrFree == old(nrFree) && free == old(free)
        invariant founds == free[..i]
        invariant index == if i < |free| then free[i] else -1
        invariant Taken(was, slots[..], free, i, id)
      {
        assert LinkAt(was, free, i);
        FirstOnes(free, i);
        var nextFree := slots[index].nextFree;
        assert nextFree == was[index].nextFree;
        slots[index] := slots[index].(user := Request(id));
        founds := founds + [index];
        index := nextFree;
        assert free[..i + 1] == free[..i] + [free[i]];
      }
      TakenOk(was, slots[..], free, nr, id);
      TakenOwners(was, slots[..], free, nr, id);
      firstFree := index;
      nrFree := nrFree - nr;
      free := free[nr..];
      ok := true;
    }

    // omx__endpoint_sendq_map_put
    method Put(indexes: seq<nat>)
      requires Valid() && |indexes| > 0 && NoDup(indexes)
      requires forall s :: s in indexes ==> s in Owners()
      modifies this, slots
      ensures Valid() && nrFree == old(nrFree) + |indexes|
      ensures Owners() == old(Owners()) - SetOf(indexes) && free == Reversed(indexes) + old(free)
    {
      ghost var was := slots[..];
      ghost var first := firstFree;
      for i := 0 to |indexes|
        invariant firstFree == old(firstFree) && nrFree == old(nrFree) && free == old(free)
        invariant PutBack(was, slots[..], first, indexes, i)
      {
        assert indexes[i] in indexes;
        PutOneMore(was, slots[..], first, indexes, i);
        slots[indexes[i]] := Entry(Nobody, if i == 0 then firstFree else indexes[i - 1]);
      }
      PutBackOk(was, slots[..], first, free, indexes);
      PutBackOwners(was, slots[..], first, indexes);
      firstFree := indexes[|indexes| - 1];
      nrFree := nrFree + |indexes|;
      free := Reversed(indexes) + free;
    }

    // omx__endpoint_sendq_map_user
    method UserOf(index: nat) returns (id: nat)
      requires Valid() && index in Owners()
      ensures id == Owners()[index]
    {
      id := slots[index].user.id;
    }
  }

  // What was taken can be put back: every slot has the owner of before, and
  // the slots taken are first in the chain again, in reverse.
  method GetThenPut(sendq: SendqMap, nr: nat, id: nat) returns (ok: bool)
    requires sendq.Valid() && nr > 0
    modifies sendq, sendq.slots
    ensures sendq.Valid() && ok == (nr <= old(sendq.nrFree))
    ensures sendq.Owners() == old(sendq.Owners()) && sendq.nrFree == old(sendq.nrFree)
    ensures ok ==> sendq.free == Reversed(old(sendq.free)[..nr]) + old(sendq.free)[nr..]
  {
    var founds;
    ok, founds := sendq.Get(nr, id);
    if ok {
      sendq.Put(founds);
    }
  }
}
