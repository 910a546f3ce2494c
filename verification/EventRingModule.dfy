// The ring through which the driver reports expected events (omx_lib.c,
// driver/linux/omx_event.c).
module EventRingModule {

  const ENTRY_NR: nat := 1024
  const BATCH_NR: nat := ENTRY_NR / 4
  const EVENT_ID_MAX: nat := 255
  const INDEX_RANGE: nat := 0x1_0000_0000

  // omx_eventq_index_t
  type Index = n: nat | n < INDEX_RANGE

  // A fragment left its slot of the send queue, or a pull is done.
  datatype Content = FragDone(slot: nat) | PullDone(request: nat)

  datatype Event = Event(id: nat, content: Content)

  // The 32-bit index of the n-th event, its slot and the id that marks it.
  function Index32(n: nat): Index {
    n % 0x1_0000_0000
  }

  function SlotOf(index: nat): (slot: nat)
    ensures slot < ENTRY_NR
  {
    index % 1024
  }

  function IdOf(index: nat): nat {
    1 + index % 255
  }

  function Difference(a: Index, b: Index): Index {
    (a - b) % 0x1_0000_0000
  }

  lemma SlotWraps(n: nat)
    ensures n % 0x1_0000_0000 % 1024 == n % 1024
  {
    var q, r := n / 0x1_0000_0000, n % 0x1_0000_0000;
    var s, t := r / 1024, r % 1024;
    assert n == 1024 * (0x40_0000 * q + s) + t;
  }

  lemma BatchWraps(n: nat)
    ensures n % 0x1_0000_0000 % 256 == n % 256
  {
    var q, r := n / 0x1_0000_0000, n % 0x1_0000_0000;
    var s, t := r / 256, r % 256;
    assert n == 256 * (0x100_0000 * q + s) + t;
  }

  lemma NextIndex(n: nat)
    ensures Index32(n + 1) == (Index32(n) + 1) % INDEX_RANGE
    ensures SlotOf(Index32(n)) == SlotOf(n) && Index32(n) % BATCH_NR == n % BATCH_NR
  {
    SlotWraps(n);
    BatchWraps(n);
    IndexAdd(n, 1);
  }

  lemma IndexAdd(n: nat, k: nat)
    ensures Index32(n + k) == (Index32(n) + k) % 0x1_0000_0000
  {
    var q, r := n / 0x1_0000_0000, n % 0x1_0000_0000;
    assert n + k == 0x1_0000_0000 * q + (r + k);
  }

  lemma DifferenceIs(a: nat, b: nat)
    requires b <= a < b + INDEX_RANGE
    ensures Difference(Index32(a), Index32(b)) == a - b
  {
  }

  // A slot never keeps, from one lap of the ring to the next, the id that
  // would make its old event look new, even where the index wraps around.
  lemma StaleIsDifferent(n: nat)
    ensures IdOf(Index32(n + ENTRY_NR)) != IdOf(Index32(n))
  {
    var a, b := Index32(n), Index32(n + ENTRY_NR);
    if b == a + ENTRY_NR {
      AddMultiple(a + 4, 4);
    } else {
      assert b == a + ENTRY_NR - INDEX_RANGE;
      AddMultiple(b, 16843005);
      assert b + EVENT_ID_MAX * 16843005 == a + 3;
    }
  }

  lemma AddMultiple(x: nat, k: nat)
    ensures (x + EVENT_ID_MAX * k) % EVENT_ID_MAX == x % EVENT_ID_MAX
  {
  }

  lemma SlotsApart(i: nat, j: nat)
    requires i < j < i + ENTRY_NR
    ensures SlotOf(i) != SlotOf(j)
  {
  }

  // Slots i, for i among the last lap before written, hold those events.
  ghost predicate SlotHolds(ring: seq<Event>, written: nat, i: int)
    requires |ring| == ENTRY_NR
  {
    written - ENTRY_NR <= i < written ==>
      if i >= 0 then ring[SlotOf(i)].id == IdOf(Index32(i)) else ring[SlotOf(i + ENTRY_NR)].id == 0
  }

  ghost predicate RingOk(ring: seq<Event>, written: nat, read: nat, queue: seq<Content>) {
    && |ring| == ENTRY_NR && read <= written && |queue| == written - read <= ENTRY_NR
    && (forall i {:trigger SlotHolds(ring, written, i)} :: SlotHolds(ring, written, i))
    && (forall k :: 0 <= k < |queue| ==> ring[SlotOf(read + k)].content == queue[k])
  }

  lemma Written(ring: seq<Event>, written: nat, read: nat, queue: seq<Content>, content: Content)
    requires RingOk(ring, written, read, queue) && |queue| < ENTRY_NR
    ensures RingOk(ring[SlotOf(written) := Event(IdOf(Index32(written)), content)], written + 1, read, queue + [content])
  {
    var ring' := ring[SlotOf(written) := Event(IdOf(Index32(written)), content)];
    forall i {:trigger SlotHolds(ring', written + 1, i)}
      ensures SlotHolds(ring', written + 1, i)
    {
      if written + 1 - ENTRY_NR <= i < written {
        assert SlotHolds(ring, written, i);
        if i >= 0 {
          SlotsApart(i, written);
        } else {
          SlotsApart(written, i + ENTRY_NR);
        }
      }
    }
    forall k | 0 <= k < |queue|
      ensures ring'[SlotOf(read + k)].content == queue[k]
    {
      SlotsApart(read + k, written);
    }
  }

  lemma SlotRepeats(n: nat)
    ensures n >= ENTRY_NR ==> SlotOf(n - ENTRY_NR) == SlotOf(n)
    ensures IdOf(Index32(n)) > 0
  {
  }

  // The reader finds the id it expects if and only if there is an event.
  lemma FindsNext(ring: seq<Event>, written: nat, read: nat, queue: seq<Content>)
    requires RingOk(ring, written, read, queue)
    ensures ring[SlotOf(read)].id == IdOf(Index32(read)) <==> queue != []
    ensures queue != [] ==> ring[SlotOf(read)].content == queue[0]
  {
    SlotRepeats(read);
    hide IdOf, SlotOf, Index32;
    if queue == [] {
      assert SlotHolds(ring, written, read - ENTRY_NR);
      if read >= ENTRY_NR {
        StaleIsDifferent(read - ENTRY_NR);
      }
    } else {
      assert SlotHolds(ring, written, read);
      assert ring[SlotOf(read + 0)].content == queue[0];
    }
  }

  class EventRing {
    const ring: array<Event>
    // library
    var nextEventIndex: Index
    // driver
    var nextFree: Index
    var nextReleased: Index
    var full: bool
    // history: events written, read and released; contents of the events not
    // read yet
    ghost var written: nat
    ghost var read: nat
    ghost var released: nat
    ghost var queue: seq<Content>

    ghost predicate Valid()
      reads this, ring
    {
      && ring.Length == ENTRY_NR && RingOk(ring[..], written, read, queue)
      && nextEventIndex == Index32(read) && nextFree == Index32(written) && nextReleased == Index32(released)
      && released <= read <= written && read < released + BATCH_NR && released % BATCH_NR == 0
      && written - released <= ENTRY_NR && |queue| == written - read
    }

    constructor ()
      ensures Valid() && fresh(ring) && queue == [] && !full
    {
      ring := new Event[ENTRY_NR](_ => Event(0, FragDone(0)));
      nextEventIndex, nextFree, nextReleased := 0, 0, 0;
      full := false;
      written, read, released, queue := 0, 0, 0, [];
    }

    // Slots read and not released are fewer than a batch.
    lemma RoomLeft()
      requires Valid() && |queue| <= ENTRY_NR - BATCH_NR
      ensures written - released < ENTRY_NR
    {
    }

    // omx_notify_exp_event
    method Notify(content: Content) returns (busy: bool)
      requires Valid()
      modifies `nextFree, `full, `written, `queue, ring
      ensures Valid() && (busy <==> old(written) - released == ENTRY_NR)
      ensures busy ==> full && queue == old(queue)
      ensures !busy ==> full == old(full) && queue == old(queue) + [content]
    {
      hide RingOk, SlotOf, IdOf, Index32, Difference;
      NextIndex(written);
      var index := nextFree;
      nextFree := (nextFree + 1) % INDEX_RANGE;
      DifferenceIs(written + 1, released);
      if Difference(nextFree, nextReleased) > ENTRY_NR {
        nextFree := (nextFree - 1) % INDEX_RANGE;
        full := true;
        return true;
      }
      Written(ring[..], written, read, queue, content);
      ring[SlotOf(index)] := Event(IdOf(index), content);
      written := written + 1;
      queue := queue + [content];
      busy := false;
    }

    // omx_ioctl_release_exp_slots
    method ReleaseSlots() returns (ok: bool)
      requires nextFree == Index32(written) && nextReleased == Index32(released) && released <= written <= released + ENTRY_NR
      modifies `nextReleased, `released
      ensures ok <==> written - old(released) >= BATCH_NR
      ensures released == old(released) + (if ok then BATCH_NR else 0) && nextReleased == Index32(released)
    {
      hide Index32, Difference;
      DifferenceIs(written, released);
      IndexAdd(released, BATCH_NR);
      if Difference(nextFree, nextReleased) < BATCH_NR {
        return false;
      }
      nextReleased := (nextReleased + BATCH_NR) % INDEX_RANGE;
      released := released + BATCH_NR;
      ok := true;
    }

    // The test of the loop of omx__progress over the expected events.
    method Next() returns (found: bool, content: Content)
      requires Valid()
      ensures found <==> queue != []
      ensures found ==> content == queue[0]
    {
      NextIndex(read);
      FindsNext(ring[..], written, read, queue);
      var evt := ring[SlotOf(nextEventIndex)];
      found, content := evt.id == IdOf(nextEventIndex), evt.content;
    }

    // The end of one turn of that loop; releasing a batch never fails.
    method Consume()
      requires Valid() && queue != []
      modifies `nextEventIndex, `nextReleased, `read, `released, `queue
      ensures Valid() && [old(queue)[0]] + queue == old(queue)
    {
      hide RingOk, SlotOf, IdOf, Index32;
      NextIndex(read);
      NextIndex(read + 1);
      ReadOne(ring[..], written, read, queue);
      nextEventIndex := (nextEventIndex + 1) % INDEX_RANGE;
      read := read + 1;
      queue := queue[1..];
      if nextEventIndex % BATCH_NR == 0 {
        BatchEnds(read, released);
        var ok := ReleaseSlots();
        assert ok;
      }
      BatchGoesOn(read, released);
    }
  }

  lemma BatchGoesOn(read: nat, released: nat)
    requires released <= read <= released + BATCH_NR && released % BATCH_NR == 0 && (read % BATCH_NR == 0 ==> read == released)
    ensures read < released + BATCH_NR
  {
  }

  lemma ReadOne(ring: seq<Event>, written: nat, read: nat, queue: seq<Content>)
    requires RingOk(ring, written, read, queue) && queue != []
    ensures RingOk(ring, written, read + 1, queue[1..]) && queue == [queue[0]] + queue[1..]
  {
    forall k | 0 <= k < |queue[1..]|
      ensures ring[SlotOf(read + 1 + k)].content == queue[1..][k]
    {
      assert ring[SlotOf(read + (k + 1))].content == queue[k + 1];
    }
  }

  lemma BatchEnds(read: nat, released: nat)
    requires released < read <= released + BATCH_NR && released % BATCH_NR == 0 && read % BATCH_NR == 0
    ensures read == released + BATCH_NR
  {
  }
}
