// Reassembly of a medium message: fragments in any order and any number of
// times, into a receive posted before, between or after them (omx_recv.c).
module Medium {
  import opened Checksum
  import opened Fragments
  import opened Segments

  // What has happened to a message at the receiver.
  datatype Reception = Reception(got: set<nat>, accumulated: nat, posted: bool, completions: nat)

  datatype Event = Frag(k: nat) | Post

  const NOTHING := Reception({}, 0, false, 0)

  // A fragment: a duplicate is dropped, and so is what comes after the last
  // one, when the request is no longer on the partial queue.
  function OnFrag(length: nat, s: Reception, k: nat): Reception
    requires k < FragsNr(length)
  {
    if k in s.got || (s.got != {} && s.accumulated == length) then s
    else
      var accumulated := s.accumulated + FragLength(length, k);
      Reception(s.got + {k}, accumulated, s.posted, s.completions + if accumulated == length && s.posted then 1 else 0)
  }

  function OnPost(length: nat, s: Reception): Reception {
    if s.posted then s
    else s.(posted := true, completions := s.completions + if s.got != {} && s.accumulated == length then 1 else 0)
  }

  ghost predicate ValidEvents(length: nat, events: seq<Event>) {
    forall i :: 0 <= i < |events| && events[i].Frag? ==> events[i].k < FragsNr(length)
  }

  ghost function After(length: nat, events: seq<Event>): Reception
    requires ValidEvents(length, events)
  {
    if events == [] then NOTHING
    else
      var s, e := After(length, events[..|events| - 1]), events[|events| - 1];
      if e.Frag? then OnFrag(length, s, e.k) else OnPost(length, s)
  }

  ghost predicate ReceptionOk(length: nat, s: Reception) {
    && 0 < length
    && (forall k :: k in s.got ==> k < FragsNr(length))
    && s.accumulated == ReceivedBytes(length, s.got)
    && s.completions == if s.posted && AllReceived(length, s.got) then 1 else 0
  }

  lemma NotAllMissing(length: nat)
    requires 0 < length
    ensures !AllReceived(length, {})
  {
    var none: set<nat> := {};
    assert 0 < FragsNr(length) && 0 !in none;
  }

  lemma FragKeeps(length: nat, s: Reception, k: nat)
    requires ReceptionOk(length, s) && k < FragsNr(length)
    ensures ReceptionOk(length, OnFrag(length, s, k)) && OnFrag(length, s, k).got == s.got + {k}
    ensures OnFrag(length, s, k).posted == s.posted
    ensures s.got != {} && s.accumulated == length ==> k in s.got
    ensures OnFrag(length, s, k).accumulated == length <==> AllReceived(length, s.got + {k})
  {
    CompleteIffAllBytes(length, s.got);
    NotAllMissing(length);
    if k in s.got {
      assert s.got + {k} == s.got;
    } else {
      CompleteIffAllBytes(length, s.got + {k});
      AddFragment(length, s.got, k);
    }
  }

  lemma PostKeeps(length: nat, s: Reception)
    requires ReceptionOk(length, s)
    ensures ReceptionOk(length, OnPost(length, s)) && OnPost(length, s).posted && OnPost(length, s).got == s.got
  {
    CompleteIffAllBytes(length, s.got);
    NotAllMissing(length);
  }

  // Whatever the arrivals and whenever the receive is posted, the message
  // completes once, as soon as the receive and all the fragments are there.
  lemma {:induction false} CompletesExactlyOnce(length: nat, events: seq<Event>)
    requires 0 < length && ValidEvents(length, events)
    ensures ReceptionOk(length, After(length, events))
    ensures After(length, events).posted <==> Post in events
    ensures forall k: nat :: k in After(length, events).got <==> Frag(k) in events
    ensures After(length, events).completions
         == if Post in events && (forall k: nat :: k < FragsNr(length) ==> Frag(k) in events) then 1 else 0
  {
    if events == [] {
      NoneBelow(length, FragsNr(length));
      NotAllMissing(length);
    } else {
      var before, e := events[..|events| - 1], events[|events| - 1];
      assert events == before + [e];
      CompletesExactlyOnce(length, before);
      var s := After(length, before);
      if e.Frag? {
        FragKeeps(length, s, e.k);
      } else {
        PostKeeps(length, s);
      }
    }
  }

  // The received fragments are in place, as far as the buffer goes.
  ghost predicate Filled(flat: seq<Byte>, msg: seq<Byte>, got: set<nat>, xfer: nat) {
    && xfer <= |flat| && xfer <= |msg|
    && forall p :: 0 <= p < xfer && p / FRAG_LENGTH_MAX in got ==> flat[p] == msg[p]
  }

  // The part of a fragment that fits in the transferred length.
  function XferChunk(offset: nat, chunk: nat, xfer: nat): nat {
    if offset + chunk <= xfer then chunk else if offset <= xfer then xfer - offset else 0
  }

  lemma FilledMore(flat: seq<Byte>, msg: seq<Byte>, got: set<nat>, xfer: nat, k: nat)
    requires Filled(flat, msg, got, xfer) && k < FragsNr(|msg|)
    ensures var offset, n := k * FRAG_LENGTH_MAX, XferChunk(k * FRAG_LENGTH_MAX, FragLength(|msg|, k), xfer);
            n > 0 ==> offset + n <= xfer && Filled(Splice(flat, offset, msg[offset..offset + n]), msg, got + {k}, xfer)
    ensures XferChunk(k * FRAG_LENGTH_MAX, FragLength(|msg|, k), xfer) == 0 ==> Filled(flat, msg, got + {k}, xfer)
  {
    var offset, len := k * FRAG_LENGTH_MAX, FragLength(|msg|, k);
    var n := XferChunk(offset, len, xfer);
    forall p | 0 <= p < xfer && p / FRAG_LENGTH_MAX == k
      ensures n > 0 && offset <= p < offset + n
    {
    }
  }

  lemma FilledAll(flat: seq<Byte>, msg: seq<Byte>, got: set<nat>, xfer: nat)
    requires Filled(flat, msg, got, xfer) && AllReceived(|msg|, got)
    ensures flat[..xfer] == msg[..xfer]
  {
    forall p | 0 <= p < xfer
      ensures flat[p] == msg[p]
    {
      assert p / FRAG_LENGTH_MAX < FragsNr(|msg|);
    }
  }

  // The part of the state of a receive request that its data depends on.
  datatype Target = Target(segs: seq<Seg>, scan: Scan, xfer: nat)

  ghost predicate TargetOk(mem: seq<Byte>, t: Target) {
    InMemory(t.segs, |mem|) && Disjoint(t.segs) && t.segs != []
  }

  function Min(a: nat, b: nat): nat {
    if a < b then a else b
  }

  ghost predicate RequestOk(mem: seq<Byte>, t: Target, msg: seq<Byte>, s: Reception) {
    && ReceptionOk(|msg|, s) && TargetOk(mem, t)
    && t.xfer == Min(Total(t.segs), |msg|)
    && (!s.posted ==> |t.segs| == 1 && t.xfer == |msg| && t.scan == UNSET)
    && (|t.segs| > 1 ==> PlaceOk(t.segs, t.scan))
    && Filled(Flat(mem, t.segs), msg, s.got, t.xfer)
  }

  // What a completed receive gives to the application: the message as far as
  // the buffer goes.
  lemma CompletedData(mem: seq<Byte>, t: Target, msg: seq<Byte>, s: Reception)
    requires RequestOk(mem, t, msg, s) && s.completions > 0
    ensures InMemory(t.segs, |mem|)
    ensures t.xfer == Min(Total(t.segs), |msg|) && Flat(mem, t.segs)[..t.xfer] == msg[..t.xfer]
    ensures t.xfer < |msg| <==> Total(t.segs) < |msg|
  {
    FilledAll(Flat(mem, t.segs), msg, s.got, t.xfer);
  }

  // From the segments of the sender to those of the receiver: the same bytes,
  // and for a receive that is not truncated the same checksum, so that the
  // debugging check of the receiver never fails.
  lemma SegmentsToSegments(memS: seq<Byte>, segsS: seq<Seg>, length: nat, memR: seq<Byte>, t: Target, s: Reception)
    requires InMemory(segsS, |memS|) && length <= Total(segsS)
    requires RequestOk(memR, t, Flat(memS, segsS)[..length], s) && s.completions > 0
    ensures InMemory(t.segs, |memR|) && t.xfer <= Total(t.segs) && t.xfer <= length
    ensures Flat(memR, t.segs)[..t.xfer] == Flat(memS, segsS)[..t.xfer]
    ensures t.xfer == length ==> Crc(ZERO, Flat(memR, t.segs)[..length]) == Crc(ZERO, Flat(memS, segsS)[..length])
  {
    var msg := Flat(memS, segsS)[..length];
    CompletedData(memR, t, msg, s);
    assert msg[..t.xfer] == Flat(memS, segsS)[..t.xfer];
  }

  // memcpy to a place in a single segment
  lemma StoreInSingle(mem: seq<Byte>, segs: seq<Seg>, offset: nat, data: seq<Byte>)
    requires |segs| == 1 && InMemory(segs, |mem|) && Disjoint(segs) && offset + |data| <= Total(segs)
    ensures offset + |data| <= segs[0].len && segs[0].addr + segs[0].len <= |mem|
    ensures Flat(Splice(mem, segs[0].addr + offset, data), segs) == Splice(Flat(mem, segs), offset, data)
  {
    hide *;
    OneSegment(segs);
    InFirst(segs, |mem|, offset);
    WriteInSegment(mem, segs, 0, offset, data);
  }

  // The part of fragment k that fits in the transferred length.
  function Chunk(length: nat, k: nat, xfer: nat): nat
    requires k < FragsNr(length)
  {
    XferChunk(k * FRAG_LENGTH_MAX, FragLength(length, k), xfer)
  }

  // ----- where the copies into a vectored receive go -----

  // The source scans only when there are several segments; what follows holds
  // of the two loops for one segment as well, where they are not used.

  // The scan of a receive that was posted first, and that of one that takes
  // over an unexpected message: it was set to the segments of that one.
  const FIRST := Scan(At(Cursor(0, 0)), 0)
  const UNSET := Scan(Nowhere, 0)

  // The scan once fragment k is copied.
  function ScanAfter(segs: seq<Seg>, length: nat, s: Scan, k: nat): Scan
    requires k < FragsNr(length)
  {
    var n := Chunk(length, k, Min(Total(segs), length));
    Scan(Moved(segs, s, k * FRAG_LENGTH_MAX, n), k * FRAG_LENGTH_MAX + n)
  }

  lemma ScanAfterIs(segs: seq<Seg>, length: nat, s: Scan, k: nat, xfer: nat)
    requires k < FragsNr(length) && xfer == Min(Total(segs), length)
    ensures ScanAfter(segs, length, s, k)
         == Scan(Moved(segs, s, k * FRAG_LENGTH_MAX, Chunk(length, k, xfer)), k * FRAG_LENGTH_MAX + Chunk(length, k, xfer))
  {
  }

  lemma UnsetOk(segs: seq<Seg>)
    ensures PlaceOk(segs, UNSET)
  {
  }

  // These are distinct fragments of a message.
  ghost predicate DistinctFrags(length: nat, order: seq<nat>) {
    && (forall i, j :: 0 <= i < j < |order| ==> order[i] != order[j])
    && (forall i :: 0 <= i < |order| ==> order[i] < FragsNr(length))
  }

  // Copying these fragments, in this order, never leaves the segments.
  ghost predicate StaysInside(segs: seq<Seg>, length: nat, s: Scan, order: seq<nat>)
    requires DistinctFrags(length, order)
    decreases |order|
  {
    order == [] ||
    (var s' := ScanAfter(segs, length, s, order[0]);
     s'.place.At? && StaysInside(segs, length, s', order[1..]))
  }

  // What decides, on the numbers alone: fragment k after fragment p.
  predicate CanFollow(segs: seq<Seg>, p: nat, k: nat) {
    k * FRAG_LENGTH_MAX < Total(segs) || (k * FRAG_LENGTH_MAX == Total(segs) && (EmptyEnd(segs) || k != p + 1))
  }

  // And as the first one.
  predicate CanBeFirst(segs: seq<Seg>, s: Scan, k: nat) {
    k * FRAG_LENGTH_MAX <= Total(segs) && (k == 0 ==> s.place.At?)
  }

  // The scan is where the copy of fragment p left it.
  ghost predicate LeftBy(segs: seq<Seg>, length: nat, s: Scan, p: nat) {
    && p < FragsNr(length) && p * FRAG_LENGTH_MAX <= Total(segs) && s.place.At? && PlaceOk(segs, s)
    && s.offset == p * FRAG_LENGTH_MAX + Chunk(length, p, Min(Total(segs), length))
    && (p * FRAG_LENGTH_MAX < Total(segs) == s.offset ==> (s.place.cursor.seg == |segs| <==> !EmptyEnd(segs)))
  }

  lemma ChunkSize(length: nat, k: nat, total: nat)
    requires k < FragsNr(length)
    ensures var n := Chunk(length, k, Min(total, length));
      && (k * FRAG_LENGTH_MAX < total ==> n > 0 && k * FRAG_LENGTH_MAX + n <= total)
      && (k * FRAG_LENGTH_MAX >= total ==> n == 0)
      && (k + 1 < FragsNr(length) && (k + 1) * FRAG_LENGTH_MAX <= total ==> n == FRAG_LENGTH_MAX)
      && n <= FRAG_LENGTH_MAX
  {
  }

  lemma NextFrag(segs: seq<Seg>, length: nat, s: Scan, p: nat, k: nat)
    requires segs != [] && LeftBy(segs, length, s, p) && k < FragsNr(length) && k != p
    ensures ScanAfter(segs, length, s, k).place.At? <==> CanFollow(segs, p, k)
    ensures ScanAfter(segs, length, s, k).place.At? ==> LeftBy(segs, length, ScanAfter(segs, length, s, k), k)
  {
    var xfer := Min(Total(segs), length);
    var n := Chunk(length, k, xfer);
    ChunkSize(length, k, Total(segs));
    ChunkSize(length, p, Total(segs));
    LeavesSegments(segs, s, k * FRAG_LENGTH_MAX, n);
  }

  lemma FirstFrag(segs: seq<Seg>, length: nat, s: Scan, k: nat)
    requires segs != [] && s in {FIRST, UNSET} && k < FragsNr(length)
    ensures ScanAfter(segs, length, s, k).place.At? <==> CanBeFirst(segs, s, k)
    ensures ScanAfter(segs, length, s, k).place.At? ==> LeftBy(segs, length, ScanAfter(segs, length, s, k), k)
  {
    var n := Chunk(length, k, Min(Total(segs), length));
    ChunkSize(length, k, Total(segs));
    LeavesSegments(segs, s, k * FRAG_LENGTH_MAX, n);
  }

  ghost predicate FollowWell(segs: seq<Seg>, order: seq<nat>) {
    forall i :: 1 <= i < |order| ==> CanFollow(segs, order[i - 1], order[i])
  }

  lemma FollowStep(segs: seq<Seg>, order: seq<nat>)
    requires |order| > 1
    ensures FollowWell(segs, order) <==> CanFollow(segs, order[0], order[1]) && FollowWell(segs, order[1..])
  {
    var rest := order[1..];
    if CanFollow(segs, order[0], order[1]) && FollowWell(segs, rest) {
      forall i | 1 <= i < |order|
        ensures CanFollow(segs, order[i - 1], order[i])
      {
        assert i > 1 ==> CanFollow(segs, rest[i - 2], rest[i - 1]);
      }
    }
    if FollowWell(segs, order) {
      forall i | 1 <= i < |rest|
        ensures CanFollow(segs, rest[i - 1], rest[i])
      {
        assert CanFollow(segs, order[i], order[i + 1]);
      }
    }
  }

  lemma {:induction false} RestGoesWell(segs: seq<Seg>, length: nat, s: Scan, order: seq<nat>)
    requires segs != [] && order != [] && DistinctFrags(length, order) && LeftBy(segs, length, s, order[0])
    ensures StaysInside(segs, length, s, order[1..]) <==> FollowWell(segs, order)
    decreases |order|
  {
    hide LeftBy, ScanAfter, CanFollow;
    var rest := order[1..];
    if rest != [] {
      FollowStep(segs, order);
      NextFrag(segs, length, s, order[0], rest[0]);
      var s' := ScanAfter(segs, length, s, rest[0]);
      if s'.place.At? {
        RestGoesWell(segs, length, s', rest);
      }
    }
  }

  // A run of fragments stays inside exactly if the first one and each that
  // follows do.
  lemma StaysInsideIff(segs: seq<Seg>, length: nat, s: Scan, order: seq<nat>)
    requires segs != [] && s in {FIRST, UNSET} && DistinctFrags(length, order)
    ensures StaysInside(segs, length, s, order)
       <==> order == [] || (CanBeFirst(segs, s, order[0]) && FollowWell(segs, order))
  {
    hide ScanAfter, CanBeFirst, CanFollow, LeftBy;
    if order != [] {
      FirstFrag(segs, length, s, order[0]);
      var s' := ScanAfter(segs, length, s, order[0]);
      if s'.place.At? {
        RestGoesWell(segs, length, s', order);
      }
    }
  }

  // The fragments still to come may come in any order.
  ghost predicate AnyOrderStaysInside(segs: seq<Seg>, length: nat, s: Scan, toCome: set<nat>) {
    forall order :: DistinctFrags(length, order) && (forall k :: k in order ==> k in toCome) ==> StaysInside(segs, length, s, order)
  }

  // Fragment k starts inside, or at the end when the last segment is empty or
  // the fragment before it is not to come.
  predicate HasRoom(segs: seq<Seg>, toCome: set<nat>, k: nat) {
    k * FRAG_LENGTH_MAX < Total(segs) || (k * FRAG_LENGTH_MAX == Total(segs) && (EmptyEnd(segs) || k - 1 !in toCome))
  }

  // When that is safe: there is room for each of them, and the first one is
  // not to come if the scan was never set.
  predicate RoomForAll(segs: seq<Seg>, s: Scan, toCome: set<nat>) {
    && (0 in toCome ==> s.place.At?)
    && forall k :: k in toCome ==> HasRoom(segs, toCome, k)
  }

  lemma RoomSuffices(segs: seq<Seg>, length: nat, s: Scan, toCome: set<nat>, order: seq<nat>)
    requires segs != [] && s in {FIRST, UNSET} && RoomForAll(segs, s, toCome)
    requires DistinctFrags(length, order) && forall k :: k in order ==> k in toCome
    ensures StaysInside(segs, length, s, order)
  {
    StaysInsideIff(segs, length, s, order);
    forall i | 1 <= i < |order|
      ensures CanFollow(segs, order[i - 1], order[i])
    {
      assert order[i] in toCome && order[i - 1] in toCome;
      assert HasRoom(segs, toCome, order[i]);
    }
    assert order != [] ==> order[0] in toCome && HasRoom(segs, toCome, order[0]);
  }

  // A sequence that shows it where there is no room for fragment k.
  lemma NoRoomRunsOff(segs: seq<Seg>, length: nat, s: Scan, toCome: set<nat>, k: nat) returns (order: seq<nat>)
    requires segs != [] && s in {FIRST, UNSET} && k in toCome && (forall j :: j in toCome ==> j < FragsNr(length))
    requires (k == 0 && s.place.Nowhere?) || !HasRoom(segs, toCome, k)
    ensures DistinctFrags(length, order) && (forall j :: j in order ==> j in toCome)
    ensures !StaysInside(segs, length, s, order)
  {
    order := if (k == 0 && s.place.Nowhere?) || k * FRAG_LENGTH_MAX > Total(segs) then [k] else [k - 1, k];
    StaysInsideIff(segs, length, s, order);
    if |order| == 2 {
      assert !CanFollow(segs, order[1 - 1], order[1]);
    }
  }

  // The copies into a vectored receive stay inside its segments, whatever the
  // order of the fragments, if and only if there is room for all of them.
  lemma AnyOrderIff(segs: seq<Seg>, length: nat, s: Scan, toCome: set<nat>)
    requires segs != [] && s in {FIRST, UNSET} && forall k :: k in toCome ==> k < FragsNr(length)
    ensures AnyOrderStaysInside(segs, length, s, toCome) <==> RoomForAll(segs, s, toCome)
  {
    if RoomForAll(segs, s, toCome) {
      forall order | DistinctFrags(length, order) && (forall k :: k in order ==> k in toCome)
        ensures StaysInside(segs, length, s, order)
      {
        RoomSuffices(segs, length, s, toCome, order);
      }
    } else if 0 in toCome && s.place.Nowhere? {
      var order := NoRoomRunsOff(segs, length, s, toCome, 0);
    } else {
      var k :| k in toCome && !HasRoom(segs, toCome, k);
      var order := NoRoomRunsOff(segs, length, s, toCome, k);
    }
  }

  function AllFrags(length: nat): set<nat> {
    Below(FragsNr(length))
  }

  // For a receive that was posted first this is a test on the last fragment.
  lemma PostedStaysInside(segs: seq<Seg>, length: nat)
    requires segs != [] && length > 0
    ensures var last := FragsNr(length) - 1;
      AnyOrderStaysInside(segs, length, FIRST, AllFrags(length))
      <==> last * FRAG_LENGTH_MAX < Total(segs) || (last * FRAG_LENGTH_MAX == Total(segs) && EmptyEnd(segs))
  {
    var last: nat := FragsNr(length) - 1;
    AnyOrderIff(segs, length, FIRST, AllFrags(length));
    assert last in AllFrags(length);
    assert last > 0 ==> last - 1 in AllFrags(length);
    if last == 0 && Total(segs) == 0 {
      StartStep(segs, |segs| - 1);
    }
  }

  // One that takes over an unexpected message never set its scan: the first
  // fragment must have come before, and the rest must find room.
  lemma TakenOverStaysInside(segs: seq<Seg>, length: nat, got: set<nat>)
    requires segs != [] && length > 0
    ensures AnyOrderStaysInside(segs, length, UNSET, AllFrags(length) - got)
       <==> 0 in got && forall k: nat :: k < FragsNr(length) && k !in got ==> HasRoom(segs, AllFrags(length) - got, k)
  {
    AnyOrderIff(segs, length, UNSET, AllFrags(length) - got);
    assert 0 in AllFrags(length);
  }

  lemma TwoSegments(a: nat, b: nat)
    ensures Total([Seg(0, a), Seg(a, b)]) == a + b
  {
    var segs := [Seg(0, a), Seg(a, b)];
    assert segs[1..] == [Seg(a, b)] && [Seg(a, b)][1..] == [];
    assert Total([Seg(a, b)]) == b;
  }

  // 2000 bytes for a message of 8192: every run with the second fragment
  // leaves the segments.
  lemma TruncatedVectorRunsOff(order: seq<nat>)
    requires DistinctFrags(8192, order) && 1 in order
    ensures !StaysInside([Seg(0, 1000), Seg(1000, 1000)], 8192, FIRST, order)
  {
    var segs := [Seg(0, 1000), Seg(1000, 1000)];
    TwoSegments(1000, 1000);
    StaysInsideIff(segs, 8192, FIRST, order);
    var i :| 0 <= i < |order| && order[i] == 1;
    assert i > 0 ==> !CanFollow(segs, order[i - 1], order[i]);
  }

  // FRAG_LENGTH_MAX bytes for it: in order it leaves them, the other way round it does not.
  lemma FullVectorRunsOff()
    ensures var segs := [Seg(0, 2048), Seg(2048, 2048)];
      && DistinctFrags(8192, [0, 1]) && !StaysInside(segs, 8192, FIRST, [0, 1])
      && DistinctFrags(8192, [1, 0]) && StaysInside(segs, 8192, FIRST, [1, 0])
  {
    var segs := [Seg(0, 2048), Seg(2048, 2048)];
    TwoSegments(2048, 2048);
    StaysInsideIff(segs, 8192, FIRST, [0, 1]);
    StaysInsideIff(segs, 8192, FIRST, [1, 0]);
    assert !CanFollow(segs, [0, 1][1 - 1], [0, 1][1]);
  }

  // A message of two fragments whose second one came before the receive: the
  // first one is then looked for where the unexpected buffer was.
  lemma LateVectorRunsOff(segs: seq<Seg>)
    requires segs != []
    ensures DistinctFrags(8192, [0]) && !StaysInside(segs, 8192, UNSET, [0])
  {
    StaysInsideIff(segs, 8192, UNSET, [0]);
  }

  // That part of the message replaces what was there, and nothing else changes.
  ghost predicate Placed(was: seq<Byte>, now: seq<Byte>, msg: seq<Byte>, k: nat, xfer: nat)
    requires k < FragsNr(|msg|)
  {
    var offset, n := k * FRAG_LENGTH_MAX, Chunk(|msg|, k, xfer);
    if n == 0 then now == was
    else (offset + n <= |msg| && offset + n <= |was| && now == Splice(was, offset, msg[offset..offset + n]))
  }

  lemma FragStored(mem: seq<Byte>, mem': seq<Byte>, t: Target, msg: seq<Byte>, s: Reception, k: nat, t': Target)
    requires RequestOk(mem, t, msg, s) && k < FragsNr(|msg|) && k !in s.got
    requires TargetOk(mem', t) && t'.segs == t.segs && t'.xfer == t.xfer
    requires if |t.segs| > 1 then PlaceOk(t.segs, t'.scan) else t'.scan == t.scan
    requires Placed(Flat(mem, t.segs), Flat(mem', t.segs), msg, k, t.xfer)
    ensures RequestOk(mem', t', msg, OnFrag(|msg|, s, k))
  {
    hide Splice, Flat;
    FragKeeps(|msg|, s, k);
    FilledMore(Flat(mem, t.segs), msg, s.got, t.xfer, k);
    assert AllReceived(|msg|, s.got) ==> k in s.got;
  }

  lemma TargetKept(mem: seq<Byte>, mem': seq<Byte>, t: Target, t': Target)
    requires TargetOk(mem, t) && |mem'| == |mem| && t'.segs == t.segs
    ensures TargetOk(mem', t) && TargetOk(mem, t') && TargetOk(mem', t')
  {
  }

  lemma NewFrag(length: nat, s: Reception, k: nat)
    requires k < FragsNr(length) && (s.got == {} || s.accumulated != length)
    ensures OnFrag(length, s, k) == if k in s.got then s else
              (var accumulated := s.accumulated + FragLength(length, k);
               Reception(s.got + {k}, accumulated, s.posted, s.completions + if accumulated == length && s.posted then 1 else 0))
  {
  }

  lemma PlacedHere(was: seq<Byte>, now: seq<Byte>, msg: seq<Byte>, k: nat, xfer: nat)
    requires k < FragsNr(|msg|)
    requires var offset, n := k * FRAG_LENGTH_MAX, Chunk(|msg|, k, xfer);
             offset + n <= |msg| && (n == 0 ==> now == was) && (n > 0 ==> offset + n <= |was| && now == Splice(was, offset, msg[offset..offset + n]))
    ensures Placed(was, now, msg, k, xfer)
  {
  }

  lemma ChunkFits(mem: seq<Byte>, t: Target, msg: seq<Byte>, s: Reception, k: nat)
    requires RequestOk(mem, t, msg, s) && k < FragsNr(|msg|)
    ensures Chunk(|msg|, k, t.xfer) <= FragLength(|msg|, k)
    ensures Chunk(|msg|, k, t.xfer) > 0 ==> k * FRAG_LENGTH_MAX + Chunk(|msg|, k, t.xfer) <= t.xfer <= Total(t.segs)
    ensures Chunk(|msg|, k, t.xfer) > 0 ==> k * FRAG_LENGTH_MAX + Chunk(|msg|, k, t.xfer) <= |msg|
    ensures |t.segs| > 1 ==> PlaceOk(t.segs, t.scan)
    ensures t.xfer == Min(Total(t.segs), |msg|)
  {
  }

  // The unexpected buffer, and the receive it is copied to.
  lemma Rebound(mem: seq<Byte>, mem': seq<Byte>, t: Target, t': Target, msg: seq<Byte>, s: Reception)
    requires RequestOk(mem, t, msg, s) && !s.posted && s.got != {}
    requires TargetOk(mem', t') && t'.xfer == Min(Total(t'.segs), |msg|)
    requires |t'.segs| > 1 ==> PlaceOk(t'.segs, t'.scan)
    requires Flat(mem', t'.segs)[..t'.xfer] == Flat(mem, t.segs)[..t'.xfer]
    ensures RequestOk(mem', t', msg, OnPost(|msg|, s))
  {
    PostKeeps(|msg|, s);
    var now, was, xfer := Flat(mem', t'.segs), Flat(mem, t.segs), t'.xfer;
    forall p | 0 <= p < xfer && p / FRAG_LENGTH_MAX in s.got
      ensures now[p] == msg[p]
    {
      assert now[..xfer][p] == was[..xfer][p];
    }
  }

  lemma SpliceNothing(buf: seq<Byte>, off: nat)
    requires off <= |buf|
    ensures Splice(buf, off, []) == buf
  {
  }

  lemma TakeOfSplice(buf: seq<Byte>, data: seq<Byte>)
    requires |data| <= |buf|
    ensures Splice(buf, 0, data)[..|data|] == data
  {
  }

  lemma Buffered(mem: seq<Byte>, t: Target, n: nat)
    requires TargetOk(mem, t) && |t.segs| == 1 && n <= Total(t.segs)
    ensures n <= t.segs[0].len && t.segs[0].addr + t.segs[0].len <= |mem|
    ensures Flat(mem, t.segs)[..n] == mem[t.segs[0].addr..t.segs[0].addr + n]
  {
    OneSegment(t.segs);
    FlatPiece(mem, t.segs, 0, 0, n);
  }

  lemma OnPostIs(length: nat, s: Reception)
    requires !s.posted
    ensures OnPost(length, s) == Reception(s.got, s.accumulated, true, s.completions + if s.got != {} && s.accumulated == length then 1 else 0)
  {
  }

  lemma TargetIs(mem: seq<Byte>, t: Target)
    requires InMemory(t.segs, |mem|) && Disjoint(t.segs) && t.segs != []
    ensures TargetOk(mem, t)
  {
  }

  // The buffer of an unexpected message, and what a receive takes of it.
  lemma Waiting(mem: seq<Byte>, t: Target, msg: seq<Byte>, s: Reception, segs: seq<Seg>)
    requires RequestOk(mem, t, msg, s) && !s.posted
    ensures |t.segs| == 1 && Min(Total(segs), |msg|) <= Total(t.segs) && Min(Total(segs), |msg|) <= Total(segs)
    ensures Min(Total(segs), |msg|) <= |msg| && t.scan == UNSET
    ensures s.accumulated == |msg| ==> AllReceived(|msg|, s.got)
  {
    CompleteIffAllBytes(|msg|, s.got);
  }

  class MediumRecv {
    const mem: array<Byte>
    const msgLength: nat
    var target: Target
    var got: set<nat>
    var accumulated: nat
    var unexpected: bool
    var partial: bool
    ghost const msg: seq<Byte>
    ghost var completions: nat

    ghost function Now(): Reception
      reads this
    {
      Reception(got, accumulated, !unexpected, completions)
    }

    ghost predicate Valid()
      reads this, mem
    {
      && |msg| == msgLength && RequestOk(mem[..], target, msg, Now())
      && (partial <==> got != {} && accumulated != msgLength)
    }

    // omx__init_process_recv_medium, for a matched receive
    constructor Expected(mem: array<Byte>, segs: seq<Seg>, msgLength: nat, ghost msg: seq<Byte>)
      requires |msg| == msgLength > 0 && InMemory(segs, mem.Length) && Disjoint(segs) && segs != []
      ensures Valid() && this.mem == mem && this.msg == msg && target.segs == segs && target.scan == FIRST && Now() == OnPost(msgLength, NOTHING)
    {
      this.mem, this.msgLength, this.msg := mem, msgLength, msg;
      target := Target(segs, FIRST, Min(Total(segs), msgLength));
      got, accumulated, unexpected, partial, completions := {}, 0, false, false, 0;
      new;
      NoneBelow(msgLength, FragsNr(msgLength));
      NotAllMissing(msgLength);
      StartMonotone(segs, 0, 0);
    }

    // The same for a message that no receive matches, with its own buffer.
    constructor Unexpected(mem: array<Byte>, addr: nat, msgLength: nat, ghost msg: seq<Byte>)
      requires |msg| == msgLength > 0 && addr + msgLength <= mem.Length
      ensures Valid() && this.mem == mem && this.msg == msg && target.scan == UNSET && Now() == NOTHING
    {
      this.mem, this.msgLength, this.msg := mem, msgLength, msg;
      target := Target([Seg(addr, msgLength)], UNSET, msgLength);
      got, accumulated, unexpected, partial, completions := {}, 0, true, false, 0;
      new;
      NoneBelow(msgLength, FragsNr(msgLength));
      NotAllMissing(msgLength);
      OneSegment(target.segs);
    }

    // The copy part of omx__process_recv_medium_frag; says whether it stays
    // inside the segments.
    method CopyFrag(k: nat, data: seq<Byte>) returns (inside: bool)
      requires Valid() && k < FragsNr(msgLength)
      requires |data| == FragLength(msgLength, k) && k * FRAG_LENGTH_MAX + |data| <= msgLength
      requires data == msg[k * FRAG_LENGTH_MAX..k * FRAG_LENGTH_MAX + |data|]
      modifies mem, `target
      ensures inside <==> |target.segs| > 1 ==> ScanAfter(target.segs, msgLength, old(target).scan, k).place.At?
      ensures TargetOk(mem[..], old(target)) && target.segs == old(target).segs && target.xfer == old(target).xfer
      ensures target.scan == if |target.segs| > 1 then ScanAfter(target.segs, msgLength, old(target).scan, k) else old(target).scan
      ensures |target.segs| > 1 ==> PlaceOk(target.segs, target.scan)
      ensures inside ==> Placed(Flat(old(mem[..]), target.segs), Flat(mem[..], target.segs), msg, k, target.xfer)
    {
      hide *;
      Facts(k);
      var offset, n := k * FRAG_LENGTH_MAX, Chunk(msgLength, k, target.xfer);
      inside := true;
      assert data[..n] == msg[offset..offset + n];
      if |target.segs| == 1 {
        if n > 0 {
          StoreInSingle(mem[..], target.segs, offset, data[..n]);
          Store(mem, target.segs[0].addr + offset, data[..n]);
        }
      } else {
        ScanAfterIs(target.segs, msgLength, target.scan, k, target.xfer);
        var scan := PartialCopyTo(mem, target.segs, data[..n], offset, target.scan);
        target := target.(scan := scan);
        inside := scan.place.At?;
        if inside && n == 0 {
          SpliceNothing(Flat(old(mem[..]), target.segs), offset);
          assert data[..n] == [];
        }
      }
      TargetKept(old(mem[..]), mem[..], old(target), target);
      if inside {
        PlacedHere(Flat(old(mem[..]), target.segs), Flat(mem[..], target.segs), msg, k, target.xfer);
      }
    }

    lemma NowIs()
      ensures Now() == Reception(got, accumulated, !unexpected, completions)
    {
    }

    lemma Known()
      requires Valid()
      ensures |msg| == msgLength && RequestOk(mem[..], target, msg, Now()) && TargetOk(mem[..], target)
      ensures partial <==> got != {} && accumulated != msgLength
      ensures partial ==> !AllReceived(msgLength, got)
      ensures got == {} ==> !AllReceived(msgLength, got)
    {
      CompleteIffAllBytes(msgLength, got);
      NotAllMissing(msgLength);
    }

    lemma Conclude()
      requires |msg| == msgLength && RequestOk(mem[..], target, msg, Now())
      requires partial <==> got != {} && accumulated != msgLength
      ensures Valid()
    {
    }

    lemma Facts(k: nat)
      requires Valid() && k < FragsNr(msgLength)
      ensures |msg| == msgLength && RequestOk(mem[..], target, msg, Now()) && TargetOk(mem[..], target)
      ensures InMemory(target.segs, mem.Length) && Disjoint(target.segs) && target.segs != []
      ensures k * FRAG_LENGTH_MAX + FragLength(msgLength, k) <= msgLength
      ensures var n := Chunk(msgLength, k, target.xfer);
              && n <= FragLength(msgLength, k)
              && (n > 0 ==> k * FRAG_LENGTH_MAX + n <= target.xfer <= Total(target.segs) && k * FRAG_LENGTH_MAX + n <= msgLength)
              && target.xfer == Min(Total(target.segs), msgLength)
              && (|target.segs| > 1 ==> PlaceOk(target.segs, target.scan))
    {
      ChunkFits(mem[..], target, msg, Now(), k);
    }

    // omx__process_recv_medium_frag, called while the request is new or on the
    // partial queue; says whether the receive completes. Nothing is said of
    // what follows a copy that leaves the segments.
    method ProcessFrag(k: nat, data: seq<Byte>) returns (inside: bool, completed: bool)
      requires Valid() && k < FragsNr(msgLength) && (got == {} || partial)
      requires |data| == FragLength(msgLength, k) && k * FRAG_LENGTH_MAX + |data| <= msgLength
      requires data == msg[k * FRAG_LENGTH_MAX..k * FRAG_LENGTH_MAX + |data|]
      modifies this, mem
      ensures target.segs == old(target.segs) && target.xfer == old(target.xfer)
      ensures inside <==> k !in old(got) && |target.segs| > 1 ==> ScanAfter(target.segs, msgLength, old(target.scan), k).place.At?
      ensures inside ==> Valid() && Now() == OnFrag(msgLength, old(Now()), k)
      ensures inside ==> completions == old(completions) + if completed then 1 else 0
      ensures k in old(got) ==> mem[..] == old(mem[..]) && target == old(target)
      ensures k !in old(got) && |target.segs| > 1 ==> target.scan == ScanAfter(target.segs, msgLength, old(target.scan), k)
      ensures TargetOk(old(mem[..]), target) && TargetOk(mem[..], target)
      ensures inside && k !in old(got) ==> Placed(Flat(old(mem[..]), target.segs), Flat(mem[..], target.segs), msg, k, target.xfer)
    {
      hide *;
      Facts(k);
      NowIs();
      Known();
      NewFrag(msgLength, Now(), k);
      if k in got {
        return true, false;
      }
      ghost var was := Now();
      inside := CopyFrag(k, data);
      TargetKept(old(mem[..]), mem[..], old(target), target);
      if !inside {
        return false, false;
      }
      FragStored(old(mem[..]), mem[..], old(target), msg, was, k, target);
      got := got + {k};
      accumulated := accumulated + |data|;
      partial := accumulated != msgLength;
      completed := !partial && !unexpected;
      if completed {
        completions := completions + 1;
      }
      NowIs();
      Conclude();
    }

    // The medium part of omx__complete_unexp_req_as_irecv: a posted receive
    // takes the message over, whatever has come of it so far. Says whether the
    // receive completes.
    method Bind(segs: seq<Seg>) returns (completed: bool)
      requires Valid() && unexpected && got != {}
      requires InMemory(segs, mem.Length) && Disjoint(segs) && segs != []
      modifies this, mem
      ensures Valid() && target.segs == segs && target.scan == UNSET && Now() == OnPost(msgLength, old(Now()))
      ensures completions == old(completions) + if completed then 1 else 0
    {
      hide *;
      NowIs();
      Known();
      ghost var was, before := Now(), mem[..];
      OnPostIs(msgLength, was);
      var xfer := Min(Total(segs), msgLength);
      Waiting(mem[..], target, msg, was, segs);
      UnsetOk(segs);
      Buffered(mem[..], target, xfer);
      var data := mem[target.segs[0].addr..target.segs[0].addr + xfer];
      CopyTo(mem, segs, data);
      TakeOfSplice(Flat(before, segs), data);
      ghost var t := target;
      target := target.(segs := segs, xfer := xfer);
      TargetIs(mem[..], target);
      Rebound(before, mem[..], t, target, msg, was);
      unexpected := false;
      completed := !partial;
      if completed {
        completions := completions + 1;
      }
      NowIs();
      Conclude();
    }
  }

  // The sender: the first fragments are in their slots of the send queue.
  ghost predicate Cut(sendq: seq<Byte>, msg: seq<Byte>, slots: seq<nat>, n: nat) {
    && n <= |slots| == FragsNr(|msg|)
    && (forall k :: 0 <= k < |slots| ==> slots[k] * FRAG_LENGTH_MAX + FRAG_LENGTH_MAX <= |sendq|)
    && (forall k: nat :: k < n ==> SlotHolds(sendq, msg, slots[k], k))
  }

  ghost predicate SlotHolds(sendq: seq<Byte>, msg: seq<Byte>, slot: nat, k: nat) {
    && k < FragsNr(|msg|) && slot * FRAG_LENGTH_MAX + FRAG_LENGTH_MAX <= |sendq|
    && var len := FragLength(|msg|, k);
       && k * FRAG_LENGTH_MAX + len <= |msg|
       && sendq[slot * FRAG_LENGTH_MAX..slot * FRAG_LENGTH_MAX + len] == msg[k * FRAG_LENGTH_MAX..k * FRAG_LENGTH_MAX + len]
  }

  // Bytes outside the slots of the message are not touched.
  ghost predicate OtherSlotsKept(was: seq<Byte>, now: seq<Byte>, slots: seq<nat>) {
    |was| == |now| && forall i :: 0 <= i < |was| && i / FRAG_LENGTH_MAX !in slots ==> now[i] == was[i]
  }

  function FragBytes(msg: seq<Byte>, k: nat): (data: seq<Byte>)
    requires k < FragsNr(|msg|)
    ensures |data| == FragLength(|msg|, k)
  {
    msg[k * FRAG_LENGTH_MAX..k * FRAG_LENGTH_MAX + FragLength(|msg|, k)]
  }

  lemma CutMore(sendq: seq<Byte>, msg: seq<Byte>, slots: seq<nat>, n: nat)
    requires Cut(sendq, msg, slots, n) && n < |slots|
    requires forall i, j :: 0 <= i < j < |slots| ==> slots[i] != slots[j]
    ensures slots[n] * FRAG_LENGTH_MAX + FRAG_LENGTH_MAX <= |sendq|
    ensures Cut(Splice(sendq, slots[n] * FRAG_LENGTH_MAX, FragBytes(msg, n)), msg, slots, n + 1)
  {
    hide Splice, SlotHolds;
    var at, data := slots[n] * FRAG_LENGTH_MAX, FragBytes(msg, n);
    forall k: nat | k < n
      ensures SlotHolds(Splice(sendq, at, data), msg, slots[k], k)
    {
      assert SlotHolds(sendq, msg, slots[k], k);
      SlotApart(sendq, msg, slots[k], k, slots[n], data);
    }
    SlotFilled(sendq, msg, slots[n], n);
  }

  lemma SlotApart(sendq: seq<Byte>, msg: seq<Byte>, slot: nat, k: nat, other: nat, data: seq<Byte>)
    requires SlotHolds(sendq, msg, slot, k) && other != slot && |data| <= FRAG_LENGTH_MAX && other * FRAG_LENGTH_MAX + FRAG_LENGTH_MAX <= |sendq|
    ensures SlotHolds(Splice(sendq, other * FRAG_LENGTH_MAX, data), msg, slot, k)
  {
    SpliceElsewhere(sendq, other * FRAG_LENGTH_MAX, data, Seg(slot * FRAG_LENGTH_MAX, FragLength(|msg|, k)));
  }

  lemma SlotFilled(sendq: seq<Byte>, msg: seq<Byte>, slot: nat, k: nat)
    requires k < FragsNr(|msg|) && slot * FRAG_LENGTH_MAX + FRAG_LENGTH_MAX <= |sendq|
    ensures SlotHolds(Splice(sendq, slot * FRAG_LENGTH_MAX, FragBytes(msg, k)), msg, slot, k)
  {
    var data := FragBytes(msg, k);
    assert Splice(sendq, slot * FRAG_LENGTH_MAX, data)[slot * FRAG_LENGTH_MAX..slot * FRAG_LENGTH_MAX + |data|] == data;
  }

  lemma OthersStay(was: seq<Byte>, sendq: seq<Byte>, slots: seq<nat>, n: nat, data: seq<Byte>)
    requires OtherSlotsKept(was, sendq, slots) && n < |slots| && slots[n] * FRAG_LENGTH_MAX + FRAG_LENGTH_MAX <= |sendq| && |data| <= FRAG_LENGTH_MAX
    ensures OtherSlotsKept(was, Splice(sendq, slots[n] * FRAG_LENGTH_MAX, data), slots)
  {
    assert slots[n] in slots;
  }

  lemma TakeSlice(buf: seq<Byte>, n: nat, i: nat, j: nat)
    requires i <= j <= n <= |buf|
    ensures buf[..n][i..j] == buf[i..j]
  {
  }

  // Fragment k is the stretch of the flattened buffer the cursor is at.
  lemma FragSource(mem: seq<Byte>, segs: seq<Seg>, length: nat, k: nat)
    requires InMemory(segs, |mem|) && length <= Total(segs) && k < FragsNr(length)
    ensures k * FRAG_LENGTH_MAX + FragLength(length, k) <= length
    ensures FragBytes(Flat(mem, segs)[..length], k) == Flat(mem, segs)[k * FRAG_LENGTH_MAX..k * FRAG_LENGTH_MAX + FragLength(length, k)]
  {
    var flat, i := Flat(mem, segs), k * FRAG_LENGTH_MAX;
    var j := i + FragLength(length, k);
    hide Flat, Total;
    TakeSlice(flat, length, i, j);
  }

  // In a contiguous message it is also a stretch of memory.
  lemma SingleSource(mem: seq<Byte>, segs: seq<Seg>, length: nat, k: nat)
    requires InMemory(segs, |mem|) && |segs| == 1 && length <= Total(segs) && k < FragsNr(length)
    ensures segs[0].addr + k * FRAG_LENGTH_MAX + FragLength(length, k) <= |mem|
    ensures k * FRAG_LENGTH_MAX + FragLength(length, k) <= length
    ensures mem[segs[0].addr + k * FRAG_LENGTH_MAX..segs[0].addr + k * FRAG_LENGTH_MAX + FragLength(length, k)]
         == Flat(mem, segs)[k * FRAG_LENGTH_MAX..k * FRAG_LENGTH_MAX + FragLength(length, k)]
  {
    hide Flat, InMemory, Total;
    SinglePiece(mem, segs, k * FRAG_LENGTH_MAX, FragLength(length, k));
  }

  lemma SinglePiece(mem: seq<Byte>, segs: seq<Seg>, off: nat, n: nat)
    requires InMemory(segs, |mem|) && |segs| == 1 && n > 0 && off + n <= Total(segs)
    ensures segs[0].addr + off + n <= |mem|
    ensures mem[segs[0].addr + off..segs[0].addr + off + n] == Flat(mem, segs)[off..off + n]
  {
    hide *;
    OneSegment(segs);
    InFirst(segs, |mem|, off);
    PieceInside(mem, segs, 0, off, n, off);
  }

  lemma CursorReady(segs: seq<Seg>, c: Cursor, offset: nat, n: nat)
    requires ScanOk(segs, c, offset) && n > 0 && offset + n <= Total(segs)
    ensures CursorOk(segs, c) && Position(segs, c) == offset && CanCopy(segs, c, n)
  {
    StartEnd(segs);
  }

  lemma CutStart(sendq: seq<Byte>, msg: seq<Byte>, slots: seq<nat>, segs: seq<Seg>)
    requires |slots| == FragsNr(|msg|) && segs != []
    requires forall k :: 0 <= k < |slots| ==> slots[k] * FRAG_LENGTH_MAX + FRAG_LENGTH_MAX <= |sendq|
    ensures Cut(sendq, msg, slots, 0) && OtherSlotsKept(sendq, sendq, slots) && ScanOk(segs, Cursor(0, 0), 0)
  {
  }

  lemma SlotRoom(sendq: seq<Byte>, msg: seq<Byte>, slots: seq<nat>, n: nat)
    requires Cut(sendq, msg, slots, n) && n < |slots|
    ensures slots[n] * FRAG_LENGTH_MAX + FRAG_LENGTH_MAX <= |sendq|
  {
  }

  lemma RemainingChunk(length: nat, k: nat)
    requires k < FragsNr(length)
    ensures FragLength(length, k) == Min(FRAG_LENGTH_MAX, length - k * FRAG_LENGTH_MAX)
    ensures k + 1 < FragsNr(length) ==> FragLength(length, k) == FRAG_LENGTH_MAX
    ensures 0 < FragLength(length, k) <= FRAG_LENGTH_MAX
    ensures (k + 1) * FRAG_LENGTH_MAX == k * FRAG_LENGTH_MAX + FRAG_LENGTH_MAX
  {
  }

  // The copies of omx__post_isend_mediumsq, the first time a message is
  // posted: fragment k goes to slot k of the message.
  method CutMessage(mem: seq<Byte>, segs: seq<Seg>, length: nat, sendq: array<Byte>, slots: seq<nat>)
    requires InMemory(segs, |mem|) && segs != [] && length <= Total(segs) && |slots| == FragsNr(length)
    requires forall k :: 0 <= k < |slots| ==> slots[k] * FRAG_LENGTH_MAX + FRAG_LENGTH_MAX <= sendq.Length
    requires forall i, j :: 0 <= i < j < |slots| ==> slots[i] != slots[j]
    modifies sendq
    ensures Cut(sendq[..], Flat(mem, segs)[..length], slots, |slots|)
    ensures OtherSlotsKept(old(sendq[..]), sendq[..], slots)
  {
    hide Cut, OtherSlotsKept, ScanOk, InMemory, Total, Flat, FragBytes, FragLength, FragsNr, CursorOk, Position, CanCopy, Min;
    ghost var msg := Flat(mem, segs)[..length];
    var remaining: nat, state := length, Cursor(0, 0);
    CutStart(sendq[..], msg, slots, segs);
    for i := 0 to |slots|
      invariant i < |slots| ==> remaining == length - i * FRAG_LENGTH_MAX
      invariant i < |slots| && |segs| > 1 ==> ScanOk(segs, state, i * FRAG_LENGTH_MAX)
      invariant Cut(sendq[..], msg, slots, i) && OtherSlotsKept(old(sendq[..]), sendq[..], slots)
    {
      RemainingChunk(length, i);
      FragSource(mem, segs, length, i);
      SlotRoom(sendq[..], msg, slots, i);
      CutMore(sendq[..], msg, slots, i);
      OthersStay(old(sendq[..]), sendq[..], slots, i, FragBytes(msg, i));
      var chunk: nat := if remaining > FRAG_LENGTH_MAX then FRAG_LENGTH_MAX else remaining;
      MinIs(FRAG_LENGTH_MAX, remaining);
      if |segs| == 1 {
        SingleSource(mem, segs, length, i);
        Store(sendq, slots[i] * FRAG_LENGTH_MAX, mem[segs[0].addr + i * FRAG_LENGTH_MAX..segs[0].addr + i * FRAG_LENGTH_MAX + chunk]);
      } else {
        CursorReady(segs, state, i * FRAG_LENGTH_MAX, chunk);
        state := ContinueCopyFrom(mem, segs, sendq, slots[i] * FRAG_LENGTH_MAX, chunk, state);
      }
      remaining := remaining - chunk;
    }
  }

  lemma MinIs(a: nat, b: nat)
    ensures Min(a, b) == if b > a then a else b
  {
  }
}
