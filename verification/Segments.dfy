// Scatter and gather over the segments of a request (omx_segments.h): copies
// that start where an earlier one stopped, or search their place again.
// Memory is one array of bytes; a segment is a stretch of it.
module Segments {
  import opened Checksum

  datatype Seg = Seg(addr: nat, len: nat)

  // Overwrites the bytes of a buffer from an offset on.
  function Splice(buf: seq<Byte>, off: nat, data: seq<Byte>): (out: seq<Byte>)
    requires off + |data| <= |buf|
    ensures |out| == |buf|
  {
    buf[..off] + data + buf[off + |data|..]
  }

  lemma SpliceTwice(buf: seq<Byte>, off: nat, a: seq<Byte>, b: seq<Byte>)
    requires off + |a| + |b| <= |buf|
    ensures Splice(Splice(buf, off, a), off + |a|, b) == Splice(buf, off, a + b)
  {
  }

  function Total(segs: seq<Seg>): nat {
    if segs == [] then 0 else segs[0].len + Total(segs[1..])
  }

  // Where segment k starts in the flattened buffer.
  function Start(segs: seq<Seg>, k: nat): nat
    requires k <= |segs|
  {
    if k == 0 then 0 else segs[0].len + Start(segs[1..], k - 1)
  }

  ghost predicate InMemory(segs: seq<Seg>, size: nat) {
    forall k :: 0 <= k < |segs| ==> segs[k].addr + segs[k].len <= size
  }

  predicate Apart(s: Seg, t: Seg) {
    s.addr + s.len <= t.addr || t.addr + t.len <= s.addr
  }

  ghost predicate Disjoint(segs: seq<Seg>) {
    forall i, j :: 0 <= i < j < |segs| ==> Apart(segs[i], segs[j])
  }

  function Bytes(mem: seq<Byte>, s: Seg): (bytes: seq<Byte>)
    requires s.addr + s.len <= |mem|
    ensures |bytes| == s.len
  {
    mem[s.addr..s.addr + s.len]
  }

  // The contents of the segments, one after the other.
  ghost function Flat(mem: seq<Byte>, segs: seq<Seg>): (flat: seq<Byte>)
    requires InMemory(segs, |mem|)
    ensures |flat| == Total(segs)
  {
    if segs == [] then [] else Bytes(mem, segs[0]) + Flat(mem, segs[1..])
  }

  lemma {:induction false} StartStep(segs: seq<Seg>, k: nat)
    requires k < |segs|
    ensures Start(segs, k + 1) == Start(segs, k) + segs[k].len <= Total(segs)
  {
    if k > 0 {
      StartStep(segs[1..], k - 1);
    }
  }

  lemma {:induction false} StartEnd(segs: seq<Seg>)
    ensures Start(segs, |segs|) == Total(segs)
  {
    if segs != [] {
      StartEnd(segs[1..]);
    }
  }

  lemma {:induction false} StartMonotone(segs: seq<Seg>, j: nat, k: nat)
    requires j <= k <= |segs|
    ensures Start(segs, j) <= Start(segs, k) <= Total(segs)
  {
    if j < k {
      StartStep(segs, k - 1);
      StartMonotone(segs, j, k - 1);
    } else if k < |segs| {
      StartStep(segs, k);
    } else {
      StartEnd(segs);
    }
  }

  lemma SliceLeft(a: seq<Byte>, b: seq<Byte>, i: nat, j: nat)
    requires i <= j <= |a|
    ensures (a + b)[i..j] == a[i..j]
  {
  }

  lemma SliceRight(a: seq<Byte>, b: seq<Byte>, i: nat, j: nat)
    requires i <= j <= |b|
    ensures (a + b)[|a| + i..|a| + j] == b[i..j]
  {
  }

  lemma SliceInside(mem: seq<Byte>, s: Seg, i: nat, j: nat)
    requires s.addr + s.len <= |mem| && i <= j <= s.len
    ensures Bytes(mem, s)[i..j] == mem[s.addr + i..s.addr + j]
  {
    SliceOfSlice(mem, s.addr, s.addr + s.len, i, j);
  }

  lemma SliceOfSlice(mem: seq<Byte>, a: nat, b: nat, i: nat, j: nat)
    requires a <= b <= |mem| && i <= j <= b - a
    ensures mem[a..b][i..j] == mem[a + i..a + j]
  {
    var m, n := mem[a..b][i..j], mem[a + i..a + j];
    assert |m| == |n|;
    assert forall k :: 0 <= k < |m| ==> m[k] == n[k];
  }

  lemma FlatStep(mem: seq<Byte>, segs: seq<Seg>)
    requires InMemory(segs, |mem|) && segs != []
    ensures InMemory(segs[1..], |mem|) && Total(segs) == segs[0].len + Total(segs[1..])
    ensures Flat(mem, segs) == Bytes(mem, segs[0]) + Flat(mem, segs[1..])
  {
  }

  // A stretch of segment k, read in memory or in the flattened buffer.
  lemma {:induction false} FlatPiece(mem: seq<Byte>, segs: seq<Seg>, k: nat, i: nat, j: nat)
    requires InMemory(segs, |mem|) && k < |segs| && i <= j <= segs[k].len
    ensures segs[k].addr + j <= |mem| && Start(segs, k) + j <= Total(segs)
    ensures mem[segs[k].addr + i..segs[k].addr + j] == Flat(mem, segs)[Start(segs, k) + i..Start(segs, k) + j]
    decreases k
  {
    hide Bytes, Flat, Total;
    FlatStep(mem, segs);
    var first, tail := Bytes(mem, segs[0]), Flat(mem, segs[1..]);
    if k == 0 {
      SliceInside(mem, segs[0], i, j);
      SliceLeft(first, tail, i, j);
    } else {
      assert segs[1..][k - 1] == segs[k];
      FlatPiece(mem, segs[1..], k - 1, i, j);
      var at := Start(segs[1..], k - 1);
      SliceRight(first, tail, at + i, at + j);
    }
  }

  // Memory that changes only outside the segments leaves them as they were.
  lemma {:induction false} FlatUnchanged(mem: seq<Byte>, mem': seq<Byte>, segs: seq<Seg>)
    requires |mem'| == |mem| && InMemory(segs, |mem|)
    requires forall k :: 0 <= k < |segs| ==> Bytes(mem', segs[k]) == Bytes(mem, segs[k])
    ensures Flat(mem', segs) == Flat(mem, segs)
  {
    if segs != [] {
      FlatUnchanged(mem, mem', segs[1..]);
    }
  }

  lemma SpliceElsewhere(mem: seq<Byte>, at: nat, data: seq<Byte>, s: Seg)
    requires at + |data| <= |mem| && s.addr + s.len <= |mem| && (at + |data| <= s.addr || s.addr + s.len <= at)
    ensures Bytes(Splice(mem, at, data), s) == Bytes(mem, s)
  {
  }

  lemma SpliceInside(mem: seq<Byte>, s: Seg, off: nat, data: seq<Byte>)
    requires s.addr + s.len <= |mem| && off + |data| <= s.len
    ensures Bytes(Splice(mem, s.addr + off, data), s) == Splice(Bytes(mem, s), off, data)
  {
  }

  lemma SpliceHead(a: seq<Byte>, b: seq<Byte>, off: nat, data: seq<Byte>)
    requires off + |data| <= |a|
    ensures Splice(a, off, data) + b == Splice(a + b, off, data)
  {
  }

  lemma SpliceTail(a: seq<Byte>, b: seq<Byte>, off: nat, data: seq<Byte>)
    requires off + |data| <= |b|
    ensures a + Splice(b, off, data) == Splice(a + b, |a| + off, data)
  {
  }

  lemma WriteInFirst(mem: seq<Byte>, segs: seq<Seg>, off: nat, data: seq<Byte>)
    requires InMemory(segs, |mem|) && Disjoint(segs) && segs != [] && off + |data| <= segs[0].len
    ensures Flat(Splice(mem, segs[0].addr + off, data), segs) == Splice(Flat(mem, segs), off, data)
  {
    var mem' := Splice(mem, segs[0].addr + off, data);
    forall j | 1 <= j < |segs|
      ensures Bytes(mem', segs[j]) == Bytes(mem, segs[j])
    {
      assert Apart(segs[0], segs[j]);
      SpliceElsewhere(mem, segs[0].addr + off, data, segs[j]);
    }
    hide Splice, Bytes;
    FlatUnchanged(mem, mem', segs[1..]);
    SpliceInside(mem, segs[0], off, data);
    SpliceHead(Bytes(mem, segs[0]), Flat(mem, segs[1..]), off, data);
  }

  // Writing inside segment k is writing in the flattened buffer.
  lemma {:induction false} WriteInSegment(mem: seq<Byte>, segs: seq<Seg>, k: nat, off: nat, data: seq<Byte>)
    requires InMemory(segs, |mem|) && Disjoint(segs) && k < |segs| && off + |data| <= segs[k].len
    ensures Start(segs, k) + off + |data| <= Total(segs)
    ensures Flat(Splice(mem, segs[k].addr + off, data), segs) == Splice(Flat(mem, segs), Start(segs, k) + off, data)
  {
    hide Splice, Bytes;
    StartStep(segs, k);
    if k == 0 {
      WriteInFirst(mem, segs, off, data);
    } else {
      var mem' := Splice(mem, segs[k].addr + off, data);
      WriteInSegment(mem, segs[1..], k - 1, off, data);
      assert Apart(segs[0], segs[k]);
      SpliceElsewhere(mem, segs[k].addr + off, data, segs[0]);
      assert Flat(mem', segs) == Bytes(mem, segs[0]) + Flat(mem', segs[1..]);
      SpliceTail(Bytes(mem, segs[0]), Flat(mem, segs[1..]), Start(segs[1..], k - 1) + off, data);
    }
  }

  // The saved place of a scan: a segment and an offset in it.
  datatype Cursor = Cursor(seg: nat, offset: nat)

  predicate CursorOk(segs: seq<Seg>, c: Cursor) {
    c.seg <= |segs| && c.offset <= if c.seg < |segs| then segs[c.seg].len else 0
  }

  ghost function Position(segs: seq<Seg>, c: Cursor): nat
    requires CursorOk(segs, c)
  {
    Start(segs, c.seg) + c.offset
  }

  // The saved cursor stands for the saved offset.
  ghost predicate ScanOk(segs: seq<Seg>, c: Cursor, scanOffset: nat) {
    CursorOk(segs, c) && Position(segs, c) == scanOffset
  }

  // Where a scan is: at a cursor, or nowhere, because its pointer was never set
  // to these segments or because it was led behind the last of them.
  datatype Place = Nowhere | At(cursor: Cursor)

  // The saved place of a scan and the offset it stands for.
  datatype Scan = Scan(place: Place, offset: nat)

  ghost predicate PlaceOk(segs: seq<Seg>, s: Scan) {
    s.place.At? ==> ScanOk(segs, s.place.cursor, s.offset)
  }

  // The search for an offset from segment k on, which starts at done: each
  // segment is looked at without asking whether there is one.
  function Search(segs: seq<Seg>, k: nat, done: nat, offset: nat): Place
    requires done <= offset
    decreases |segs| - k
  {
    if k >= |segs| then Nowhere
    else if offset > done + segs[k].len then Search(segs, k + 1, done + segs[k].len, offset)
    else At(Cursor(k, offset - done))
  }

  // Copying n bytes from a cursor on: the first segment is looked at even when
  // there is nothing to copy.
  function Walk(segs: seq<Seg>, c: Cursor, n: nat): Place
    decreases |segs| - c.seg
  {
    if c.seg >= |segs| then Nowhere
    else if c.offset + n < segs[c.seg].len then At(Cursor(c.seg, c.offset + n))
    else if c.offset + n == segs[c.seg].len then At(Cursor(c.seg + 1, 0))
    else Walk(segs, Cursor(c.seg + 1, 0), c.offset + n - segs[c.seg].len)
  }

  // A partial copy at an offset: from the saved place if it is for that
  // offset, after a search otherwise.
  function Moved(segs: seq<Seg>, s: Scan, offset: nat, n: nat): Place {
    var from := if offset != s.offset then Search(segs, 0, 0, offset) else s.place;
    if from.Nowhere? then Nowhere else Walk(segs, from.cursor, n)
  }

  lemma {:induction false} SearchEnds(segs: seq<Seg>, k: nat, offset: nat)
    requires k < |segs| && Start(segs, k) <= offset
    ensures var place := Search(segs, k, Start(segs, k), offset);
      && (place.At? <==> offset <= Total(segs))
      && (place.At? ==> place.cursor.seg < |segs| && ScanOk(segs, place.cursor, offset))
    decreases |segs| - k
  {
    StartStep(segs, k);
    StartEnd(segs);
    if offset > Start(segs, k) + segs[k].len && k + 1 < |segs| {
      SearchEnds(segs, k + 1, offset);
    }
  }

  // The last segment holds no byte.
  predicate EmptyEnd(segs: seq<Seg>) {
    segs != [] && segs[|segs| - 1].len == 0
  }

  // A copy that the segments have room for leaves them only if it starts
  // behind the last one. One that fills them ends there, unless the last
  // segment is empty.
  lemma {:induction false} WalkEnds(segs: seq<Seg>, c: Cursor, n: nat)
    requires CursorOk(segs, c) && Position(segs, c) + n <= Total(segs)
    ensures var place := Walk(segs, c, n);
      && (place.At? <==> c.seg < |segs|)
      && (place.At? ==> ScanOk(segs, place.cursor, Position(segs, c) + n))
      && (place.At? && n > 0 && Position(segs, c) + n == Total(segs) ==> (place.cursor.seg == |segs| <==> !EmptyEnd(segs)))
    decreases |segs| - c.seg
  {
    StartEnd(segs);
    if c.seg < |segs| {
      StartStep(segs, c.seg);
      if c.offset + n > segs[c.seg].len {
        assert c.seg + 1 < |segs|;
        WalkEnds(segs, Cursor(c.seg + 1, 0), c.offset + n - segs[c.seg].len);
      } else if c.offset + n == segs[c.seg].len && c.seg + 1 < |segs| {
        StartMonotone(segs, c.seg + 1, |segs| - 1);
        StartStep(segs, |segs| - 1);
      }
    }
  }

  // Exactly when a partial copy leaves the segments.
  lemma LeavesSegments(segs: seq<Seg>, s: Scan, offset: nat, n: nat)
    requires segs != [] && PlaceOk(segs, s) && (n == 0 || offset + n <= Total(segs))
    ensures Moved(segs, s, offset, n).Nowhere? <==>
      || offset > Total(segs)
      || (offset == s.offset && (s.place.Nowhere? || (n == 0 && s.place.cursor.seg == |segs|)))
    ensures Moved(segs, s, offset, n).At? ==>
      offset + n <= Total(segs) && PlaceOk(segs, Scan(Moved(segs, s, offset, n), offset + n))
    ensures Moved(segs, s, offset, n).At? && n > 0 && offset + n == Total(segs) ==>
      (Moved(segs, s, offset, n).cursor.seg == |segs| <==> !EmptyEnd(segs))
  {
    StartEnd(segs);
    SearchEnds(segs, 0, offset);
    var from := if offset != s.offset then Search(segs, 0, 0, offset) else s.place;
    if from.At? {
      if from.cursor.seg < |segs| {
        StartMonotone(segs, from.cursor.seg, |segs|);
        StartStep(segs, from.cursor.seg);
      }
      WalkEnds(segs, from.cursor, n);
    }
  }

  // Two segments of 2048 bytes and a message of 8192: once the first fragment
  // has filled them, the empty copy for the second one starts behind them.
  lemma EmptyCopyLeavesSegments()
    ensures var segs := [Seg(0, 2048), Seg(2048, 2048)];
      && Moved(segs, Scan(At(Cursor(0, 0)), 0), 0, 4096) == At(Cursor(2, 0))
      && Moved(segs, Scan(At(Cursor(2, 0)), 4096), 4096, 0) == Nowhere
      && Total(segs) == 4096
  {
    var segs := [Seg(0, 2048), Seg(2048, 2048)];
    assert segs[1..] == [segs[1]] && segs[1..][1..] == [];
    assert Walk(segs, Cursor(1, 0), 2048) == At(Cursor(2, 0));
  }

  // memcpy
  method Store(mem: array<Byte>, at: nat, data: seq<Byte>)
    requires at + |data| <= mem.Length
    modifies mem
    ensures mem[..] == Splice(old(mem[..]), at, data)
  {
    for i := 0 to |data|
      invariant forall j :: 0 <= j < mem.Length ==> mem[j] == if at <= j < at + i then data[j - at] else old(mem[j])
    {
      mem[at + i] := data[i];
    }
  }

  // What the copies ask of their caller: a segment to start in, and enough
  // bytes left in the segments.
  ghost predicate CanCopy(segs: seq<Seg>, c: Cursor, length: nat)
    requires CursorOk(segs, c)
  {
    c.seg < |segs| && Position(segs, c) + length <= Total(segs)
  }

  // The first d bytes of some data are in their place in a buffer.
  ghost predicate Copied(now: seq<Byte>, was: seq<Byte>, pos: nat, data: seq<Byte>, d: nat) {
    pos + |data| <= |was| && d <= |data| && now == Splice(was, pos, data[..d])
  }

  lemma CopiedMore(now: seq<Byte>, was: seq<Byte>, pos: nat, data: seq<Byte>, d: nat, n: nat)
    requires Copied(now, was, pos, data, d) && d + n <= |data|
    ensures pos + d + n <= |now| && Copied(Splice(now, pos + d, data[d..d + n]), was, pos, data, d + n)
  {
    SpliceTwice(was, pos, data[..d], data[d..d + n]);
    assert data[..d] + data[d..d + n] == data[..d + n];
  }

  lemma CopiedBounds(was: seq<Byte>, pos: nat, data: seq<Byte>)
    requires pos + |data| <= |was|
    ensures Copied(was, was, pos, data, 0)
    ensures forall now :: Copied(now, was, pos, data, |data|) ==> now == Splice(was, pos, data)
  {
    assert data[..|data|] == data;
  }

  // The same, for the flattened contents of the segments.
  ghost predicate Scattered(mem: seq<Byte>, segs: seq<Seg>, was: seq<Byte>, pos: nat, src: seq<Byte>, d: nat) {
    InMemory(segs, |mem|) && Copied(Flat(mem, segs), was, pos, src, d)
  }

  lemma ScatteredAll(mem: seq<Byte>, segs: seq<Seg>, was: seq<Byte>, pos: nat, src: seq<Byte>)
    requires Scattered(mem, segs, was, pos, src, |src|)
    ensures InMemory(segs, |mem|) && pos + |src| <= |was| && Flat(mem, segs) == Splice(was, pos, src)
  {
    assert src[..|src|] == src;
  }

  lemma ScatterStart(mem: seq<Byte>, segs: seq<Seg>, src: seq<Byte>, c: Cursor)
    requires InMemory(segs, |mem|) && CursorOk(segs, c) && CanCopy(segs, c, |src|)
    ensures c.seg < |segs| && c.offset <= segs[c.seg].len && Position(segs, c) + |src| <= Total(segs)
    ensures Scattered(mem, segs, Flat(mem, segs), Position(segs, c), src, 0) && ScanOk(segs, c, Position(segs, c))
  {
    CopiedBounds(Flat(mem, segs), Position(segs, c), src);
  }

  // The first d bytes of the gathered data are in their place.
  ghost predicate Gathered(mem: seq<Byte>, segs: seq<Seg>, was: seq<Byte>, pos: nat, data: seq<Byte>, now: seq<Byte>, base: nat, d: nat) {
    && InMemory(segs, |mem|) && pos + |data| <= Total(segs) && data == Flat(mem, segs)[pos..pos + |data|]
    && Copied(now, was, base, data, d)
  }

  lemma GatherStart(mem: seq<Byte>, segs: seq<Seg>, was: seq<Byte>, base: nat, length: nat, c: Cursor)
    requires InMemory(segs, |mem|) && CursorOk(segs, c) && CanCopy(segs, c, length) && base + length <= |was|
    ensures c.seg < |segs| && c.offset <= segs[c.seg].len && Position(segs, c) + length <= Total(segs)
    ensures ScanOk(segs, c, Position(segs, c))
    ensures Gathered(mem, segs, was, Position(segs, c), Flat(mem, segs)[Position(segs, c)..Position(segs, c) + length], was, base, 0)
  {
    CopiedBounds(was, base, Flat(mem, segs)[Position(segs, c)..Position(segs, c) + length]);
  }

  lemma GatheredMore(mem: seq<Byte>, segs: seq<Seg>, k: nat, off: nat, now: seq<Byte>, base: nat, d: nat, n: nat,
                     was: seq<Byte>, data: seq<Byte>, pos: nat)
    requires Gathered(mem, segs, was, pos, data, now, base, d) && ScanOk(segs, Cursor(k, off), pos + d)
    requires k < |segs| && off + n <= segs[k].len && d + n <= |data|
    ensures segs[k].addr + off + n <= |mem| && base + d + n <= |now|
    ensures Gathered(mem, segs, was, pos, data, Splice(now, base + d, mem[segs[k].addr + off..segs[k].addr + off + n]), base, d + n)
  {
    hide Flat, Total, Start, Copied, Splice;
    PieceInside(mem, segs, k, off, n, pos + d);
    SubSlice(Flat(mem, segs), pos, pos + |data|, d, d + n);
    CopiedMore(now, was, base, data, d, n);
  }

  lemma SubSlice(buf: seq<Byte>, i: nat, j: nat, a: nat, b: nat)
    requires i <= j <= |buf| && a <= b <= j - i
    ensures buf[i..j][a..b] == buf[i + a..i + b]
  {
    assert |buf[i..j][a..b]| == b - a == |buf[i + a..i + b]|;
    forall k | 0 <= k < b - a
      ensures buf[i..j][a..b][k] == buf[i + a..i + b][k]
    {
    }
  }

  lemma PieceInside(mem: seq<Byte>, segs: seq<Seg>, k: nat, off: nat, n: nat, p: nat)
    requires InMemory(segs, |mem|) && k < |segs| && off + n <= segs[k].len && ScanOk(segs, Cursor(k, off), p)
    ensures segs[k].addr + off + n <= |mem| && p + n <= Total(segs)
    ensures mem[segs[k].addr + off..segs[k].addr + off + n] == Flat(mem, segs)[p..p + n]
  {
    hide Flat, Total, Start, InMemory;
    FlatPiece(mem, segs, k, off, off + n);
  }

  lemma GatheredAll(mem: seq<Byte>, segs: seq<Seg>, was: seq<Byte>, pos: nat, data: seq<Byte>, now: seq<Byte>, base: nat)
    requires Gathered(mem, segs, was, pos, data, now, base, |data|)
    ensures base + |data| <= |was| && now == Splice(was, base, data)
  {
    assert data[..|data|] == data;
  }

  // One chunk out of a segment, and one chunk into it. The memory copied from
  // is not written, and is passed as a value.
  method ChunkFrom(mem: seq<Byte>, segs: seq<Seg>, k: nat, off: nat, dst: array<Byte>, base: nat, d: nat, n: nat,
                   ghost was: seq<Byte>, ghost data: seq<Byte>, ghost pos: nat)
    requires Gathered(mem, segs, was, pos, data, dst[..], base, d) && ScanOk(segs, Cursor(k, off), pos + d)
    requires k < |segs| && off + n <= segs[k].len && d + n <= |data|
    modifies dst
    ensures Gathered(mem, segs, was, pos, data, dst[..], base, d + n)
  {
    hide *;
    GatheredMore(mem, segs, k, off, dst[..], base, d, n, was, data, pos);
    Store(dst, base + d, mem[segs[k].addr + off..segs[k].addr + off + n]);
  }

  lemma ScatteredMore(mem: seq<Byte>, segs: seq<Seg>, k: nat, off: nat, src: seq<Byte>, d: nat, n: nat, was: seq<Byte>, pos: nat)
    requires Scattered(mem, segs, was, pos, src, d) && Disjoint(segs)
    requires k < |segs| && off + n <= segs[k].len && d + n <= |src| && ScanOk(segs, Cursor(k, off), pos + d)
    ensures segs[k].addr + off + n <= |mem|
    ensures Scattered(Splice(mem, segs[k].addr + off, src[d..d + n]), segs, was, pos, src, d + n)
  {
    var data := src[d..d + n];
    WriteInSegment(mem, segs, k, off, data);
    CopiedMore(Flat(mem, segs), was, pos, src, d, n);
  }

  method ChunkTo(mem: array<Byte>, segs: seq<Seg>, k: nat, off: nat, src: seq<Byte>, d: nat, n: nat,
                 ghost was: seq<Byte>, ghost pos: nat)
    requires Scattered(mem[..], segs, was, pos, src, d) && Disjoint(segs)
    requires k < |segs| && off + n <= segs[k].len && d + n <= |src| && ScanOk(segs, Cursor(k, off), pos + d)
    modifies mem
    ensures Scattered(mem[..], segs, was, pos, src, d + n)
  {
    hide *;
    ScatteredMore(mem[..], segs, k, off, src, d, n, was, pos);
    Store(mem, segs[k].addr + off, src[d..d + n]);
  }

  lemma Advance(segs: seq<Seg>, c: Cursor, p: nat, n: nat)
    requires ScanOk(segs, c, p) && c.seg < |segs| && c.offset + n <= segs[c.seg].len
    ensures ScanOk(segs, Cursor(c.seg, c.offset + n), p + n)
    ensures c.offset + n == segs[c.seg].len ==> ScanOk(segs, Cursor(c.seg + 1, 0), p + n)
    ensures c.offset + n == segs[c.seg].len && p + n < Total(segs) ==> c.seg + 1 < |segs|
  {
    StartStep(segs, c.seg);
    StartEnd(segs);
  }

  // omx_continue_partial_copy_from_segments: gathers the bytes that follow the
  // cursor, from dst[base] on, and moves the cursor behind them.
  method ContinueCopyFrom(mem: seq<Byte>, segs: seq<Seg>, dst: array<Byte>, base: nat, length: nat, c: Cursor) returns (c': Cursor)
    requires InMemory(segs, |mem|) && CursorOk(segs, c) && CanCopy(segs, c, length) && base + length <= dst.Length
    modifies dst
    ensures ScanOk(segs, c', Position(segs, c) + length) && Position(segs, c) + length <= Total(segs)
    ensures dst[..] == Splice(old(dst[..]), base, Flat(mem, segs)[Position(segs, c)..Position(segs, c) + length])
  {
    hide *;
    GatherStart(mem, segs, dst[..], base, length, c);
    ghost var pos := Position(segs, c);
    ghost var data, was := Flat(mem, segs)[pos..pos + length], dst[..];
    var seg: nat, off: nat, left: nat, d: nat := c.seg, c.offset, length, 0;
    while true
      invariant seg < |segs| && off <= segs[seg].len && d + left == length == |data|
      invariant ScanOk(segs, Cursor(seg, off), pos + d) && Gathered(mem, segs, was, pos, data, dst[..], base, d)
      decreases |segs| - seg
    {
      var curchunk := segs[seg].len - off;
      var chunk := if curchunk > left then left else curchunk;
      Advance(segs, Cursor(seg, off), pos + d, chunk);
      ChunkFrom(mem, segs, seg, off, dst, base, d, chunk, was, data, pos);
      left, d := left - chunk, d + chunk;
      if curchunk != chunk {
        off := off + chunk;
        break;
      }
      seg, off := seg + 1, 0;
      if left == 0 {
        break;
      }
    }
    c' := Cursor(seg, off);
    GatheredAll(mem, segs, was, pos, data, dst[..], base);
  }

  lemma WalkStep(segs: seq<Seg>, c: Cursor, n: nat)
    requires c.seg < |segs| && c.offset <= segs[c.seg].len
    ensures var cur := segs[c.seg].len - c.offset;
      Walk(segs, c, n) == if n < cur then At(Cursor(c.seg, c.offset + n))
        else if n == cur then At(Cursor(c.seg + 1, 0)) else Walk(segs, Cursor(c.seg + 1, 0), n - cur)
  {
  }

  // omx_continue_partial_copy_to_segments: scatters the data behind the cursor.
  method ContinueCopyTo(mem: array<Byte>, segs: seq<Seg>, src: seq<Byte>, c: Cursor) returns (c': Cursor)
    requires InMemory(segs, mem.Length) && Disjoint(segs) && CursorOk(segs, c) && CanCopy(segs, c, |src|)
    modifies mem
    ensures Walk(segs, c, |src|) == At(c') && ScanOk(segs, c', Position(segs, c) + |src|)
    ensures InMemory(segs, |mem[..]|)
    ensures Flat(mem[..], segs) == Splice(Flat(old(mem[..]), segs), Position(segs, c), src)
  {
    hide *;
    ghost var pos := Position(segs, c);
    ghost var flat := Flat(mem[..], segs);
    var seg: nat, off: nat, left: nat, d: nat := c.seg, c.offset, |src|, 0;
    ScatterStart(mem[..], segs, src, c);
    while true
      invariant seg < |segs| && off <= segs[seg].len && d + left == |src|
      invariant Walk(segs, c, |src|) == Walk(segs, Cursor(seg, off), left)
      invariant ScanOk(segs, Cursor(seg, off), pos + d) && Scattered(mem[..], segs, flat, pos, src, d)
      decreases |segs| - seg
    {
      var curchunk := segs[seg].len - off;
      var chunk := if curchunk > left then left else curchunk;
      Advance(segs, Cursor(seg, off), pos + d, chunk);
      WalkStep(segs, Cursor(seg, off), left);
      ChunkTo(mem, segs, seg, off, src, d, chunk, flat, pos);
      left, d := left - chunk, d + chunk;
      if curchunk != chunk {
        off := off + chunk;
        break;
      }
      seg, off := seg + 1, 0;
      if left == 0 {
        break;
      }
    }
    c' := Cursor(seg, off);
    ScatteredAll(mem[..], segs, flat, pos, src);
  }

  // The search part of omx_partial_copy_to_segments. Where the source would
  // look at a segment behind the last one the model stops.
  method Rescan(segs: seq<Seg>, offset: nat) returns (place: Place)
    ensures place == Search(segs, 0, 0, offset)
  {
    var seg: nat, curoffset: nat := 0, 0;
    while seg < |segs| && offset > curoffset + segs[seg].len
      invariant curoffset <= offset && Search(segs, 0, 0, offset) == Search(segs, seg, curoffset, offset)
      decreases |segs| - seg
    {
      curoffset, seg := curoffset + segs[seg].len, seg + 1;
    }
    place := if seg < |segs| then At(Cursor(seg, offset - curoffset)) else Nowhere;
  }

  // omx_partial_copy_to_segments: copies to an offset, unless that leaves the
  // segments; what the source does then is not said.
  method PartialCopyTo(mem: array<Byte>, segs: seq<Seg>, src: seq<Byte>, offset: nat, s: Scan) returns (s': Scan)
    requires InMemory(segs, mem.Length) && Disjoint(segs) && segs != [] && PlaceOk(segs, s)
    requires src == [] || offset + |src| <= Total(segs)
    modifies mem
    ensures s' == Scan(Moved(segs, s, offset, |src|), offset + |src|) && PlaceOk(segs, s')
    ensures s'.place.At? ==>
      offset + |src| <= Total(segs) && Flat(mem[..], segs) == Splice(Flat(old(mem[..]), segs), offset, src)
  {
    hide *;
    var place := s.place;
    if offset != s.offset {
      place := Rescan(segs, offset);
    }
    MovedFrom(segs, s, offset, |src|, place);
    if place.Nowhere? || place.cursor.seg >= |segs| {
      return Scan(Nowhere, offset + |src|);
    }
    var c := ContinueCopyTo(mem, segs, src, place.cursor);
    s' := Scan(At(c), offset + |src|);
  }

  // The copy starts at the saved place or at the one found.
  lemma MovedFrom(segs: seq<Seg>, s: Scan, offset: nat, n: nat, from: Place)
    requires segs != [] && PlaceOk(segs, s) && (n == 0 || offset + n <= Total(segs))
    requires from == if offset != s.offset then Search(segs, 0, 0, offset) else s.place
    ensures var place := Moved(segs, s, offset, n);
      && (from.Nowhere? || from.cursor.seg >= |segs| ==> place == Nowhere)
      && (from.At? ==> place == Walk(segs, from.cursor, n))
      && (place.At? ==> offset + n <= Total(segs))
      && PlaceOk(segs, Scan(place, offset + n))
    ensures from.At? && from.cursor.seg < |segs| ==>
      && CursorOk(segs, from.cursor) && Position(segs, from.cursor) == offset && CanCopy(segs, from.cursor, n)
  {
    LeavesSegments(segs, s, offset, n);
    SearchEnds(segs, 0, offset);
  }

  lemma CursorStart(segs: seq<Seg>, length: nat)
    requires segs != [] && length <= Total(segs)
    ensures CursorOk(segs, Cursor(0, 0)) && Position(segs, Cursor(0, 0)) == 0 && CanCopy(segs, Cursor(0, 0), length)
  {
  }

  lemma InFirst(segs: seq<Seg>, size: nat, off: nat)
    requires segs != [] && InMemory(segs, size) && off <= segs[0].len
    ensures ScanOk(segs, Cursor(0, off), off) && Start(segs, 0) == 0 && segs[0].addr + segs[0].len <= size
  {
  }

  lemma OneSegment(segs: seq<Seg>)
    requires |segs| == 1
    ensures segs[0].len == Total(segs)
  {
    assert segs[1..] == [];
  }

  // omx_copy_to_segments: scatters from the beginning.
  method CopyTo(mem: array<Byte>, segs: seq<Seg>, src: seq<Byte>)
    requires InMemory(segs, mem.Length) && Disjoint(segs) && segs != [] && |src| <= Total(segs)
    modifies mem
    ensures InMemory(segs, |mem[..]|) && Flat(mem[..], segs) == Splice(Flat(old(mem[..]), segs), 0, src)
  {
    hide *;
    ghost var flat := Flat(mem[..], segs);
    CursorStart(segs, |src|);
    ScatterStart(mem[..], segs, src, Cursor(0, 0));
    if |segs| == 1 {
      OneSegment(segs);
      ChunkTo(mem, segs, 0, 0, src, 0, |src|, flat, 0);
      ScatteredAll(mem[..], segs, flat, 0, src);
      return;
    }
    var k: nat, d: nat := 0, 0;
    while d < |src|
      invariant d <= |src| && (d < |src| ==> k < |segs| && ScanOk(segs, Cursor(k, 0), d))
      invariant Scattered(mem[..], segs, flat, 0, src, d)
      decreases |segs| - k
    {
      var left := |src| - d;
      var chunk := if segs[k].len > left then left else segs[k].len;
      Advance(segs, Cursor(k, 0), d, chunk);
      ChunkTo(mem, segs, k, 0, src, d, chunk, flat, 0);
      d, k := d + chunk, k + 1;
    }
    ScatteredAll(mem[..], segs, flat, 0, src);
  }

  // Adds byte j of segment k to the checksum of what comes before it.
  lemma CrcStep(mem: seq<Byte>, segs: seq<Seg>, k: nat, j: nat, done: nat)
    requires InMemory(segs, |mem|) && k < |segs| && j < segs[k].len && ScanOk(segs, Cursor(k, 0), done)
    ensures done + j < Total(segs) && segs[k].addr + j < |mem|
    ensures Crc(ZERO, Flat(mem, segs)[..done + j + 1]) == CrcByte(Crc(ZERO, Flat(mem, segs)[..done + j]), mem[segs[k].addr + j])
  {
    hide *;
    Advance(segs, Cursor(k, 0), done, j);
    PieceInside(mem, segs, k, j, 1, done + j);
    CrcAppend(Flat(mem, segs), done + j, mem[segs[k].addr + j]);
  }

  lemma CrcAppend(data: seq<Byte>, i: nat, b: Byte)
    requires i < |data| && data[i..i + 1][0] == b
    ensures Crc(ZERO, data[..i + 1]) == CrcByte(Crc(ZERO, data[..i]), b)
  {
    hide *;
    CrcMore(ZERO, data[..i], b);
    assert data[..i + 1] == data[..i] + [b];
  }

  // omx_checksum_segments: the checksum of the first bytes of the flattened
  // buffer, however it is cut.
  method ChecksumSegments(mem: seq<Byte>, segs: seq<Seg>, length: nat) returns (crc: Word)
    requires InMemory(segs, |mem|)
    ensures crc == Crc(ZERO, Flat(mem, segs)[..if length < Total(segs) then length else Total(segs)])
  {
    hide *;
    crc := ZERO;
    var left: nat, seg: nat := length, 0;
    ghost var done: nat := 0;
    ghost var flat := Flat(mem, segs);
    CrcStart(segs, flat);
    while seg < |segs| && left > 0
      invariant seg <= |segs| && done + left == length && done <= |flat|
      invariant left > 0 ==> ScanOk(segs, Cursor(seg, 0), done) && (seg == |segs| ==> done == |flat|)
      invariant crc == Crc(ZERO, flat[..done])
    {
      var chunk := if segs[seg].len > left then left else segs[seg].len;
      SegmentInside(segs, seg, |mem|, done);
      for j := 0 to chunk
        invariant crc == Crc(ZERO, flat[..done + j])
      {
        CrcStep(mem, segs, seg, j, done);
        crc := ChecksumByte(crc, mem[segs[seg].addr + j]);
      }
      left, seg, done := left - chunk, seg + 1, done + chunk;
    }
  }

  lemma CrcStart(segs: seq<Seg>, flat: seq<Byte>)
    requires |flat| == Total(segs)
    ensures ScanOk(segs, Cursor(0, 0), 0) && (segs == [] ==> |flat| == 0) && Crc(ZERO, flat[..0]) == ZERO
  {
  }

  lemma SegmentInside(segs: seq<Seg>, k: nat, size: nat, done: nat)
    requires k < |segs| && InMemory(segs, size) && ScanOk(segs, Cursor(k, 0), done)
    ensures segs[k].addr + segs[k].len <= size && done + segs[k].len <= Total(segs)
    ensures ScanOk(segs, Cursor(k + 1, 0), done + segs[k].len)
    ensures k + 1 == |segs| ==> done + segs[k].len == Total(segs)
  {
    StartStep(segs, k);
    StartEnd(segs);
  }
}
