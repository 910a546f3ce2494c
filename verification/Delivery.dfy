// What arrives in the buffers of the receives: the guarantee of Protocol on
// bytes, over every run and for every choice of receives.
module Delivery {
  import opened Checksum
  import opened Segments
  import opened SeqNum
  import opened Fragments
  import opened RecvSpec
  import opened Protocol
  import opened Collections
  import Medium

  // Where a message goes: the buffer of the receive it is bound to, or one of
  // its own length until a receive takes it over. Segments are flattened, and
  // no copy leaves them, see Medium.PostedStaysInside.
  datatype Inbox = Inbox(bytes: seq<Byte>, bound: bool)

  // contents[n - 1] is the message sent under number n.
  datatype Transfer = Transfer(s: System, contents: seq<seq<Byte>>, inbox: map<nat, Inbox>)

  const NOTHING_SENT := Transfer(INITIAL, [], map[])

  datatype Action =
    | Step(e: Event, content: seq<Byte>, starts: map<nat, Inbox>)   // of the protocol, with what is sent, or the buffers of messages matched
    | Bind(number: nat, buffer: seq<Byte>)                          // a receive takes an unexpected message over

  predicate HasData(kind: Kind) {
    kind.Tiny? || kind.Small? || kind.Medium?
  }

  // The bytes a packet carries.
  function Payload(msg: Message, content: seq<Byte>, frag: nat): seq<Byte>
    requires |content| == msg.length && frag < PacketsNr(msg)
  {
    if msg.kind.Medium? then content[frag * FRAG_LENGTH_MAX..frag * FRAG_LENGTH_MAX + FragLength(msg.length, frag)] else content
  }

  function Offset(msg: Message, frag: nat): nat {
    if msg.kind.Medium? then frag * FRAG_LENGTH_MAX else 0
  }

  function Transferred(box: Inbox, content: seq<Byte>): (n: nat)
    ensures n <= |box.bytes| && n <= |content|
  {
    Medium.Min(|box.bytes|, |content|)
  }

  // The part of them that fits is copied to its place.
  function Placed(box: Inbox, msg: Message, content: seq<Byte>, frag: nat): (out: Inbox)
    requires |content| == msg.length && frag < PacketsNr(msg)
    ensures |out.bytes| == |box.bytes| && out.bound == box.bound
  {
    var offset, data := Offset(msg, frag), Payload(msg, content, frag);
    var n := Medium.XferChunk(offset, |data|, Transferred(box, content));
    if n == 0 then box else box.(bytes := Splice(box.bytes, offset, data[..n]))
  }

  // Whether a packet that is not early is taken, and not dropped.
  predicate Took(r: Receiver, p: Packet, ok: bool) {
    if p.number == r.nextMatch then p.msg.kind.Notify? || ok
    else
      && p.msg.kind.Medium? && r.nextFrag <= p.number < r.nextMatch
      && var i := IndexOf(r.partials, p.number); i < |r.partials| && p.frag !in r.partials[i].got
  }

  predicate Sent(contents: seq<seq<Byte>>, p: Packet) {
    1 <= p.number <= |contents| && |contents[p.number - 1]| == p.msg.length && p.frag < PacketsNr(p.msg)
  }

  function Stored(contents: seq<seq<Byte>>, starts: map<nat, Inbox>, inbox: map<nat, Inbox>, r: Receiver, p: Packet, ok: bool): map<nat, Inbox> {
    if !Took(r, p, ok) || !Sent(contents, p) then inbox
    else
      var box := if p.number in inbox then inbox[p.number] else if p.number in starts then starts[p.number] else Inbox([], true);
      inbox[p.number := if HasData(p.msg.kind) then Placed(box, p.msg, contents[p.number - 1], p.frag) else box]
  }

  // The buffers along RecvSpec.Drain and RecvSpec.Deliver.
  function DrainStored(contents: seq<seq<Byte>>, starts: map<nat, Inbox>, inbox: map<nat, Inbox>, r: Receiver, i: nat, limit: nat, denied: Denied): map<nat, Inbox>
    requires i <= |r.early|
    decreases |r.early| - i
  {
    if i == |r.early| then inbox
    else if r.early[i].number <= limit then
      var p, q := r.early[i], r.(early := RemoveAt(r.early, i));
      DrainStored(contents, starts, Stored(contents, starts, inbox, q, p, HasMemory(denied, p)),
                  Ordered(q, p, HasMemory(denied, p)), i, limit, denied)
    else DrainStored(contents, starts, inbox, r, i + 1, limit, denied)
  }

  function DeliverStored(contents: seq<seq<Byte>>, starts: map<nat, Inbox>, inbox: map<nat, Inbox>, r: Receiver, p: Packet, denied: Denied): map<nat, Inbox> {
    match ClassifyUnbounded(r.nextMatch, r.nextFrag, p.number)
    case Match =>
      var s, after := Ordered(r, p, HasMemory(denied, p)), Stored(contents, starts, inbox, r, p, HasMemory(denied, p));
      if s.nextMatch != r.nextMatch then DrainStored(contents, starts, after, s, 0, s.nextMatch, denied) else after
    case Within => Stored(contents, starts, inbox, r, p, HasMemory(denied, p))
    case Early => inbox
    case Previous => inbox
    case Obsolete => inbox
  }

  // A buffer of its own is as long as the message.
  predicate StartOk(sent: seq<Message>, starts: map<nat, Inbox>, n: nat) {
    n in starts && (1 <= n <= |sent| && !starts[n].bound ==> |starts[n].bytes| == sent[n - 1].length)
  }

  predicate CanDo(t: Transfer, a: Action) {
    match a
    case Step(e, content, starts) =>
      && Enabled(t.s, e)
      && (e.Send? ==> |content| == e.msg.length)
      && (e.DeliverData? ==> StartOk(t.s.sent, starts, t.s.r.nextMatch) && StartOk(t.s.sent, starts, t.s.r.nextMatch + 1))
    case Bind(n, buffer) => n in t.inbox && !t.inbox[n].bound
  }

  function Do(session: nat, t: Transfer, a: Action): Transfer
    requires session < SESSIONS && CanDo(t, a)
  {
    match a
    case Step(e, content, starts) =>
      Transfer(Apply(session, t.s, e), if e.Send? then t.contents + [content] else t.contents,
               if e.DeliverData? then DeliverStored(t.contents, starts, t.inbox, t.s.r, e.p, e.denied) else t.inbox)
    case Bind(n, buffer) =>
      var was := t.inbox[n].bytes;
      t.(inbox := t.inbox[n := Inbox(Splice(buffer, 0, was[..Medium.Min(|buffer|, |was|)]), true)])
  }

  predicate LegalRun(session: nat, t: Transfer, run: seq<Action>)
    requires session < SESSIONS
    decreases |run|
  {
    run != [] ==> CanDo(t, run[0]) && LegalRun(session, Do(session, t, run[0]), run[1..])
  }

  function Run(session: nat, t: Transfer, run: seq<Action>): Transfer
    requires session < SESSIONS && LegalRun(session, t, run)
    decreases |run|
  {
    if run == [] then t else Run(session, Do(session, t, run[0]), run[1..])
  }

  // ----- what the buffers hold -----

  // The fragments of message n that have come: all of them if it is complete.
  function GotOf(partials: seq<Partial>, n: nat, frags: nat): set<nat> {
    var i := IndexOf(partials, n);
    if i < |partials| then partials[i].got else Below(frags)
  }

  ghost predicate BoxOk(msg: Message, content: seq<Byte>, box: Inbox, got: set<nat>) {
    && |content| == msg.length && (!box.bound ==> |box.bytes| == msg.length)
    && (msg.kind.Medium? ==> Medium.Filled(box.bytes, content, got, Transferred(box, content)))
    && (msg.kind.Tiny? || msg.kind.Small? ==> box.bytes[..Transferred(box, content)] == content[..Transferred(box, content)])
  }

  ghost predicate BoxAt(sent: seq<Message>, contents: seq<seq<Byte>>, partials: seq<Partial>, inbox: map<nat, Inbox>, n: nat)
    requires 1 <= n <= |sent| == |contents|
  {
    n in inbox && BoxOk(sent[n - 1], contents[n - 1], inbox[n], GotOf(partials, n, FragsNr(sent[n - 1].length)))
  }

  ghost predicate BoxesOk(sent: seq<Message>, contents: seq<seq<Byte>>, r: Receiver, inbox: map<nat, Inbox>) {
    && |contents| == |sent| && r.nextMatch <= |sent| + 1
    && (forall i :: 0 <= i < |sent| ==> |contents[i]| == sent[i].length)
    && (forall n :: n in inbox ==> 1 <= n < r.nextMatch)
    && forall n {:trigger BoxAt(sent, contents, r.partials, inbox, n)} :: 1 <= n < r.nextMatch ==> BoxAt(sent, contents, r.partials, inbox, n)
  }

  lemma PlacedWhole(box: Inbox, msg: Message, content: seq<Byte>)
    requires |content| == msg.length && (msg.kind.Tiny? || msg.kind.Small?) && (!box.bound ==> |box.bytes| == msg.length)
    ensures BoxOk(msg, content, Placed(box, msg, content, 0), {})
  {
    var n, out := Transferred(box, content), Placed(box, msg, content, 0);
    assert out.bytes[..n] == content[..n];
  }

  lemma PlacedFrag(box: Inbox, msg: Message, content: seq<Byte>, frag: nat, got: set<nat>)
    requires msg.kind.Medium? && frag < PacketsNr(msg) && BoxOk(msg, content, box, got)
    ensures BoxOk(msg, content, Placed(box, msg, content, frag), got + {frag})
  {
    hide Splice, Medium.Filled;
    var offset, xfer := frag * FRAG_LENGTH_MAX, Transferred(box, content);
    var n := Medium.XferChunk(offset, FragLength(msg.length, frag), xfer);
    Medium.FilledMore(box.bytes, content, got, xfer, frag);
    TakeOfSlice(content, offset, FragLength(msg.length, frag), n);
  }

  lemma TakeOfSlice(content: seq<Byte>, offset: nat, len: nat, n: nat)
    requires offset + len <= |content|
    ensures n <= len ==> content[offset..offset + len][..n] == content[offset..offset + n]
  {
  }

  // Fewer fragments, less to hold.
  lemma FewerFrags(msg: Message, content: seq<Byte>, box: Inbox, got: set<nat>, fewer: set<nat>)
    requires BoxOk(msg, content, box, got) && (msg.kind.Medium? ==> fewer <= got)
    ensures BoxOk(msg, content, box, fewer)
  {
  }

  lemma EmptyBox(msg: Message, content: seq<Byte>, box: Inbox)
    requires |content| == msg.length && (!box.bound ==> |box.bytes| == msg.length) && !msg.kind.Tiny? && !msg.kind.Small?
    ensures BoxOk(msg, content, box, {})
  {
  }

  lemma NotPartial(partials: seq<Partial>, n: nat, frags: nat)
    requires forall i :: 0 <= i < |partials| ==> partials[i].number != n
    ensures GotOf(partials, n, frags) == Below(frags)
  {
    FoundAt(partials, n, |partials|);
  }

  lemma IsPartial(partials: seq<Partial>, i: nat, frags: nat)
    requires Increasing(partials) && i < |partials|
    ensures IndexOf(partials, partials[i].number) == i && GotOf(partials, partials[i].number, frags) == partials[i].got
  {
    FoundAt(partials, partials[i].number, i);
  }

  // A pending message the packet is not of stays pending, as it is.
  lemma OthersStay(r: Receiver, p: Packet, ok: bool, j: nat) returns (k: nat)
    requires j < |r.partials| && r.partials[j].number != p.number
    ensures k < |Ordered(r, p, ok).partials| && Ordered(r, p, ok).partials[k] == r.partials[j]
  {
    hide AllReceived, FirstMissing;
    var s, i := Ordered(r, p, ok), IndexOf(r.partials, p.number);
    k := j;
    if i < |r.partials| {
      RemovedIndices(r.partials, i);
      if s.partials == RemoveAt(r.partials, i) {
        k := if j > i then j - 1 else j;
      }
    }
  }

  lemma NoOthersCome(r: Receiver, p: Packet, ok: bool, k: nat)
    requires k < |Ordered(r, p, ok).partials| && Ordered(r, p, ok).partials[k].number != p.number
    ensures exists j :: 0 <= j < |r.partials| && r.partials[j] == Ordered(r, p, ok).partials[k]
  {
    hide AllReceived, FirstMissing;
    var s, i := Ordered(r, p, ok), IndexOf(r.partials, p.number);
    if i < |r.partials| { RemovedIndices(r.partials, i); }
    assert s.partials[k] in r.partials;
  }

  // Messages the packet is not of have what they had.
  lemma GotByOthers(session: nat, r: Receiver, p: Packet, ok: bool, n: nat, frags: nat)
    requires session < SESSIONS && RecvOk(session, r) && n != p.number
    requires RecvOk(session, Ordered(r, p, ok))
    ensures GotOf(Ordered(r, p, ok).partials, n, frags) == GotOf(r.partials, n, frags)
  {
    hide Ordered, GotOf, IndexOf, ValidPartial;
    var s := Ordered(r, p, ok);
    if j :| 0 <= j < |r.partials| && r.partials[j].number == n {
      IsPartial(r.partials, j, frags);
      var k := OthersStay(r, p, ok, j);
      IsPartial(s.partials, k, frags);
    } else {
      NotPartial(r.partials, n, frags);
      forall k | 0 <= k < |s.partials|
        ensures s.partials[k].number != n
      {
        if s.partials[k].number == n {
          NoOthersCome(r, p, ok, k);
        }
      }
      NotPartial(s.partials, n, frags);
    }
  }

  lemma NotTaken(r: Receiver, p: Packet, ok: bool)
    requires !Took(r, p, ok)
    ensures Ordered(r, p, ok) == r
  {
  }

  // The first packet of a message puts it in its buffer.
  lemma AcceptedBox(session: nat, sent: seq<Message>, contents: seq<seq<Byte>>, r: Receiver, p: Packet, box: Inbox)
    requires session < SESSIONS && RecvOk(session, r) && RecvOk(session, Accept(r, p)) && ValidPacket(session, p)
    requires Genuine(sent, p) && |contents| == |sent| && |contents[p.number - 1]| == p.msg.length && p.number == r.nextMatch
    requires !box.bound ==> |box.bytes| == p.msg.length
    ensures BoxOk(p.msg, contents[p.number - 1], if HasData(p.msg.kind) then Placed(box, p.msg, contents[p.number - 1], p.frag) else box,
                  GotOf(Accept(r, p).partials, p.number, FragsNr(p.msg.length)))
  {
    hide Placed, BoxOk, GotOf, RecvOk, Increasing, AllReceived, FragsNr;
    var content, s, frags := contents[p.number - 1], Accept(r, p), FragsNr(p.msg.length);
    AcceptedGot(session, r, p, frags);
    if p.msg.kind.Tiny? || p.msg.kind.Small? {
      PlacedWhole(box, p.msg, content);
      FewerFrags(p.msg, content, Placed(box, p.msg, content, p.frag), {}, GotOf(s.partials, p.number, frags));
    } else {
      EmptyBox(p.msg, content, box);
      if p.msg.kind.Medium? {
        PlacedFrag(box, p.msg, content, p.frag, {});
        FewerFrags(p.msg, content, Placed(box, p.msg, content, p.frag), {} + {p.frag}, GotOf(s.partials, p.number, frags));
      } else {
        FewerFrags(p.msg, content, box, {}, GotOf(s.partials, p.number, frags));
      }
    }
  }

  lemma AcceptedGot(session: nat, r: Receiver, p: Packet, frags: nat)
    requires session < SESSIONS && RecvOk(session, r) && RecvOk(session, Accept(r, p)) && p.number == r.nextMatch && frags == FragsNr(p.msg.length)
    ensures p.msg.kind.Medium? ==> GotOf(Accept(r, p).partials, p.number, frags) <= {p.frag}
  {
    var s := Accept(r, p);
    if s.partials == r.partials {
      NotPartial(r.partials, p.number, frags);
    } else {
      assert s.partials[|r.partials|] == Started(p);
      IsPartial(s.partials, |r.partials|, frags);
    }
  }

  // One more fragment of a message that is not complete.
  lemma ContinuedBox(session: nat, contents: seq<seq<Byte>>, r: Receiver, p: Packet, i: nat, box: Inbox)
    requires session < SESSIONS && RecvOk(session, r) && RecvOk(session, Continue(r, p)) && p.msg.kind.Medium? && p.frag < PacketsNr(p.msg)
    requires 1 <= p.number <= |contents| && |contents[p.number - 1]| == p.msg.length
    requires i == IndexOf(r.partials, p.number) < |r.partials| && r.partials[i].msg == p.msg && p.frag !in r.partials[i].got
    requires BoxOk(p.msg, contents[p.number - 1], box, r.partials[i].got)
    ensures BoxOk(p.msg, contents[p.number - 1], Placed(box, p.msg, contents[p.number - 1], p.frag),
                  GotOf(Continue(r, p).partials, p.number, FragsNr(p.msg.length)))
  {
    hide Placed, BoxOk, GotOf, RecvOk, FragsNr;
    var content, frags := contents[p.number - 1], FragsNr(p.msg.length);
    ContinuedGot(session, r, p, i, frags);
    PlacedFrag(box, p.msg, content, p.frag, r.partials[i].got);
    FewerFrags(p.msg, content, Placed(box, p.msg, content, p.frag), r.partials[i].got + {p.frag}, GotOf(Continue(r, p).partials, p.number, frags));
  }

  lemma ContinuedGot(session: nat, r: Receiver, p: Packet, i: nat, frags: nat)
    requires session < SESSIONS && RecvOk(session, r) && RecvOk(session, Continue(r, p)) && frags == FragsNr(p.msg.length)
    requires i == IndexOf(r.partials, p.number) < |r.partials| && r.partials[i].msg == p.msg && p.frag !in r.partials[i].got
    ensures GotOf(Continue(r, p).partials, p.number, frags) <= r.partials[i].got + {p.frag}
  {
    var s := Continue(r, p);
    RemovedIndices(r.partials, i);
    if AllReceived(p.msg.length, r.partials[i].got + {p.frag}) {
      NotPartial(s.partials, p.number, frags);
    } else {
      assert s.partials[i].number == p.number;
      IsPartial(s.partials, i, frags);
    }
  }

  lemma TakenBox(session: nat, sent: seq<Message>, contents: seq<seq<Byte>>, delivered: set<(nat, nat)>, starts: map<nat, Inbox>, inbox: map<nat, Inbox>,
                 r: Receiver, p: Packet, ok: bool)
    requires session < SESSIONS && RecvOk(session, r) && RecvOk(session, Ordered(r, p, ok)) && ValidPacket(session, p)
    requires Knows(sent, delivered, r) && Genuine(sent, p) && BoxesOk(sent, contents, r, inbox) && Took(r, p, ok)
    requires p.number == r.nextMatch ==> StartOk(sent, starts, p.number)
    ensures BoxAt(sent, contents, Ordered(r, p, ok).partials, Stored(contents, starts, inbox, r, p, ok), p.number)
  {
    hide Placed, BoxOk, GotOf, RecvOk, FragsNr, Accept, Continue;
    assert |contents[p.number - 1]| == sent[p.number - 1].length;
    if p.number == r.nextMatch {
      AcceptedBox(session, sent, contents, r, p, starts[p.number]);
    } else {
      var i := IndexOf(r.partials, p.number);
      assert PartialKnown(sent, delivered, r.partials[i]);
      assert BoxAt(sent, contents, r.partials, inbox, p.number);
      GotPartial(r.partials, i, FragsNr(p.msg.length));
      ContinuedBox(session, contents, r, p, i, inbox[p.number]);
    }
  }

  lemma GotPartial(partials: seq<Partial>, i: nat, frags: nat)
    requires i < |partials| && i == IndexOf(partials, partials[i].number)
    ensures GotOf(partials, partials[i].number, frags) == partials[i].got
  {
  }

  // A packet that is not early keeps the buffers right.
  lemma OrderedStores(session: nat, sent: seq<Message>, contents: seq<seq<Byte>>, delivered: set<(nat, nat)>, starts: map<nat, Inbox>, inbox: map<nat, Inbox>,
                      r: Receiver, p: Packet, ok: bool)
    requires session < SESSIONS && RecvOk(session, r) && RecvOk(session, Ordered(r, p, ok)) && ValidPacket(session, p)
    requires Knows(sent, delivered, r) && Genuine(sent, p) && BoxesOk(sent, contents, r, inbox)
    requires p.number == r.nextMatch ==> StartOk(sent, starts, p.number)
    ensures BoxesOk(sent, contents, Ordered(r, p, ok), Stored(contents, starts, inbox, r, p, ok))
  {
    hide RecvOk, BoxOk, GotOf, Placed, FragsNr, Accept, Continue, PartialKnown, Partition, CompletedKnown;
    if !Took(r, p, ok) {
      NotTaken(r, p, ok);
    } else {
      TakenBox(session, sent, contents, delivered, starts, inbox, r, p, ok);
      var s, after := Ordered(r, p, ok), Stored(contents, starts, inbox, r, p, ok);
      OrderedNext(r, p, ok);
      StoredKeys(contents, starts, inbox, r, p, ok);
      forall n {:trigger BoxAt(sent, contents, s.partials, after, n)} | 1 <= n < s.nextMatch
        ensures BoxAt(sent, contents, s.partials, after, n)
      {
        if n != p.number {
          assert BoxAt(sent, contents, r.partials, inbox, n);
          GotByOthers(session, r, p, ok, n, FragsNr(sent[n - 1].length));
        }
      }
    }
  }

  lemma StoredKeys(contents: seq<seq<Byte>>, starts: map<nat, Inbox>, inbox: map<nat, Inbox>, r: Receiver, p: Packet, ok: bool)
    requires Took(r, p, ok)
    ensures var after := Stored(contents, starts, inbox, r, p, ok);
      && (forall n :: n in after ==> n in inbox || n == p.number)
      && forall n :: n in inbox && n != p.number ==> n in after && after[n] == inbox[n]
  {
  }

  lemma {:induction false} DrainStores(session: nat, sent: seq<Message>, contents: seq<seq<Byte>>, delivered: set<(nat, nat)>, starts: map<nat, Inbox>,
                                       inbox: map<nat, Inbox>, r: Receiver, base: nat, acked: nat, i: nat, denied: Denied)
    requires session < SESSIONS && i <= |r.early| && DrainOk(session, sent, delivered, r, base, acked)
    requires forall j :: 0 <= j < i ==> r.early[j].number > base + 1
    requires BoxesOk(sent, contents, r, inbox) && r.nextMatch >= base + 1 && StartOk(sent, starts, base + 1)
    ensures BoxesOk(sent, contents, Drain(r, i, base + 1, denied), DrainStored(contents, starts, inbox, r, i, base + 1, denied))
    decreases |r.early| - i
  {
    hide BoxesOk, RecvOk, Knows, EarlyOk, Stored, StartOk, Genuine, ValidPacket;
    if i < |r.early| {
      if r.early[i].number <= base + 1 {
        var p, q := r.early[i], r.(early := RemoveAt(r.early, i));
        var ok := HasMemory(denied, p);
        TakeDue(session, sent, delivered, r, base, acked, i, ok);
        WithoutEarly(session, sent, contents, delivered, inbox, r, q, base, acked, i);
        OrderedStores(session, sent, contents, delivered, starts, inbox, q, p, ok);
        OrderedNext(q, p, ok);
        RemovedIndices(r.early, i);
        DrainStores(session, sent, contents, delivered, starts, Stored(contents, starts, inbox, q, p, ok), Ordered(q, p, ok), base, acked, i, denied);
      } else {
        DrainStores(session, sent, contents, delivered, starts, inbox, r, base, acked, i + 1, denied);
      }
    }
  }

  lemma WithoutEarly(session: nat, sent: seq<Message>, contents: seq<seq<Byte>>, delivered: set<(nat, nat)>, inbox: map<nat, Inbox>,
                     r: Receiver, q: Receiver, base: nat, acked: nat, i: nat)
    requires session < SESSIONS && DrainOk(session, sent, delivered, r, base, acked) && i < |r.early| && q == r.(early := q.early)
    requires BoxesOk(sent, contents, r, inbox)
    ensures RecvOk(session, q) && Knows(sent, delivered, q) && BoxesOk(sent, contents, q, inbox)
    ensures ValidPacket(session, r.early[i]) && Genuine(sent, r.early[i])
  {
    hide BoxAt, ValidPartial, PartialKnown, ValidPacket, Genuine;
    assert BoxesOk(sent, contents, q, inbox) by {
      forall n {:trigger BoxAt(sent, contents, q.partials, inbox, n)} | 1 <= n < q.nextMatch
        ensures BoxAt(sent, contents, q.partials, inbox, n)
      {
        assert BoxAt(sent, contents, r.partials, inbox, n);
      }
    }
  }

  lemma DeliverStores(session: nat, t: Transfer, p: Packet, denied: Denied, starts: map<nat, Inbox>)
    requires session < SESSIONS && SystemOk(session, t.s) && Enabled(t.s, DeliverData(p, denied))
    requires BoxesOk(t.s.sent, t.contents, t.s.r, t.inbox)
    requires StartOk(t.s.sent, starts, t.s.r.nextMatch) && StartOk(t.s.sent, starts, t.s.r.nextMatch + 1)
    ensures BoxesOk(t.s.sent, t.contents, Deliver(t.s.r, p, denied), DeliverStored(t.contents, starts, t.inbox, t.s.r, p, denied))
  {
    hide *;
    var r, delivered, ok := t.s.r, t.s.delivered + {(p.number, p.frag)}, HasMemory(denied, p);
    Arrived(session, t.s, p, denied);
    DeliverCases(session, t.contents, starts, t.inbox, r, p, denied);
    var c := ClassifyUnbounded(r.nextMatch, r.nextFrag, p.number);
    if c.Match? || c.Within? {
      OrderedDrainOk(session, t.s.sent, delivered, r, r.nextMatch, t.s.nextAcked, p, ok);
      DrainKnows(session, t.s.sent, delivered, Ordered(r, p, ok), r.nextMatch, t.s.nextAcked);
      OrderedStores(session, t.s.sent, t.contents, delivered, starts, t.inbox, r, p, ok);
      OrderedNext(r, p, ok);
      if c.Match? && Ordered(r, p, ok).nextMatch != r.nextMatch {
        DrainStores(session, t.s.sent, t.contents, delivered, starts, Stored(t.contents, starts, t.inbox, r, p, ok), Ordered(r, p, ok),
                    r.nextMatch, t.s.nextAcked, 0, denied);
      }
    } else {
      SameBoxes(t.s.sent, t.contents, t.inbox, r, p);
    }
  }

  lemma DrainKnows(session: nat, sent: seq<Message>, delivered: set<(nat, nat)>, r: Receiver, base: nat, acked: nat)
    requires session < SESSIONS && DrainOk(session, sent, delivered, r, base, acked)
    ensures RecvOk(session, r) && Knows(sent, delivered, r)
  {
    hide RecvOk, Knows;
  }

  // An early packet leaves the buffers alone.
  lemma SameBoxes(sent: seq<Message>, contents: seq<seq<Byte>>, inbox: map<nat, Inbox>, r: Receiver, p: Packet)
    requires BoxesOk(sent, contents, r, inbox)
    ensures BoxesOk(sent, contents, r.(early := InsertEarly(r.early, p)), inbox)
  {
    hide BoxAt, InsertEarly;
    var q := r.(early := InsertEarly(r.early, p));
    forall n {:trigger BoxAt(sent, contents, q.partials, inbox, n)} | 1 <= n < q.nextMatch
      ensures BoxAt(sent, contents, q.partials, inbox, n)
    {
      assert BoxAt(sent, contents, r.partials, inbox, n);
    }
  }

  lemma DeliverCases(session: nat, contents: seq<seq<Byte>>, starts: map<nat, Inbox>, inbox: map<nat, Inbox>, r: Receiver, p: Packet, denied: Denied)
    requires session < SESSIONS && RecvOk(session, r)
    ensures var c, ok := ClassifyUnbounded(r.nextMatch, r.nextFrag, p.number), HasMemory(denied, p);
      var s, after := Ordered(r, p, ok), Stored(contents, starts, inbox, r, p, ok);
      && (c.Match? ==> p.number == r.nextMatch)
      && (c.Within? ==> p.number < r.nextMatch)
      && (c.Match? && s.nextMatch != r.nextMatch ==>
            Deliver(r, p, denied) == Drain(s, 0, s.nextMatch, denied) && DeliverStored(contents, starts, inbox, r, p, denied) == DrainStored(contents, starts, after, s, 0, s.nextMatch, denied))
      && ((c.Match? && s.nextMatch == r.nextMatch) || c.Within? ==> Deliver(r, p, denied) == s && DeliverStored(contents, starts, inbox, r, p, denied) == after)
      && (!c.Match? && !c.Within? ==> (Deliver(r, p, denied) == r || Deliver(r, p, denied) == r.(early := InsertEarly(r.early, p)))
                                      && DeliverStored(contents, starts, inbox, r, p, denied) == inbox)
  {
    hide Ordered, Stored, Drain, DrainStored, InsertEarly;
  }

  lemma Arrived(session: nat, s: System, p: Packet, denied: Denied)
    requires session < SESSIONS && SystemOk(session, s) && Enabled(s, DeliverData(p, denied))
    ensures var delivered := s.delivered + {(p.number, p.frag)};
      && DrainOk(session, s.sent, delivered, s.r, s.r.nextMatch, s.nextAcked) && RecvOk(session, s.r) && Knows(s.sent, delivered, s.r)
      && ValidPacket(session, p) && Genuine(s.sent, p) && (p.number, p.frag) in delivered && s.r.nextMatch <= p.number + MAX_AGE
  {
    hide RecvOk, Knows, EarlyOk, ValidPacket;
    KnowsMore(s.sent, s.delivered, s.r, [], {(p.number, p.frag)});
    assert s.sent + [] == s.sent;
  }

  // ----- every action keeps the buffers right -----

  ghost predicate TransferOk(session: nat, t: Transfer)
    requires session < SESSIONS
  {
    SystemOk(session, t.s) && BoxesOk(t.s.sent, t.contents, t.s.r, t.inbox)
  }

  lemma SendStores(sent: seq<Message>, contents: seq<seq<Byte>>, r: Receiver, inbox: map<nat, Inbox>, msg: Message, content: seq<Byte>)
    requires BoxesOk(sent, contents, r, inbox) && |content| == msg.length
    ensures BoxesOk(sent + [msg], contents + [content], r, inbox)
  {
    hide BoxOk, GotOf;
    var sent', contents' := sent + [msg], contents + [content];
    forall n {:trigger BoxAt(sent', contents', r.partials, inbox, n)} | 1 <= n < r.nextMatch
      ensures BoxAt(sent', contents', r.partials, inbox, n)
    {
      assert BoxAt(sent, contents, r.partials, inbox, n);
    }
  }

  // What a receive gets of an unexpected message when it takes it over.
  lemma BoundBox(msg: Message, content: seq<Byte>, box: Inbox, got: set<nat>, buffer: seq<Byte>)
    requires BoxOk(msg, content, box, got) && !box.bound
    ensures BoxOk(msg, content, Inbox(Splice(buffer, 0, box.bytes[..Medium.Min(|buffer|, |box.bytes|)]), true), got)
  {
    var m := Medium.Min(|buffer|, |box.bytes|);
    var bytes := Splice(buffer, 0, box.bytes[..m]);
    assert forall q :: 0 <= q < m ==> bytes[q] == box.bytes[q];
    if msg.kind.Tiny? || msg.kind.Small? {
      assert box.bytes[..msg.length] == content[..msg.length];
      assert forall q :: 0 <= q < m ==> bytes[q] == box.bytes[..msg.length][q] == content[q];
    }
  }

  lemma BindStores(sent: seq<Message>, contents: seq<seq<Byte>>, r: Receiver, inbox: map<nat, Inbox>, number: nat, buffer: seq<Byte>)
    requires BoxesOk(sent, contents, r, inbox) && number in inbox && !inbox[number].bound
    ensures BoxesOk(sent, contents, r,
                    inbox[number := Inbox(Splice(buffer, 0, inbox[number].bytes[..Medium.Min(|buffer|, |inbox[number].bytes|)]), true)])
  {
    hide BoxOk, GotOf, Splice;
    var out := inbox[number := Inbox(Splice(buffer, 0, inbox[number].bytes[..Medium.Min(|buffer|, |inbox[number].bytes|)]), true)];
    forall n {:trigger BoxAt(sent, contents, r.partials, out, n)} | 1 <= n < r.nextMatch
      ensures BoxAt(sent, contents, r.partials, out, n)
    {
      assert BoxAt(sent, contents, r.partials, inbox, n);
      if n == number {
        BoundBox(sent[n - 1], contents[n - 1], inbox[n], GotOf(r.partials, n, FragsNr(sent[n - 1].length)), buffer);
      }
    }
  }

  lemma ActionKeeps(session: nat, t: Transfer, a: Action)
    requires session < SESSIONS && TransferOk(session, t) && CanDo(t, a)
    ensures TransferOk(session, Do(session, t, a))
  {
    hide SystemOk, BoxesOk, Deliver, DeliverStored, Splice, StartOk;
    match a
    case Step(e, content, starts) =>
      StepKeeps(session, t.s, e);
      match e {
        case Send(msg) => SendStores(t.s.sent, t.contents, t.s.r, t.inbox, msg, content);
        case DeliverData(p, denied) => DeliverStores(session, t, p, denied, starts);
        case Post(_, _) =>
        case Acknowledge =>
        case DeliverAck(_) =>
      }
    case Bind(number, buffer) => BindStores(t.s.sent, t.contents, t.s.r, t.inbox, number, buffer);
  }

  lemma {:induction false} RunStores(session: nat, t: Transfer, run: seq<Action>)
    requires session < SESSIONS && TransferOk(session, t) && LegalRun(session, t, run)
    ensures TransferOk(session, Run(session, t, run))
    decreases |run|
  {
    hide TransferOk, CanDo, Do;
    if run != [] {
      ActionKeeps(session, t, run[0]);
      RunStores(session, Do(session, t, run[0]), run[1..]);
    }
  }

  // The first min(buffer, message) bytes of the message.
  ghost predicate HoldsFirst(bytes: seq<Byte>, content: seq<Byte>) {
    forall i :: 0 <= i < |bytes| && i < |content| ==> bytes[i] == content[i]
  }

  // A message that is complete is in its buffer, as far as that goes.
  lemma CompletedBox(session: nat, t: Transfer, n: nat)
    requires session < SESSIONS && TransferOk(session, t) && n in t.s.r.completed
    ensures 1 <= n <= |t.s.sent| == |t.contents| && |t.contents[n - 1]| == t.s.sent[n - 1].length && n in t.inbox
    ensures HasData(t.s.sent[n - 1].kind) ==> HoldsFirst(t.inbox[n].bytes, t.contents[n - 1])
    ensures !t.inbox[n].bound && HasData(t.s.sent[n - 1].kind) ==> t.inbox[n].bytes == t.contents[n - 1]
  {
    hide RecvOk, EarlyOk, PartialKnown, Medium.Filled;
    assert 1 <= n < t.s.r.nextMatch && !Pending(t.s.r.partials, n);
    assert BoxAt(t.s.sent, t.contents, t.s.r.partials, t.inbox, n);
    var msg, content, bytes := t.s.sent[n - 1], t.contents[n - 1], t.inbox[n].bytes;
    var m := Medium.Min(|bytes|, |content|);
    NotPartial(t.s.r.partials, n, FragsNr(msg.length));
    if msg.kind.Medium? {
      Medium.FilledAll(bytes, content, Below(FragsNr(msg.length)), m);
    }
    if HasData(msg.kind) {
      assert forall i :: 0 <= i < m ==> bytes[i] == bytes[..m][i] == content[..m][i];
    }
  }

  // ----- main result -----

  // Over every run, with loss, duplication, reordering, resends and any choice
  // of receives: each completed message is the one sent under its number, and
  // its receive holds its first min(buffer, message) bytes; every message
  // below nextFrag is completed, so every acked one.
  lemma BytesArrive(session: nat, run: seq<Action>)
    requires session < SESSIONS && LegalRun(session, NOTHING_SENT, run)
    ensures var t := Run(session, NOTHING_SENT, run);
      && |t.contents| == |t.s.sent| && t.s.r.matched <= t.s.sent && NoDup(t.s.r.completed)
      && t.s.nextAcked <= t.s.r.nextFrag && (forall n :: 1 <= n < t.s.r.nextFrag ==> n in t.s.r.completed)
      && forall n :: n in t.s.r.completed ==>
        && 1 <= n <= |t.s.sent| && n in t.inbox
        && (HasData(t.s.sent[n - 1].kind) ==> HoldsFirst(t.inbox[n].bytes, t.contents[n - 1]))
  {
    hide *;
    NothingStored(session);
    RunStores(session, NOTHING_SENT, run);
    var t := Run(session, NOTHING_SENT, run);
    InOrder(session, t);
    forall n | n in t.s.r.completed
      ensures 1 <= n <= |t.s.sent| && n in t.inbox
      ensures HasData(t.s.sent[n - 1].kind) ==> HoldsFirst(t.inbox[n].bytes, t.contents[n - 1])
    {
      CompletedBox(session, t, n);
    }
  }

  lemma NothingStored(session: nat)
    requires session < SESSIONS
    ensures TransferOk(session, NOTHING_SENT)
  {
  }

  lemma InOrder(session: nat, t: Transfer)
    requires session < SESSIONS && TransferOk(session, t)
    ensures |t.contents| == |t.s.sent| && t.s.r.matched <= t.s.sent && NoDup(t.s.r.completed)
    ensures t.s.nextAcked <= t.s.r.nextFrag && forall n :: 1 <= n < t.s.r.nextFrag ==> n in t.s.r.completed
  {
    hide EarlyOk, BoxAt, ValidPartial, PartialKnown, CompletedKnown;
    forall i | 0 <= i < |t.s.r.partials|
      ensures t.s.r.partials[i].number >= t.s.r.nextFrag
    {
      PartialRange(session, t.s.r, i);
    }
    if t.s.r.partials != [] {
      PartialRange(session, t.s.r, 0);
    }
  }
}
