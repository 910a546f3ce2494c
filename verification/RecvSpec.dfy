// What a receiving partner does with a packet, on unbounded message numbers.
// Partners.dfy refines these functions with the 14-bit fields of the source.
module RecvSpec {
  import opened SeqNum
  import opened Fragments

  datatype Kind = Tiny | Small | Medium | Rndv | Notify

  datatype Message = Message(kind: Kind, matchInfo: nat, length: nat)

  predicate ValidMessage(m: Message) {
    m.kind.Medium? ==> 0 < m.length <= FRAG_LENGTH_MAX * FRAGS_MAX
  }

  function PacketsNr(m: Message): nat {
    if m.kind.Medium? then FragsNr(m.length) else 1
  }

  // A data packet. The wire carries seqnum; number is the unbounded message
  // number it stands for, which only specifications look at.
  datatype Packet = Packet(seqnum: SeqNum16, number: nat, msg: Message, frag: nat, fragLength: nat)

  predicate ValidPacket(session: nat, p: Packet)
    requires session < SESSIONS
  {
    && p.seqnum == Wire(session, p.number)
    && ValidMessage(p.msg)
    && p.frag < PacketsNr(p.msg)
    && (p.msg.kind.Medium? ==> p.fragLength == FragLength(p.msg.length, p.frag))
  }

  // A matched medium message that still misses fragments.
  datatype Partial = Partial(seqnum: SeqNum16, number: nat, msg: Message, got: set<nat>, accumulated: nat)

  // matched: every message accepted so far, in matching order;
  // completed: numbers of the entirely received messages, in completion order.
  datatype Receiver = Receiver(
    nextMatch: nat, nextFrag: nat,
    partials: seq<Partial>, early: seq<Packet>,
    matched: seq<Message>, completed: seq<nat>)

  // Number of the first message that is not entirely received.
  function FirstMissing(partials: seq<Partial>, nextMatch: nat): nat {
    if partials == [] then nextMatch else partials[0].number
  }

  function Started(p: Packet): Partial {
    Partial(p.seqnum, p.number, p.msg, {p.frag}, p.fragLength)
  }

  function Accept(r: Receiver, p: Packet): Receiver {
    var whole := !p.msg.kind.Medium? || AllReceived(p.msg.length, {p.frag});
    var partials := if whole then r.partials else r.partials + [Started(p)];
    r.(nextMatch := r.nextMatch + 1,
       nextFrag := FirstMissing(partials, r.nextMatch + 1),
       partials := partials,
       matched := r.matched + [p.msg],
       completed := if whole then r.completed + [p.number] else r.completed)
  }

  // Index of the partial request with a number, or the queue length.
  function IndexOf(partials: seq<Partial>, number: nat): (i: nat)
    ensures i <= |partials|
    ensures i < |partials| ==> partials[i].number == number
    ensures forall j :: 0 <= j < i ==> partials[j].number != number
  {
    if partials == [] then 0
    else if partials[0].number == number then 0
    else 1 + IndexOf(partials[1..], number)
  }

  function RemoveAt<T>(q: seq<T>, i: nat): seq<T>
    requires i < |q|
  {
    q[..i] + q[i + 1..]
  }

  function Grown(q: Partial, p: Packet): Partial {
    q.(got := q.got + {p.frag}, accumulated := q.accumulated + p.fragLength)
  }

  function Continue(r: Receiver, p: Packet): Receiver {
    var i := IndexOf(r.partials, p.number);
    if i == |r.partials| || p.frag in r.partials[i].got then r
    else
      var q := Grown(r.partials[i], p);
      var whole := AllReceived(q.msg.length, q.got);
      var partials := if whole then RemoveAt(r.partials, i) else r.partials[i := q];
      r.(partials := partials,
         nextFrag := FirstMissing(partials, r.nextMatch),
         completed := if whole then r.completed + [p.number] else r.completed)
  }

  // A packet that is not early. ok: the receiver had memory to accept it.
  function Ordered(r: Receiver, p: Packet, ok: bool): Receiver {
    if p.number == r.nextMatch then
      if p.msg.kind.Notify? || ok then Accept(r, p) else r
    else if p.msg.kind.Medium? && r.nextFrag <= p.number < r.nextMatch then Continue(r, p)
    else r
  }

  // Early packets are kept in lexicographic order.
  predicate Before(p: Packet, q: Packet) {
    p.number < q.number || (p.number == q.number && p.frag < q.frag)
  }

  predicate SameKey(p: Packet, q: Packet) {
    p.number == q.number && p.frag == q.frag
  }

  ghost predicate Sorted(early: seq<Packet>) {
    forall i, j :: 0 <= i < j < |early| ==> Before(early[i], early[j])
  }

  function InsertEarly(early: seq<Packet>, p: Packet): seq<Packet> {
    if early == [] || Before(p, early[0]) then [p] + early
    else if SameKey(p, early[0]) then early
    else [early[0]] + InsertEarly(early[1..], p)
  }

  // The set of (number, fragment) pairs the receiver has no memory for.
  type Denied = set<(nat, nat)>

  predicate HasMemory(denied: Denied, p: Packet) {
    (p.number, p.frag) !in denied
  }

  // Takes from the early queue, from index i on, every packet numbered at most limit.
  function Drain(r: Receiver, i: nat, limit: nat, denied: Denied): Receiver
    requires i <= |r.early|
    decreases |r.early| - i
  {
    if i == |r.early| then r
    else if r.early[i].number <= limit then
      var p := r.early[i];
      Drain(Ordered(r.(early := RemoveAt(r.early, i)), p, HasMemory(denied, p)), i, limit, denied)
    else Drain(r, i + 1, limit, denied)
  }

  function Deliver(r: Receiver, p: Packet, denied: Denied): Receiver {
    match ClassifyUnbounded(r.nextMatch, r.nextFrag, p.number)
    case Match =>
      var s := Ordered(r, p, HasMemory(denied, p));
      if s.nextMatch != r.nextMatch then Drain(s, 0, s.nextMatch, denied) else s
    case Within => Ordered(r, p, HasMemory(denied, p))
    case Early => if HasMemory(denied, p) then r.(early := InsertEarly(r.early, p)) else r
    case Previous => r
    case Obsolete => r
  }

  // The receiver would take this packet if it were the next one.
  predicate Takes(denied: Denied, p: Packet) {
    p.msg.kind.Notify? || HasMemory(denied, p)
  }

  // What taking out early packets leaves, and how far it gets.
  lemma {:induction false} DrainNext(r: Receiver, i: nat, limit: nat, denied: Denied)
    requires i <= |r.early| && limit <= r.nextMatch <= limit + 1
    requires forall j :: 0 <= j < i ==> r.early[j].number > limit
    ensures var s := Drain(r, i, limit, denied);
      && (forall q :: q in s.early <==> q in r.early && q.number > limit)
      && s.nextMatch == if r.nextMatch == limit && (exists q :: q in r.early && q.number == limit && Takes(denied, q)) then limit + 1 else r.nextMatch
    decreases |r.early| - i
  {
    hide Continue, Accept;
    if i < |r.early| {
      if r.early[i].number <= limit {
        var p := r.early[i];
        var t := Ordered(r.(early := RemoveAt(r.early, i)), p, HasMemory(denied, p));
        OrderedNext(r.(early := RemoveAt(r.early, i)), p, HasMemory(denied, p));
        RemovedOne(r.early, i);
        RemovedIndices(r.early, i);
        DrainNext(t, i, limit, denied);
      } else {
        DrainNext(r, i + 1, limit, denied);
      }
    }
  }

  lemma OrderedNext(r: Receiver, p: Packet, ok: bool)
    ensures Ordered(r, p, ok).early == r.early
    ensures Ordered(r, p, ok).nextMatch == r.nextMatch + if p.number == r.nextMatch && (p.msg.kind.Notify? || ok) then 1 else 0
  {
  }

  lemma RemovedOne<T>(q: seq<T>, i: nat)
    requires i < |q|
    ensures forall x :: x in q <==> x in RemoveAt(q, i) || x == q[i]
  {
    assert q == q[..i] + [q[i]] + q[i + 1..];
  }

  // The limit of the loop over early packets is computed once: a packet of the
  // next message stays queued after a match if and only if there was one of the
  // message before it, which was taken.
  lemma DueStaysIff(r: Receiver, p: Packet, denied: Denied)
    requires p.number == r.nextMatch && r.nextFrag <= r.nextMatch && Takes(denied, p)
    ensures var s := Deliver(r, p, denied);
      (exists q :: q in s.early && q.number == s.nextMatch) <==>
        && (exists q :: q in r.early && q.number == r.nextMatch + 1 && Takes(denied, q))
        && (exists q :: q in r.early && q.number == r.nextMatch + 2)
  {
    hide Continue, Accept, Drain;
    OrderedNext(r, p, HasMemory(denied, p));
    DrainNext(Ordered(r, p, HasMemory(denied, p)), 0, r.nextMatch + 1, denied);
  }

  // Messages 2 and 3 came early: message 1 brings message 2 out, and 3 stays.
  lemma DueStaysBehind(p: Packet, second: Packet, third: Packet)
    requires p.number == 1 && second.number == 2 && third.number == 3
    ensures var s := Deliver(Receiver(1, 1, [], [second, third], [], []), p, {});
      s.nextMatch == 3 && third in s.early
  {
    hide Continue, Accept, Drain;
    var r := Receiver(1, 1, [], [second, third], [], []);
    assert second in r.early && third in r.early;
    OrderedNext(r, p, true);
    DrainNext(Ordered(r, p, true), 0, 2, {});
  }

  // ----- what every receiver state satisfies -----

  ghost predicate ValidPartial(session: nat, q: Partial)
    requires session < SESSIONS
  {
    && q.seqnum == Wire(session, q.number)
    && q.msg.kind.Medium?
    && ValidMessage(q.msg)
    && q.got != {}
    && !AllReceived(q.msg.length, q.got)
    && q.accumulated == ReceivedBytes(q.msg.length, q.got)
  }

  ghost predicate Increasing(partials: seq<Partial>) {
    forall i, j :: 0 <= i < j < |partials| ==> partials[i].number < partials[j].number
  }

  ghost predicate PartialsOk(session: nat, partials: seq<Partial>, nextMatch: nat)
    requires session < SESSIONS
  {
    && Increasing(partials)
    && (forall i :: 0 <= i < |partials| ==> ValidPartial(session, partials[i]))
    && (forall i :: 0 <= i < |partials| ==> partials[i].number < nextMatch)
  }

  ghost predicate RecvOk(session: nat, r: Receiver)
    requires session < SESSIONS
  {
    && r.nextFrag == FirstMissing(r.partials, r.nextMatch)
    && PartialsOk(session, r.partials, r.nextMatch)
    && r.nextMatch <= r.nextFrag + THROTTLING_OFFSET_MAX
  }

  // The early queue as the window around base sees it.
  ghost predicate EarlyOk(session: nat, early: seq<Packet>, base: nat)
    requires session < SESSIONS
  {
    && Sorted(early)
    && (forall i :: 0 <= i < |early| ==> ValidPacket(session, early[i]))
    && (forall i :: 0 <= i < |early| ==> base <= early[i].number <= base + EARLY_PACKET_OFFSET_MAX)
  }

  // One message number always names one message.
  ghost predicate Consistent(r: Receiver, p: Packet) {
    && (forall i :: 0 <= i < |r.early| && r.early[i].number == p.number ==> r.early[i].msg == p.msg)
    && (forall i :: 0 <= i < |r.partials| && r.partials[i].number == p.number ==> r.partials[i].msg == p.msg)
  }

  ghost predicate EarlyConsistent(r: Receiver) {
    forall i :: 0 <= i < |r.early| ==> Consistent(r, r.early[i])
  }

  // ----- the early queue -----

  lemma {:induction false} InsertEarlyKeepsOrder(early: seq<Packet>, p: Packet)
    requires Sorted(early)
    ensures Sorted(InsertEarly(early, p))
    ensures forall q :: q in InsertEarly(early, p) ==> q == p || q in early
    ensures forall q :: q in early ==> q in InsertEarly(early, p)
    ensures exists q :: q in InsertEarly(early, p) && SameKey(p, q)
    ensures |InsertEarly(early, p)| == |early| + if exists q :: q in early && SameKey(p, q) then 0 else 1
  {
    if early == [] || Before(p, early[0]) {
      assert p in InsertEarly(early, p);
      assert !exists q :: q in early && SameKey(p, q);
    } else if SameKey(p, early[0]) {
      assert early[0] in early;
    } else {
      var rest := early[1..];
      assert early == [early[0]] + rest;
      InsertEarlyKeepsOrder(rest, p);
      var out := InsertEarly(rest, p);
      forall k | 0 <= k < |out| ensures Before(early[0], out[k]) {
        assert out[k] in out;
        assert out[k] == p || out[k] in rest;
      }
      assert forall q :: q in early ==> q == early[0] || q in rest;
      assert (exists q :: q in early && SameKey(p, q)) <==> (exists q :: q in rest && SameKey(p, q)) by {
        if q :| q in early && SameKey(p, q) { assert q in rest; }
      }
      var w :| w in out && SameKey(p, w);
      assert w in InsertEarly(early, p);
    }
  }

  // Scanning from the back for the first packet that is not later finds the
  // same place as inserting from the front.
  lemma {:induction false} InsertAtIsInsertEarly(early: seq<Packet>, p: Packet, i: nat)
    requires Sorted(early) && i <= |early|
    requires forall j :: i <= j < |early| ==> Before(p, early[j])
    requires i > 0 ==> Before(early[i - 1], p)
    ensures InsertEarly(early, p) == early[..i] + [p] + early[i..]
  {
    hide *;
    InsertStep(early, p);
    if i > 0 {
      FirstBefore(early, p, i);
      var rest := early[1..];
      InsertAtIsInsertEarly(rest, p, i - 1);
      FrontAndRest(early, p, i);
    } else {
      assert early[..i] + [p] + early[i..] == [p] + early;
    }
  }

  lemma FrontAndRest<T>(s: seq<T>, x: T, i: nat)
    requires 0 < i <= |s|
    ensures s[..i] + [x] + s[i..] == [s[0]] + (s[1..][..i - 1] + [x] + s[1..][i - 1..])
  {
  }

  lemma InsertStep(early: seq<Packet>, p: Packet)
    ensures early == [] ==> InsertEarly(early, p) == [p]
    ensures early != [] && Before(p, early[0]) ==> InsertEarly(early, p) == [p] + early
    ensures early != [] && Before(early[0], p) ==> InsertEarly(early, p) == [early[0]] + InsertEarly(early[1..], p)
  {
  }

  lemma FirstBefore(early: seq<Packet>, p: Packet, i: nat)
    requires Sorted(early) && 0 < i <= |early| && Before(early[i - 1], p)
    ensures Before(early[0], p) && Sorted(early[1..])
  {
  }

  lemma {:induction false} DuplicateIsKept(early: seq<Packet>, p: Packet, i: nat)
    requires Sorted(early) && i < |early| && SameKey(p, early[i])
    ensures InsertEarly(early, p) == early
  {
    if i > 0 {
      assert Before(early[0], early[i]);
      DuplicateIsKept(early[1..], p, i - 1);
    }
  }

  lemma InsertEarlyOk(session: nat, early: seq<Packet>, p: Packet, base: nat)
    requires session < SESSIONS
    requires EarlyOk(session, early, base) && ValidPacket(session, p)
    requires base <= p.number <= base + EARLY_PACKET_OFFSET_MAX
    ensures EarlyOk(session, InsertEarly(early, p), base)
  {
    InsertEarlyKeepsOrder(early, p);
    var out := InsertEarly(early, p);
    forall i | 0 <= i < |out|
      ensures ValidPacket(session, out[i])
      ensures base <= out[i].number <= base + EARLY_PACKET_OFFSET_MAX
    {
      assert out[i] in out;
      if out[i] != p { assert out[i] in early; }
    }
  }

  // ----- one packet in order -----

  ghost predicate InWindow(r: Receiver, p: Packet) {
    Fresh(r.nextMatch, r.nextFrag, p.number)
  }

  lemma AcceptKeeps(session: nat, r: Receiver, p: Packet)
    requires session < SESSIONS
    requires RecvOk(session, r) && ValidPacket(session, p) && p.number == r.nextMatch && InWindow(r, p)
    ensures RecvOk(session, Accept(r, p))
    ensures Accept(r, p).nextFrag >= r.nextFrag
  {
    if p.msg.kind.Medium? {
      FirstFragment(p.msg.length, p.frag);
    }
  }

  lemma RemovePartial(session: nat, partials: seq<Partial>, nextMatch: nat, i: nat)
    requires session < SESSIONS && i < |partials|
    requires PartialsOk(session, partials, nextMatch)
    ensures PartialsOk(session, RemoveAt(partials, i), nextMatch)
    ensures FirstMissing(RemoveAt(partials, i), nextMatch) >= FirstMissing(partials, nextMatch)
  {
    var out := RemoveAt(partials, i);
    assert forall k :: 0 <= k < |out| ==> out[k] == partials[if k < i then k else k + 1];
  }

  lemma GrowPartial(session: nat, q: Partial, p: Packet)
    requires session < SESSIONS
    requires ValidPartial(session, q) && ValidPacket(session, p) && q.msg == p.msg && p.frag !in q.got
    requires !AllReceived(q.msg.length, Grown(q, p).got)
    ensures ValidPartial(session, Grown(q, p))
  {
    AddFragment(p.msg.length, q.got, p.frag);
  }

  lemma ContinueKeeps(session: nat, r: Receiver, p: Packet)
    requires session < SESSIONS
    requires RecvOk(session, r) && ValidPacket(session, p) && p.msg.kind.Medium? && Consistent(r, p)
    ensures RecvOk(session, Continue(r, p))
    ensures Continue(r, p).nextFrag >= r.nextFrag
  {
    var i := IndexOf(r.partials, p.number);
    if i < |r.partials| && p.frag !in r.partials[i].got {
      var q := Grown(r.partials[i], p);
      if AllReceived(q.msg.length, q.got) {
        RemovePartial(session, r.partials, r.nextMatch, i);
      } else {
        GrowPartial(session, r.partials[i], p);
      }
    }
  }

  lemma OrderedKeeps(session: nat, r: Receiver, p: Packet, ok: bool)
    requires session < SESSIONS
    requires RecvOk(session, r) && ValidPacket(session, p) && Consistent(r, p) && InWindow(r, p)
    ensures var s := Ordered(r, p, ok);
      && RecvOk(session, s)
      && s.nextFrag >= r.nextFrag
      && s.early == r.early
      && s.nextMatch == r.nextMatch + if p.number == r.nextMatch && (p.msg.kind.Notify? || ok) then 1 else 0
  {
    if p.number == r.nextMatch {
      AcceptKeeps(session, r, p);
    } else if p.msg.kind.Medium? {
      ContinueKeeps(session, r, p);
    }
  }

  lemma OrderedKeepsConsistent(r: Receiver, p: Packet, ok: bool, q: Packet)
    requires Consistent(r, q) && (p.number == q.number ==> p.msg == q.msg)
    ensures Consistent(Ordered(r, p, ok), q)
  {
  }

  // Every partial request lies between the first missing and the next message.
  lemma PartialRange(session: nat, r: Receiver, i: nat)
    requires session < SESSIONS && RecvOk(session, r) && i < |r.partials|
    ensures r.nextFrag <= r.partials[i].number < r.nextMatch
    ensures r.nextMatch - r.nextFrag <= THROTTLING_OFFSET_MAX
  {
    if i > 0 {
      assert r.partials[0].number < r.partials[i].number;
    }
  }

  lemma {:induction false} FoundAt(partials: seq<Partial>, number: nat, i: nat)
    requires i <= |partials|
    requires forall j :: 0 <= j < i ==> partials[j].number != number
    requires i < |partials| ==> partials[i].number == number
    ensures IndexOf(partials, number) == i
  {
    if i > 0 {
      FoundAt(partials[1..], number, i - 1);
    }
  }

  // The two tests of omx__process_partner_ordered_recv decide as integers would.
  lemma OrderedTests(session: nat, r: Receiver, p: Packet)
    requires session < SESSIONS && RecvOk(session, r)
    requires p.seqnum == Wire(session, p.number) && InWindow(r, p)
    ensures Seq(p.seqnum - Wire(session, r.nextMatch)) == 0 <==> p.number == r.nextMatch
    ensures p.number != r.nextMatch ==>
      (Seq(p.seqnum - Wire(session, r.nextFrag)) < Seq(Wire(session, r.nextMatch) - Wire(session, r.nextFrag))
       <==> r.nextFrag <= p.number < r.nextMatch)
  {
    hide *;
    OrderedRange(session, r, p);
    WireDifference(session, p.number, r.nextMatch);
    WireDifference(session, p.number, r.nextFrag);
    WireDifference(session, r.nextMatch, r.nextFrag);
    TestsOnNumbers(r.nextMatch, r.nextFrag, p.number);
  }

  lemma OrderedRange(session: nat, r: Receiver, p: Packet)
    requires session < SESSIONS && RecvOk(session, r) && InWindow(r, p)
    ensures r.nextFrag <= r.nextMatch <= r.nextFrag + THROTTLING_OFFSET_MAX && Fresh(r.nextMatch, r.nextFrag, p.number)
  {
    if r.partials != [] {
      PartialRange(session, r, 0);
    }
  }

  // The differences modulo 2^14 tell what the numbers do.
  lemma TestsOnNumbers(nextMatch: nat, nextFrag: nat, n: nat)
    requires nextFrag <= nextMatch <= nextFrag + THROTTLING_OFFSET_MAX && Fresh(nextMatch, nextFrag, n)
    ensures (n - nextMatch) % SEQNUM_RANGE == 0 <==> n == nextMatch
    ensures n != nextMatch ==>
      ((n - nextFrag) % SEQNUM_RANGE < (nextMatch - nextFrag) % SEQNUM_RANGE <==> nextFrag <= n < nextMatch)
  {
  }

  lemma InsertEarlyConsistent(session: nat, r: Receiver, p: Packet, limit: nat)
    requires EarlyConsistent(r) && Consistent(r, p) && Sorted(r.early)
    requires p.number < limit && forall i :: 0 <= i < |r.early| ==> r.early[i].number < limit
    ensures var early := InsertEarly(r.early, p);
      && EarlyConsistent(r.(early := early))
      && forall i :: 0 <= i < |early| ==> early[i].number < limit
  {
    InsertEarlyKeepsOrder(r.early, p);
    var early := InsertEarly(r.early, p);
    forall i | 0 <= i < |early|
      ensures early[i] == p || early[i] in r.early
    {
      assert early[i] in early;
    }
  }

  lemma RemovedIndices<T>(q: seq<T>, i: nat)
    requires i < |q|
    ensures |RemoveAt(q, i)| == |q| - 1
    ensures forall j :: 0 <= j < |q| - 1 ==> RemoveAt(q, i)[j] == q[if j < i then j else j + 1]
  {
  }

  lemma RemoveEarly(session: nat, r: Receiver, i: nat, base: nat)
    requires session < SESSIONS && i < |r.early|
    requires EarlyOk(session, r.early, base) && EarlyConsistent(r)
    ensures var s := r.(early := RemoveAt(r.early, i));
      EarlyOk(session, s.early, base) && EarlyConsistent(s) && Consistent(s, r.early[i])
  {
    RemovedIndices(r.early, i);
    var out := RemoveAt(r.early, i);
    forall j | 0 <= j < |out|
      ensures Consistent(r.(early := out), out[j])
    {
      assert Consistent(r, r.early[if j < i then j else j + 1]);
    }
    assert Consistent(r, r.early[i]);
  }

  lemma OrderedKeepsAllConsistent(r: Receiver, p: Packet, ok: bool)
    requires EarlyConsistent(r) && Consistent(r, p)
    ensures EarlyConsistent(Ordered(r, p, ok))
  {
    forall i | 0 <= i < |r.early|
      ensures Consistent(Ordered(r, p, ok), r.early[i])
    {
      OrderedKeepsConsistent(r, p, ok, r.early[i]);
    }
  }
}
