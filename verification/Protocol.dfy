// One sender and one receiver inside one session, over a network that loses,
// duplicates and reorders: the end-to-end guarantee of the messaging engine.
module Protocol {
  import opened Collections
  import opened SeqNum
  import opened Fragments
  import opened RecvSpec

  // data and acks hold everything ever put on the wire, so that delivering an
  // element twice, late, out of order or never covers every network behaviour.
  // delivered is the history of the (number, fragment) pairs that arrived.
  datatype System = System(
    sent: seq<Message>, nextAcked: nat, r: Receiver,
    data: set<Packet>, acks: set<nat>, delivered: set<(nat, nat)>)

  const INITIAL := System([], 1, Receiver(1, 1, [], [], [], []), {}, {}, {})

  datatype Event =
    | Send(msg: Message)                          // a message gets its sequence number
    | Post(number: nat, frag: nat)                // first transmission or resend
    | DeliverData(p: Packet, denied: Denied)
    | Acknowledge                                 // liback or piggyack
    | DeliverAck(ack: nat)

  function NextSend(s: System): nat {
    |s.sent| + 1
  }

  function WirePacket(session: nat, msg: Message, number: nat, frag: nat): Packet
    requires session < SESSIONS && frag < PacketsNr(msg)
  {
    Packet(Wire(session, number), number, msg, frag,
           if msg.kind.Medium? then FragLength(msg.length, frag) else msg.length)
  }

  // What the two sides are able to do, plus the bounds assumed of the network:
  // a data packet is at most MAX_AGE behind, an ack at most half a range stale.
  predicate Enabled(s: System, e: Event) {
    match e
    case Send(msg) => ValidMessage(msg) && NextSend(s) - s.nextAcked < THROTTLING_OFFSET_MAX
    case Post(number, frag) =>
      s.nextAcked <= number < NextSend(s) && 1 <= number && frag < PacketsNr(s.sent[number - 1])
    case DeliverData(p, _) => p in s.data && s.r.nextMatch <= p.number + MAX_AGE
    case Acknowledge => true
    case DeliverAck(ack) => ack in s.acks && s.nextAcked <= ack + MAX_ACK_STALENESS
  }

  function Apply(session: nat, s: System, e: Event): System
    requires session < SESSIONS && Enabled(s, e)
  {
    match e
    case Send(msg) => s.(sent := s.sent + [msg])
    case Post(number, frag) => s.(data := s.data + {WirePacket(session, s.sent[number - 1], number, frag)})
    case DeliverData(p, denied) =>
      s.(r := Deliver(s.r, p, denied), delivered := s.delivered + {(p.number, p.frag)})
    case Acknowledge => s.(acks := s.acks + {s.r.nextFrag})
    case DeliverAck(ack) => s.(nextAcked := Max(s.nextAcked, ack))
  }

  // A run is a sequence of events, each enabled in the state it finds.
  predicate Legal(session: nat, s: System, events: seq<Event>)
    requires session < SESSIONS
    decreases |events|
  {
    events != [] ==> Enabled(s, events[0]) && Legal(session, Apply(session, s, events[0]), events[1..])
  }

  function Exec(session: nat, s: System, events: seq<Event>): System
    requires session < SESSIONS && Legal(session, s, events)
    decreases |events|
  {
    if events == [] then s else Exec(session, Apply(session, s, events[0]), events[1..])
  }

  // ----- what the receiver knows -----

  ghost predicate Pending(partials: seq<Partial>, number: nat) {
    exists i :: 0 <= i < |partials| && partials[i].number == number
  }

  ghost predicate EntirelyDelivered(msg: Message, number: nat, delivered: set<(nat, nat)>) {
    forall k: nat :: k < PacketsNr(msg) ==> (number, k) in delivered
  }

  ghost predicate Genuine(sent: seq<Message>, p: Packet) {
    1 <= p.number <= |sent| && p.msg == sent[p.number - 1]
  }

  // A matched message is either pending or completed, once and never both.
  ghost predicate Partition(completed: seq<nat>, partials: seq<Partial>, nextMatch: nat) {
    && NoDup(completed)
    && forall n: nat :: n in completed <==> 1 <= n < nextMatch && !Pending(partials, n)
  }

  ghost predicate PartialKnown(sent: seq<Message>, delivered: set<(nat, nat)>, q: Partial) {
    && 1 <= q.number <= |sent|
    && q.msg == sent[q.number - 1]
    && forall k :: k in q.got ==> (q.number, k) in delivered
  }

  ghost predicate CompletedKnown(sent: seq<Message>, delivered: set<(nat, nat)>, completed: seq<nat>) {
    forall n :: n in completed ==> 1 <= n <= |sent| && EntirelyDelivered(sent[n - 1], n, delivered)
  }

  ghost predicate Knows(sent: seq<Message>, delivered: set<(nat, nat)>, r: Receiver) {
    && 1 <= r.nextMatch <= |sent| + 1
    && r.matched == sent[..r.nextMatch - 1]
    && (forall i :: 0 <= i < |r.partials| ==> PartialKnown(sent, delivered, r.partials[i]))
    && Partition(r.completed, r.partials, r.nextMatch)
    && CompletedKnown(sent, delivered, r.completed)
  }

  lemma CompleteNext(completed: seq<nat>, partials: seq<Partial>, nextMatch: nat)
    requires Partition(completed, partials, nextMatch) && 1 <= nextMatch
    requires forall i :: 0 <= i < |partials| ==> partials[i].number < nextMatch
    ensures Partition(completed + [nextMatch], partials, nextMatch + 1)
  {
    AppendNoDup(completed, nextMatch);
  }

  lemma SuspendNext(completed: seq<nat>, partials: seq<Partial>, nextMatch: nat, q: Partial)
    requires Partition(completed, partials, nextMatch) && 1 <= nextMatch && q.number == nextMatch
    ensures Partition(completed, partials + [q], nextMatch + 1)
  {
    assert (partials + [q])[|partials|].number == nextMatch;
    forall n: nat
      ensures Pending(partials + [q], n) <==> Pending(partials, n) || n == nextMatch
    {
      if Pending(partials, n) {
        var i :| 0 <= i < |partials| && partials[i].number == n;
        assert (partials + [q])[i].number == n;
      }
    }
  }

  lemma CompletePending(completed: seq<nat>, partials: seq<Partial>, nextMatch: nat, i: nat)
    requires Partition(completed, partials, nextMatch) && i < |partials|
    requires Increasing(partials) && 1 <= partials[i].number < nextMatch
    ensures Partition(completed + [partials[i].number], RemoveAt(partials, i), nextMatch)
  {
    RemovedIndices(partials, i);
    var out := RemoveAt(partials, i);
    var number := partials[i].number;
    forall n: nat
      ensures Pending(out, n) <==> Pending(partials, n) && n != number
    {
      if Pending(partials, n) && n != number {
        var j :| 0 <= j < |partials| && partials[j].number == n;
        assert out[if j < i then j else j - 1].number == n;
      }
    }
    assert Pending(partials, number);
    AppendNoDup(completed, number);
  }

  lemma GrowPending(completed: seq<nat>, partials: seq<Partial>, nextMatch: nat, i: nat, q: Partial)
    requires Partition(completed, partials, nextMatch) && i < |partials| && q.number == partials[i].number
    ensures Partition(completed, partials[i := q], nextMatch)
  {
    forall n: nat
      ensures Pending(partials[i := q], n) <==> Pending(partials, n)
    {
      if Pending(partials, n) {
        var j :| 0 <= j < |partials| && partials[j].number == n;
        assert partials[i := q][j].number == n;
      }
    }
  }

  lemma AcceptKnows(session: nat, sent: seq<Message>, delivered: set<(nat, nat)>, r: Receiver, p: Packet)
    requires session < SESSIONS
    requires RecvOk(session, r) && ValidPacket(session, p) && p.number == r.nextMatch
    requires Knows(sent, delivered, r) && Genuine(sent, p) && (p.number, p.frag) in delivered
    ensures Knows(sent, delivered, Accept(r, p))
  {
    hide RecvOk, AllReceived, FirstMissing, Partition, PartialKnown, EntirelyDelivered, PacketsNr;
    assert sent[..r.nextMatch] == sent[..r.nextMatch - 1] + [p.msg];
    PartialsBelow(session, r);
    if !p.msg.kind.Medium? || AllReceived(p.msg.length, {p.frag}) {
      WholeDelivered(p, session, delivered);
      CompleteNext(r.completed, r.partials, r.nextMatch);
    } else {
      StartedKnown(sent, delivered, p);
      SuspendNext(r.completed, r.partials, r.nextMatch, Started(p));
    }
  }

  lemma PartialsBelow(session: nat, r: Receiver)
    requires session < SESSIONS && RecvOk(session, r)
    ensures forall i :: 0 <= i < |r.partials| ==> r.partials[i].number < r.nextMatch
  {
  }

  lemma WholeDelivered(p: Packet, session: nat, delivered: set<(nat, nat)>)
    requires session < SESSIONS && ValidPacket(session, p) && (p.number, p.frag) in delivered
    requires !p.msg.kind.Medium? || AllReceived(p.msg.length, {p.frag})
    ensures EntirelyDelivered(p.msg, p.number, delivered)
  {
    var got := {p.frag};
    forall k: nat | k < PacketsNr(p.msg)
      ensures (p.number, k) in delivered
    {
      assert k in got;
    }
  }

  lemma StartedKnown(sent: seq<Message>, delivered: set<(nat, nat)>, p: Packet)
    requires Genuine(sent, p) && (p.number, p.frag) in delivered
    ensures PartialKnown(sent, delivered, Started(p)) && Started(p).number == p.number
  {
  }

  lemma ContinueKnows(session: nat, sent: seq<Message>, delivered: set<(nat, nat)>, r: Receiver, p: Packet)
    requires session < SESSIONS
    requires RecvOk(session, r) && ValidPacket(session, p)
    requires Knows(sent, delivered, r) && Genuine(sent, p) && (p.number, p.frag) in delivered
    ensures Knows(sent, delivered, Continue(r, p))
  {
    var i := IndexOf(r.partials, p.number);
    if i < |r.partials| && p.frag !in r.partials[i].got {
      var q := Grown(r.partials[i], p);
      assert PartialKnown(sent, delivered, r.partials[i]);
      assert PartialKnown(sent, delivered, q);
      if AllReceived(q.msg.length, q.got) {
        CompletePending(r.completed, r.partials, r.nextMatch, i);
        RemovedIndices(r.partials, i);
        assert EntirelyDelivered(q.msg, p.number, delivered);
      } else {
        GrowPending(r.completed, r.partials, r.nextMatch, i, q);
      }
    }
  }

  // ----- the invariant of every run -----

  ghost predicate SystemOk(session: nat, s: System)
    requires session < SESSIONS
  {
    && (forall i :: 0 <= i < |s.sent| ==> ValidMessage(s.sent[i]))
    && 1 <= s.nextAcked <= s.r.nextFrag
    && NextSend(s) <= s.nextAcked + THROTTLING_OFFSET_MAX
    && RecvOk(session, s.r)
    && EarlyOk(session, s.r.early, s.r.nextMatch)
    && Knows(s.sent, s.delivered, s.r)
    && (forall p :: p in s.data ==> ValidPacket(session, p) && Genuine(s.sent, p))
    && (forall i :: 0 <= i < |s.r.early| ==> s.r.early[i] in s.data && (s.r.early[i].number, s.r.early[i].frag) in s.delivered)
    && (forall a :: a in s.acks ==> 1 <= a <= s.r.nextFrag)
  }

  // Genuine packets agree with everything the receiver remembers.
  lemma GenuineIsConsistent(sent: seq<Message>, delivered: set<(nat, nat)>, r: Receiver, p: Packet)
    requires forall i :: 0 <= i < |r.early| ==> Genuine(sent, r.early[i])
    requires forall i :: 0 <= i < |r.partials| ==> PartialKnown(sent, delivered, r.partials[i])
    requires Genuine(sent, p)
    ensures Consistent(r, p)
  {
  }

  lemma OrderedKnows(session: nat, sent: seq<Message>, delivered: set<(nat, nat)>, r: Receiver, p: Packet, ok: bool)
    requires session < SESSIONS
    requires RecvOk(session, r) && ValidPacket(session, p)
    requires Knows(sent, delivered, r) && Genuine(sent, p) && (p.number, p.frag) in delivered
    ensures Knows(sent, delivered, Ordered(r, p, ok))
  {
    if p.number == r.nextMatch {
      AcceptKnows(session, sent, delivered, r, p);
    } else if p.msg.kind.Medium? {
      ContinueKnows(session, sent, delivered, r, p);
    }
  }

  // What holds of the receiver while it takes early packets out.
  ghost predicate DrainOk(session: nat, sent: seq<Message>, delivered: set<(nat, nat)>, r: Receiver, base: nat, acked: nat)
    requires session < SESSIONS
  {
    && RecvOk(session, r) && Knows(sent, delivered, r)
    && EarlyOk(session, r.early, base)
    && base <= r.nextMatch <= base + 2
    && acked <= r.nextFrag && |sent| + 1 <= acked + THROTTLING_OFFSET_MAX
    && (forall i :: 0 <= i < |r.early| ==>
          Genuine(sent, r.early[i]) && (r.early[i].number, r.early[i].frag) in delivered)
  }

  lemma OrderedDrainOk(session: nat, sent: seq<Message>, delivered: set<(nat, nat)>, r: Receiver, base: nat, acked: nat,
                       p: Packet, ok: bool)
    requires session < SESSIONS
    requires DrainOk(session, sent, delivered, r, base, acked) && ValidPacket(session, p)
    requires Genuine(sent, p) && (p.number, p.frag) in delivered
    requires p.number <= base + 1 && r.nextMatch <= p.number + MAX_AGE
    ensures DrainOk(session, sent, delivered, Ordered(r, p, ok), base, acked)
    ensures Ordered(r, p, ok).nextFrag >= r.nextFrag && Ordered(r, p, ok).early == r.early
  {
    GenuineIsConsistent(sent, delivered, r, p);
    OrderedKeeps(session, r, p, ok);
    OrderedKnows(session, sent, delivered, r, p, ok);
  }

  lemma TakeDue(session: nat, sent: seq<Message>, delivered: set<(nat, nat)>, r: Receiver, base: nat, acked: nat,
                i: nat, ok: bool)
    requires session < SESSIONS && i < |r.early| && r.early[i].number <= base + 1
    requires DrainOk(session, sent, delivered, r, base, acked)
    ensures var s := Ordered(r.(early := RemoveAt(r.early, i)), r.early[i], ok);
      && DrainOk(session, sent, delivered, s, base, acked)
      && s.early == RemoveAt(r.early, i)
      && s.nextFrag >= r.nextFrag
      && forall q :: q in s.early ==> q in r.early
  {
    var out := RemoveAt(r.early, i);
    RemovedIndices(r.early, i);
    assert DrainOk(session, sent, delivered, r.(early := out), base, acked);
    OrderedDrainOk(session, sent, delivered, r.(early := out), base, acked, r.early[i], ok);
    forall q | q in out ensures q in r.early {
      var j :| 0 <= j < |out| && out[j] == q;
    }
  }

  lemma {:induction false} DrainKeeps(session: nat, sent: seq<Message>, delivered: set<(nat, nat)>, r: Receiver, base: nat, acked: nat,
                                      i: nat, denied: Denied)
    requires session < SESSIONS && i <= |r.early|
    requires DrainOk(session, sent, delivered, r, base, acked)
    requires forall j :: 0 <= j < i ==> r.early[j].number > base + 1
    ensures var s := Drain(r, i, base + 1, denied);
      && DrainOk(session, sent, delivered, s, base, acked)
      && s.nextFrag >= r.nextFrag
      && (forall q :: q in s.early ==> q in r.early && q.number > base + 1)
    decreases |r.early| - i
  {
    if i < |r.early| {
      if r.early[i].number <= base + 1 {
        var p := r.early[i];
        var s := Ordered(r.(early := RemoveAt(r.early, i)), p, HasMemory(denied, p));
        TakeDue(session, sent, delivered, r, base, acked, i, HasMemory(denied, p));
        assert forall j :: 0 <= j < i ==> s.early[j] == r.early[j];
        DrainKeeps(session, sent, delivered, s, base, acked, i, denied);
      } else {
        DrainKeeps(session, sent, delivered, r, base, acked, i + 1, denied);
      }
    }
  }

  lemma KnowsMore(sent: seq<Message>, delivered: set<(nat, nat)>, r: Receiver, more: seq<Message>, arrived: set<(nat, nat)>)
    requires Knows(sent, delivered, r)
    ensures Knows(sent + more, delivered + arrived, r)
  {
    assert (sent + more)[..r.nextMatch - 1] == sent[..r.nextMatch - 1];
    forall n | n in r.completed
      ensures EntirelyDelivered((sent + more)[n - 1], n, delivered + arrived)
    {
      assert EntirelyDelivered(sent[n - 1], n, delivered);
    }
    forall i | 0 <= i < |r.partials|
      ensures PartialKnown(sent + more, delivered + arrived, r.partials[i])
    {
      assert PartialKnown(sent, delivered, r.partials[i]);
    }
  }

  // ----- every step keeps the invariant -----

  lemma SendKeeps(session: nat, s: System, msg: Message)
    requires session < SESSIONS && SystemOk(session, s) && Enabled(s, Send(msg))
    ensures SystemOk(session, Apply(session, s, Send(msg)))
  {
    KnowsMore(s.sent, s.delivered, s.r, [msg], {});
    assert s.delivered + {} == s.delivered;
  }

  lemma DrainParts(session: nat, sent: seq<Message>, delivered: set<(nat, nat)>, r: Receiver, base: nat, acked: nat)
    requires session < SESSIONS && DrainOk(session, sent, delivered, r, base, acked)
    ensures base <= r.nextMatch <= base + 2 && r.nextFrag <= r.nextMatch && EarlyOk(session, r.early, base) && RecvOk(session, r)
  {
    if r.partials != [] {
      PartialRange(session, r, 0);
    }
  }

  // A packet of the next message moves the next number by one, or changes nothing.
  lemma TakenInOrder(session: nat, r: Receiver, p: Packet, ok: bool)
    requires session < SESSIONS && p.number == r.nextMatch
    ensures var t := Ordered(r, p, ok);
      t.early == r.early && (t.nextMatch != r.nextMatch ==> t.nextMatch == r.nextMatch + 1) && (t.nextMatch == r.nextMatch ==> t == r)
  {
  }

  lemma Rebase(session: nat, sent: seq<Message>, delivered: set<(nat, nat)>, r: Receiver, base: nat, acked: nat)
    requires session < SESSIONS && DrainOk(session, sent, delivered, r, base, acked) && EarlyOk(session, r.early, r.nextMatch)
    ensures DrainOk(session, sent, delivered, r, r.nextMatch, acked)
  {
  }

  lemma MatchKeeps(session: nat, sent: seq<Message>, delivered: set<(nat, nat)>, r: Receiver, acked: nat, p: Packet, denied: Denied)
    requires session < SESSIONS
    requires DrainOk(session, sent, delivered, r, r.nextMatch, acked) && ValidPacket(session, p)
    requires Genuine(sent, p) && (p.number, p.frag) in delivered && p.number == r.nextMatch
    ensures var s := Deliver(r, p, denied);
      && DrainOk(session, sent, delivered, s, s.nextMatch, acked)
      && s.nextFrag >= r.nextFrag
      && (forall q :: q in s.early ==> q in r.early)
  {
    hide RecvOk, Knows, EarlyOk, Ordered, Drain, DrainOk, Genuine, ValidPacket;
    var ok := HasMemory(denied, p);
    DrainParts(session, sent, delivered, r, r.nextMatch, acked);
    OrderedDrainOk(session, sent, delivered, r, r.nextMatch, acked, p, ok);
    var t := Ordered(r, p, ok);
    if t.nextMatch != r.nextMatch {
      DrainParts(session, sent, delivered, t, r.nextMatch, acked);
      TakenInOrder(session, r, p, ok);
      DrainKeeps(session, sent, delivered, t, r.nextMatch, acked, 0, denied);
      var u := Drain(t, 0, r.nextMatch + 1, denied);
      DrainParts(session, sent, delivered, u, r.nextMatch, acked);
      ShiftEarly(session, u.early, r.nextMatch, u.nextMatch);
      Rebase(session, sent, delivered, u, r.nextMatch, acked);
    }
  }

  lemma PostponeKeeps(session: nat, sent: seq<Message>, delivered: set<(nat, nat)>, r: Receiver, acked: nat, p: Packet)
    requires session < SESSIONS
    requires DrainOk(session, sent, delivered, r, r.nextMatch, acked) && ValidPacket(session, p)
    requires Genuine(sent, p) && (p.number, p.frag) in delivered
    requires r.nextMatch <= p.number <= r.nextMatch + EARLY_PACKET_OFFSET_MAX
    ensures DrainOk(session, sent, delivered, r.(early := InsertEarly(r.early, p)), r.nextMatch, acked)
    ensures forall q :: q in InsertEarly(r.early, p) ==> q == p || q in r.early
  {
    InsertEarlyOk(session, r.early, p, r.nextMatch);
    InsertEarlyKeepsOrder(r.early, p);
    var out := InsertEarly(r.early, p);
    forall i | 0 <= i < |out|
      ensures out[i] == p || out[i] in r.early
    {
      assert out[i] in out;
    }
  }

  lemma DeliverKeeps(session: nat, s: System, p: Packet, denied: Denied)
    requires session < SESSIONS && SystemOk(session, s) && Enabled(s, DeliverData(p, denied))
    ensures SystemOk(session, Apply(session, s, DeliverData(p, denied)))
    ensures Deliver(s.r, p, denied).nextFrag >= s.r.nextFrag
  {
    var delivered := s.delivered + {(p.number, p.frag)};
    KnowsMore(s.sent, s.delivered, s.r, [], {(p.number, p.frag)});
    assert s.sent + [] == s.sent;
    DeliverDrainOk(session, s.sent, delivered, s.r, s.nextAcked, p, denied);
    var early := Deliver(s.r, p, denied).early;
    forall i | 0 <= i < |early|
      ensures early[i] in s.data && (early[i].number, early[i].frag) in delivered
    {
      assert early[i] in early;
    }
  }

  lemma DeliverDrainOk(session: nat, sent: seq<Message>, delivered: set<(nat, nat)>, r: Receiver, acked: nat, p: Packet, denied: Denied)
    requires session < SESSIONS
    requires DrainOk(session, sent, delivered, r, r.nextMatch, acked) && ValidPacket(session, p)
    requires Genuine(sent, p) && (p.number, p.frag) in delivered && r.nextMatch <= p.number + MAX_AGE
    ensures var s := Deliver(r, p, denied);
      && DrainOk(session, sent, delivered, s, s.nextMatch, acked)
      && s.nextFrag >= r.nextFrag
      && (forall q :: q in s.early ==> q == p || q in r.early)
  {
    match ClassifyUnbounded(r.nextMatch, r.nextFrag, p.number)
    case Match => MatchKeeps(session, sent, delivered, r, acked, p, denied);
    case Within => OrderedDrainOk(session, sent, delivered, r, r.nextMatch, acked, p, HasMemory(denied, p));
    case Early => PostponeKeeps(session, sent, delivered, r, acked, p);
    case Previous =>
    case Obsolete =>
  }

  lemma ShiftEarly(session: nat, early: seq<Packet>, base: nat, newBase: nat)
    requires session < SESSIONS
    requires EarlyOk(session, early, base) && base <= newBase <= base + 2
    requires forall q :: q in early ==> q.number > base + 1
    ensures EarlyOk(session, early, newBase)
  {
    assert forall i :: 0 <= i < |early| ==> early[i] in early;
  }

  lemma StepKeeps(session: nat, s: System, e: Event)
    requires session < SESSIONS && SystemOk(session, s) && Enabled(s, e)
    ensures SystemOk(session, Apply(session, s, e))
  {
    match e
    case Send(msg) => SendKeeps(session, s, msg);
    case Post(number, frag) =>
    case DeliverData(p, denied) => DeliverKeeps(session, s, p, denied);
    case Acknowledge =>
    case DeliverAck(ack) =>
  }

  lemma {:induction false} RunKeeps(session: nat, s: System, events: seq<Event>)
    requires session < SESSIONS && SystemOk(session, s) && Legal(session, s, events)
    ensures SystemOk(session, Exec(session, s, events))
    decreases |events|
  {
    if events != [] {
      StepKeeps(session, s, events[0]);
      RunKeeps(session, Apply(session, s, events[0]), events[1..]);
    }
  }

  // ----- main results -----

  // Exactly-once, in-order matching over every run: what was matched is a
  // prefix of what was sent; the four counters stay in order; every number
  // below nextFrag completed exactly once, with every fragment delivered, so
  // in particular every acked one.
  lemma ExactlyOnceInOrder(session: nat, events: seq<Event>)
    requires session < SESSIONS && Legal(session, INITIAL, events)
    ensures var s := Exec(session, INITIAL, events);
      && s.r.matched <= s.sent
      && 1 <= s.nextAcked <= s.r.nextFrag <= s.r.nextMatch <= NextSend(s)
      && NoDup(s.r.completed)
      && (forall n :: 1 <= n < s.r.nextFrag ==> n in s.r.completed)
      && (forall n :: n in s.r.completed ==>
            1 <= n <= |s.r.matched| && EntirelyDelivered(s.sent[n - 1], n, s.delivered))
  {
    RunKeeps(session, INITIAL, events);
    var s := Exec(session, INITIAL, events);
    forall i | 0 <= i < |s.r.partials|
      ensures s.r.partials[i].number >= s.r.nextFrag
    {
      PartialRange(session, s.r, i);
    }
    if s.r.partials != [] {
      PartialRange(session, s.r, 0);
    }
  }

  // In every reachable state, the 14-bit tests of the receiver and of the
  // sender decide as unbounded comparisons would, for every packet and every
  // ack the network may still deliver.
  lemma WireDecisionsAreExact(session: nat, events: seq<Event>, p: Packet, denied: Denied, ack: nat)
    requires session < SESSIONS && Legal(session, INITIAL, events)
    ensures var s := Exec(session, INITIAL, events);
      && (Enabled(s, DeliverData(p, denied)) ==>
            && Fresh(s.r.nextMatch, s.r.nextFrag, p.number)
            && Classify(Wire(session, s.r.nextMatch), Wire(session, s.r.nextFrag), p.seqnum)
               == ClassifyUnbounded(s.r.nextMatch, s.r.nextFrag, p.number))
      && (Enabled(s, DeliverAck(ack)) ==>
            AckBefore(Wire(session, NextSend(s)), Wire(session, s.nextAcked), Wire(session, ack))
            == Wire(session, Max(s.nextAcked, ack)))
  {
    RunKeeps(session, INITIAL, events);
    var s := Exec(session, INITIAL, events);
    if s.r.partials != [] {
      PartialRange(session, s.r, 0);
    }
    if Enabled(s, DeliverData(p, denied)) {
      ClassifyAgrees(session, s.r.nextMatch, s.r.nextFrag, p.number);
    }
    if Enabled(s, DeliverAck(ack)) {
      HalfRangeIsSafe(session, NextSend(s), s.nextAcked, ack);
    }
  }

  // In every reachable state, the receiver satisfies its invariant and every
  // packet the network may deliver is one its methods in Partners.dfy accept.
  lemma ReceiverIsAlwaysReady(session: nat, events: seq<Event>, p: Packet, denied: Denied)
    requires session < SESSIONS && Legal(session, INITIAL, events)
    ensures var r := Exec(session, INITIAL, events).r;
      && RecvOk(session, r) && EarlyOk(session, r.early, r.nextMatch) && EarlyConsistent(r)
      && (forall i :: 0 <= i < |r.early| ==> r.early[i].number < r.nextFrag + THROTTLING_OFFSET_MAX)
    ensures var s := Exec(session, INITIAL, events);
      Enabled(s, DeliverData(p, denied)) ==> ValidPacket(session, p) && Consistent(s.r, p) && InWindow(s.r, p)
  {
    RunKeeps(session, INITIAL, events);
    var s := Exec(session, INITIAL, events);
    forall i | 0 <= i < |s.r.early|
      ensures Consistent(s.r, s.r.early[i]) && s.r.early[i].number < s.r.nextFrag + THROTTLING_OFFSET_MAX
    {
      GenuineIsConsistent(s.sent, s.delivered, s.r, s.r.early[i]);
    }
    if Enabled(s, DeliverData(p, denied)) {
      GenuineIsConsistent(s.sent, s.delivered, s.r, p);
    }
  }
}
