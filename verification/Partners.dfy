// The receiving half of struct omx__partner: 14-bit sequence fields, the queue
// of partially received mediums and the queue of early packets.
module Partners {
  import opened SeqNum
  import opened Fragments
  import opened RecvSpec

  class Partner {
    const session: nat

    var nextMatchRecvSeq: SeqNum16
    var nextFragRecvSeq: SeqNum16
    var partialMediumQ: seq<Partial>
    var earlyQ: seq<Packet>

    // The unbounded numbers behind the 16-bit fields, and the history.
    ghost var nextMatch: nat
    ghost var nextFrag: nat
    ghost var matched: seq<Message>
    ghost var completed: seq<nat>

    ghost function Model(): Receiver
      reads this
    {
      Receiver(nextMatch, nextFrag, partialMediumQ, earlyQ, matched, completed)
    }

    // Holds at every step, even while early packets are being drained.
    ghost predicate Fields()
      reads this
    {
      && session < SESSIONS
      && nextMatchRecvSeq == Wire(session, nextMatch)
      && nextFragRecvSeq == Wire(session, nextFrag)
      && RecvOk(session, Model())
    }

    ghost predicate Valid()
      reads this
    {
      && Fields()
      && EarlyOk(session, earlyQ, nextMatch)
      && EarlyConsistent(Model())
      && (forall i :: 0 <= i < |earlyQ| ==> earlyQ[i].number < nextFrag + THROTTLING_OFFSET_MAX)
    }

    // What the fields say, and how that is established.
    lemma Known()
      requires Fields()
      ensures session < SESSIONS && nextMatchRecvSeq == Wire(session, nextMatch) && nextFragRecvSeq == Wire(session, nextFrag)
      ensures RecvOk(session, Model()) && Model() == Receiver(nextMatch, nextFrag, partialMediumQ, earlyQ, matched, completed)
    {
      hide RecvOk, Wire;
    }

    lemma ModelIs()
      ensures Model() == Receiver(nextMatch, nextFrag, partialMediumQ, earlyQ, matched, completed)
    {
    }

    lemma Establish()
      requires session < SESSIONS && nextMatchRecvSeq == Wire(session, nextMatch) && nextFragRecvSeq == Wire(session, nextFrag)
      requires RecvOk(session, Model())
      ensures Fields()
    {
      hide RecvOk, Wire;
    }

    // A connect request resets the receive numbers of the session to 1.
    constructor (session: nat)
      requires session < SESSIONS
      ensures Valid() && this.session == session
      ensures Model() == Receiver(1, 1, [], [], [], [])
    {
      this.session := session;
      nextMatchRecvSeq := session * SEQNUM_RANGE + 1;
      nextFragRecvSeq := session * SEQNUM_RANGE + 1;
      partialMediumQ, earlyQ := [], [];
      nextMatch, nextFrag, matched, completed := 1, 1, [], [];
    }

    // omx__find_previous_early_packet: where to insert, scanning from the back.
    method FindPreviousEarly(p: Packet) returns (duplicate: bool, at: nat)
      requires Valid() && ValidPacket(session, p) && Consistent(Model(), p)
      requires nextMatch <= p.number <= nextMatch + EARLY_PACKET_OFFSET_MAX
      ensures at <= |earlyQ|
      ensures InsertEarly(earlyQ, p) == if duplicate then earlyQ else earlyQ[..at] + [p] + earlyQ[at..]
    {
      var newIndex := Seq(p.seqnum - nextMatchRecvSeq);
      at := |earlyQ|;
      while at > 0
        invariant at <= |earlyQ|
        invariant forall j :: at <= j < |earlyQ| ==> Before(p, earlyQ[j])
      {
        var current := earlyQ[at - 1];
        var currentIndex := Seq(current.seqnum - nextMatchRecvSeq);
        WireDifference(session, p.number, nextMatch);
        WireDifference(session, current.number, nextMatch);
        if newIndex > currentIndex {
          break;
        }
        if newIndex == currentIndex {
          if !p.msg.kind.Medium? || p.frag == current.frag {
            DuplicateIsKept(earlyQ, p, at - 1);
            return true, at;
          }
          if p.frag > current.frag {
            break;
          }
        }
        at := at - 1;
      }
      InsertAtIsInsertEarly(earlyQ, p, at);
      duplicate := false;
    }

    // omx__postpone_early_packet
    method PostponeEarly(p: Packet, hasMemory: bool)
      requires Valid() && ValidPacket(session, p) && Consistent(Model(), p) && InWindow(Model(), p)
      requires nextMatch <= p.number <= nextMatch + EARLY_PACKET_OFFSET_MAX
      modifies this`earlyQ
      ensures Valid()
      ensures earlyQ == if hasMemory then InsertEarly(old(earlyQ), p) else old(earlyQ)
    {
      var duplicate, at := FindPreviousEarly(p);
      if duplicate || !hasMemory {
        return;
      }
      InsertEarlyOk(session, earlyQ, p, nextMatch);
      InsertEarlyConsistent(session, Model(), p, nextFrag + THROTTLING_OFFSET_MAX);
      earlyQ := earlyQ[..at] + [p] + earlyQ[at..];
    }

    // omx__process_recv_medium_frag on the queued request at index, or on a
    // fresh request when index is the queue length.
    method ProcessMediumFrag(index: nat, p: Packet)
      requires session < SESSIONS && ValidPacket(session, p) && p.msg.kind.Medium?
      requires index <= |partialMediumQ|
      requires forall i :: 0 <= i < |partialMediumQ| ==> ValidPartial(session, partialMediumQ[i])
      requires index < |partialMediumQ| ==>
                 partialMediumQ[index].msg == p.msg && IndexOf(partialMediumQ, p.number) == index
      modifies this`partialMediumQ, this`completed
      ensures index < old(|partialMediumQ|) ==>
                && partialMediumQ == Continue(old(Model()), p).partials
                && completed == Continue(old(Model()), p).completed
      ensures index == old(|partialMediumQ|) ==>
                && partialMediumQ == Accept(old(Model()), p).partials
                && completed == Accept(old(Model()), p).completed
    {
      var req := if index < |partialMediumQ| then partialMediumQ[index]
                 else Partial(p.seqnum, p.number, p.msg, {}, 0);
      var isNew := req.got == {};
      if p.frag in req.got {
        return;
      }
      FirstFragment(p.msg.length, p.frag);
      AddFragment(p.msg.length, req.got, p.frag);
      CompleteIffAllBytes(p.msg.length, req.got + {p.frag});
      assert isNew ==> req.got + {p.frag} == {p.frag};
      req := Grown(req, p);
      if isNew {
        partialMediumQ := partialMediumQ + [req];
      } else {
        partialMediumQ := partialMediumQ[index := req];
      }
      if req.accumulated == p.msg.length {
        partialMediumQ := RemoveAt(partialMediumQ, index);
        completed := completed + [p.number];
      }
    }

    // omx__update_partner_next_frag_recv_seq, without the ack it schedules
    method UpdateNextFrag()
      requires session < SESSIONS
      requires nextMatchRecvSeq == Wire(session, nextMatch) && nextFragRecvSeq == Wire(session, nextFrag)
      requires partialMediumQ != [] ==> ValidPartial(session, partialMediumQ[0])
      modifies this`nextFragRecvSeq, this`nextFrag
      ensures nextFrag == FirstMissing(partialMediumQ, nextMatch)
      ensures nextFragRecvSeq == Wire(session, nextFrag)
    {
      var newNextFrag := if partialMediumQ == [] then nextMatchRecvSeq else partialMediumQ[0].seqnum;
      nextFrag := FirstMissing(partialMediumQ, nextMatch);
      if newNextFrag != nextFragRecvSeq {
        nextFragRecvSeq := newNextFrag;
      }
    }

    // The search of omx__continue_partial_request; a later request first means
    // a duplicate of a completed medium.
    method FindPartial(p: Packet) returns (i: nat)
      requires Fields() && ValidPacket(session, p)
      requires nextFrag <= p.number < nextMatch
      ensures i == IndexOf(partialMediumQ, p.number)
    {
      var newIndex := Seq(p.seqnum - nextFragRecvSeq);
      WireDifference(session, p.number, nextFrag);
      i := 0;
      while i < |partialMediumQ|
        invariant i <= |partialMediumQ|
        invariant forall j :: 0 <= j < i ==> partialMediumQ[j].number < p.number
      {
        var reqIndex := Seq(partialMediumQ[i].seqnum - nextFragRecvSeq);
        PartialRange(session, Model(), i);
        WireDifference(session, partialMediumQ[i].number, nextFrag);
        if reqIndex == newIndex {
          FoundAt(partialMediumQ, p.number, i);
          return;
        } else if reqIndex > newIndex {
          FoundAt(partialMediumQ, p.number, |partialMediumQ|);
          return |partialMediumQ|;
        }
        i := i + 1;
      }
      FoundAt(partialMediumQ, p.number, |partialMediumQ|);
    }

    // omx__continue_partial_request
    method ContinuePartial(p: Packet)
      requires Fields() && ValidPacket(session, p) && Consistent(Model(), p)
      requires p.msg.kind.Medium? && nextFrag <= p.number < nextMatch
      modifies this`partialMediumQ, this`completed, this`nextFragRecvSeq, this`nextFrag
      ensures Fields()
      ensures Model() == Continue(old(Model()), p)
    {
      ghost var next := Continue(Model(), p);
      ContinueKeeps(session, Model(), p);
      var i := FindPartial(p);
      if i < |partialMediumQ| {
        ProcessMediumFrag(i, p);
        UpdateNextFrag();
        assert Model() == next;
      }
    }

    // omx__try_match_next_recv as far as the partner sees it: with memory the
    // message is matched, or stored as unexpected.
    method TryMatchNext(p: Packet, hasMemory: bool) returns (ok: bool)
      requires Fields() && ValidPacket(session, p) && p.number == nextMatch
      modifies this`partialMediumQ, this`completed, this`matched
      ensures ok == (p.msg.kind.Notify? || hasMemory)
      ensures ok ==> (matched == old(matched) + [p.msg]
                      && partialMediumQ == Accept(old(Model()), p).partials
                      && completed == Accept(old(Model()), p).completed)
      ensures !ok ==> Model() == old(Model())
    {
      if !p.msg.kind.Notify? && !hasMemory {
        return false;
      }
      matched := matched + [p.msg];
      if p.msg.kind.Medium? {
        assert {} + {p.frag} == {p.frag};
        ProcessMediumFrag(|partialMediumQ|, p);
      } else {
        completed := completed + [p.number];
      }
      return true;
    }

    // omx__process_partner_ordered_recv
    method ProcessOrdered(p: Packet, hasMemory: bool)
      requires Fields() && ValidPacket(session, p) && Consistent(Model(), p) && InWindow(Model(), p)
      modifies this
      ensures Fields() && earlyQ == old(earlyQ)
      ensures Model() == Ordered(old(Model()), p, hasMemory)
    {
      hide *;
      Known();
      ghost var was := Model();
      OrderedKeeps(session, was, p, hasMemory);
      PacketIs(session, p);
      OrderedTests(session, was, p);
      OrderedIs(session, was, p, hasMemory);
      var matchIndex := Seq(p.seqnum - nextMatchRecvSeq);
      var fragIndex := Seq(p.seqnum - nextFragRecvSeq);
      var fragIndexMax := Seq(nextMatchRecvSeq - nextFragRecvSeq);
      if matchIndex == 0 {
        var ok := TryMatchNext(p, hasMemory);
        if ok {
          IncreaseIsWire(session, nextMatch, 1);
          nextMatchRecvSeq := IncreaseBy(nextMatchRecvSeq, 1);
          nextMatch := nextMatch + 1;
          AcceptIs(session, was, p);
          UpdateNextFrag();
          ModelIs();
          Establish();
        } else {
          ModelIs();
          Establish();
        }
      } else if p.msg.kind.Medium? && fragIndex < fragIndexMax {
        ContinuePartial(p);
        ModelIs();
        ContinueEarly(was, p);
      }
    }

    // omx__process_recv, for a packet of any session. Acks ride on the same
    // packet but concern the sending half.
    method ProcessRecv(p: Packet, denied: Denied)
      requires Valid()
      requires Ses(p.seqnum) == session ==>
                 ValidPacket(session, p) && Consistent(Model(), p) && InWindow(Model(), p)
      modifies this
      ensures Valid()
      ensures Model() == if Ses(p.seqnum) == session then Deliver(old(Model()), p, denied) else old(Model())
    {
      IncreaseIsWire(session, nextFrag, 0);
      if Ses(p.seqnum) != Ses(nextFragRecvSeq) {
        return;
      }
      ClassifyAgrees(session, nextMatch, nextFrag, p.number);
      var oldNextMatchRecvSeq := nextMatchRecvSeq;
      var fragIndex := Seq(p.seqnum - nextFragRecvSeq);
      var fragIndexMax := Seq(oldNextMatchRecvSeq - nextFragRecvSeq);
      if fragIndex <= fragIndexMax {
        ProcessInOrder(p, denied);
      } else if fragIndex <= fragIndexMax + EARLY_PACKET_OFFSET_MAX {
        PostponeEarly(p, HasMemory(denied, p));
      }
    }

    // The first branch of omx__process_recv: a packet that is not early, then
    // the early packets it makes due.
    method ProcessInOrder(p: Packet, denied: Denied)
      requires Valid() && ValidPacket(session, p) && Consistent(Model(), p) && InWindow(Model(), p)
      requires p.number <= nextMatch
      modifies this
      ensures Valid()
      ensures var s := Ordered(old(Model()), p, HasMemory(denied, p));
        Model() == if s.nextMatch != old(nextMatch) then Drain(s, 0, s.nextMatch, denied) else s
    {
      hide *;
      ghost var start, was := nextMatch, Model();
      var oldNextMatchRecvSeq := nextMatchRecvSeq;
      ValidKnown();
      InOrderStep(session, was, p, HasMemory(denied, p));
      ProcessOrdered(p, HasMemory(denied, p));
      Known();
      SameWire(session, nextMatch, start);
      if oldNextMatchRecvSeq != nextMatchRecvSeq {
        DrainStart(start);
        DrainEarly(oldNextMatchRecvSeq, denied, start);
      } else {
        StillValid(start);
      }
    }

    lemma ValidKnown()
      requires Valid()
      ensures Fields() && session < SESSIONS && EarlyOk(session, earlyQ, nextMatch) && EarlyConsistent(Model()) && RecvOk(session, Model())
      ensures forall i :: 0 <= i < |earlyQ| ==> earlyQ[i].number < nextFrag + THROTTLING_OFFSET_MAX
      ensures nextMatchRecvSeq == Wire(session, nextMatch)
      ensures Model() == Receiver(nextMatch, nextFrag, partialMediumQ, earlyQ, matched, completed)
    {
      hide RecvOk, EarlyOk, EarlyConsistent, Wire;
    }

    lemma DrainStart(start: nat)
      requires Fields() && nextMatch == start + 1 && EarlyOk(session, earlyQ, start) && EarlyConsistent(Model())
      requires forall j :: 0 <= j < |earlyQ| ==> earlyQ[j].number < nextFrag + THROTTLING_OFFSET_MAX
      ensures Draining(start)
    {
      hide RecvOk, EarlyOk, EarlyConsistent, Wire;
    }

    lemma StillValid(start: nat)
      requires Fields() && nextMatch == start && EarlyOk(session, earlyQ, start) && EarlyConsistent(Model())
      requires forall j :: 0 <= j < |earlyQ| ==> earlyQ[j].number < nextFrag + THROTTLING_OFFSET_MAX
      ensures Valid()
    {
      hide RecvOk, EarlyOk, EarlyConsistent, Wire;
    }

    // Holds while early packets due since start are being taken out.
    ghost predicate Draining(start: nat)
      reads this
    {
      && Fields() && start + 1 <= nextMatch <= start + 2
      && EarlyOk(session, earlyQ, start) && EarlyConsistent(Model())
      && (forall j :: 0 <= j < |earlyQ| ==> earlyQ[j].number < nextFrag + THROTTLING_OFFSET_MAX)
    }

    method ProcessDueEarly(i: nat, ghost start: nat, denied: Denied)
      requires Draining(start) && i < |earlyQ| && earlyQ[i].number <= start + 1
      modifies this
      ensures Draining(start)
      ensures earlyQ == RemoveAt(old(earlyQ), i)
      ensures Model() == Ordered(old(Model()).(early := RemoveAt(old(earlyQ), i)), old(earlyQ[i]), HasMemory(denied, old(earlyQ[i])))
    {
      var early := earlyQ[i];
      RemoveEarly(session, Model(), i, start);
      RemovedIndices(earlyQ, i);
      earlyQ := RemoveAt(earlyQ, i);
      OrderedKeeps(session, Model(), early, HasMemory(denied, early));
      OrderedKeepsAllConsistent(Model(), early, HasMemory(denied, early));
      ProcessOrdered(early, HasMemory(denied, early));
    }

    // The loop over early packets after a match; earlyIndexMax is computed once.
    method DrainEarly(oldNextMatchRecvSeq: SeqNum16, denied: Denied, ghost start: nat)
      requires Draining(start) && nextMatch == start + 1 && oldNextMatchRecvSeq == Wire(session, start)
      modifies this
      ensures Valid()
      ensures Model() == Drain(old(Model()), 0, start + 1, denied)
    {
      hide *;
      DrainingKnown(start);
      var earlyIndexMax := Seq(nextMatchRecvSeq - oldNextMatchRecvSeq);
      EarlyTest(session, nextMatch, start);
      var i := 0;
      while i < |earlyQ|
        invariant i <= |earlyQ| && Draining(start) && Model().early == earlyQ && old(Model()).early == old(earlyQ)
        invariant forall j :: 0 <= j < i ==> earlyQ[j].number > start + 1
        invariant Drain(Model(), i, start + 1, denied) == Drain(old(Model()), 0, start + 1, denied)
        decreases |earlyQ| - i
      {
        DrainingKnown(start);
        DrainIs(Model(), i, start + 1, denied);
        EarlyKnown(session, earlyQ, start, i);
        EarlyTest(session, earlyQ[i].number, start);
        var earlyIndex := Seq(earlyQ[i].seqnum - oldNextMatchRecvSeq);
        if earlyIndex <= earlyIndexMax {
          ghost var q := earlyQ;
          ProcessDueEarly(i, start, denied);
          RemovedIndices(q, i);
          DrainingKnown(start);
        } else {
          i := i + 1;
        }
      }
      DrainingKnown(start);
      DrainIs(Model(), i, start + 1, denied);
      Drained(start);
    }

    lemma DrainingKnown(start: nat)
      requires Draining(start)
      ensures Fields() && session < SESSIONS && start + 1 <= nextMatch <= start + 2 && EarlyOk(session, earlyQ, start) && EarlyConsistent(Model())
      ensures nextMatchRecvSeq == Wire(session, nextMatch)
      ensures Model() == Receiver(nextMatch, nextFrag, partialMediumQ, earlyQ, matched, completed)
      ensures forall j :: 0 <= j < |earlyQ| ==> earlyQ[j].number < nextFrag + THROTTLING_OFFSET_MAX
    {
      hide RecvOk, EarlyOk, EarlyConsistent, Wire;
    }

    // Nothing due is left.
    lemma Drained(start: nat)
      requires Draining(start) && forall j :: 0 <= j < |earlyQ| ==> earlyQ[j].number > start + 1
      ensures Valid()
    {
      hide RecvOk, EarlyConsistent, Wire;
    }
  }

  lemma OrderedIs(session: nat, r: Receiver, p: Packet, ok: bool)
    requires session < SESSIONS && RecvOk(session, r) && InWindow(r, p)
    ensures p.number == r.nextMatch ==> Ordered(r, p, ok) == if p.msg.kind.Notify? || ok then Accept(r, p) else r
    ensures p.number != r.nextMatch && p.msg.kind.Medium? && r.nextFrag <= p.number < r.nextMatch ==> Ordered(r, p, ok) == Continue(r, p)
    ensures p.number != r.nextMatch && !(p.msg.kind.Medium? && r.nextFrag <= p.number < r.nextMatch) ==> Ordered(r, p, ok) == r
  {
    hide Accept, Continue, RecvOk;
  }

  lemma AcceptIs(session: nat, r: Receiver, p: Packet)
    requires session < SESSIONS && RecvOk(session, r) && ValidPacket(session, p) && p.number == r.nextMatch
    ensures var s := Accept(r, p);
      && s == Receiver(r.nextMatch + 1, FirstMissing(s.partials, r.nextMatch + 1), s.partials, r.early, r.matched + [p.msg], s.completed)
      && (s.partials != [] ==> ValidPartial(session, s.partials[0]))
  {
    hide FirstMissing, AllReceived;
    if r.partials != [] {
      FirstPartial(session, r);
    }
    StartedValid(session, p);
  }

  lemma FirstPartial(session: nat, r: Receiver)
    requires session < SESSIONS && RecvOk(session, r) && r.partials != []
    ensures ValidPartial(session, r.partials[0])
  {
  }

  lemma StartedValid(session: nat, p: Packet)
    requires session < SESSIONS && ValidPacket(session, p)
    ensures p.msg.kind.Medium? && !AllReceived(p.msg.length, {p.frag}) ==> ValidPartial(session, Started(p))
  {
    if p.msg.kind.Medium? {
      FirstFragment(p.msg.length, p.frag);
    }
  }

  lemma PacketIs(session: nat, p: Packet)
    requires session < SESSIONS && ValidPacket(session, p)
    ensures p.seqnum == Wire(session, p.number)
  {
  }

  lemma ContinueEarly(r: Receiver, p: Packet)
    ensures Continue(r, p).early == r.early
  {
  }

  // What a packet in order leaves of the early queue's part of the invariant.
  lemma InOrderStep(session: nat, r: Receiver, p: Packet, ok: bool)
    requires session < SESSIONS && RecvOk(session, r) && EarlyConsistent(r) && ValidPacket(session, p) && Consistent(r, p) && InWindow(r, p)
    ensures var s := Ordered(r, p, ok);
      s.early == r.early && s.nextFrag >= r.nextFrag && r.nextMatch <= s.nextMatch <= r.nextMatch + 1 && EarlyConsistent(s)
  {
    hide *;
    OrderedKeeps(session, r, p, ok);
    OrderedKeepsAllConsistent(r, p, ok);
  }

  lemma SameWire(session: nat, a: nat, b: nat)
    requires session < SESSIONS && b <= a <= b + 1
    ensures Wire(session, a) == Wire(session, b) <==> a == b
  {
    WireDifference(session, a, b);
  }

  lemma EarlyKnown(session: nat, early: seq<Packet>, start: nat, i: nat)
    requires session < SESSIONS && EarlyOk(session, early, start) && i < |early|
    ensures early[i].seqnum == Wire(session, early[i].number) && start <= early[i].number <= start + 255
  {
  }

  lemma EarlyTest(session: nat, n: nat, start: nat)
    requires session < SESSIONS && start <= n <= start + 255
    ensures Seq(Wire(session, n) - Wire(session, start)) == n - start
  {
    WireDifference(session, n, start);
  }

  lemma DrainIs(r: Receiver, i: nat, limit: nat, denied: Denied)
    requires i <= |r.early|
    ensures i == |r.early| ==> Drain(r, i, limit, denied) == r
    ensures i < |r.early| && r.early[i].number > limit ==> Drain(r, i, limit, denied) == Drain(r, i + 1, limit, denied)
    ensures i < |r.early| && r.early[i].number <= limit ==>
      Drain(r, i, limit, denied)
      == Drain(Ordered(r.(early := RemoveAt(r.early, i)), r.early[i], HasMemory(denied, r.early[i])), i, limit, denied)
  {
    hide Ordered;
  }
}
