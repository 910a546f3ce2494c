// The expected events of an endpoint, from the credit for one to the turn of
// the loop that handles it: why the driver always has a free slot for it.
module ExpectedEvents {
  import opened Collections
  import opened SeqNum
  import opened SenderModel
  import opened SlotsModel
  import opened SendqMapModule
  import opened EndpointModule
  import opened EventRingModule
  import Fragments

  // ----- each event to come has a credit -----

  // The events to come for the slots of one request.
  ghost function SlotEvents(slots: seq<nat>, owed: set<nat>): (events: set<Content>)
    ensures |events| <= Count(slots, owed)
    ensures forall c :: c in events <==> c.FragDone? && c.slot in slots && c.slot in owed
  {
    if slots == [] then {}
    else (if slots[0] in owed then {Content.FragDone(slots[0])} else {}) + SlotEvents(slots[1..], owed)
  }

  ghost function RequestEvents(st: State, id: Id, owed: set<nat>): set<Content> {
    if st.sending then SlotEvents(st.slots, owed) else if st.pulling then {Content.PullDone(id)} else {}
  }

  ghost function EventsBelow(states: seq<State>, owed: set<nat>, n: nat): set<Content>
    requires n <= |states|
  {
    if n == 0 then {} else EventsBelow(states, owed, n - 1) + RequestEvents(states[n - 1], n - 1, owed)
  }

  lemma {:induction false} EventsBelowHas(states: seq<State>, owed: set<nat>, n: nat, id: Id)
    requires id < n <= |states|
    ensures RequestEvents(states[id], id, owed) <= EventsBelow(states, owed, n)
  {
    if id < n - 1 {
      EventsBelowHas(states, owed, n - 1, id);
    }
  }

  lemma RequestCost(s: Sender, owners: map<nat, nat>, owed: set<nat>, id: Id)
    requires Inv(s, REST) && SlotsInv(s.attrs, s.states, owners, owed) && id < |s.states| == |s.attrs|
    ensures |RequestEvents(s.states[id], id, owed)| <= Held(s.attrs[id], s.states[id])
  {
    ShapeKnown(s, id);
    assert RequestSlots(s.attrs, s.states, owners, owed, id);
  }

  lemma ShapeKnown(s: Sender, id: Id)
    requires Inv(s, REST) && id < |s.states| == |s.attrs|
    ensures ShapeOk(s.attrs[id], s.states[id])
  {
  }

  lemma {:induction false} EventsCost(s: Sender, owners: map<nat, nat>, owed: set<nat>, n: nat)
    requires Inv(s, REST) && SlotsInv(s.attrs, s.states, owners, owed) && n <= |s.states| == |s.attrs|
    ensures |EventsBelow(s.states, owed, n)| <= Sum(s.attrs[..n], s.states[..n], Held)
  {
    hide Inv, SlotsInv, RequestEvents, Held;
    if n > 0 {
      EventsCost(s, owners, owed, n - 1);
      RequestCost(s, owners, owed, n - 1);
      assert s.attrs[..n][..n - 1] == s.attrs[..n - 1] && s.states[..n][..n - 1] == s.states[..n - 1];
    }
  }

  // An event the driver may still report.
  ghost predicate Awaited(owed: set<nat>, pulling: seq<Id>, c: Content) {
    if c.FragDone? then c.slot in owed else c.request in pulling
  }

  lemma AwaitedCounted(s: Sender, owners: map<nat, nat>, owed: set<nat>, c: Content)
    requires Inv(s, REST) && SlotsInv(s.attrs, s.states, owners, owed) && Awaited(owed, s.queues.pulling, c)
    ensures c in EventsBelow(s.states, owed, |s.states|)
  {
    if c.FragDone? {
      EventFindsOwner(s.attrs, s.states, owners, owed, c.slot);
      EventsBelowHas(s.states, owed, |s.states|, owners[c.slot]);
    } else {
      PullingState(s, c.request);
      EventsBelowHas(s.states, owed, |s.states|, c.request);
    }
  }

  lemma PullingState(s: Sender, id: Id)
    requires Inv(s, REST) && id in s.queues.pulling
    ensures id < |s.states| && s.states[id].pulling && !s.states[id].sending
  {
    assert QueueOk(At(s.queues, Pulling), Pulling, s.states);
  }

  lemma {:induction false} DistinctIn(q: seq<Content>, events: set<Content>)
    requires NoDup(q) && forall c :: c in q ==> c in events
    ensures |q| <= |events|
    decreases |q|
  {
    if q != [] {
      var rest := q[1..];
      assert forall k :: 0 <= k < |rest| ==> rest[k] == q[k + 1];
      assert q[0] in q && q[0] !in rest;
      DistinctIn(rest, events - {q[0]});
    }
  }

  // Distinct awaited events are no more than the credits that are taken.
  lemma CreditsSuffice(s: Sender, owners: map<nat, nat>, owed: set<nat>, q: seq<Content>)
    requires Inv(s, REST) && SlotsInv(s.attrs, s.states, owners, owed)
    requires NoDup(q) && forall c :: c in q ==> Awaited(owed, s.queues.pulling, c)
    ensures |q| + s.availExpEvents <= EXP_EVENTS
  {
    hide SlotsInv, EventsBelow, Awaited;
    forall c | c in q
      ensures c in EventsBelow(s.states, owed, |s.states|)
    {
      AwaitedCounted(s, owners, owed, c);
    }
    DistinctIn(q, EventsBelow(s.states, owed, |s.states|));
    EventsCost(s, owners, owed, |s.states|);
    assert s.attrs[..|s.states|] == s.attrs && s.states[..|s.states|] == s.states;
  }

  // ----- the endpoint and its ring -----

  class OpenEndpoint {
    const ep: Endpoint
    const ring: EventRing

    // Each event not handled yet is awaited, and was reported once.
    ghost predicate Valid()
      reads this, ep, ep.sendq, ep.sendq.slots, ring, ring.ring
    {
      && ep.Valid() && ring.Valid() && !ring.full && Reported(ring.queue, ep.owed, ep.queues.pulling)
    }

    constructor (sessions: map<Pid, nat>, resendsMax: nat)
      requires forall p :: p in sessions ==> sessions[p] < SESSIONS
      ensures Valid() && fresh(ep) && fresh(ep.sendq) && fresh(ep.sendq.slots) && fresh(ring) && fresh(ring.ring)
    {
      ep := new Endpoint(sessions, resendsMax);
      ring := new EventRing();
    }

    // The driver reports an event it owes: it is never told that the ring is
    // full, on which the library would abort.
    method Report(content: Content)
      requires Valid() && Awaited(ep.owed, ep.queues.pulling, content) && content !in ring.queue
      modifies ring, ring.ring
      ensures Valid() && ring.queue == old(ring.queue) + [content]
    {
      hide Inv, SlotsInv, FilledOk, RingOk, SlotsOk, OwnersOf, Awaited;
      OneMore(ring.queue, ep.owed, ep.queues.pulling, content);
      CreditsSuffice(ep.Now(), ep.sendq.Owners(), ep.owed, ring.queue + [content]);
      ring.RoomLeft();
      var busy := ring.Notify(content);
    }

    // omx__process_event, for the first event not handled yet.
    method Handle(content: Content, now: nat)
      requires Valid() && ring.queue != [] && ring.queue[0] == content
      modifies ep, ep.sendq, ep.sendq.slots
      ensures ep.Valid() && Reported(ring.queue[1..], ep.owed, ep.queues.pulling)
      ensures ep.availExpEvents == old(ep.availExpEvents) + 1
    {
      hide Inv, SlotsInv, FilledOk, RingOk, SlotsOk, OwnersOf;
      assert Awaited(ep.owed, ep.queues.pulling, content);
      if content.FragDone? {
        ep.FragDone(content.slot);
      } else {
        ep.PullDone(content.request, now);
      }
      OneLess(ring.queue, old(ep.owed), old(ep.queues.pulling), ep.owed, ep.queues.pulling);
    }

    // The loop of omx__progress over the expected events: all of them are
    // handled, in order, and each gives its credit back.
    method Progress(now: nat) returns (ghost handled: seq<Content>)
      requires Valid()
      modifies ep, ep.sendq, ep.sendq.slots, ring
      ensures Valid() && handled == old(ring.queue) && ring.queue == []
      ensures ep.availExpEvents == old(ep.availExpEvents) + |handled|
    {
      hide Inv, SlotsInv, FilledOk, RingOk, SlotsOk, OwnersOf, Awaited, Reported;
      handled := [];
      while true
        invariant Valid() && handled + ring.queue == old(ring.queue)
        invariant ep.availExpEvents == old(ep.availExpEvents) + |handled|
        decreases |ring.queue|
      {
        var found, content := ring.Next();
        if !found {
          break;
        }
        Handle(content, now);
        ring.Consume();
        handled := handled + [content];
      }
    }

    // The other calls into the endpoint take credits and start what will be
    // reported, but end nothing that is awaited.

    method SubmitIsend(p: Pid, kind: Kind, frags: nat, regionOk: bool, accepted: nat, now: nat) returns (id: Id)
      requires Valid() && p in ep.sides && p in ep.logs && !kind.RecvLarge?
      requires (kind.MediumSq? <==> frags > 0) && accepted <= frags <= Fragments.FRAGS_MAX && frags <= accepted + 1
      modifies ep, ep.sendq, ep.sendq.slots
      ensures Valid()
    {
      hide Inv, SlotsInv, FilledOk, RingOk, SlotsOk, OwnersOf, Awaited, Reported;
      id := ep.SubmitIsend(p, kind, frags, regionOk, accepted, now);
      StillReported(ring.queue, old(ep.owed), old(ep.queues.pulling), ep.owed, ep.queues.pulling);
    }

    method SubmitPull(p: Pid, empty: bool, regionOk: bool, now: nat) returns (id: Id)
      requires Valid() && p in ep.sides && p in ep.logs
      modifies ep
      ensures Valid()
    {
      hide Inv, SlotsInv, FilledOk, RingOk, SlotsOk, OwnersOf, Awaited, Reported;
      id := ep.SubmitPull(p, empty, regionOk, now);
      StillReported(ring.queue, old(ep.owed), old(ep.queues.pulling), ep.owed, ep.queues.pulling);
    }

    method ProcessDelayed(now: nat)
      requires Valid()
      modifies ep, ep.sendq, ep.sendq.slots
      ensures Valid()
    {
      hide Inv, SlotsInv, FilledOk, RingOk, SlotsOk, OwnersOf, Awaited, Reported;
      ep.ProcessDelayed(now);
      StillReported(ring.queue, old(ep.owed), old(ep.queues.pulling), ep.owed, ep.queues.pulling);
    }

    method HandleAck(p: Pid, ackBefore: SeqNum16, now: nat, ghost ack: nat)
      requires Valid() && p in ep.sides && p in ep.logs && ep.logs[p].session < SESSIONS
      requires ackBefore == Wire(ep.logs[p].session, ack) && ack <= |ep.logs[p].given| + 1
      requires ep.logs[p].acked <= ack + MAX_ACK_STALENESS
      modifies ep, ep.sendq, ep.sendq.slots
      ensures Valid()
    {
      hide Inv, SlotsInv, FilledOk, RingOk, SlotsOk, OwnersOf, Awaited, Reported;
      ep.HandleAck(p, ackBefore, now, ack);
      StillReported(ring.queue, old(ep.owed), old(ep.queues.pulling), ep.owed, ep.queues.pulling);
    }

    method HandleLiback(p: Pid, libSeqnum: SeqNum16, acknum: nat, now: nat, ghost ack: nat)
      requires Valid() && p in ep.sides && p in ep.logs && ep.logs[p].session < SESSIONS
      requires Ses(libSeqnum) == ep.logs[p].session && acknum > ep.sides[p].lastRecvAcknum ==>
        libSeqnum == Wire(ep.logs[p].session, ack) && ack <= |ep.logs[p].given| + 1 && ep.logs[p].acked <= ack + MAX_ACK_STALENESS
      modifies ep, ep.sendq, ep.sendq.slots
      ensures Valid()
    {
      hide Inv, SlotsInv, FilledOk, RingOk, SlotsOk, OwnersOf, Awaited, Reported;
      ep.HandleLiback(p, libSeqnum, acknum, now, ack);
      StillReported(ring.queue, old(ep.owed), old(ep.queues.pulling), ep.owed, ep.queues.pulling);
    }

    method LargeReplied(id: Id)
      requires Valid() && id < |ep.states| && ep.states[id].needReply
      modifies ep
      ensures Valid()
    {
      hide Inv, SlotsInv, FilledOk, RingOk, SlotsOk, OwnersOf, Awaited, Reported;
      ep.LargeReplied(id);
      StillReported(ring.queue, old(ep.owed), old(ep.queues.pulling), ep.owed, ep.queues.pulling);
    }

    method ProcessResend(now: nat, resendDelay: nat) returns (timedOut: bool, p: Pid)
      requires Valid()
      modifies ep
      ensures Valid()
    {
      hide Inv, SlotsInv, FilledOk, RingOk, SlotsOk, OwnersOf, Awaited, Reported;
      timedOut, p := ep.ProcessResend(now, resendDelay);
      StillReported(ring.queue, old(ep.owed), old(ep.queues.pulling), ep.owed, ep.queues.pulling);
    }
  }

  ghost predicate Reported(queue: seq<Content>, owed: set<nat>, pulling: seq<Id>) {
    NoDup(queue) && forall c :: c in queue ==> Awaited(owed, pulling, c)
  }

  lemma OneLess(queue: seq<Content>, owed: set<nat>, pulling: seq<Id>, owed': set<nat>, pulling': seq<Id>)
    requires Reported(queue, owed, pulling) && queue != []
    requires queue[0].FragDone? ==> owed' == owed - {queue[0].slot} && pulling' == pulling
    requires queue[0].PullDone? ==> owed <= owed' && pulling' == Without(pulling, queue[0].request)
    ensures Reported(queue[1..], owed', pulling')
  {
    assert forall k :: 0 <= k < |queue[1..]| ==> queue[1..][k] == queue[k + 1];
    forall c | c in queue[1..]
      ensures Awaited(owed', pulling', c)
    {
      assert c in queue && c != queue[0];
    }
  }

  lemma StillReported(queue: seq<Content>, owed: set<nat>, pulling: seq<Id>, owed': set<nat>, pulling': seq<Id>)
    requires Reported(queue, owed, pulling) && owed <= owed' && forall id :: id in pulling ==> id in pulling'
    ensures Reported(queue, owed', pulling')
  {
  }

  lemma OneMore(queue: seq<Content>, owed: set<nat>, pulling: seq<Id>, c: Content)
    requires Reported(queue, owed, pulling) && Awaited(owed, pulling, c) && c !in queue
    ensures Reported(queue + [c], owed, pulling)
  {
    assert forall k :: 0 <= k < |queue| ==> queue[k] in queue;
  }
}
