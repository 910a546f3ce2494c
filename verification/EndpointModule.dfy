// The sending functions of an endpoint (omx_send.c, omx_ack.c), over their
// queues, credits and send slots.
module EndpointModule {
  import opened Collections
  import opened SeqNum
  import opened SenderModel
  import opened SlotsModel
  import opened SendqMapModule
  import Fragments

  // What waits for a number stays as it is.
  predicate SameQueue(side: Side, side': Side) {
    side'.needSeqnum == side.needSeqnum && side'.throttlingNr == side.throttlingNr && side'.lastRecvAcknum == side.lastRecvAcknum
  }

  // Requests get numbers behind those that have one; nothing is acked.
  ghost predicate LogsGrow(was: map<Pid, Log>, logs: map<Pid, Log>) {
    forall q :: q in was ==> q in logs && logs[q].session == was[q].session && logs[q].acked == was[q].acked && was[q].given <= logs[q].given
  }

  ghost predicate SameIssued(was: map<Pid, Log>, logs: map<Pid, Log>) {
    forall q :: q in was ==> q in logs && logs[q].issued == was[q].issued
  }

  class Endpoint {
    var attrs: seq<Attr>
    var states: seq<State>
    var sides: map<Pid, Side>
    var queues: Queues
    var throttlingPartnersList: seq<Pid>
    var availExpEvents: nat
    var largeSendsAvailNr: nat
    const reqResendsMax: nat
    const sendq: SendqMap
    ghost var logs: map<Pid, Log>
    // slots for which the driver will report that the fragment is done
    ghost var owed: set<nat>
    // what was copied to each slot
    ghost var filled: map<nat, (Id, nat)>

    ghost function Now(): Sender
      reads this
    {
      Sender(attrs, states, sides, logs, queues, throttlingPartnersList, availExpEvents, largeSendsAvailNr)
    }

    ghost predicate SlotsValid()
      reads this, sendq, sendq.slots
    {
      sendq.Valid() && SlotsInv(attrs, states, sendq.Owners(), owed) && FilledOk(attrs, states, filled)
    }

    ghost predicate Working(m: Mode)
      reads this, sendq, sendq.slots
    {
      SlotsValid() && Inv(Now(), m)
    }

    ghost predicate Valid()
      reads this, sendq, sendq.slots
    {
      Working(REST) && queues.hand == []
    }

    lemma Known()
      requires Valid()
      ensures SlotsValid() && sendq.Valid() && SlotsInv(attrs, states, sendq.Owners(), owed) && FilledOk(attrs, states, filled) && Inv(Now(), REST) && queues.hand == []
      ensures Now() == Sender(attrs, states, sides, logs, queues, throttlingPartnersList, availExpEvents, largeSendsAvailNr)
    {
      hide Inv, SlotsInv, FilledOk, SlotsOk, OwnersOf;
    }

    lemma Establish()
      requires sendq.Valid() && SlotsInv(attrs, states, sendq.Owners(), owed) && FilledOk(attrs, states, filled) && Inv(Now(), REST) && queues.hand == []
      ensures Valid()
    {
      hide Inv, SlotsInv, FilledOk, SlotsOk, OwnersOf;
    }

    // An endpoint with one session open to each of the partners given.
    constructor (sessions: map<Pid, nat>, resendsMax: nat)
      requires forall p :: p in sessions ==> sessions[p] < SESSIONS
      ensures Valid() && fresh(sendq) && fresh(sendq.slots)
      ensures sides.Keys == sessions.Keys && forall p :: p in sides ==> logs[p] == Log(sessions[p], [], [], 1)
      ensures attrs == [] && logs.Keys == sessions.Keys
    {
      attrs, states, throttlingPartnersList := [], [], [];
      queues := Queues([], [], [], [], [], []);
      sides := map p | p in sessions :: Side(Wire(sessions[p], 1), Wire(sessions[p], 1), [], [], 0, 0);
      logs := map p | p in sessions :: Log(sessions[p], [], [], 1);
      availExpEvents, largeSendsAvailNr, reqResendsMax := EXP_EVENTS, LARGE_SENDS, resendsMax;
      owed, filled := {}, map[];
      sendq := new SendqMap();
      new;
      Empty(Now(), sessions);
    }

    // ----- a number for the request in hand -----

    // omx__setup_isend_* and omx__setup_notify: take the next number, post,
    // and wait for the ack. accepted counts the fragments the driver took; the
    // post returns, see PostReturnsIff.
    method SetUp(p: Pid, id: Id, accepted: nat, now: nat, ghost m: Mode, ghost owners: map<nat, nat>)
      requires SlotsInv(attrs, states, owners, owed) && FilledOk(attrs, states, filled) && Inv(Now(), m) && queues.hand == [id] && id < |states| == |attrs| && m.front && PlaceOf(states[id]) == InHand
      requires attrs[id].partner == p && p in sides && p in logs && HasNumber(Now(), p, m)
      requires states[id].missing == {} && !states[id].partial && (m.p != p ==> m.slack == 0 && m.sent == 0)
      requires accepted <= attrs[id].frags <= accepted + 1
      modifies `states, `sides, `queues, `availExpEvents, `logs, `owed, `filled
      ensures SlotsInv(attrs, states, owners, owed) && FilledOk(attrs, states, filled) && Inv(Now(), Used(m, p)) && queues.hand == [] && queues.needResources == old(queues.needResources)
      ensures queues.pulling == old(queues.pulling)
      ensures |states| == old(|states|) && logs == old(logs)[p := old(logs[p]).(given := old(logs[p].given) + [id])]
      ensures p in sides && sides == old(sides)[p := sides[p]] && SameQueue(old(sides[p]), sides[p])
      ensures old(owed) <= owed
      ensures !attrs[id].kind.MediumSq? ==> availExpEvents == old(availExpEvents)
      ensures filled == if attrs[id].kind.MediumSq? then Fill(old(filled), states[id].slots, |states[id].slots|, id) else old(filled)
      ensures attrs[id].kind.MediumSq? ==> SlotsHold(filled, states[id].slots, id)
    {
      hide *;
      NowIs();
      ghost var was := Now();
      GivenIs(attrs[id], states[id], sides[p].nextSend, reqResendsMax, accepted, now);
      SetUpKeeps(was, id, accepted, now, reqResendsMax, m, owners, owed, filled);
      var side := sides[p];
      var st := states[id].(seqnum := side.nextSend, resends := 0, resendsMax := reqResendsMax);
      side := side.(nextSend := IncreaseBy(side.nextSend, 1));
      st := Posted(attrs[id], st, accepted, now);
      st := st.(needAck := true, needReply := attrs[id].kind.Large?);
      if attrs[id].kind.MediumSq? {
        availExpEvents := availExpEvents + attrs[id].frags - accepted;
        filled := Fill(filled, st.slots, |st.slots|, id);
      }
      states := states[id := st];
      sides := sides[p := side.(nonAcked := side.nonAcked + [id])];
      if st.sending {
        queues := queues.(sending := queues.sending + [id], hand := []);
        owed := owed + SetOf(st.slots[..accepted]);
      } else {
        queues := queues.(nonAcked := queues.nonAcked + [id], hand := []);
      }
      logs := was.logs[p := was.logs[p].(given := was.logs[p].given + [id])];
      NowIs();
      QueueKept(was.sides[p], sides[p]);
    }

    // The end of every omx__alloc_setup_*: a number, or the throttling queue.
    method SetUpOrWait(p: Pid, id: Id, accepted: nat, now: nat, ghost owners: map<nat, nat>)
      requires SlotsInv(attrs, states, owners, owed) && FilledOk(attrs, states, filled) && Inv(Now(), REST) && queues.hand == [id]
      requires id < |states| == |attrs| && PlaceOf(states[id]) == InHand && states[id].missing == {} && !states[id].partial
      requires attrs[id].partner == p && p in sides && p in logs && accepted <= attrs[id].frags <= accepted + 1
      modifies `states, `sides, `queues, `throttlingPartnersList, `availExpEvents, `logs, `owed, `filled
      ensures SlotsInv(attrs, states, owners, owed) && FilledOk(attrs, states, filled) && Inv(Now(), REST) && queues.hand == []
      ensures queues.needResources == old(queues.needResources) && |states| == old(|states|) && queues.pulling == old(queues.pulling)
      ensures Placed(old(Now()), Now(), p, id)
      ensures old(owed) <= owed
      ensures !attrs[id].kind.MediumSq? ==> availExpEvents == old(availExpEvents)
    {
      hide Inv, SlotsInv, FilledOk, Change, Give, Wait, CanChange, SideOk, ShapeOk, Held, HeldLarge, SlotsOk, OwnersOf, HoldsSlots, PlaceOf;
      ghost var was := Now();
      WindowTest(was, id);
      if Seq(sides[p].nextSend - sides[p].nextAcked) >= THROTTLING_OFFSET_MAX {
        WaitKeeps(was, id);
        WaitIs(was, id);
        WaitSlots(was, id, owners, owed);
        FilledKept(attrs, states, filled, id, states[id].(needSeqnum := true));
        states := states[id := states[id].(needSeqnum := true)];
        if sides[p].throttlingNr == 0 {
          throttlingPartnersList := throttlingPartnersList + [p];
        }
        sides := sides[p := sides[p].(needSeqnum := sides[p].needSeqnum + [id], throttlingNr := sides[p].throttlingNr + 1)];
        queues := queues.(hand := []);
        assert Now() == Wait(was, id);
      } else {
        FrontFree(was, REST, true);
        SetUp(p, id, accepted, now, REST.(front := true), owners);
        FrontFree(Now(), REST.(front := true), false);
      }
    }

    // The credits for the fragments of a mediumsq send, all of them or none.
    method ReserveCredits(id: Id) returns (ok: bool)
      requires Working(REST) && queues.hand == [id] && id < |states| == |attrs| && PlaceOf(states[id]) == InHand
      requires attrs[id].kind.MediumSq? && ExpEvent in states[id].missing
      modifies `states, `availExpEvents
      ensures Working(REST) && ok == (old(availExpEvents) >= attrs[id].frags)
      ensures states == if ok then old(states)[id := old(states)[id].(missing := {SendqSlot})] else old(states)
      ensures availExpEvents == old(availExpEvents) - if ok then attrs[id].frags else 0
      ensures id < |states| && PlaceOf(states[id]) == InHand
    {
      hide *;
      Worked(REST);
      ok := availExpEvents >= attrs[id].frags;
      if ok {
        var st := states[id].(missing := {SendqSlot});
        CreditReserved(Now(), id, st, sendq.Owners(), owed);
        FilledKept(attrs, states, filled, id, st);
        availExpEvents := availExpEvents - attrs[id].frags;
        states := states[id := st];
        NowIs();
        Work(REST);
      }
    }

    // And their slots.
    method ReserveSlots(id: Id) returns (ok: bool)
      requires Working(REST) && queues.hand == [id] && id < |states| == |attrs| && PlaceOf(states[id]) == InHand
      requires attrs[id].kind.MediumSq? && states[id].missing == {SendqSlot}
      modifies `states, sendq, sendq.slots
      ensures Working(REST) && ok == (old(sendq.nrFree) >= attrs[id].frags)
      ensures if ok then id < |states| && states[id].missing == {} && states == old(states)[id := old(states)[id].(missing := {}, slots := states[id].slots)]
              else states == old(states)
    {
      hide *;
      Worked(REST);
      ghost var was, owners := Now(), sendq.Owners();
      var founds;
      ok, founds := sendq.Get(attrs[id].frags, id);
      if ok {
        var st := states[id].(missing := {}, slots := founds);
        SlotsReserved(was, id, st, owners, owed, founds);
        HandIsUnsent(states[id]);
        FilledKept(attrs, states, filled, id, st);
        states := states[id := st];
        NowIs();
      }
      Work(REST);
    }

    // omx__alloc_setup_isend_mediumsq: as many credits, then as many slots, as
    // there are fragments; what was reserved before is kept.
    method ReserveMediumSq(id: Id) returns (ok: bool)
      requires Working(REST) && queues.hand == [id] && id < |states| == |attrs| && PlaceOf(states[id]) == InHand
      requires attrs[id].kind.MediumSq? && states[id].missing != {}
      modifies `states, `availExpEvents, sendq, sendq.slots
      ensures Working(REST) && SameButReserved(old(states), states, id)
      ensures ok <==> states[id].missing == {}
      ensures ok <==> (ExpEvent in old(states[id].missing) ==> old(availExpEvents) >= attrs[id].frags) && old(sendq.nrFree) >= attrs[id].frags
      ensures availExpEvents == old(availExpEvents)
        - if ExpEvent in old(states[id].missing) && old(availExpEvents) >= attrs[id].frags then attrs[id].frags else 0
    {
      hide *;
      Worked(REST);
      InvSide(Now(), id, REST);
      MediumSqWants(attrs[id], states[id]);
      ok := true;
      if ExpEvent in states[id].missing {
        ok := ReserveCredits(id);
      }
      if ok {
        ok := ReserveSlots(id);
      }
      Reserved(old(states), states, id);
    }

    // omx__alloc_setup_isend_large: one of the large sends that may be posted,
    // then a region, which may not be had.
    method ReserveLarge(id: Id, regionOk: bool) returns (ok: bool)
      requires Working(REST) && queues.hand == [id] && id < |states| == |attrs| && PlaceOf(states[id]) == InHand
      requires attrs[id].kind.Large? && states[id].missing != {}
      modifies `states, `largeSendsAvailNr
      ensures Working(REST) && SameButReserved(old(states), states, id)
      ensures ok <==> states[id].missing == {}
      ensures ok <==> regionOk && (SendLargeRegion in old(states[id].missing) ==> old(largeSendsAvailNr) > 0)
    {
      hide Inv, SlotsInv, FilledOk, CanChange, SideOk, ShapeOk, Held, HeldLarge, SlotsOk, OwnersOf, HoldsSlots, PlaceOf;
      InvSide(Now(), id, REST);
      LargeWants(attrs[id], states[id]);
      if SendLargeRegion in states[id].missing {
        if largeSendsAvailNr == 0 {
          return false;
        }
        ghost var was := Now();
        var st := states[id].(missing := {LargeRegion});
        LargeReserved(was, id, st, sendq.Owners(), owed);
        FilledKept(attrs, states, filled, id, st);
        largeSendsAvailNr := largeSendsAvailNr - 1;
        states := states[id := st];
        assert Now() == was.(states := was.states[id := st], largeSendsAvail := was.largeSendsAvail - 1);
      }
      if !regionOk {
        return false;
      }
      ghost var was := Now();
      var st := states[id].(missing := {});
      RegionReserved(was, id, st, sendq.Owners(), owed);
      FilledKept(attrs, states, filled, id, st);
      states := states[id := st];
      assert Now() == was.(states := was.states[id := st]);
      ok := true;
    }

    // omx__alloc_setup_isend_* and omx__alloc_setup_notify; false if some
    // resource is missing, the request being still in hand then.
    method AllocSetUp(p: Pid, id: Id, regionOk: bool, accepted: nat, now: nat) returns (ok: bool)
      requires Working(REST) && queues.hand == [id] && id < |states| == |attrs| && PlaceOf(states[id]) == InHand
      requires attrs[id].partner == p && p in sides && p in logs && accepted <= attrs[id].frags <= accepted + 1
      requires !states[id].partial && StillWanting(attrs[id], states[id])
      modifies `states, `sides, `queues, `throttlingPartnersList, `availExpEvents, `largeSendsAvailNr, `logs, `owed, `filled, sendq, sendq.slots
      ensures Working(REST) && queues.needResources == old(queues.needResources) && |states| == old(|states|)
      ensures ok ==> queues.hand == [] && Placed(old(Now()), Now(), p, id)
      ensures !ok ==> queues.hand == [id] && logs == old(logs) && sides == old(sides) && PlaceOf(states[id]) == InHand
      ensures !ok ==> StillWanting(attrs[id], states[id]) && states[id].partial == old(states[id].partial)
      ensures old(owed) <= owed && queues.pulling == old(queues.pulling)
      ensures LogsGrow(old(logs), logs) && SameIssued(old(logs), logs) && sides.Keys == old(sides.Keys)
    {
      hide Inv, SlotsInv, FilledOk, CanChange, SideOk, ShapeOk, Held, HeldLarge, SlotsOk, OwnersOf, HoldsSlots, Placed, LogsGrow, SameIssued;
      InvSide(Now(), id, REST);
      WantsNothing(attrs[id], states[id]);
      ok := true;
      if attrs[id].kind.MediumSq? {
        ok := ReserveMediumSq(id);
      } else if attrs[id].kind.Large? {
        ok := ReserveLarge(id, regionOk);
      }
      if ok {
        ghost var was := Now();
        SetUpOrWait(p, id, accepted, now, sendq.Owners());
        PlacedSame(old(Now()), was, Now(), p, id);
      }
      PlacedIssued(old(Now()), Now(), p, id, ok);
    }

    // The credit for a pull.
    method ReservePullCredit(id: Id) returns (ok: bool)
      requires Working(REST) && queues.hand == [id] && id < |states| == |attrs| && PlaceOf(states[id]) == InHand
      requires states[id].partial && ExpEvent in states[id].missing
      modifies `states, `availExpEvents
      ensures Working(REST) && ok == (old(availExpEvents) > 0)
      ensures states == if ok then old(states)[id := old(states)[id].(missing := {LargeRegion, PullHandle})] else old(states)
      ensures availExpEvents == old(availExpEvents) - if ok then 1 else 0
      ensures id < |states| && PlaceOf(states[id]) == InHand
    {
      hide *;
      Worked(REST);
      ok := availExpEvents >= 1;
      if ok {
        var st := states[id].(missing := {LargeRegion, PullHandle});
        PullReserved(Now(), id, st, sendq.Owners(), owed);
        FilledKept(attrs, states, filled, id, st);
        availExpEvents := availExpEvents - 1;
        states := states[id := st];
        NowIs();
        Work(REST);
      }
    }

    // omx__alloc_setup_pull, the driver accepting the pull; false as above.
    method PullSetUp(id: Id, regionOk: bool) returns (ok: bool)
      requires Working(REST) && queues.hand == [id] && id < |states| == |attrs| && PlaceOf(states[id]) == InHand
      requires states[id].partial && states[id].missing != {}
      modifies `states, `queues, `availExpEvents
      ensures Working(REST) && |states| == old(|states|)
      ensures ok <==> regionOk && (ExpEvent in old(states[id].missing) ==> old(availExpEvents) > 0)
      ensures availExpEvents == old(availExpEvents) - if ExpEvent in old(states[id].missing) && old(availExpEvents) > 0 then 1 else 0
      ensures queues == if ok then old(queues).(hand := [], pulling := old(queues.pulling) + [id]) else old(queues)
      ensures !ok ==> queues.hand == [id] && PlaceOf(states[id]) == InHand && states[id].missing != {} && states[id].partial
    {
      hide *;
      Worked(REST);
      InvSide(Now(), id, REST);
      PullWants(attrs[id], states[id]);
      ok := true;
      if ExpEvent in states[id].missing {
        ok := ReservePullCredit(id);
      }
      if !ok || !regionOk {
        return false;
      }
      Worked(REST);
      ghost var was := Now();
      var st := states[id].(missing := {}, pulling := true);
      PullPostedKeeps(was, id);
      QuietSlots(was, id, st, sendq.Owners(), owed);
      FilledKept(attrs, states, filled, id, st);
      states := states[id := st];
      queues := queues.(hand := [], pulling := queues.pulling + [id]);
      NowIs();
      Work(REST);
    }

    // Delay the request in hand, at the tail or back at the head.
    method Delay(id: Id, tail: bool)
      requires Working(REST) && queues.hand == [id] && id < |states| == |attrs| && PlaceOf(states[id]) == InHand
      requires tail ==> queues.needResources == [] || attrs[id].kind.RecvLarge?
      requires StillWanting(attrs[id], states[id])
      modifies `states, `queues
      ensures Valid() && |states| == old(|states|)
      ensures queues == old(queues).(hand := [], needResources := if tail then old(queues.needResources) + [id] else [id] + old(queues.needResources))
    {
      hide Inv, SlotsInv, FilledOk, CanChange, SideOk, ShapeOk, Held, HeldLarge, SlotsOk, OwnersOf, HoldsSlots, PlaceOf;
      ghost var was := Now();
      RequeueKeeps(was, id, tail);
      QuietSlots(was, id, states[id].(needResources := true), sendq.Owners(), owed);
      FilledKept(attrs, states, filled, id, states[id].(needResources := true));
      states := states[id := states[id].(needResources := true)];
      queues := queues.(hand := [], needResources := if tail then queues.needResources + [id] else [id] + queues.needResources);
      assert Now() == was.(states := states, queues := queues);
    }

    // omx__submit_notify
    method SubmitNotify(p: Pid, id: Id, delayed: bool, now: nat)
      requires Working(REST) && queues.hand == [id] && id < |states| == |attrs| && PlaceOf(states[id]) == InHand
      requires attrs[id] == Attr(RecvLarge, p, 0) && p in sides && p in logs && !states[id].partial && states[id].missing == {}
      modifies `states, `sides, `queues, `throttlingPartnersList, `availExpEvents, `logs, `owed, `filled
      ensures Valid() && |states| == old(|states|) && queues.pulling == old(queues.pulling) && sides.Keys == old(sides.Keys)
      ensures old(queues.needResources) != [] || delayed ==>
        queues.needResources == [id] + old(queues.needResources) && logs == old(logs) && owed == old(owed)
      ensures old(queues.needResources) == [] && !delayed ==> Placed(old(Now()), Now(), p, id)
      ensures old(owed) <= owed && availExpEvents == old(availExpEvents)
    {
      hide Inv, SlotsInv, FilledOk, SlotsOk, OwnersOf, PlaceOf, Placed;
      if queues.needResources != [] || delayed {
        Delay(id, false);
      } else {
        SetUpOrWait(p, id, 0, now, sendq.Owners());
        PlacedIssued(old(Now()), Now(), p, id, true);
      }
    }

    // A new request, in hand.
    method NewRequest(attr: Attr, st: State) returns (id: Id)
      requires Valid() && attr.partner in sides && ShapeOk(attr, st) && IsNew(attr, st) && PlaceOf(st) == InHand
      requires attr.kind.RecvLarge? || queues.needResources == []
      modifies `attrs, `states, `queues, `logs
      ensures Working(REST) && queues.hand == [id] && queues == old(queues).(hand := [id])
      ensures id == old(|states|) && attrs == old(attrs) + [attr] && states == old(states) + [st] && |attrs| == |states|
      ensures attr.partner in old(logs) && logs == Issued(old(logs), attr, id) && logs.Keys == old(logs.Keys)
    {
      hide Inv, SlotsInv, FilledOk, ShapeOk, IsNew, SlotsOk, OwnersOf;
      ghost var was := Now();
      AddKeeps(was, attr, st);
      NewSlots(was, attr, st, sendq.Owners(), owed);
      HandIsUnsent(st);
      FilledAdded(attrs, states, filled, attr, st);
      id := |states|;
      attrs := attrs + [attr];
      states := states + [st];
      queues := queues.(hand := [id]);
      logs := Issued(logs, attr, id);
      assert Now() == Add(was, attr, st);
    }

    // omx__submit_isend_*
    method SubmitIsend(p: Pid, kind: Kind, frags: nat, regionOk: bool, accepted: nat, now: nat) returns (id: Id)
      requires Valid() && p in sides && p in logs && !kind.RecvLarge?
      requires (kind.MediumSq? <==> frags > 0) && accepted <= frags <= Fragments.FRAGS_MAX && frags <= accepted + 1
      modifies this, sendq, sendq.slots
      ensures Valid() && id == old(|states|) && sides.Keys == old(sides.Keys)
      ensures p in logs && logs[p].issued == old(logs[p].issued) + [id]
      ensures forall q :: q in old(logs) && q != p ==> q in logs && logs[q].issued == old(logs[q].issued)
      ensures old(owed) <= owed && queues.pulling == old(queues.pulling)
      ensures attrs == old(attrs) + [Attr(kind, p, frags)] && LogsGrow(old(logs), logs)
    {
      hide Inv, SlotsInv, FilledOk, SlotsOk, OwnersOf, Placed, Issued, LogsGrow, SameIssued;
      var attr := Attr(kind, p, frags);
      if queues.needResources == [] {
        id := NewRequest(attr, Blank(attr, false, false));
        label Added:
        var ok := AllocSetUp(p, id, regionOk, accepted, now);
        if !ok {
          Delay(id, true);
        }
        Submitted(old(logs), old@Added(logs), logs, attr, id);
      } else {
        ghost var was := Now();
        var st := Blank(attr, false, true);
        AddKeeps(was, attr, st);
        NewSlots(was, attr, st, sendq.Owners(), owed);
        FilledAdded(attrs, states, filled, attr, st);
        id := |states|;
        attrs := attrs + [attr];
        states := states + [st];
        queues := queues.(needResources := queues.needResources + [id]);
        logs := Issued(logs, attr, id);
        AddIs(was, attr, st, id, Now());
        SameLogs(logs);
        Submitted(old(logs), logs, logs, attr, id);
      }
    }

    // omx__submit_pull; with nothing to pull, the notify is sent later.
    method SubmitPull(p: Pid, empty: bool, regionOk: bool, now: nat) returns (id: Id)
      requires Valid() && p in sides && p in logs
      modifies `attrs, `states, `sides, `queues, `throttlingPartnersList, `availExpEvents, `logs, `owed, `filled
      ensures Valid() && id == old(|states|) && sides.Keys == old(sides.Keys)
      ensures logs == old(logs) && owed == old(owed) && attrs == old(attrs) + [Attr(RecvLarge, p, 0)]
      ensures empty ==> queues.needResources == [id] + old(queues.needResources) && queues.pulling == old(queues.pulling)
      ensures !empty && regionOk && old(availExpEvents) > 0 ==> queues == old(queues).(pulling := old(queues.pulling) + [id])
      ensures !empty && !(regionOk && old(availExpEvents) > 0) ==> queues == old(queues).(needResources := old(queues.needResources) + [id])
      ensures availExpEvents == old(availExpEvents) - if !empty && old(availExpEvents) > 0 then 1 else 0
    {
      hide Inv, SlotsInv, FilledOk, SlotsOk, OwnersOf;
      var attr := Attr(RecvLarge, p, 0);
      id := NewRequest(attr, Blank(attr, !empty, false));
      if empty {
        SubmitNotify(p, id, true, now);
      } else {
        var ok := PullSetUp(id, regionOk);
        if !ok {
          Delay(id, true);
        }
      }
    }

    // The driver reports that a pull is done: the notify takes its place.
    method PullDone(id: Id, now: nat)
      requires Valid() && id in queues.pulling
      modifies `states, `sides, `queues, `throttlingPartnersList, `availExpEvents, `logs, `owed, `filled
      ensures Valid() && queues.pulling == Without(old(queues.pulling), id) && id !in queues.pulling
      ensures availExpEvents == old(availExpEvents) + 1 && old(owed) <= owed
      ensures id < |attrs| && if old(queues.needResources) != []
        then queues.needResources == [id] + old(queues.needResources) && logs == old(logs)
        else Placed(old(Now()), Now(), attrs[id].partner, id)
      ensures LogsGrow(old(logs), logs) && sides.Keys == old(sides.Keys)
    {
      hide Inv, SlotsInv, FilledOk, SlotsOk, OwnersOf, Placed;
      ghost var was := Now();
      PullDoneKeeps(was, id);
      PulledRequest(was, id);
      var st := states[id].(partial := false, pulling := false);
      QuietSlots(was, id, st, sendq.Owners(), owed);
      FilledKept(attrs, states, filled, id, st);
      availExpEvents := availExpEvents + 1;
      states := states[id := st];
      queues := queues.(hand := [id], pulling := Without(queues.pulling, id));
      assert Now() == was.(states := states, availExpEvents := availExpEvents, queues := queues);
      ghost var mid := Now();
      SubmitNotify(attrs[id].partner, id, false, now);
      if was.queues.needResources == [] {
        PlacedSame(was, mid, Now(), attrs[id].partner, id);
        PlacedIssued(was, Now(), attrs[id].partner, id, true);
      }
    }

    // One turn of the loop below.
    method RetryFirst(now: nat) returns (ok: bool)
      requires Valid() && queues.needResources != []
      modifies `states, `sides, `queues, `throttlingPartnersList, `availExpEvents, `largeSendsAvailNr, `logs, `owed, `filled, sendq, sendq.slots
      ensures Valid() && sides.Keys == old(sides.Keys) && |states| == old(|states|)
      ensures queues.needResources == if ok then old(queues.needResources)[1..] else old(queues.needResources)
      ensures SameIssued(old(logs), logs) && LogsGrow(old(logs), logs)
      ensures old(owed) <= owed && (forall r :: r in old(queues.pulling) ==> r in queues.pulling)
    {
      hide Inv, SlotsInv, FilledOk, SlotsOk, OwnersOf, CanChange, SideOk, ShapeOk, HoldsSlots, PlaceOf, Placed, Held, SameIssued, LogsGrow;
      var id := queues.needResources[0];
      ghost var was := Now();
      TakeDelayedKeeps(was, id);
      DelayedRequest(was, id);
      var st := states[id].(needResources := false);
      QuietSlots(was, id, st, sendq.Owners(), owed);
      FilledKept(attrs, states, filled, id, st);
      states := states[id := st];
      queues := queues.(hand := [id], needResources := queues.needResources[1..]);
      assert Now() == was.(states := states, queues := queues);
      SameLogs(logs);
      var regionOk: bool := *;
      if states[id].partial {
        ok := PullSetUp(id, regionOk);
      } else {
        var accepted: nat := *;
        if accepted + 1 != attrs[id].frags {
          accepted := attrs[id].frags;
        }
        ok := AllocSetUp(attrs[id].partner, id, regionOk, accepted, now);
      }
      if !ok {
        Delay(id, false);
      }
    }

    // omx__process_delayed_requests: until one still lacks something, which
    // then is first again.
    method ProcessDelayed(now: nat)
      requires Valid()
      modifies `states, `sides, `queues, `throttlingPartnersList, `availExpEvents, `largeSendsAvailNr, `logs, `owed, `filled, sendq, sendq.slots
      ensures Valid() && sides.Keys == old(sides.Keys) && |states| == old(|states|)
      ensures exists k :: 0 <= k <= |old(queues.needResources)| && queues.needResources == old(queues.needResources)[k..]
      ensures SameIssued(old(logs), logs) && LogsGrow(old(logs), logs)
      ensures old(owed) <= owed && (forall r :: r in old(queues.pulling) ==> r in queues.pulling)
    {
      hide Inv, SlotsInv, FilledOk, SlotsOk, OwnersOf;
      ghost var first, k := queues.needResources, 0;
      while queues.needResources != []
        invariant Valid() && sides.Keys == old(sides.Keys) && |states| == old(|states|)
        invariant 0 <= k <= |first| && queues.needResources == first[k..]
        invariant SameIssued(old(logs), logs) && LogsGrow(old(logs), logs)
        invariant old(owed) <= owed && (forall r :: r in old(queues.pulling) ==> r in queues.pulling)
        decreases |queues.needResources|
      {
        var ok := RetryFirst(now);
        if !ok {
          break;
        }
        assert first[k..][1..] == first[k + 1..];
        k := k + 1;
      }
    }

    // ----- numbers set free -----

    // omx__process_throttling_requests: numbers have come free, for as many of
    // the requests that wait for one.
    method ProcessThrottling(p: Pid, nr: nat, now: nat, ghost m: Mode, ghost owners: map<nat, nat>)
      requires SlotsInv(attrs, states, owners, owed) && FilledOk(attrs, states, filled) && Inv(Now(), m) && queues.hand == []
      requires m.p == p && m.slack == nr && m.sent == 0 && p in sides && p in logs
      modifies `states, `sides, `queues, `throttlingPartnersList, `availExpEvents, `logs, `owed, `filled
      ensures SlotsInv(attrs, states, owners, owed) && FilledOk(attrs, states, filled) && Inv(Now(), REST) && queues.hand == []
      ensures p in sides && sides.Keys == old(sides.Keys) && |states| == old(|states|)
      ensures var waiting := old(sides[p].needSeqnum);
        var n := if nr < |waiting| then nr else |waiting|;
        && logs == old(logs)[p := old(logs[p]).(given := old(logs[p].given) + waiting[..n])]
        && sides[p].needSeqnum == waiting[n..]
      ensures sides[p].lastRecvAcknum == old(sides[p].lastRecvAcknum)
      ensures old(owed) <= owed && queues.pulling == old(queues.pulling)
    {
      hide Inv, SlotsInv, FilledOk, CanChange, SideOk, ShapeOk, Held, HeldLarge, PlaceOf, TakeWaiting;
      ghost var waiting := sides[p].needSeqnum;
      ghost var mode := m;
      var sent := 0;
      while nr > sent && sides[p].needSeqnum != []
        invariant SlotsInv(attrs, states, owners, owed) && FilledOk(attrs, states, filled) && Inv(Now(), mode) && queues.hand == []
        invariant mode.p == p && mode.slack == nr - sent && mode.sent == sent && 0 <= sent <= nr && sent <= |waiting|
        invariant p in sides && sides.Keys == old(sides.Keys) && sides[p].needSeqnum == waiting[sent..] && |states| == old(|states|)
        invariant p in logs && logs == old(logs)[p := logs[p]] && logs[p] == old(logs[p]).(given := logs[p].given)
        invariant logs[p].given == old(logs[p].given) + waiting[..sent]
        invariant sides[p].lastRecvAcknum == old(sides[p].lastRecvAcknum)
        invariant old(owed) <= owed && queues.pulling == old(queues.pulling)
        decreases nr - sent
      {
        assert sides[p].needSeqnum[0] == waiting[sent] && waiting[..sent + 1] == waiting[..sent] + [waiting[sent]];
        SendWaiting(p, now, mode, owners);
        mode := Mode(true, p, nr - sent - 1, sent + 1);
        assert waiting[sent..][1..] == waiting[sent + 1..];
        sent := sent + 1;
      }
      SettleKeeps(Now(), mode);
      if sent > 0 {
        var left := sides[p].throttlingNr - sent;
        sides := sides[p := sides[p].(throttlingNr := left)];
        if left == 0 {
          throttlingPartnersList := Without(throttlingPartnersList, p);
        }
      }
      SettledSame(sides, p);
    }

    // One turn of the loop above.
    method SendWaiting(p: Pid, now: nat, ghost m: Mode, ghost owners: map<nat, nat>)
      requires SlotsInv(attrs, states, owners, owed) && FilledOk(attrs, states, filled) && Inv(Now(), m) && queues.hand == []
      requires m.p == p && m.slack > 0 && p in sides && p in logs && sides[p].needSeqnum != []
      modifies `states, `sides, `queues, `availExpEvents, `logs, `owed, `filled
      ensures SlotsInv(attrs, states, owners, owed) && FilledOk(attrs, states, filled) && Inv(Now(), Mode(true, p, m.slack - 1, m.sent + 1)) && queues.hand == []
      ensures p in sides && sides.Keys == old(sides.Keys) && |states| == old(|states|)
      ensures sides[p].needSeqnum == old(sides[p].needSeqnum)[1..] && sides[p].lastRecvAcknum == old(sides[p].lastRecvAcknum)
      ensures logs == old(logs)[p := old(logs[p]).(given := old(logs[p].given) + [old(sides[p].needSeqnum)[0]])]
      ensures old(owed) <= owed && queues.pulling == old(queues.pulling)
    {
      hide Inv, SlotsInv, FilledOk, CanChange, SideOk, ShapeOk, Held, HeldLarge, TakeWaiting;
      ghost var was := Now();
      var id := sides[p].needSeqnum[0];
      TakeWaitingKeeps(was, p, id, m);
      WaitingStateKnown(was, p, id, m);
      TakeWaitingIs(was, p, id);
      QuietSlots(was, id, states[id].(needSeqnum := false), owners, owed);
      FilledKept(attrs, states, filled, id, states[id].(needSeqnum := false));
      sides := sides[p := sides[p].(needSeqnum := sides[p].needSeqnum[1..])];
      states := states[id := states[id].(needSeqnum := false)];
      queues := queues.(hand := [id]);
      assert Now() == TakeWaiting(was, p, id);
      var accepted: nat := *;
      if accepted + 1 != attrs[id].frags {
        accepted := attrs[id].frags;
      }
      SetUp(p, id, accepted, now, m.(front := true, sent := m.sent + 1), owners);
    }

    // ----- acknowledgements -----

    // The endpoint as it is once the partner's next number to be acked is n:
    // omx__handle_ack writes that field after its loop.
    ghost function Seen(p: Pid, n: nat): Sender
      requires p in sides && p in logs && logs[p].session < SESSIONS
      reads this
    {
      Now().(sides := sides[p := sides[p].(nextAcked := Wire(logs[p].session, n))])
    }

    lemma SeenIs(p: Pid, n: nat, nextAcked: SeqNum16)
      requires p in sides && p in logs && logs[p].session < SESSIONS && nextAcked == Wire(logs[p].session, n)
      ensures Seen(p, n) == Sender(attrs, states, sides[p := sides[p].(nextAcked := nextAcked)], logs, queues,
                                   throttlingPartnersList, availExpEvents, largeSendsAvailNr)
    {
    }

    // The part of omx__mark_request_acked that moves the request; says whether
    // the request is complete.
    method LeaveQueues(id: Id, attr: Attr, st: State) returns (complete: bool)
      modifies `queues
      ensures queues == AckedQueues(old(queues), attr, st, id) && complete == Acked(attr, st).done
    {
      complete := true;
      if attr.kind.MediumSq? {
        if st.sending {
          complete := false;
        } else {
          queues := queues.(nonAcked := Without(queues.nonAcked, id));
        }
      } else if attr.kind.Large? {
        if st.needReply {
          complete := false;
          queues := queues.(nonAcked := Without(queues.nonAcked, id), needReply := queues.needReply + [id]);
        } else {
          queues := queues.(nonAcked := Without(queues.nonAcked, id));
        }
      } else {
        queues := queues.(nonAcked := Without(queues.nonAcked, id));
      }
    }

    // omx__mark_request_acked with success, on the partner's oldest request.
    method MarkOldestAcked(p: Pid, ghost m: Mode)
      requires p in sides && p in logs && logs[p].session < SESSIONS && sides[p].nonAcked != []
      requires SlotsValid() && Inv(Seen(p, logs[p].acked), m) && m.p == p && queues.hand == []
      modifies `states, `sides, `queues, `logs, sendq, sendq.slots
      ensures p in sides && sides == old(sides)[p := old(sides[p]).(nonAcked := old(sides[p].nonAcked)[1..])]
      ensures logs == old(logs)[p := old(logs[p]).(acked := old(logs[p].acked) + 1)] && |states| == old(|states|)
      ensures SlotsValid() && Inv(Seen(p, logs[p].acked), m.(slack := m.slack + 1)) && queues.hand == []
      ensures queues.pulling == old(queues.pulling)
    {
      hide *;
      ghost var was := Seen(p, logs[p].acked);
      SlotsKnown();
      SeenIs(p, logs[p].acked, Wire(logs[p].session, logs[p].acked));
      var id := sides[p].nonAcked[0];
      AckKeeps(was, p, id, m);
      AckIs(was, p, id, m);
      AckSlots(was, id, m, sendq.Owners(), owed);
      AckedIs(attrs[id], states[id]);
      var attr, st := attrs[id], states[id];
      sides := sides[p := sides[p].(nonAcked := sides[p].nonAcked[1..])];
      var complete := LeaveQueues(id, attr, st);
      AckedHand(old(queues), attr, st, id);
      if complete && attr.kind.MediumSq? {
        sendq.Put(st.slots);
      }
      FilledKept(attrs, states, filled, id, st.(needAck := false, done := complete));
      states := states[id := st.(needAck := false, done := complete)];
      logs := logs[p := logs[p].(acked := logs[p].acked + 1)];
      SeenIs(p, logs[p].acked, Wire(logs[p].session, logs[p].acked));
      AckHeadFields(was, p, id, old(sides), states, queues, sides, logs);
      SlotsGiven();
    }

    lemma Worked(m: Mode)
      requires Working(m)
      ensures sendq.Valid() && SlotsInv(attrs, states, sendq.Owners(), owed) && FilledOk(attrs, states, filled) && Inv(Now(), m)
      ensures Now() == Sender(attrs, states, sides, logs, queues, throttlingPartnersList, availExpEvents, largeSendsAvailNr)
    {
      hide Inv, SlotsInv, FilledOk, SlotsOk, OwnersOf;
    }

    lemma Work(m: Mode)
      requires sendq.Valid() && SlotsInv(attrs, states, sendq.Owners(), owed) && FilledOk(attrs, states, filled) && Inv(Now(), m)
      ensures Working(m)
    {
      hide Inv, SlotsInv, FilledOk, SlotsOk, OwnersOf;
    }

    lemma SlotsGiven()
      requires sendq.Valid() && SlotsInv(attrs, states, sendq.Owners(), owed) && FilledOk(attrs, states, filled)
      ensures SlotsValid()
    {
      hide SlotsInv, FilledOk, SlotsOk, OwnersOf;
    }

    // The loop of omx__handle_ack: mark the requests below the ack.
    method MarkAcked(p: Pid, newAcks: nat)
      requires Valid() && p in sides && p in logs && newAcks <= Seq(sides[p].nextSend - sides[p].nextAcked)
      modifies `states, `sides, `queues, `logs, sendq, sendq.slots
      ensures p in sides && sides == old(sides)[p := old(sides[p]).(nonAcked := sides[p].nonAcked)]
      ensures logs == old(logs)[p := old(logs[p]).(acked := old(logs[p].acked) + newAcks)] && logs[p].session < SESSIONS && |states| == old(|states|)
      ensures SlotsValid() && Inv(Seen(p, logs[p].acked), Mode(false, p, newAcks, 0)) && queues.hand == []
      ensures queues.pulling == old(queues.pulling)
    {
      hide *;
      Known();
      AckStart(Now(), p);
      SlotsGiven();
      ghost var j: nat, acked := 0, logs[p].acked;
      SeenIs(p, acked, sides[p].nextAcked);
      MarkedNone(logs, p, sides);
      while sides[p].nonAcked != []
        invariant p in sides && p in logs && sides == old(sides)[p := old(sides[p]).(nonAcked := sides[p].nonAcked)]
        invariant logs == old(logs)[p := old(logs[p]).(acked := acked + j)] && logs[p].session < SESSIONS
        invariant SlotsValid() && Inv(Seen(p, acked + j), Mode(false, p, j, 0)) && queues.hand == [] && |states| == old(|states|)
        invariant j <= newAcks && queues.pulling == old(queues.pulling)
        decreases |sides[p].nonAcked|
      {
        var id := sides[p].nonAcked[0];
        SeenIs(p, acked + j, Wire(logs[p].session, acked + j));
        OldestNumber(Seen(p, acked + j), p, Mode(false, p, j, 0), acked);
        var reqIndex := Seq(states[id].seqnum - sides[p].nextAcked);
        if reqIndex >= newAcks {
          break;
        }
        MarkOldestAcked(p, Mode(false, p, j, 0));
        j := j + 1;
      }
      if sides[p].nonAcked == [] {
        SeenIs(p, acked + j, Wire(logs[p].session, acked + j));
        NoneLeft(Seen(p, acked + j), p, Mode(false, p, j, 0), acked, newAcks);
      }
    }

    // omx__handle_ack: the first number not acked becomes the larger of the
    // old one and the one received; the requests below it are acked, and as
    // many waiting ones as numbers came free are sent.
    method HandleAck(p: Pid, ackBefore: SeqNum16, now: nat, ghost ack: nat)
      requires Valid() && p in sides && p in logs && logs[p].session < SESSIONS
      requires ackBefore == Wire(logs[p].session, ack) && ack <= |logs[p].given| + 1 && logs[p].acked <= ack + MAX_ACK_STALENESS
      modifies `states, `sides, `queues, `throttlingPartnersList, `availExpEvents, `logs, `owed, `filled, sendq, sendq.slots
      ensures Valid() && p in logs && p in sides && sides.Keys == old(sides.Keys) && |states| == old(|states|)
      ensures logs[p].acked == Max(old(logs[p].acked), ack)
      ensures var waiting, free := old(sides[p].needSeqnum), logs[p].acked - old(logs[p].acked);
        var n := if free < |waiting| then free else |waiting|;
        && logs[p] == old(logs[p]).(acked := logs[p].acked, given := old(logs[p].given) + waiting[..n])
        && sides[p].needSeqnum == waiting[n..]
      ensures forall q :: q in old(logs) && q != p ==> q in logs && logs[q] == old(logs[q])
      ensures sides[p].lastRecvAcknum == old(sides[p].lastRecvAcknum)
      ensures ack <= old(logs[p].acked) ==> unchanged(`states, `sides, `queues, `logs, `owed, `filled)
      ensures old(owed) <= owed && queues.pulling == old(queues.pulling)
    {
      hide *;
      Known();
      AckStart(Now(), p);
      AckOutcome(logs[p].session, |logs[p].given| + 1, logs[p].acked, ack, sides[p].nextSend, sides[p].nextAcked, ackBefore);
      var missingAcks := Seq(sides[p].nextSend - sides[p].nextAcked);
      var newAcks := Seq(ackBefore - sides[p].nextAcked);
      if newAcks == 0 || newAcks > missingAcks {
        NothingGiven(logs[p], sides[p].needSeqnum);
        return;
      }
      MarkAcked(p, newAcks);
      SlotsKnown();
      SeenIs(p, logs[p].acked, ackBefore);
      sides := sides[p := sides[p].(nextAcked := ackBefore)];
      NowIs();
      ProcessThrottling(p, newAcks, now, Mode(false, p, newAcks, 0), sendq.Owners());
      Establish();
    }

    lemma SlotsKnown()
      requires SlotsValid()
      ensures sendq.Valid() && SlotsInv(attrs, states, sendq.Owners(), owed) && FilledOk(attrs, states, filled)
    {
      hide SlotsInv, FilledOk, SlotsOk, OwnersOf;
    }

    lemma NowIs()
      ensures Now() == Sender(attrs, states, sides, logs, queues, throttlingPartnersList, availExpEvents, largeSendsAvailNr)
    {
    }

    // omx__handle_liback: acks of another session, and acks overtaken by one
    // sent later, are ignored.
    method HandleLiback(p: Pid, libSeqnum: SeqNum16, acknum: nat, now: nat, ghost ack: nat)
      requires Valid() && p in sides && p in logs && logs[p].session < SESSIONS
      requires Ses(libSeqnum) == logs[p].session && acknum > sides[p].lastRecvAcknum ==>
        libSeqnum == Wire(logs[p].session, ack) && ack <= |logs[p].given| + 1 && logs[p].acked <= ack + MAX_ACK_STALENESS
      modifies `states, `sides, `queues, `throttlingPartnersList, `availExpEvents, `logs, `owed, `filled, sendq, sendq.slots
      ensures Valid() && p in logs && p in sides
      ensures Ses(libSeqnum) != old(logs[p].session) || acknum <= old(sides[p].lastRecvAcknum) ==> unchanged(this)
      ensures Ses(libSeqnum) == old(logs[p].session) && acknum > old(sides[p].lastRecvAcknum) ==>
        sides[p].lastRecvAcknum == acknum && logs[p].acked == Max(old(logs[p].acked), ack)
      ensures sides.Keys == old(sides.Keys) && logs[p].session == old(logs[p].session) && old(logs[p].given) <= logs[p].given
      ensures forall q :: q in old(logs) && q != p ==> q in logs && logs[q] == old(logs[q])
      ensures old(owed) <= owed && queues.pulling == old(queues.pulling)
    {
      hide Inv, SlotsInv, FilledOk, SlotsOk, OwnersOf;
      AckStart(Now(), p);
      IncreaseIsWire(logs[p].session, |logs[p].given| + 1, 0);
      if Ses(libSeqnum) != Ses(sides[p].nextSend) {
        return;
      }
      if acknum <= sides[p].lastRecvAcknum {
        return;
      }
      ghost var was := Now();
      sides := sides[p := sides[p].(lastRecvAcknum := acknum)];
      assert Now() == was.(sides := sides);
      AcknumKept(was, p, acknum);
      HandleAck(p, libSeqnum, now, ack);
    }

    // ----- what the driver and the peer report -----

    // A fragment of a mediumsq send left the send queue.
    method FragDone(slot: nat)
      requires Valid() && slot in owed
      modifies `states, `queues, `availExpEvents, `owed, sendq, sendq.slots
      ensures Valid() && owed == old(owed) - {slot} && availExpEvents == old(availExpEvents) + 1
      ensures slot in old(sendq.Owners()) && |states| == old(|states|)
      ensures var id := old(sendq.Owners())[slot];
        && id < |states| && states[id] == FragDoneState(old(states[id]))
        && (states[id].done <==> old(states[id].pending) == 1 && !old(states[id].needAck))
        && (states[id].done ==> sendq.Owners() == old(sendq.Owners()) - SetOf(states[id].slots))
      ensures queues.pulling == old(queues.pulling)
    {
      hide *;
      Known();
      ghost var was, owners := Now(), sendq.Owners();
      EventFindsOwner(attrs, states, owners, owed, slot);
      var id := sendq.UserOf(slot);
      EventSlots(was, id, owners, owed, slot);
      FragDoneKeeps(was, id);
      FragDoneIs(queues, states[id], id);
      var st := states[id];
      availExpEvents := availExpEvents + 1;
      st := st.(pending := st.pending - 1);
      owed := owed - {slot};
      if st.pending == 0 {
        st := st.(sending := false);
        if st.needAck {
          queues := queues.(sending := Without(queues.sending, id), nonAcked := queues.nonAcked + [id]);
        } else {
          queues := queues.(sending := Without(queues.sending, id));
          sendq.Put(st.slots);
          st := st.(done := true);
        }
      }
      FilledKept(attrs, states, filled, id, st);
      states := states[id := st];
      NowIs();
      Establish();
    }

    // omx__process_recv_notify: the peer has pulled a large send.
    method LargeReplied(id: Id)
      requires Valid() && id < |states| && states[id].needReply
      modifies `states, `queues, `largeSendsAvailNr
      ensures Valid() && largeSendsAvailNr == old(largeSendsAvailNr) + 1
      ensures |states| == old(|states|) && !states[id].needReply && (states[id].done <==> !states[id].needAck)
      ensures queues.pulling == old(queues.pulling)
    {
      hide Inv, SlotsInv, FilledOk, CanChange, SideOk, ShapeOk, Held, HeldLarge, SlotsOk, OwnersOf, HoldsSlots;
      ghost var was := Now();
      ReplyKeeps(was, id);
      ReplySlots(was, id, sendq.Owners(), owed);
      FilledKept(attrs, states, filled, id, states[id].(needReply := false, done := !states[id].needAck));
      largeSendsAvailNr := largeSendsAvailNr + 1;
      var st := states[id].(needReply := false);
      if !st.needAck {
        queues := queues.(needReply := Without(queues.needReply, id));
        st := st.(done := true);
      }
      states := states[id := st];
      assert Now() == was.(states := states, queues := queues, largeSendsAvail := largeSendsAvailNr);
    }

    // ----- resending -----

    // Post a request of the queue again; false if credits are short.
    method Repost(id: Id, accepted: nat, now: nat) returns (posted: bool)
      requires Valid() && queues.nonAcked != [] && queues.nonAcked[0] == id && id < |attrs| && accepted <= attrs[id].frags
      modifies `states, `queues, `availExpEvents, `owed
      ensures Valid() && |states| == old(|states|) && id < |states|
      ensures !posted ==> attrs[id].kind.MediumSq? && availExpEvents < attrs[id].frags && unchanged(this)
      ensures posted ==> states == old(states)[id := Posted(attrs[id], old(states[id]), accepted, now)]
      ensures posted ==> queues == if states[id].sending
        then old(queues).(nonAcked := old(queues.nonAcked)[1..], sending := old(queues.sending) + [id])
        else old(queues).(nonAcked := Rotated(old(queues.nonAcked)))
      ensures old(owed) <= owed && queues.pulling == old(queues.pulling)
      ensures posted && attrs[id].kind.MediumSq? ==> SlotsHold(filled, states[id].slots, id)
    {
      hide *;
      Known();
      ghost var was := Now();
      if attrs[id].kind.MediumSq? {
        if availExpEvents < attrs[id].frags {
          RepostedRequest(was, id);
          return false;
        }
        availExpEvents := availExpEvents - attrs[id].frags + (attrs[id].frags - accepted);
      }
      RepostedRequest(was, id);
      RepostKeeps(was, id, accepted, now);
      RepostSlots(was, id, accepted, now, sendq.Owners(), owed);
      RepostFilled(was, id, accepted, now, filled);
      var st := Posted(attrs[id], states[id], accepted, now);
      states := states[id := st];
      if st.sending {
        queues := queues.(nonAcked := queues.nonAcked[1..], sending := queues.sending + [id]);
        owed := owed + SetOf(st.slots[..accepted]);
        NowIs();
      } else {
        NowIs();
        RotateKeeps(Now());
        queues := queues.(nonAcked := Rotated(queues.nonAcked));
        NowIs();
      }
      Establish();
      posted := true;
    }

    // omx__process_resend_requests up to the first timeout: the requests that
    // waited long enough are posted once more and go behind the others. On a
    // timeout the partner is returned; resetting it is not modelled here.
    method ProcessResend(now: nat, resendDelay: nat) returns (timedOut: bool, p: Pid)
      requires Valid()
      modifies `states, `queues, `availExpEvents, `owed
      ensures Valid() && |states| == old(|states|)
      ensures multiset(queues.nonAcked) + multiset(queues.sending) == multiset(old(queues.nonAcked)) + multiset(old(queues.sending))
      ensures exists k :: 0 <= k <= |old(queues.nonAcked)| && PostedOnce(old(states), states, old(queues.nonAcked)[..k])
      ensures timedOut ==> queues.nonAcked != [] && var id := queues.nonAcked[0];
        id < |states| == |attrs| && states[id].resends > states[id].resendsMax && p == attrs[id].partner
      ensures old(owed) <= owed && queues.pulling == old(queues.pulling)
    {
      hide Inv, SlotsInv, FilledOk, SlotsOk, OwnersOf;
      timedOut, p := false, 0;
      var left: nat := |queues.nonAcked|;
      ghost var first, k: nat := queues.nonAcked, 0;
      NoneTwice(Now());
      while left > 0
        invariant Valid() && |states| == old(|states|) && k + left == |first| && left <= |queues.nonAcked|
        invariant queues.nonAcked[..left] == first[k..]
        invariant multiset(queues.nonAcked) + multiset(queues.sending) == multiset(first) + multiset(old(queues.sending))
        invariant PostedOnce(old(states), states, first[..k])
        invariant old(owed) <= owed && queues.pulling == old(queues.pulling)
        decreases left
      {
        var id := queues.nonAcked[0];
        RepostedRequest(Now(), id);
        assert first[k..][0] == id;
        if now < states[id].lastSend + resendDelay {
          break;
        }
        if states[id].resends > states[id].resendsMax {
          timedOut, p := true, attrs[id].partner;
          break;
        }
        var accepted: nat := *;
        if accepted > attrs[id].frags {
          accepted := attrs[id].frags;
        }
        ghost var q, sending, was := queues.nonAcked, queues.sending, states;
        var posted := Repost(id, accepted, now);
        if !posted {
          break;
        }
        RotatedCounts(q, sending, id);
        NextOldest(q, left, first, k);
        OncePosted(old(states), was, states, first, k, attrs[id], accepted, now);
        left := left - 1;
        k := k + 1;
      }
    }
  }

  // Those listed were posted again, once; the others are as they were.
  ghost predicate PostedOnce(was: seq<State>, states: seq<State>, again: seq<Id>) {
    && |was| == |states|
    && forall id: nat :: id < |states| ==>
         if id in again then was[id].resends <= states[id].resends <= was[id].resends + 1 else states[id] == was[id]
  }

  lemma OncePosted(first: seq<State>, was: seq<State>, states: seq<State>, q: seq<Id>, k: nat, attr: Attr, accepted: nat, now: nat)
    requires k < |q| && NoDup(q) && PostedOnce(first, was, q[..k]) && q[k] < |was|
    requires states == was[q[k] := Posted(attr, was[q[k]], accepted, now)]
    ensures PostedOnce(first, states, q[..k + 1])
  {
    assert q[..k + 1] == q[..k] + [q[k]];
    assert q[k] !in q[..k];
  }

  // The next one to look at, whether the last went to the end or away.
  lemma NextOldest(q: seq<Id>, left: nat, first: seq<Id>, k: nat)
    requires 0 < left <= |q| && k + left == |first| && q[..left] == first[k..]
    ensures Rotated(q)[..left - 1] == first[k + 1..] && q[1..][..left - 1] == first[k + 1..]
  {
    assert q[..left][1..] == q[1..left] && first[k..][1..] == first[k + 1..];
    assert Rotated(q)[..left - 1] == q[1..left] == q[1..][..left - 1];
  }

  lemma NoneTwice(s: Sender)
    requires Inv(s, REST)
    ensures NoDup(s.queues.nonAcked)
  {
    assert QueueOk(At(s.queues, NonAcked), NonAcked, s.states);
  }

  lemma RotatedCounts(q: seq<Id>, sending: seq<Id>, id: Id)
    requires q != [] && q[0] == id
    ensures multiset(q[1..]) + multiset(sending + [id]) == multiset(q) + multiset(sending)
    ensures multiset(Rotated(q)) == multiset(q)
  {
    assert q == [id] + q[1..];
  }

  lemma FragDoneIs(qs: Queues, st: State, id: Id)
    requires st.pending > 0
    ensures FragDoneState(st) == st.(pending := st.pending - 1, sending := st.pending > 1, done := st.pending <= 1 && !st.needAck)
    ensures FragDoneQueues(qs, id, FragDoneState(st)) ==
      if st.pending > 1 then qs
      else if st.needAck then qs.(sending := Without(qs.sending, id), nonAcked := qs.nonAcked + [id])
      else qs.(sending := Without(qs.sending, id))
  {
  }

  lemma EventSlots(s: Sender, id: Id, owners: map<nat, nat>, owed: set<nat>, slot: nat)
    requires Inv(s, REST) && SlotsInv(s.attrs, s.states, owners, owed) && slot in owed && slot in owners && owners[slot] == id
    requires id < |s.states| && s.states[id].sending && s.states[id].pending > 0 && slot in s.states[id].slots
    ensures id < |s.attrs| && PlaceOf(s.states[id]) == Sending && !s.states[id].done && |s.states[id].slots| > 0 && NoDup(s.states[id].slots)
    ensures var st := FragDoneState(s.states[id]);
      && (!st.done ==> SlotsInv(s.attrs, s.states[id := st], owners, owed - {slot}))
      && (st.done ==> SlotsInv(s.attrs, s.states[id := st], owners - SetOf(st.slots), owed - {slot}))
      && (forall x :: x in s.states[id].slots ==> x in owners)
      && (st.sending ==> !st.done) && (!st.sending && s.states[id].needAck ==> !st.done)
  {
    InvSide(s, id, REST);
    assert RequestSlots(s.attrs, s.states, owners, owed, id);
    var st := FragDoneState(s.states[id]);
    var st' := st.(done := false);
    hide Inv;
    SlotsEvent(s.attrs, s.states, owners, owed, slot, st');
    if st.done {
      SlotsReleased(s.attrs, s.states[id := st'], owners, owed - {slot}, id, st);
      assert s.states[id := st'][id := st] == s.states[id := st];
    } else {
      assert st == st';
    }
  }

  lemma ReplySlots(s: Sender, id: Id, owners: map<nat, nat>, owed: set<nat>)
    requires Inv(s, REST) && SlotsInv(s.attrs, s.states, owners, owed) && id < |s.states| && s.states[id].needReply
    ensures SlotsInv(s.attrs, s.states[id := s.states[id].(needReply := false, done := !s.states[id].needAck)], owners, owed)
    ensures !s.states[id].done
  {
    InvSide(s, id, REST);
    SlotsKept(s.attrs, s.states, owners, owed, id, s.states[id].(needReply := false, done := !s.states[id].needAck));
  }

  lemma RepostedRequest(s: Sender, id: Id)
    requires Inv(s, REST) && s.queues.nonAcked != [] && s.queues.nonAcked[0] == id
    ensures id < |s.states| == |s.attrs| && Without(s.queues.nonAcked, id) == s.queues.nonAcked[1..]
  {
    assert QueueOk(At(s.queues, NonAcked), NonAcked, s.states);
    assert id in s.queues.nonAcked;
    WithoutHead(s.queues.nonAcked);
  }

  lemma RepostSlots(s: Sender, id: Id, accepted: nat, now: nat, owners: map<nat, nat>, owed: set<nat>)
    requires Inv(s, REST) && SlotsInv(s.attrs, s.states, owners, owed) && id < |s.states| == |s.attrs| && PlaceOf(s.states[id]) == NonAcked
    requires accepted <= s.attrs[id].frags
    ensures var st := Posted(s.attrs[id], s.states[id], accepted, now);
      && (st.sending ==> accepted <= |st.slots|)
      && SlotsInv(s.attrs, s.states[id := st], owners, if st.sending then owed + SetOf(st.slots[..accepted]) else owed)
  {
    InvSide(s, id, REST);
    PostedAgain(s.attrs[id], s.states[id], accepted, now);
    var st := Posted(s.attrs[id], s.states[id], accepted, now);
    hide Inv;
    if st.sending {
      SlotsPosted(s.attrs, s.states, owners, owed, id, st, accepted);
    } else {
      SlotsKept(s.attrs, s.states, owners, owed, id, st);
    }
  }

  lemma AckStart(s: Sender, p: Pid)
    requires Inv(s, REST) && p in s.sides && p in s.logs && s.queues.hand == []
    ensures s.logs[p].session < SESSIONS && s.sides[p].nextAcked == Wire(s.logs[p].session, s.logs[p].acked)
    ensures s.sides[p].nextSend == Wire(s.logs[p].session, |s.logs[p].given| + 1)
    ensures 1 <= s.logs[p].acked <= |s.logs[p].given| + 1 <= s.logs[p].acked + THROTTLING_OFFSET_MAX
    ensures Seq(s.sides[p].nextSend - s.sides[p].nextAcked) == |s.logs[p].given| + 1 - s.logs[p].acked
    ensures s.sides[p := s.sides[p].(nextAcked := Wire(s.logs[p].session, s.logs[p].acked))] == s.sides
    ensures Inv(s, Mode(false, p, 0, 0))
  {
    assert SideOk(s, p, REST);
    WireDifference(s.logs[p].session, |s.logs[p].given| + 1, s.logs[p].acked);
    SameMode(s, REST, Mode(false, p, 0, 0));
  }

  lemma SameMode(s: Sender, m: Mode, m': Mode)
    requires Inv(s, m) && m.slack == m'.slack == 0 && m.sent == m'.sent == 0 && m.front == m'.front
    ensures Inv(s, m')
  {
    hide NumbersOk, AcksOk, WaitingOk, FifoOk;
    forall p {:trigger SideOk(s, p, m')} | p in s.sides
      ensures SideOk(s, p, m')
    {
      assert SideOk(s, p, m);
    }
  }

  // The index the loop computes for the oldest request is the count so far.
  lemma OldestNumber(s: Sender, p: Pid, m: Mode, acked: nat)
    requires Inv(s, m) && p in s.sides && p in s.logs && s.sides[p].nonAcked != [] && m.p == p && s.queues.hand == []
    requires s.logs[p].acked == acked + m.slack
    ensures var id := s.sides[p].nonAcked[0];
      && id < |s.states| && s.logs[p].session < SESSIONS
      && Seq(s.states[id].seqnum - Wire(s.logs[p].session, acked)) == m.slack
  {
    hide ThrottlingOk, AcksOk, WaitingOk, FifoOk, PlaceOf, ShapeOk, Sum, UsersOf, QueuesOk;
    assert SideOk(s, p, m);
    var log := s.logs[p];
    assert NumberOk(log, s.attrs, s.states, p, log.acked - 1);
    WireDifference(log.session, log.acked, acked);
  }

  lemma NoneLeft(s: Sender, p: Pid, m: Mode, acked: nat, newAcks: nat)
    requires Inv(s, m) && p in s.sides && p in s.logs && s.sides[p].nonAcked == [] && m.p == p && m.slack <= newAcks
    requires s.logs[p].acked == acked + m.slack && newAcks <= |s.logs[p].given| + 1 - acked
    ensures m.slack == newAcks
  {
    assert SideOk(s, p, m);
  }

  // The 14-bit test of omx__handle_ack on unbounded numbers.
  lemma AckTest(session: nat, nextSend: nat, acked: nat, ack: nat)
    requires session < SESSIONS && acked <= nextSend <= acked + THROTTLING_OFFSET_MAX
    requires ack <= nextSend && acked <= ack + MAX_ACK_STALENESS
    ensures var newAcks := Seq(Wire(session, ack) - Wire(session, acked));
      var missing := Seq(Wire(session, nextSend) - Wire(session, acked));
      && (ack <= acked <==> newAcks == 0 || newAcks > missing)
      && (ack > acked ==> newAcks == ack - acked <= missing)
  {
    WireDifference(session, ack, acked);
    WireDifference(session, nextSend, acked);
  }

  // The decision of omx__handle_ack.
  lemma AckOutcome(session: nat, nextSend: nat, acked: nat, ack: nat, sendField: SeqNum16, ackedField: SeqNum16, ackBefore: SeqNum16)
    requires session < SESSIONS && acked <= nextSend <= acked + THROTTLING_OFFSET_MAX
    requires ack <= nextSend && acked <= ack + MAX_ACK_STALENESS
    requires sendField == Wire(session, nextSend) && ackedField == Wire(session, acked) && ackBefore == Wire(session, ack)
    ensures var newAcks := Seq(ackBefore - ackedField);
      if newAcks == 0 || newAcks > Seq(sendField - ackedField) then ack <= acked && Max(acked, ack) == acked
      else ack == acked + newAcks && Max(acked, ack) == ack
  {
    AckTest(session, nextSend, acked, ack);
    hide Seq, Wire;
  }

  lemma NothingGiven(log: Log, waiting: seq<Id>)
    ensures waiting[..0] == [] && waiting[0..] == waiting && log.(given := log.given + []) == log
  {
    assert log.given + [] == log.given;
  }

  lemma AcknumSide(s: Sender, p: Pid, acknum: nat, q: Pid)
    requires |s.attrs| == |s.states| && p in s.sides && q in s.sides && q in s.logs && SideOk(s, q, REST)
    ensures SideOk(s.(sides := s.sides[p := s.sides[p].(lastRecvAcknum := acknum)]), q, REST)
  {
    hide PlaceOf, UsersOf, NoDup, NumberOk;
  }

  lemma AcknumKept(s: Sender, p: Pid, acknum: nat)
    requires Inv(s, REST) && p in s.sides
    ensures Inv(s.(sides := s.sides[p := s.sides[p].(lastRecvAcknum := acknum)]), REST)
  {
    var s' := s.(sides := s.sides[p := s.sides[p].(lastRecvAcknum := acknum)]);
    hide QueuesOk, ShapeOk, PlaceOf, UsersOf, Sum, SideOk, NoDup;
    forall q {:trigger SideOk(s', q, REST)} | q in s'.sides
      ensures SideOk(s', q, REST)
    {
      assert SideOk(s, q, REST);
      AcknumSide(s, p, acknum, q);
    }
  }

  function AckedQueues(qs: Queues, attr: Attr, st: State, id: Id): Queues {
    if attr.kind.MediumSq? && st.sending then qs
    else if attr.kind.Large? && st.needReply then qs.(nonAcked := Without(qs.nonAcked, id), needReply := qs.needReply + [id])
    else qs.(nonAcked := Without(qs.nonAcked, id))
  }

  // The fields once the oldest request is acked, seen as above.
  lemma AckHeadFields(was: Sender, p: Pid, id: Id, sides: map<Pid, Side>,
                      states': seq<State>, queues': Queues, sides': map<Pid, Side>, logs': map<Pid, Log>)
    requires id < |was.states| == |was.attrs| && p in was.sides && p in was.logs && was.sides[p].nonAcked != [] && was.logs[p].session < SESSIONS
    requires CanChange(was, id, Acked(was.attrs[id], was.states[id]))
    requires var st, side, log := was.states[id], was.sides[p], was.logs[p];
      && AckHead(was, p, id) == was.(
           states := was.states[id := Acked(was.attrs[id], st)], queues := AckedQueues(was.queues, was.attrs[id], st, id),
           sides := was.sides[p := side.(nonAcked := side.nonAcked[1..], nextAcked := Wire(log.session, log.acked + 1))],
           logs := was.logs[p := log.(acked := log.acked + 1)])
      && states' == was.states[id := Acked(was.attrs[id], st)] && queues' == AckedQueues(was.queues, was.attrs[id], st, id)
      && logs' == was.logs[p := log.(acked := log.acked + 1)]
    requires p in sides && was.sides == sides[p := sides[p].(nextAcked := Wire(was.logs[p].session, was.logs[p].acked))]
    requires sides' == sides[p := sides[p].(nonAcked := sides[p].nonAcked[1..])]
    ensures AckHead(was, p, id) == Sender(was.attrs, states', sides'[p := sides'[p].(nextAcked := Wire(logs'[p].session, logs'[p].acked))],
                                          logs', queues', was.throttling, was.availExpEvents, was.largeSendsAvail)
  {
    hide *;
  }

  lemma MarkedNone(logs: map<Pid, Log>, p: Pid, sides: map<Pid, Side>)
    requires p in logs && p in sides
    ensures logs[p := logs[p].(acked := logs[p].acked + 0)] == logs && sides[p := sides[p].(nonAcked := sides[p].nonAcked)] == sides
  {
  }

  lemma AckedIs(attr: Attr, st: State)
    ensures Acked(attr, st) == st.(needAck := false, done := !(attr.kind.MediumSq? && st.sending) && !(attr.kind.Large? && st.needReply))
  {
  }

  lemma AckedHand(qs: Queues, attr: Attr, st: State, id: Id)
    ensures AckedQueues(qs, attr, st, id).hand == qs.hand && AckedQueues(qs, attr, st, id).pulling == qs.pulling
  {
  }

  lemma AckMoves(qs: Queues, attr: Attr, st: State, id: Id)
    requires ShapeOk(attr, st) && st.needAck && qs.hand == []
    ensures Move(qs, PlaceOf(st), PlaceOf(Acked(attr, st)), id, true) == AckedQueues(qs, attr, st, id)
  {
  }

  lemma AckFacts(s: Sender, p: Pid, id: Id, m: Mode)
    requires Inv(s, m) && p in s.sides && s.sides[p].nonAcked != [] && s.sides[p].nonAcked[0] == id
    ensures id < |s.states| == |s.attrs| && p in s.logs && s.logs[p].session < SESSIONS
    ensures ShapeOk(s.attrs[id], s.states[id]) && s.sides[p].nextAcked == Wire(s.logs[p].session, s.logs[p].acked)
    ensures var st := Acked(s.attrs[id], s.states[id]);
      Held(s.attrs[id], st) == Held(s.attrs[id], s.states[id]) && HeldLarge(s.attrs[id], st) == HeldLarge(s.attrs[id], s.states[id])
  {
    hide ShapeOk, QueuesOk, CreditsOk, PlaceOf, Held, HeldLarge, NumberOk, AcksOk, WaitingOk, FifoOk, ThrottlingOk, Acked;
    AckedState(s, p, id, m);
    assert SideOk(s, p, m);
  }

  // Acking, field by field.
  lemma AckIs(s: Sender, p: Pid, id: Id, m: Mode)
    requires Inv(s, m) && s.queues.hand == [] && p == m.p
    requires p in s.sides && s.sides[p].nonAcked != [] && s.sides[p].nonAcked[0] == id
    ensures id < |s.states| == |s.attrs| && p in s.logs && CanChange(s, id, Acked(s.attrs[id], s.states[id])) && s.logs[p].session < SESSIONS
    ensures var st, side, log := s.states[id], s.sides[p], s.logs[p];
      AckHead(s, p, id) == s.(
        states := s.states[id := Acked(s.attrs[id], st)], queues := AckedQueues(s.queues, s.attrs[id], st, id),
        sides := s.sides[p := side.(nonAcked := side.nonAcked[1..], nextAcked := Wire(log.session, log.acked + 1))],
        logs := s.logs[p := log.(acked := log.acked + 1)])
  {
    hide *;
    AckKeeps(s, p, id, m);
    AckFacts(s, p, id, m);
    AckMoves(s.queues, s.attrs[id], s.states[id], id);
    IncreaseIsWire(s.logs[p].session, s.logs[p].acked, 1);
    ChangeIs(s, id, Acked(s.attrs[id], s.states[id]), true, AckedQueues(s.queues, s.attrs[id], s.states[id], id), s.availExpEvents, s.largeSendsAvail);
    AckHeadUnfolds(s, p, id);
  }

  // A send that completes gives its slots back; nothing is owed for them.
  lemma AckSlots(s: Sender, id: Id, m: Mode, owners: map<nat, nat>, owed: set<nat>)
    requires Inv(s, m) && SlotsInv(s.attrs, s.states, owners, owed) && id < |s.states| == |s.attrs|
    requires s.states[id].needAck && PlaceOf(s.states[id]) in {Sending, NonAcked}
    ensures var st := Acked(s.attrs[id], s.states[id]);
      if s.attrs[id].kind.MediumSq? && !s.states[id].sending then
        && |s.states[id].slots| > 0 && NoDup(s.states[id].slots) && (forall x :: x in s.states[id].slots ==> x in owners && x !in owed)
        && SlotsInv(s.attrs, s.states[id := st], owners - SetOf(s.states[id].slots), owed)
      else SlotsInv(s.attrs, s.states[id := st], owners, owed)
  {
    InvSide(s, id, m);
    var st := Acked(s.attrs[id], s.states[id]);
    hide Inv;
    if s.attrs[id].kind.MediumSq? && !s.states[id].sending {
      NothingOwed(s.attrs, s.states, owners, owed, id);
      SlotsReleased(s.attrs, s.states, owners, owed, id, st);
    } else {
      SlotsKept(s.attrs, s.states, owners, owed, id, st);
    }
  }

  lemma SettledSame(sides: map<Pid, Side>, p: Pid)
    requires p in sides
    ensures sides[p := sides[p].(throttlingNr := sides[p].throttlingNr - 0)] == sides
  {
  }

  // Taking in hand, field by field.
  lemma TakeWaitingIs(s: Sender, p: Pid, id: Id)
    requires id < |s.states| && CanChange(s, id, s.states[id].(needSeqnum := false)) && p in s.sides && s.sides[p].needSeqnum != []
    requires s.queues.hand == [] && PlaceOf(s.states[id]) == NeedSeqnum && s.states[id].missing == {} && !s.states[id].partial
    requires ShapeOk(s.attrs[id], s.states[id])
    ensures TakeWaiting(s, p, id) == s.(
      states := s.states[id := s.states[id].(needSeqnum := false)], queues := s.queues.(hand := [id]),
      sides := s.sides[p := s.sides[p].(needSeqnum := s.sides[p].needSeqnum[1..])])
    ensures PlaceOf(s.states[id].(needSeqnum := false)) == InHand
  {
    assert [] + [id] == [id];
  }

  lemma WaitingStateKnown(s: Sender, p: Pid, id: Id, m: Mode)
    requires Inv(s, m) && p in s.sides && id in s.sides[p].needSeqnum
    ensures id < |s.states| == |s.attrs| && s.attrs[id].partner == p && ShapeOk(s.attrs[id], s.states[id])
    ensures s.states[id].missing == {} && !s.states[id].partial && PlaceOf(s.states[id]) == NeedSeqnum
  {
    WaitingState(s, p, id, m);
    InvSide(s, id, m);
  }

  lemma PlacedIssued(s: Sender, s': Sender, p: Pid, id: Id, ok: bool)
    requires if ok then Placed(s, s', p, id) else s'.logs == s.logs && s'.sides == s.sides
    ensures s'.sides.Keys == s.sides.Keys
    ensures forall q :: q in s.logs ==> q in s'.logs && s'.logs[q].issued == s.logs[q].issued
    ensures LogsGrow(s.logs, s'.logs) && SameIssued(s.logs, s'.logs)
  {
  }

  lemma AddIs(s: Sender, attr: Attr, st: State, id: Id, s': Sender)
    requires attr.partner in s.logs && id == |s.states| && st.needResources
    requires s' == s.(attrs := s.attrs + [attr], states := s.states + [st], logs := Issued(s.logs, attr, id),
                      queues := s.queues.(needResources := s.queues.needResources + [id]))
    ensures s' == Add(s, attr, st)
  {
  }

  // A new request is issued, and may get its number at once.
  lemma Submitted(was: map<Pid, Log>, mid: map<Pid, Log>, logs: map<Pid, Log>, attr: Attr, id: Id)
    requires attr.partner in was && !attr.kind.RecvLarge? && mid == Issued(was, attr, id)
    requires LogsGrow(mid, logs) && SameIssued(mid, logs)
    ensures LogsGrow(was, logs) && attr.partner in logs && logs[attr.partner].issued == was[attr.partner].issued + [id]
    ensures forall q :: q in was && q != attr.partner ==> q in logs && logs[q].issued == was[q].issued
  {
  }

  lemma SameLogs(logs: map<Pid, Log>)
    ensures LogsGrow(logs, logs) && SameIssued(logs, logs)
  {
  }

  // Delayed requests keep their attributes.
  lemma DelayedRequest(s: Sender, id: Id)
    requires Inv(s, REST) && s.queues.hand == [] && s.queues.needResources != [] && s.queues.needResources[0] == id
    ensures id < |s.states| == |s.attrs| && s.attrs[id].partner in s.sides && s.attrs[id].partner in s.logs
  {
    TakeDelayedKeeps(s, id);
    InvSide(s, id, REST);
  }

  lemma PulledRequest(s: Sender, id: Id)
    requires Inv(s, REST) && s.queues.hand == [] && id in s.queues.pulling
    ensures id < |s.states| == |s.attrs| && s.attrs[id] == Attr(RecvLarge, s.attrs[id].partner, 0)
    ensures s.attrs[id].partner in s.sides && s.attrs[id].partner in s.logs
  {
    PullDoneKeeps(s, id);
    InvSide(s, id, REST);
  }

  function Blank(attr: Attr, partial: bool, delayed: bool): State {
    State(delayed, false, false, false, false, partial, false, false,
          if attr.kind.RecvLarge? && !partial then {} else Wanted(attr.kind), 0, [], 0, 0, 0, 0)
  }

  ghost function Issued(logs: map<Pid, Log>, attr: Attr, id: Id): map<Pid, Log>
    requires attr.partner in logs
  {
    if attr.kind.RecvLarge? then logs
    else logs[attr.partner := logs[attr.partner].(issued := logs[attr.partner].issued + [id])]
  }

  lemma PullWants(attr: Attr, st: State)
    requires ShapeOk(attr, st) && st.partial && st.missing != {} && PlaceOf(st) == InHand
    ensures st.missing == {LargeRegion, PullHandle} || st.missing == {ExpEvent, LargeRegion, PullHandle}
    ensures attr.kind.RecvLarge?
  {
  }

  lemma PullReservedFacts(s: Sender, id: Id, st: State)
    requires Inv(s, REST) && s.queues.hand == [id] && id < |s.states| && PlaceOf(s.states[id]) == InHand
    requires s.states[id].partial && ExpEvent in s.states[id].missing && s.availExpEvents > 0
    requires st == s.states[id].(missing := {LargeRegion, PullHandle})
    ensures |s.attrs| == |s.states| && st.slots == s.states[id].slots && HoldsSlots(s.attrs[id], st) == HoldsSlots(s.attrs[id], s.states[id])
    ensures st.sending == s.states[id].sending && st.pending == s.states[id].pending
    ensures s.queues == Move(s.queues, PlaceOf(s.states[id]), PlaceOf(st), id, true) && SameLine(s.attrs, s.queues, s.queues, id)
    ensures HeldLarge(s.attrs[id], st) == HeldLarge(s.attrs[id], s.states[id]) && Held(s.attrs[id], st) == 1 && Held(s.attrs[id], s.states[id]) == 0
    ensures PlaceOf(st) == InHand && Quiet(s.states[id], st) && CanChange(s, id, st)
  {
    hide SideOk, Sum, QueueOk;
    InvSide(s, id, REST);
  }

  lemma PullReserved(s: Sender, id: Id, st: State, owners: map<nat, nat>, owed: set<nat>)
    requires Inv(s, REST) && SlotsInv(s.attrs, s.states, owners, owed) && s.queues.hand == [id] && id < |s.states| && PlaceOf(s.states[id]) == InHand
    requires s.states[id].partial && ExpEvent in s.states[id].missing && s.availExpEvents > 0
    requires st == s.states[id].(missing := {LargeRegion, PullHandle})
    ensures Inv(s.(states := s.states[id := st], availExpEvents := s.availExpEvents - 1), REST) && PlaceOf(st) == InHand
    ensures SlotsInv(s.attrs, s.states[id := st], owners, owed)
  {
    hide *;
    PullReservedFacts(s, id, st);
    QuietIs(s, id, st, true, s.queues, s.availExpEvents - 1, s.largeSendsAvail);
    SlotsKept(s.attrs, s.states, owners, owed, id, st);
  }

  lemma QuietSlots(s: Sender, id: Id, st: State, owners: map<nat, nat>, owed: set<nat>)
    requires SlotsInv(s.attrs, s.states, owners, owed) && id < |s.states|
    requires st.slots == s.states[id].slots && st.sending == s.states[id].sending && st.pending == s.states[id].pending && st.done == s.states[id].done
    requires id < |s.attrs| && (s.attrs[id].kind.MediumSq? ==> st.missing == s.states[id].missing)
    ensures SlotsInv(s.attrs, s.states[id := st], owners, owed)
  {
    SlotsKept(s.attrs, s.states, owners, owed, id, st);
  }

  lemma NewSlots(s: Sender, attr: Attr, st: State, owners: map<nat, nat>, owed: set<nat>)
    requires SlotsInv(s.attrs, s.states, owners, owed) && IsNew(attr, st) && ShapeOk(attr, st)
    ensures SlotsInv(s.attrs + [attr], s.states + [st], owners, owed)
  {
    SlotsAdded(s.attrs, s.states, owners, owed, attr, st);
  }

  lemma PlacedSame(s: Sender, s': Sender, s'': Sender, p: Pid, id: Id)
    requires Placed(s', s'', p, id) && s'.sides == s.sides && s'.logs == s.logs
    ensures Placed(s, s'', p, id)
  {
  }

  lemma WantsNothing(attr: Attr, st: State)
    requires ShapeOk(attr, st) && !st.partial
    ensures attr.kind.MediumSq? || attr.kind.Large? || st.missing == {}
  {
  }

  lemma LargeWants(attr: Attr, st: State)
    requires ShapeOk(attr, st) && attr.kind.Large? && st.missing != {} && PlaceOf(st) == InHand
    ensures st.missing == {LargeRegion} || st.missing == {SendLargeRegion, LargeRegion}
  {
  }

  lemma LargeReservedFacts(s: Sender, id: Id, st: State)
    requires Inv(s, REST) && s.queues.hand == [id] && id < |s.states| && PlaceOf(s.states[id]) == InHand
    requires id < |s.attrs| && s.attrs[id].kind.Large? && SendLargeRegion in s.states[id].missing && s.largeSendsAvail > 0
    requires st == s.states[id].(missing := {LargeRegion})
    ensures |s.attrs| == |s.states| && st.slots == s.states[id].slots && HoldsSlots(s.attrs[id], st) == HoldsSlots(s.attrs[id], s.states[id])
    ensures st.sending == s.states[id].sending && st.pending == s.states[id].pending
    ensures s.queues == Move(s.queues, PlaceOf(s.states[id]), PlaceOf(st), id, true) && SameLine(s.attrs, s.queues, s.queues, id)
    ensures HeldLarge(s.attrs[id], st) == 1 && HeldLarge(s.attrs[id], s.states[id]) == 0 && Held(s.attrs[id], st) == Held(s.attrs[id], s.states[id])
    ensures PlaceOf(st) == InHand && Quiet(s.states[id], st) && CanChange(s, id, st)
  {
    hide SideOk, Sum, QueueOk;
    InvSide(s, id, REST);
  }

  lemma LargeReserved(s: Sender, id: Id, st: State, owners: map<nat, nat>, owed: set<nat>)
    requires Inv(s, REST) && SlotsInv(s.attrs, s.states, owners, owed) && s.queues.hand == [id] && id < |s.states| && PlaceOf(s.states[id]) == InHand
    requires id < |s.attrs| && s.attrs[id].kind.Large? && SendLargeRegion in s.states[id].missing && s.largeSendsAvail > 0
    requires st == s.states[id].(missing := {LargeRegion})
    ensures Inv(s.(states := s.states[id := st], largeSendsAvail := s.largeSendsAvail - 1), REST) && PlaceOf(st) == InHand
    ensures SlotsInv(s.attrs, s.states[id := st], owners, owed)
  {
    hide *;
    LargeReservedFacts(s, id, st);
    QuietIs(s, id, st, true, s.queues, s.availExpEvents, s.largeSendsAvail - 1);
    SlotsKept(s.attrs, s.states, owners, owed, id, st);
  }

  lemma RegionReserved(s: Sender, id: Id, st: State, owners: map<nat, nat>, owed: set<nat>)
    requires Inv(s, REST) && SlotsInv(s.attrs, s.states, owners, owed) && s.queues.hand == [id] && id < |s.states| && PlaceOf(s.states[id]) == InHand
    requires id < |s.attrs| && s.attrs[id].kind.Large? && s.states[id].missing == {LargeRegion}
    requires st == s.states[id].(missing := {})
    ensures Inv(s.(states := s.states[id := st]), REST) && PlaceOf(st) == InHand
    ensures SlotsInv(s.attrs, s.states[id := st], owners, owed)
  {
    InvSide(s, id, REST);
    assert HeldLarge(s.attrs[id], st) == HeldLarge(s.attrs[id], s.states[id]) && Held(s.attrs[id], st) == Held(s.attrs[id], s.states[id]);
    assert PlaceOf(st) == InHand && Quiet(s.states[id], st) && CanChange(s, id, st);
    hide Inv, Held, HeldLarge, PlaceOf, ShapeOk, CanChange, Quiet, SideOk;
    QuietIs(s, id, st, true, s.queues, s.availExpEvents, s.largeSendsAvail);
    SlotsKept(s.attrs, s.states, owners, owed, id, st);
  }

  predicate SameButReserved(states: seq<State>, states': seq<State>, id: Id) {
    && id < |states| == |states'|
    && states' == states[id := states[id].(missing := states'[id].missing, slots := states'[id].slots)]
  }

  lemma Reserved(states: seq<State>, states': seq<State>, id: Id)
    requires id < |states| == |states'|
    requires states' == states[id := states[id].(missing := states'[id].missing, slots := states'[id].slots)]
    ensures SameButReserved(states, states', id)
  {
  }

  lemma MediumSqWants(attr: Attr, st: State)
    requires ShapeOk(attr, st) && attr.kind.MediumSq? && st.missing != {} && PlaceOf(st) == InHand
    ensures st.missing == {SendqSlot} || st.missing == {ExpEvent, SendqSlot}
  {
  }

  lemma CreditReservedFacts(s: Sender, id: Id, st: State)
    requires Inv(s, REST) && s.queues.hand == [id] && id < |s.states| && PlaceOf(s.states[id]) == InHand
    requires id < |s.attrs| && s.attrs[id].kind.MediumSq? && ExpEvent in s.states[id].missing && s.availExpEvents >= s.attrs[id].frags
    requires st == s.states[id].(missing := {SendqSlot})
    ensures |s.attrs| == |s.states| && st.slots == s.states[id].slots && HoldsSlots(s.attrs[id], st) == HoldsSlots(s.attrs[id], s.states[id])
    ensures st.sending == s.states[id].sending && st.pending == s.states[id].pending
    ensures s.queues == Move(s.queues, PlaceOf(s.states[id]), PlaceOf(st), id, true) && SameLine(s.attrs, s.queues, s.queues, id)
    ensures HeldLarge(s.attrs[id], st) == HeldLarge(s.attrs[id], s.states[id]) && Held(s.attrs[id], st) == s.attrs[id].frags
    ensures Held(s.attrs[id], s.states[id]) == 0 && PlaceOf(st) == InHand && Quiet(s.states[id], st) && CanChange(s, id, st)
  {
    hide SideOk, Sum, QueueOk;
    InvSide(s, id, REST);
  }

  lemma CreditReserved(s: Sender, id: Id, st: State, owners: map<nat, nat>, owed: set<nat>)
    requires Inv(s, REST) && SlotsInv(s.attrs, s.states, owners, owed) && s.queues.hand == [id] && id < |s.states| && PlaceOf(s.states[id]) == InHand
    requires id < |s.attrs| && s.attrs[id].kind.MediumSq? && ExpEvent in s.states[id].missing && s.availExpEvents >= s.attrs[id].frags
    requires st == s.states[id].(missing := {SendqSlot})
    ensures Inv(s.(states := s.states[id := st], availExpEvents := s.availExpEvents - s.attrs[id].frags), REST) && PlaceOf(st) == InHand
    ensures SlotsInv(s.attrs, s.states[id := st], owners, owed)
  {
    hide *;
    CreditReservedFacts(s, id, st);
    QuietIs(s, id, st, true, s.queues, s.availExpEvents - s.attrs[id].frags, s.largeSendsAvail);
    SlotsKept(s.attrs, s.states, owners, owed, id, st);
  }

  lemma SlotsReserved(s: Sender, id: Id, st: State, owners: map<nat, nat>, owed: set<nat>, founds: seq<nat>)
    requires Inv(s, REST) && SlotsInv(s.attrs, s.states, owners, owed) && s.queues.hand == [id] && id < |s.states| && PlaceOf(s.states[id]) == InHand
    requires id < |s.attrs| && s.attrs[id].kind.MediumSq? && s.states[id].missing == {SendqSlot}
    requires |founds| == s.attrs[id].frags && NoDup(founds) && (forall x :: x in founds ==> x !in owners)
    requires st == s.states[id].(missing := {}, slots := founds)
    ensures Inv(s.(states := s.states[id := st]), REST) && PlaceOf(st) == InHand
    ensures SlotsInv(s.attrs, s.states[id := st], owners + map x | x in founds :: id, owed)
  {
    InvSide(s, id, REST);
    assert HeldLarge(s.attrs[id], st) == HeldLarge(s.attrs[id], s.states[id]) && Held(s.attrs[id], st) == Held(s.attrs[id], s.states[id]);
    assert PlaceOf(st) == InHand && Quiet(s.states[id], st) && CanChange(s, id, st) && !s.states[id].done && !s.states[id].sending;
    hide Inv, Held, HeldLarge, PlaceOf, ShapeOk, CanChange, Quiet, SideOk;
    QuietIs(s, id, st, true, s.queues, s.availExpEvents, s.largeSendsAvail);
    assert s.states[id].missing - {SendqSlot} == {};
    SlotsTaken(s.attrs, s.states, owners, owed, id, founds);
  }

  // The request in hand got the next number, or waits for one behind those
  // that already do, the window being full.
  ghost predicate Placed(s: Sender, s': Sender, p: Pid, id: Id)
  {
    && p in s.sides && p in s.logs && p in s'.sides && s'.sides.Keys == s.sides.Keys
    && (forall q :: q in s.sides && q != p ==> s'.sides[q] == s.sides[q])
    && if |s.logs[p].given| + 1 - s.logs[p].acked < THROTTLING_OFFSET_MAX then
         && s'.logs == s.logs[p := s.logs[p].(given := s.logs[p].given + [id])]
         && s'.sides[p].needSeqnum == s.sides[p].needSeqnum
       else
         && s'.logs == s.logs
         && s'.sides[p].needSeqnum == s.sides[p].needSeqnum + [id]
  }

  // The test on the 14-bit numbers is the test on the unbounded ones.
  lemma WindowTest(s: Sender, id: Id)
    requires Inv(s, REST) && s.queues.hand == [id] && id < |s.states| && id < |s.attrs|
    ensures var p := s.attrs[id].partner;
      && p in s.sides && p in s.logs
      && Seq(s.sides[p].nextSend - s.sides[p].nextAcked) == |s.logs[p].given| + 1 - s.logs[p].acked <= THROTTLING_OFFSET_MAX
      && (|s.logs[p].given| + 1 - s.logs[p].acked < THROTTLING_OFFSET_MAX ==> s.sides[p].needSeqnum == [])
  {
    hide *;
    InvSide(s, id, REST);
    WindowFacts(s, s.attrs[id].partner);
    var log := s.logs[s.attrs[id].partner];
    WireDifference(log.session, |log.given| + 1, log.acked);
    WindowFits(log);
  }

  lemma WindowFacts(s: Sender, p: Pid)
    requires |s.attrs| == |s.states| && p in s.sides && p in s.logs && SideOk(s, p, REST)
    ensures var side, log := s.sides[p], s.logs[p];
      && log.session < SESSIONS && 1 <= log.acked <= |log.given| + 1 <= log.acked + THROTTLING_OFFSET_MAX
      && side.nextSend == Wire(log.session, |log.given| + 1) && side.nextAcked == Wire(log.session, log.acked)
      && (|log.given| + 1 - log.acked < THROTTLING_OFFSET_MAX ==> side.needSeqnum == [])
  {
    hide AcksOk, WaitingOk, FifoOk, NumberOk, Wire;
  }

  lemma WindowFits(log: Log)
    requires log.acked <= |log.given| + 1 <= log.acked + THROTTLING_OFFSET_MAX
    ensures 0 <= |log.given| + 1 - log.acked < SEQNUM_RANGE
    ensures (|log.given| + 1 - log.acked) % SEQNUM_RANGE == |log.given| + 1 - log.acked
  {
  }

  // Waiting, field by field.
  lemma WaitIs(s: Sender, id: Id)
    requires id < |s.states| && CanChange(s, id, s.states[id].(needSeqnum := true)) && s.attrs[id].partner in s.sides
    requires s.queues.hand == [id] && PlaceOf(s.states[id]) == InHand && s.states[id].missing == {} && !s.states[id].partial
    ensures Wait(s, id).states == s.states[id := s.states[id].(needSeqnum := true)]
    ensures Wait(s, id).queues == s.queues.(hand := [])
    ensures Wait(s, id).availExpEvents == s.availExpEvents && Wait(s, id).largeSendsAvail == s.largeSendsAvail
    ensures Wait(s, id).attrs == s.attrs && Wait(s, id).logs == s.logs
    ensures var p := s.attrs[id].partner; var side := s.sides[p];
      && Wait(s, id).sides == s.sides[p := side.(needSeqnum := side.needSeqnum + [id], throttlingNr := side.throttlingNr + 1)]
      && Wait(s, id).throttling == if side.throttlingNr == 0 then s.throttling + [p] else s.throttling
  {
    LeaveHand(s.queues, id, NeedSeqnum);
  }

  lemma WaitSlots(s: Sender, id: Id, owners: map<nat, nat>, owed: set<nat>)
    requires SlotsInv(s.attrs, s.states, owners, owed) && id < |s.states|
    ensures SlotsInv(s.attrs, s.states[id := s.states[id].(needSeqnum := true)], owners, owed)
  {
    SlotsKept(s.attrs, s.states, owners, owed, id, s.states[id].(needSeqnum := true));
  }

  lemma Empty(s: Sender, sessions: map<Pid, nat>)
    requires forall p :: p in sessions ==> sessions[p] < SESSIONS
    requires s.attrs == [] && s.states == [] && s.throttling == [] && s.queues == Queues([], [], [], [], [], [])
    requires s.sides == map p | p in sessions :: Side(Wire(sessions[p], 1), Wire(sessions[p], 1), [], [], 0, 0)
    requires s.logs == map p | p in sessions :: Log(sessions[p], [], [], 1)
    requires s.availExpEvents == EXP_EVENTS && s.largeSendsAvail == LARGE_SENDS
    ensures Inv(s, REST)
  {
    forall place {:trigger QueueOk(At(s.queues, place), place, s.states)} | Queued(place)
      ensures QueueOk(At(s.queues, place), place, s.states)
    {
    }
  }

  // Everything the first post of the request in hand changes.
  lemma SetUpKeeps(s: Sender, id: Id, accepted: nat, now: nat, resendsMax: nat, m: Mode, owners: map<nat, nat>, owed: set<nat>, filled: map<nat, (Id, nat)>)
    requires Inv(s, m) && SlotsInv(s.attrs, s.states, owners, owed) && FilledOk(s.attrs, s.states, filled)
    requires s.queues.hand == [id] && id < |s.states| == |s.attrs| && m.front && PlaceOf(s.states[id]) == InHand
    requires s.states[id].missing == {} && !s.states[id].partial && accepted <= s.attrs[id].frags
    requires var p := s.attrs[id].partner; p in s.sides && p in s.logs && HasNumber(s, p, m) && (m.p != p ==> m.slack == 0 && m.sent == 0)
    ensures var attr, p := s.attrs[id], s.attrs[id].partner;
      var side := s.sides[p];
      var st := Given(attr, s.states[id], side.nextSend, resendsMax, accepted, now);
      && st.slots == s.states[id].slots && (st.sending ==> accepted <= |st.slots|)
      && Inv(Sender(s.attrs, s.states[id := st],
                    s.sides[p := side.(nextSend := IncreaseBy(side.nextSend, 1), nonAcked := side.nonAcked + [id])],
                    s.logs[p := s.logs[p].(given := s.logs[p].given + [id])],
                    if st.sending then s.queues.(hand := [], sending := s.queues.sending + [id]) else s.queues.(hand := [], nonAcked := s.queues.nonAcked + [id]),
                    s.throttling, if attr.kind.MediumSq? then s.availExpEvents + attr.frags - accepted else s.availExpEvents, s.largeSendsAvail), Used(m, p))
      && SlotsInv(s.attrs, s.states[id := st], owners, if st.sending then owed + SetOf(st.slots[..accepted]) else owed)
      && FilledOk(s.attrs, s.states[id := st], if attr.kind.MediumSq? then Fill(filled, st.slots, |st.slots|, id) else filled)
      && (attr.kind.MediumSq? ==> SlotsHold(Fill(filled, st.slots, |st.slots|, id), st.slots, id))
  {
    hide *;
    InvSide(s, id, m);
    var attr, p := s.attrs[id], s.attrs[id].partner;
    var side := s.sides[p];
    var st := Given(attr, s.states[id], side.nextSend, resendsMax, accepted, now);
    GivenOk(s, id, st, accepted, now, resendsMax, m);
    GiveKeeps(s, id, st, m);
    GivenSlots(s, id, st, accepted, owners, owed);
    GivenFilled(s, id, st, m, owners, owed, filled);
    GiveIs(s, id, st, Sender(s.attrs, s.states[id := st],
                    s.sides[p := side.(nextSend := IncreaseBy(side.nextSend, 1), nonAcked := side.nonAcked + [id])],
                    s.logs[p := s.logs[p].(given := s.logs[p].given + [id])],
                    if st.sending then s.queues.(hand := [], sending := s.queues.sending + [id]) else s.queues.(hand := [], nonAcked := s.queues.nonAcked + [id]),
                    s.throttling, if attr.kind.MediumSq? then s.availExpEvents + attr.frags - accepted else s.availExpEvents, s.largeSendsAvail));
  }

  lemma QueueKept(side: Side, side': Side)
    requires side'.needSeqnum == side.needSeqnum && side'.throttlingNr == side.throttlingNr && side'.lastRecvAcknum == side.lastRecvAcknum
    ensures SameQueue(side, side')
  {
  }

  lemma HandIsUnsent(st: State)
    requires PlaceOf(st) == InHand
    ensures !st.needAck && !st.sending
  {
  }

  // The first post of the request in hand.
  lemma GivenFilled(s: Sender, id: Id, st: State, m: Mode, owners: map<nat, nat>, owed: set<nat>, filled: map<nat, (Id, nat)>)
    requires Inv(s, m) && SlotsInv(s.attrs, s.states, owners, owed) && FilledOk(s.attrs, s.states, filled) && id < |s.states| && id < |s.attrs|
    requires PlaceOf(s.states[id]) == InHand && st.slots == s.states[id].slots && (s.attrs[id].kind.MediumSq? ==> HoldsSlots(s.attrs[id], s.states[id]))
    ensures var now := if s.attrs[id].kind.MediumSq? then Fill(filled, st.slots, |st.slots|, id) else filled;
      FilledOk(s.attrs, s.states[id := st], now) && (s.attrs[id].kind.MediumSq? ==> SlotsHold(now, st.slots, id))
  {
    hide SlotsInv, SideOk, ThrottlingOk, QueuesOk, Sum;
    InvSide(s, id, m);
    forall j | 0 <= j < |s.states| && s.attrs[j].kind.MediumSq? && (s.states[j].needAck || s.states[j].sending)
      ensures HoldsSlots(s.attrs[j], s.states[j])
    {
      InvSide(s, j, m);
    }
    if s.attrs[id].kind.MediumSq? {
      FilledPosted(s.attrs, s.states, owners, owed, filled, id, st);
    }
  }

  lemma RepostFilled(s: Sender, id: Id, accepted: nat, now: nat, filled: map<nat, (Id, nat)>)
    requires Inv(s, REST) && FilledOk(s.attrs, s.states, filled) && id < |s.states| == |s.attrs| && PlaceOf(s.states[id]) == NonAcked
    ensures FilledOk(s.attrs, s.states[id := Posted(s.attrs[id], s.states[id], accepted, now)], filled)
    ensures s.attrs[id].kind.MediumSq? ==> SlotsHold(filled, Posted(s.attrs[id], s.states[id], accepted, now).slots, id)
  {
    hide Inv, SlotsHold;
    FilledKept(s.attrs, s.states, filled, id, Posted(s.attrs[id], s.states[id], accepted, now));
    assert s.states[id].needAck;
  }

  lemma GivenIs(attr: Attr, st: State, seqnum: SeqNum16, resendsMax: nat, accepted: nat, now: nat)
    ensures Given(attr, st, seqnum, resendsMax, accepted, now)
         == Posted(attr, st.(seqnum := seqnum, resends := 0, resendsMax := resendsMax), accepted, now).(
              needAck := true, needReply := attr.kind.Large?)
  {
  }

  // Setting up, field by field.
  lemma GiveIs(s: Sender, id: Id, st: State, s': Sender)
    requires id < |s.states| && CanChange(s, id, st) && s.attrs[id].partner in s.sides && s.attrs[id].partner in s.logs
    requires s.queues.hand == [id] && PlaceOf(s.states[id]) == InHand && PlaceOf(st) == (if st.sending then Sending else NonAcked)
    requires var p := s.attrs[id].partner; var side, log := s.sides[p], s.logs[p];
      && s'.sides == s.sides[p := side.(nextSend := IncreaseBy(side.nextSend, 1), nonAcked := side.nonAcked + [id])]
      && s'.logs == s.logs[p := log.(given := log.given + [id])]
    requires s'.attrs == s.attrs && s'.states == s.states[id := st] && s'.throttling == s.throttling
    requires s'.queues == if st.sending then s.queues.(hand := [], sending := s.queues.sending + [id])
                          else s.queues.(hand := [], nonAcked := s.queues.nonAcked + [id])
    requires s'.availExpEvents == s.availExpEvents + Held(s.attrs[id], s.states[id]) - Held(s.attrs[id], st)
    requires s'.largeSendsAvail == s.largeSendsAvail + HeldLarge(s.attrs[id], s.states[id]) - HeldLarge(s.attrs[id], st)
    ensures s' == Give(s, id, st)
  {
    LeaveHand(s.queues, id, PlaceOf(st));
    hide PlaceOf, Held, HeldLarge, ShapeOk;
  }

  lemma GivenSlots(s: Sender, id: Id, st: State, accepted: nat, owners: map<nat, nat>, owed: set<nat>)
    requires SlotsInv(s.attrs, s.states, owners, owed) && id < |s.states| && id < |s.attrs| && ShapeOk(s.attrs[id], s.states[id]) && accepted <= s.attrs[id].frags
    requires !s.states[id].sending && st.slots == s.states[id].slots && HoldsSlots(s.attrs[id], st) == HoldsSlots(s.attrs[id], s.states[id])
    requires if s.attrs[id].kind.MediumSq? then HoldsSlots(s.attrs[id], s.states[id]) && st.pending == accepted && st.sending == (accepted > 0) else !st.sending
    ensures accepted <= |s.states[id].slots| || !st.sending
    ensures SlotsInv(s.attrs, s.states[id := st], owners, if st.sending then owed + SetOf(s.states[id].slots[..accepted]) else owed)
  {
    hide PlaceOf;
    if st.sending {
      SlotsPosted(s.attrs, s.states, owners, owed, id, st, accepted);
    } else {
      SlotsKept(s.attrs, s.states, owners, owed, id, st);
    }
  }

  // What setting up makes of the request in hand.
  lemma GivenOk(s: Sender, id: Id, st: State, accepted: nat, now: nat, resendsMax: nat, m: Mode)
    requires Inv(s, m) && s.queues.hand == [id] && id < |s.states| && PlaceOf(s.states[id]) == InHand
    requires s.attrs[id].partner in s.sides && s.states[id].missing == {} && !s.states[id].partial && accepted <= s.attrs[id].frags
    requires st == Given(s.attrs[id], s.states[id], s.sides[s.attrs[id].partner].nextSend, resendsMax, accepted, now)
    ensures CanChange(s, id, st) && st.needAck && PlaceOf(st) == if s.attrs[id].kind.MediumSq? && accepted > 0 then Sending else NonAcked
    ensures st.slots == s.states[id].slots && HoldsSlots(s.attrs[id], st) == HoldsSlots(s.attrs[id], s.states[id])
    ensures s.attrs[id].kind.MediumSq? ==> HoldsSlots(s.attrs[id], s.states[id]) && Held(s.attrs[id], s.states[id]) == s.attrs[id].frags && Held(s.attrs[id], st) == accepted
    ensures !s.attrs[id].kind.MediumSq? ==> Held(s.attrs[id], st) == Held(s.attrs[id], s.states[id]) == 0 && !st.sending && !s.states[id].sending
    ensures HeldLarge(s.attrs[id], st) == HeldLarge(s.attrs[id], s.states[id])
    ensures !s.states[id].sending && ShapeOk(s.attrs[id], s.states[id]) && st.sending == (s.attrs[id].kind.MediumSq? && accepted > 0)
    ensures st.seqnum == s.sides[s.attrs[id].partner].nextSend && (s.attrs[id].kind.MediumSq? ==> st.pending == accepted)
  {
    assert ShapeOk(s.attrs[id], s.states[id]);
  }
}
