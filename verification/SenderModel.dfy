// The sending half of an endpoint: where each request is queued, which number
// it gets, and which credits it holds.
module SenderModel {
  import opened Collections
  import opened SeqNum
  import Fragments

  type Id = nat
  type Pid = nat

  // credits for expected events: the ring minus the slots that may be
  // processed but not released yet
  const EXP_EVENTS: nat := 1024 - (256 - 1)
  const LARGE_SENDS: nat := 128

  datatype Kind = Tiny | Small | MediumSq | MediumVa | Large | RecvLarge

  datatype Resource = ExpEvent | SendqSlot | SendLargeRegion | LargeRegion | PullHandle

  // What never changes after submission; frags is 0 but for mediumsq sends.
  datatype Attr = Attr(kind: Kind, partner: Pid, frags: nat)

  // The state bits of a request, and the fields that go with them.
  datatype State = State(
    needResources: bool, needSeqnum: bool, sending: bool, needAck: bool, needReply: bool,
    partial: bool, pulling: bool, done: bool,
    missing: set<Resource>, seqnum: SeqNum16, slots: seq<nat>, pending: nat,
    resends: nat, resendsMax: nat, lastSend: nat)

  datatype Place = NeedResources | NeedSeqnum | Sending | NonAcked | NeedReply | Pulling | Done | InHand

  // The table of omx_types.h: the state bits tell where the request is queued.
  function PlaceOf(st: State): Place {
    if st.needResources then NeedResources
    else if st.needSeqnum then NeedSeqnum
    else if st.sending then Sending
    else if st.needAck then NonAcked
    else if st.needReply then NeedReply
    else if st.pulling then Pulling
    else if st.done then Done
    else InHand
  }

  datatype Side = Side(nextSend: SeqNum16, nextAcked: SeqNum16, needSeqnum: seq<Id>, nonAcked: seq<Id>,
                       throttlingNr: nat, lastRecvAcknum: nat)

  // History of one partner: user sends in API order, requests in the order
  // they got their numbers, and the first number not acked.
  datatype Log = Log(session: nat, issued: seq<Id>, given: seq<Id>, acked: nat)

  // The queues of the endpoint, and the request in hand between two of them.
  datatype Queues = Queues(needResources: seq<Id>, nonAcked: seq<Id>, sending: seq<Id>, needReply: seq<Id>, pulling: seq<Id>, hand: seq<Id>)

  datatype Sender = Sender(
    attrs: seq<Attr>, states: seq<State>, sides: map<Pid, Side>, logs: map<Pid, Log>,
    queues: Queues, throttling: seq<Pid>, availExpEvents: nat, largeSendsAvail: nat)

  // How far a step in progress is from a state at rest: whether the request in
  // hand goes before those that wait for a number, and, for one partner, how
  // many numbers are free and how many requests left its queue uncounted.
  datatype Mode = Mode(front: bool, p: Pid, slack: nat, sent: nat)

  const REST := Mode(false, 0, 0, 0)

  // ----- queues -----

  // A queue holds, once each, exactly the requests whose bits say so.
  ghost predicate QueueOk(q: seq<Id>, place: Place, states: seq<State>) {
    && NoDup(q)
    && forall id: nat :: id in q <==> id < |states| && PlaceOf(states[id]) == place
  }

  // Requests waiting for a number are queued by partner; those done are nowhere.
  predicate Queued(place: Place) {
    !place.NeedSeqnum? && !place.Done?
  }

  function At(qs: Queues, place: Place): seq<Id> {
    match place
    case NeedResources => qs.needResources
    case NonAcked => qs.nonAcked
    case Sending => qs.sending
    case NeedReply => qs.needReply
    case Pulling => qs.pulling
    case InHand => qs.hand
    case _ => []
  }

  function Put(qs: Queues, place: Place, q: seq<Id>): Queues {
    match place
    case NeedResources => qs.(needResources := q)
    case NonAcked => qs.(nonAcked := q)
    case Sending => qs.(sending := q)
    case NeedReply => qs.(needReply := q)
    case Pulling => qs.(pulling := q)
    case InHand => qs.(hand := q)
    case _ => qs
  }

  // To the tail of the queue of its new state, or back to the head.
  function Move(qs: Queues, from: Place, to: Place, id: Id, tail: bool): Queues {
    if from == to then qs
    else
      var out := Put(qs, from, Without(At(qs, from), id));
      Put(out, to, if tail then At(out, to) + [id] else [id] + At(out, to))
  }

  ghost predicate QueuesOk(qs: Queues, states: seq<State>) {
    forall place {:trigger QueueOk(At(qs, place), place, states)} :: Queued(place) ==> QueueOk(At(qs, place), place, states)
  }

  lemma AtMove(qs: Queues, from: Place, to: Place, id: Id, tail: bool, place: Place)
    requires Queued(place)
    ensures At(Move(qs, from, to, id, tail), place) ==
      if from == to || (place != from && place != to) then At(qs, place)
      else if place == from then Without(At(qs, place), id)
      else if tail then At(qs, place) + [id] else [id] + At(qs, place)
  {
  }

  lemma QueueLeft(q: seq<Id>, place: Place, states: seq<State>, id: Id, st: State)
    requires QueueOk(q, place, states) && id < |states|
    ensures PlaceOf(st) != place ==> QueueOk(Without(q, id), place, states[id := st])
  {
    hide PlaceOf, NoDup;
    WithoutOk(q, id);
  }

  lemma QueueChanges(q: seq<Id>, place: Place, states: seq<State>, id: Id, st: State)
    requires QueueOk(q, place, states) && id < |states|
    ensures (PlaceOf(states[id]) == place) == (PlaceOf(st) == place) ==> QueueOk(q, place, states[id := st])
    ensures PlaceOf(st) != place ==> QueueOk(Without(q, id), place, states[id := st])
    ensures PlaceOf(states[id]) != place && PlaceOf(st) == place ==>
      QueueOk(q + [id], place, states[id := st]) && QueueOk([id] + q, place, states[id := st])
  {
    hide PlaceOf, NoDup;
    QueueLeft(q, place, states, id, st);
    if PlaceOf(states[id]) != place && PlaceOf(st) == place {
      AppendNoDup(q, id);
    }
  }

  lemma MoveOk(qs: Queues, states: seq<State>, id: Id, st: State, tail: bool)
    requires QueuesOk(qs, states) && id < |states|
    ensures QueuesOk(Move(qs, PlaceOf(states[id]), PlaceOf(st), id, tail), states[id := st])
  {
    var from, to := PlaceOf(states[id]), PlaceOf(st);
    var qs' := Move(qs, from, to, id, tail);
    hide PlaceOf, QueueOk, At, Move;
    forall place {:trigger QueueOk(At(qs', place), place, states[id := st])} | Queued(place)
      ensures QueueOk(At(qs', place), place, states[id := st])
    {
      assert QueueOk(At(qs, place), place, states);
      AtMove(qs, from, to, id, tail, place);
      QueueChanges(At(qs, place), place, states, id, st);
    }
  }

  // ----- API order -----

  ghost predicate Known(ids: seq<Id>, attrs: seq<Attr>) {
    forall id :: id in ids ==> id < |attrs|
  }

  predicate IsUserOf(attrs: seq<Attr>, id: Id, p: Pid) {
    id < |attrs| && attrs[id].partner == p && !attrs[id].kind.RecvLarge?
  }

  // The user sends to one partner, in queue order.
  function UsersOf(attrs: seq<Attr>, ids: seq<Id>, p: Pid): seq<Id> {
    if ids == [] then []
    else (if IsUserOf(attrs, ids[0], p) then [ids[0]] else []) + UsersOf(attrs, ids[1..], p)
  }

  lemma UsersStep(attrs: seq<Attr>, q: seq<Id>, p: Pid)
    requires q != []
    ensures UsersOf(attrs, q, p) == if IsUserOf(attrs, q[0], p) then [q[0]] + UsersOf(attrs, q[1..], p) else UsersOf(attrs, q[1..], p)
  {
  }

  lemma {:induction false} UsersConcat(attrs: seq<Attr>, a: seq<Id>, b: seq<Id>, p: Pid)
    ensures UsersOf(attrs, a + b, p) == UsersOf(attrs, a, p) + UsersOf(attrs, b, p)
  {
    hide *;
    if a == [] {
      assert a + b == b;
      UsersNone(attrs, p);
      NothingAdded(UsersOf(attrs, b, p));
    } else {
      UsersConcat(attrs, a[1..], b, p);
      UsersStep(attrs, a, p);
      assert (a + b)[1..] == a[1..] + b && (a + b)[0] == a[0];
      UsersStep(attrs, a + b, p);
      Regroup([a[0]], UsersOf(attrs, a[1..], p), UsersOf(attrs, b, p));
    }
  }

  lemma {:induction false} UsersMore(attrs: seq<Attr>, more: seq<Attr>, ids: seq<Id>, p: Pid)
    requires Known(ids, attrs)
    ensures UsersOf(attrs + more, ids, p) == UsersOf(attrs, ids, p)
  {
    if ids != [] {
      assert forall id :: id in ids[1..] ==> id in ids;
      assert ids[0] in ids;
      UsersMore(attrs, more, ids[1..], p);
    }
  }

  // ----- credits -----

  function Held(attr: Attr, st: State): nat {
    match attr.kind
    case MediumSq =>
      if ExpEvent in st.missing || st.done then 0
      else if st.sending then st.pending
      else if st.needAck then 0 else attr.frags
    case RecvLarge => if st.partial && ExpEvent !in st.missing then 1 else 0
    case _ => 0
  }

  function HeldLarge(attr: Attr, st: State): nat {
    if attr.kind.Large? && SendLargeRegion !in st.missing && !st.done && (st.needReply || !st.needAck) then 1 else 0
  }

  function Sum(attrs: seq<Attr>, states: seq<State>, held: (Attr, State) -> nat): nat
    requires |attrs| == |states|
  {
    if states == [] then 0
    else
      var n := |states| - 1;
      Sum(attrs[..n], states[..n], held) + held(attrs[n], states[n])
  }

  lemma {:induction false} SumUpdate(attrs: seq<Attr>, states: seq<State>, held: (Attr, State) -> nat, id: Id, st: State)
    requires |attrs| == |states| && id < |states|
    ensures Sum(attrs, states[id := st], held) == Sum(attrs, states, held) - held(attrs[id], states[id]) + held(attrs[id], st)
  {
    var n := |states| - 1;
    if id < n {
      SumUpdate(attrs[..n], states[..n], held, id, st);
      assert states[id := st][..n] == states[..n][id := st];
    } else {
      assert states[id := st][..n] == states[..n];
    }
  }

  lemma SumAppend(attrs: seq<Attr>, states: seq<State>, held: (Attr, State) -> nat, attr: Attr, st: State)
    requires |attrs| == |states|
    ensures Sum(attrs + [attr], states + [st], held) == Sum(attrs, states, held) + held(attr, st)
  {
    assert (attrs + [attr])[..|attrs|] == attrs && (states + [st])[..|states|] == states;
  }

  // ----- what is true of one request -----

  ghost predicate ShapeOk(attr: Attr, st: State) {
    && (attr.kind.MediumSq? <==> attr.frags > 0) && attr.frags <= Fragments.FRAGS_MAX
    && (st.needResources ==> !st.needSeqnum && !st.sending && !st.needAck && !st.needReply && !st.pulling && !st.done)
    && (st.needSeqnum ==> !st.sending && !st.needAck && !st.needReply && !st.pulling && !st.done)
    && (st.done ==> !st.sending && !st.needAck && !st.needReply && !st.pulling)
    && (st.sending ==> attr.kind.MediumSq? && 1 <= st.pending <= attr.frags)
    && (st.needReply ==> attr.kind.Large?)
    && (st.pulling ==> st.partial)
    && (st.partial ==> attr.kind.RecvLarge? && PlaceOf(st) in {NeedResources, Pulling, InHand})
    && (HoldsAll(st) ==> st.missing == {})
    && MissingOk(attr.kind, st.missing)
    && (attr.kind.RecvLarge? && !st.partial ==> st.missing == {})
    && (st.needResources && (attr.kind.MediumSq? || attr.kind.Large? || st.partial) ==> st.missing != {})
    && (HoldsSlots(attr, st) ==> |st.slots| == attr.frags && NoDup(st.slots))
  }

  predicate HoldsAll(st: State) {
    PlaceOf(st) in {NeedSeqnum, Sending, NonAcked, NeedReply, Pulling, Done}
  }

  predicate HoldsSlots(attr: Attr, st: State) {
    attr.kind.MediumSq? && SendqSlot !in st.missing && !st.done
  }

  function Wanted(kind: Kind): set<Resource> {
    match kind
    case MediumSq => {ExpEvent, SendqSlot}
    case Large => {SendLargeRegion, LargeRegion}
    case RecvLarge => {ExpEvent, LargeRegion, PullHandle}
    case _ => {}
  }

  // Resources are reserved in one order.
  predicate MissingOk(kind: Kind, missing: set<Resource>) {
    || missing == {} || missing == Wanted(kind)
    || (kind.MediumSq? && missing == {SendqSlot})
    || (kind.Large? && missing == {LargeRegion})
    || (kind.RecvLarge? && missing == {LargeRegion, PullHandle})
  }

  // Requests that have a number.
  predicate Numbered(st: State) {
    PlaceOf(st) in {Sending, NonAcked, NeedReply, Done}
  }

  // ----- what is true of one partner -----

  ghost predicate NumberOk(log: Log, attrs: seq<Attr>, states: seq<State>, p: Pid, k: nat)
    requires k < |log.given| && log.session < SESSIONS
  {
    var id := log.given[k];
    && id < |attrs| && id < |states| && attrs[id].partner == p
    && Numbered(states[id]) && states[id].seqnum == Wire(log.session, k + 1)
  }

  // The fields track the unbounded numbers, and the queue of requests to be
  // acked is exactly those numbered from the first one not acked on.
  ghost predicate NumbersOk(p: Pid, side: Side, log: Log, attrs: seq<Attr>, states: seq<State>) {
    && log.session < SESSIONS && 1 <= log.acked <= |log.given| + 1
    && side.nextSend == Wire(log.session, |log.given| + 1)
    && side.nextAcked == Wire(log.session, log.acked)
    && side.nonAcked == log.given[log.acked - 1..]
    && NoDup(log.given)
    && (forall k :: 0 <= k < |log.given| ==> NumberOk(log, attrs, states, p, k))
  }

  ghost predicate AcksOk(p: Pid, side: Side, attrs: seq<Attr>, states: seq<State>)
    requires |attrs| == |states|
  {
    forall id: nat :: id < |states| && attrs[id].partner == p ==> (states[id].needAck <==> id in side.nonAcked)
  }

  // Requests wait for a number only while the window is exactly full.
  ghost predicate WindowOk(side: Side, log: Log, slack: nat, sent: nat) {
    && side.throttlingNr == |side.needSeqnum| + sent
    && |log.given| + 1 - log.acked + slack <= THROTTLING_OFFSET_MAX
    && (side.needSeqnum != [] ==> |log.given| + 1 - log.acked + slack == THROTTLING_OFFSET_MAX)
  }

  ghost predicate WaitingOk(p: Pid, side: Side, attrs: seq<Attr>, states: seq<State>)
    requires |attrs| == |states|
  {
    && NoDup(side.needSeqnum)
    && forall id: nat :: id in side.needSeqnum <==> id < |states| && attrs[id].partner == p && PlaceOf(states[id]) == NeedSeqnum
  }

  // User sends get their numbers in the order of the API calls: those with a
  // number, then those waiting for one, then those waiting for resources. The
  // request in hand comes before or after those waiting for a number.
  ghost predicate FifoOk(s: Sender, p: Pid, front: bool)
    requires p in s.sides && p in s.logs
  {
    var a, w := UsersOf(s.attrs, s.logs[p].given, p), UsersOf(s.attrs, s.sides[p].needSeqnum, p);
    s.logs[p].issued ==
      if front then a + UsersOf(s.attrs, s.queues.hand, p) + w + UsersOf(s.attrs, s.queues.needResources, p)
      else a + w + UsersOf(s.attrs, s.queues.hand + s.queues.needResources, p)
  }

  ghost predicate SideOk(s: Sender, p: Pid, m: Mode)
    requires p in s.sides && p in s.logs && |s.attrs| == |s.states|
  {
    && NumbersOk(p, s.sides[p], s.logs[p], s.attrs, s.states)
    && AcksOk(p, s.sides[p], s.attrs, s.states)
    && WaitingOk(p, s.sides[p], s.attrs, s.states)
    && WindowOk(s.sides[p], s.logs[p], if p == m.p then m.slack else 0, if p == m.p then m.sent else 0)
    && FifoOk(s, p, m.front)
  }

  // ----- what is true of the endpoint -----

  ghost predicate ShapesOk(s: Sender) {
    && |s.attrs| == |s.states|
    && forall id :: 0 <= id < |s.states| ==> ShapeOk(s.attrs[id], s.states[id]) && s.attrs[id].partner in s.sides
  }

  ghost predicate CreditsOk(s: Sender)
    requires |s.attrs| == |s.states|
  {
    && s.availExpEvents + Sum(s.attrs, s.states, Held) == EXP_EVENTS
    && s.largeSendsAvail + Sum(s.attrs, s.states, HeldLarge) == LARGE_SENDS
  }

  ghost predicate ThrottlingOk(s: Sender) {
    && NoDup(s.throttling)
    && forall p: nat :: p in s.throttling <==> p in s.sides && s.sides[p].throttlingNr > 0
  }

  ghost predicate SidesOk(s: Sender, m: Mode)
    requires |s.attrs| == |s.states|
  {
    s.sides.Keys == s.logs.Keys && forall p {:trigger SideOk(s, p, m)} :: p in s.sides ==> SideOk(s, p, m)
  }

  ghost predicate BaseOk(s: Sender) {
    ShapesOk(s) && QueuesOk(s.queues, s.states) && CreditsOk(s) && |s.queues.hand| <= 1
  }

  ghost predicate Inv(s: Sender, m: Mode) {
    BaseOk(s) && SidesOk(s, m) && ThrottlingOk(s)
  }

  // ----- one request changes -----

  lemma CanBe(s: Sender, id: Id, st: State)
    requires id < |s.states| == |s.attrs| && ShapeOk(s.attrs[id], st) && (s.queues.hand == [] || s.queues.hand == [id])
    requires Held(s.attrs[id], st) <= s.availExpEvents + Held(s.attrs[id], s.states[id])
    requires HeldLarge(s.attrs[id], st) <= s.largeSendsAvail + HeldLarge(s.attrs[id], s.states[id])
    requires PlaceOf(st) == InHand ==> s.queues.hand == [] || PlaceOf(s.states[id]) == InHand
    ensures CanChange(s, id, st)
  {
    hide ShapeOk, Held, HeldLarge, PlaceOf;
  }

  // The request moves to the queue of its new state; credits follow.
  function Change(s: Sender, id: Id, st: State, tail: bool): Sender
    requires id < |s.states| && id < |s.attrs|
    requires Held(s.attrs[id], st) <= s.availExpEvents + Held(s.attrs[id], s.states[id])
    requires HeldLarge(s.attrs[id], st) <= s.largeSendsAvail + HeldLarge(s.attrs[id], s.states[id])
  {
    s.(states := s.states[id := st],
       queues := Move(s.queues, PlaceOf(s.states[id]), PlaceOf(st), id, tail),
       availExpEvents := s.availExpEvents + Held(s.attrs[id], s.states[id]) - Held(s.attrs[id], st),
       largeSendsAvail := s.largeSendsAvail + HeldLarge(s.attrs[id], s.states[id]) - HeldLarge(s.attrs[id], st))
  }

  lemma ChangeBase(s: Sender, id: Id, st: State, tail: bool)
    requires BaseOk(s) && id < |s.states| && ShapeOk(s.attrs[id], st)
    requires Held(s.attrs[id], st) <= s.availExpEvents + Held(s.attrs[id], s.states[id])
    requires HeldLarge(s.attrs[id], st) <= s.largeSendsAvail + HeldLarge(s.attrs[id], s.states[id])
    requires PlaceOf(st) == InHand ==> s.queues.hand == [] || PlaceOf(s.states[id]) == InHand
    ensures BaseOk(Change(s, id, st, tail))
  {
    hide ShapeOk, QueueOk, Held, HeldLarge, PlaceOf;
    MoveOk(s.queues, s.states, id, st, tail);
    SumUpdate(s.attrs, s.states, Held, id, st);
    SumUpdate(s.attrs, s.states, HeldLarge, id, st);
    MoveHand(s.queues, PlaceOf(s.states[id]), PlaceOf(st), id, tail);
  }

  lemma MoveHand(qs: Queues, from: Place, to: Place, id: Id, tail: bool)
    requires |qs.hand| <= 1
    requires to == InHand ==> qs.hand == [] || from == InHand
    ensures |Move(qs, from, to, id, tail).hand| <= 1
  {
    WithoutShorter(qs.hand, id);
  }

  lemma NumbersKept(p: Pid, side: Side, side': Side, log: Log, attrs: seq<Attr>, states: seq<State>, id: Id, st: State)
    requires NumbersOk(p, side, log, attrs, states) && id < |states|
    requires side'.nextSend == side.nextSend && side'.nextAcked == side.nextAcked && side'.nonAcked == side.nonAcked
    requires id < |attrs| && attrs[id].partner == p ==> Numbered(states[id]) ==> Numbered(st) && st.seqnum == states[id].seqnum
    ensures NumbersOk(p, side', log, attrs, states[id := st])
  {
    hide PlaceOf;
    forall k {:trigger NumberOk(log, attrs, states[id := st], p, k)} | 0 <= k < |log.given|
      ensures NumberOk(log, attrs, states[id := st], p, k)
    {
      assert NumberOk(log, attrs, states, p, k);
    }
  }

  // The other partners do not notice.
  lemma OtherSide(s: Sender, s': Sender, id: Id, m: Mode, m': Mode, q: Pid)
    requires |s.attrs| == |s.states| && id < |s.attrs| && q != s.attrs[id].partner
    requires s'.attrs == s.attrs && |s'.states| == |s.states| && s'.states == s.states[id := s'.states[id]]
    requires q in s.sides && q in s.logs && q in s'.sides && q in s'.logs && s'.sides[q] == s.sides[q] && s'.logs[q] == s.logs[q]
    requires Bystander(s.attrs, s.queues, s'.queues, q)
    requires (m.p == q ==> m.slack == 0 && m.sent == 0) && (m'.p == q ==> m'.slack == 0 && m'.sent == 0)
    requires SideOk(s, q, m)
    ensures SideOk(s', q, m')
  {
    hide PlaceOf, NumbersOk, UsersOf, WindowOk;
    NumbersKept(q, s.sides[q], s.sides[q], s.logs[q], s.attrs, s.states, id, s'.states[id]);
    UsersConcat(s.attrs, s.queues.hand, s.queues.needResources, q);
    UsersConcat(s.attrs, s'.queues.hand, s'.queues.needResources, q);
  }

  // Nothing of partner q is in hand, and what waits for resources stays.
  ghost predicate Bystander(attrs: seq<Attr>, qs: Queues, qs': Queues, q: Pid) {
    && UsersOf(attrs, qs'.needResources, q) == UsersOf(attrs, qs.needResources, q)
    && UsersOf(attrs, qs.hand, q) == [] && UsersOf(attrs, qs'.hand, q) == []
  }

  lemma {:induction false} UsersWithout(attrs: seq<Attr>, q: seq<Id>, id: Id, p: Pid)
    requires !IsUserOf(attrs, id, p)
    ensures UsersOf(attrs, Without(q, id), p) == UsersOf(attrs, q, p)
  {
    if q != [] {
      UsersWithout(attrs, q[1..], id, p);
      var rest := Without(q[1..], id);
      assert q[0] != id ==> ([q[0]] + rest)[1..] == rest;
    }
  }

  lemma UsersNone(attrs: seq<Attr>, p: Pid)
    ensures UsersOf(attrs, [], p) == []
  {
  }

  lemma UsersOne(attrs: seq<Attr>, id: Id, q: seq<Id>, p: Pid)
    ensures UsersOf(attrs, [id] + q, p) == UsersOf(attrs, [id], p) + UsersOf(attrs, q, p)
    ensures UsersOf(attrs, q + [id], p) == UsersOf(attrs, q, p) + UsersOf(attrs, [id], p)
    ensures UsersOf(attrs, [id], p) == if IsUserOf(attrs, id, p) then [id] else []
  {
    UsersConcat(attrs, [id], q, p);
    UsersConcat(attrs, q, [id], p);
  }

  // At most this request is in hand.
  predicate OnlyInHand(qs: Queues, id: Id) {
    qs.hand == [] || qs.hand == [id]
  }

  lemma MoveBystander(attrs: seq<Attr>, qs: Queues, from: Place, to: Place, id: Id, tail: bool, q: Pid)
    requires !IsUserOf(attrs, id, q) && OnlyInHand(qs, id) && (to == InHand && from != InHand ==> qs.hand == [])
    ensures Bystander(attrs, qs, Move(qs, from, to, id, tail), q)
  {
    hide *;
    UsersWithout(attrs, qs.needResources, id, q);
    UsersOne(attrs, id, qs.needResources, q);
    UsersOne(attrs, id, Without(qs.needResources, id), q);
    UsersNone(attrs, q);
    HandAfter(qs, from, to, id, tail);
    LineAfter(qs, from, to, id, tail);
    StandsBy(attrs, qs, Move(qs, from, to, id, tail), id, q);
  }

  lemma LineAfter(qs: Queues, from: Place, to: Place, id: Id, tail: bool)
    ensures var line, line' := qs.needResources, Move(qs, from, to, id, tail).needResources;
      line' == line || line' == Without(line, id) || line' == line + [id] || line' == [id] + line
  {
    AtMove(qs, from, to, id, tail, NeedResources);
    hide Without;
  }

  lemma StandsBy(attrs: seq<Attr>, qs: Queues, qs': Queues, id: Id, q: Pid)
    requires OnlyInHand(qs, id) && OnlyInHand(qs', id) && UsersOf(attrs, [], q) == [] && UsersOf(attrs, [id], q) == []
    requires UsersOf(attrs, qs'.needResources, q) == UsersOf(attrs, qs.needResources, q)
    ensures Bystander(attrs, qs, qs', q)
  {
    hide UsersOf;
  }

  lemma HandAfter(qs: Queues, from: Place, to: Place, id: Id, tail: bool)
    requires OnlyInHand(qs, id) && (to == InHand && from != InHand ==> qs.hand == [])
    ensures OnlyInHand(Move(qs, from, to, id, tail), id)
  {
    assert [] + [id] == [id] && [id] + [] == [id];
    assert [id][1..] == [] && Without([], id) == [];
    assert Without([id], id) == Without([id][1..], id);
  }

  // The other partners' part of a change.
  lemma ChangeOthers(s: Sender, s': Sender, id: Id, m: Mode, m': Mode)
    requires |s.attrs| == |s.states| && id < |s.attrs| && SidesOk(s, m) && OnlyInHand(s.queues, id)
    requires s'.attrs == s.attrs && |s'.states| == |s.states| && s'.states == s.states[id := s'.states[id]]
    requires PlaceOf(s'.states[id]) == InHand && PlaceOf(s.states[id]) != InHand ==> s.queues.hand == []
    requires exists tail :: s'.queues == Move(s.queues, PlaceOf(s.states[id]), PlaceOf(s'.states[id]), id, tail)
    requires var p := s.attrs[id].partner;
      && (m.p != p ==> m.slack == 0 && m.sent == 0) && (m'.p != p ==> m'.slack == 0 && m'.sent == 0)
      && s'.sides.Keys == s.sides.Keys && s'.logs.Keys == s.logs.Keys && p in s.sides
      && (forall q :: q in s.sides && q != p ==> s'.sides[q] == s.sides[q])
      && (forall q :: q in s.logs && q != p ==> s'.logs[q] == s.logs[q])
      && SideOk(s', p, m')
    ensures SidesOk(s', m')
  {
    hide NumbersOk, AcksOk, WaitingOk, WindowOk, FifoOk, PlaceOf;
    var tail :| s'.queues == Move(s.queues, PlaceOf(s.states[id]), PlaceOf(s'.states[id]), id, tail);
    forall q {:trigger SideOk(s', q, m')} | q in s'.sides
      ensures SideOk(s', q, m')
    {
      if q != s.attrs[id].partner {
        assert SideOk(s, q, m);
        MoveBystander(s.attrs, s.queues, PlaceOf(s.states[id]), PlaceOf(s'.states[id]), id, tail, q);
        OtherSide(s, s', id, m, m', q);
      }
    }
  }

  // Nothing changes in the order of those that wait for resources.
  predicate SameLine(attrs: seq<Attr>, qs: Queues, qs': Queues, id: Id)
    requires id < |attrs|
  {
    attrs[id].kind.RecvLarge? || qs'.hand + qs'.needResources == qs.hand + qs.needResources
  }

  predicate Quiet(st: State, st': State) {
    && st'.needAck == st.needAck
    && (Numbered(st) ==> Numbered(st') && st'.seqnum == st.seqnum)
    && !PlaceOf(st).NeedSeqnum? && !PlaceOf(st').NeedSeqnum?
  }

  ghost predicate CanChange(s: Sender, id: Id, st: State)
  {
    && id < |s.states| && id < |s.attrs| && ShapeOk(s.attrs[id], st)
    && Held(s.attrs[id], st) <= s.availExpEvents + Held(s.attrs[id], s.states[id])
    && HeldLarge(s.attrs[id], st) <= s.largeSendsAvail + HeldLarge(s.attrs[id], s.states[id])
    && OnlyInHand(s.queues, id)
    && (PlaceOf(st) == InHand && PlaceOf(s.states[id]) != InHand ==> s.queues.hand == [])
  }

  lemma LineKept(attrs: seq<Attr>, qs: Queues, qs': Queues, id: Id, p: Pid)
    requires id < |attrs| && SameLine(attrs, qs, qs', id)
    requires attrs[id].kind.RecvLarge? ==> Bystander(attrs, qs, qs', p)
    ensures UsersOf(attrs, qs'.hand + qs'.needResources, p) == UsersOf(attrs, qs.hand + qs.needResources, p)
  {
    UsersConcat(attrs, qs.hand, qs.needResources, p);
    UsersConcat(attrs, qs'.hand, qs'.needResources, p);
  }

  lemma QuietSide(s: Sender, id: Id, st: State, tail: bool, m: Mode)
    requires |s.attrs| == |s.states| && CanChange(s, id, st) && Quiet(s.states[id], st) && !m.front
    requires SameLine(s.attrs, s.queues, Change(s, id, st, tail).queues, id)
    requires var p := s.attrs[id].partner; p in s.sides && p in s.logs && SideOk(s, p, m)
    ensures SideOk(Change(s, id, st, tail), s.attrs[id].partner, m)
  {
    hide PlaceOf, Held, HeldLarge, ShapeOk, Move, UsersOf, WindowOk;
    var p, s' := s.attrs[id].partner, Change(s, id, st, tail);
    hide NumbersOk;
    NumbersKept(p, s.sides[p], s.sides[p], s.logs[p], s.attrs, s.states, id, st);
    if s.attrs[id].kind.RecvLarge? {
      MoveBystander(s.attrs, s.queues, PlaceOf(s.states[id]), PlaceOf(st), id, tail, p);
    }
    LineKept(s.attrs, s.queues, s'.queues, id, p);
  }

  // A change of queue that no partner notices.
  lemma QuietKeeps(s: Sender, id: Id, st: State, tail: bool, m: Mode)
    requires Inv(s, m) && CanChange(s, id, st) && Quiet(s.states[id], st) && !m.front
    requires m.p != s.attrs[id].partner ==> m.slack == 0 && m.sent == 0
    requires SameLine(s.attrs, s.queues, Change(s, id, st, tail).queues, id)
    ensures Inv(Change(s, id, st, tail), m)
  {
    hide PlaceOf, Held, HeldLarge, ShapeOk, NumbersOk, AcksOk, WaitingOk, WindowOk, FifoOk, QueuesOk, SameLine, Quiet;
    ChangeBase(s, id, st, tail);
    var p := s.attrs[id].partner;
    assert SideOk(s, p, m);
    QuietSide(s, id, st, tail, m);
    ChangeOthers(s, Change(s, id, st, tail), id, m, m);
  }

  lemma OneSide(s: Sender, id: Id, m: Mode)
    requires ShapesOk(s) && SidesOk(s, m) && id < |s.states|
    ensures s.attrs[id].partner in s.sides && s.attrs[id].partner in s.logs && SideOk(s, s.attrs[id].partner, m)
    ensures ShapeOk(s.attrs[id], s.states[id])
  {
    assert s.attrs[id].partner in s.sides;
  }

  lemma InvSide(s: Sender, id: Id, m: Mode)
    requires Inv(s, m) && id < |s.states|
    ensures |s.attrs| == |s.states| && s.attrs[id].partner in s.sides && s.attrs[id].partner in s.logs
    ensures SideOk(s, s.attrs[id].partner, m) && ShapeOk(s.attrs[id], s.states[id])
  {
    OneSide(s, id, m);
  }

  lemma InvParts(s: Sender, m: Mode)
    requires Inv(s, m)
    ensures BaseOk(s) && ShapesOk(s) && |s.attrs| == |s.states| && SidesOk(s, m) && ThrottlingOk(s)
    ensures s.sides.Keys == s.logs.Keys
  {
    hide ShapeOk, QueuesOk, CreditsOk, SideOk, ThrottlingOk;
  }

  lemma ChangeUnfolds(s: Sender, id: Id, st: State, tail: bool)
    requires CanChange(s, id, st)
    ensures id < |s.states| && id < |s.attrs| && ShapeOk(s.attrs[id], st) && OnlyInHand(s.queues, id)
    ensures Held(s.attrs[id], st) <= s.availExpEvents + Held(s.attrs[id], s.states[id])
    ensures HeldLarge(s.attrs[id], st) <= s.largeSendsAvail + HeldLarge(s.attrs[id], s.states[id])
    ensures PlaceOf(st) == InHand && PlaceOf(s.states[id]) != InHand ==> s.queues.hand == []
    ensures var s' := Change(s, id, st, tail);
      && s'.attrs == s.attrs && s'.states == s.states[id := st] && s'.sides == s.sides && s'.logs == s.logs && s'.throttling == s.throttling
      && s'.queues == Move(s.queues, PlaceOf(s.states[id]), PlaceOf(st), id, tail)
  {
    hide ShapeOk, Held, HeldLarge, PlaceOf, Move;
  }

  lemma BaseMoved(s: Sender, s': Sender)
    requires BaseOk(s) && s' == s.(sides := s'.sides, logs := s'.logs, throttling := s'.throttling) && s'.sides.Keys == s.sides.Keys
    ensures BaseOk(s')
  {
    hide ShapeOk, QueuesOk, Held, HeldLarge, Sum;
    assert forall p :: p in s.sides ==> p in s'.sides;
  }

  // One request changes and its partner with it: what remains to be shown is
  // that partner's part.
  lemma OneChanged(s: Sender, s': Sender, id: Id, st: State, m: Mode, m': Mode)
    requires Inv(s, m) && CanChange(s, id, st)
    requires s' == Change(s, id, st, true).(sides := s'.sides, logs := s'.logs, throttling := s'.throttling)
    requires var p := s.attrs[id].partner;
      && (m.p != p ==> m.slack == 0 && m.sent == 0) && (m'.p != p ==> m'.slack == 0 && m'.sent == 0)
      && s'.sides.Keys == s.sides.Keys && s'.logs.Keys == s.logs.Keys && p in s.sides && p in s.logs
      && (forall q :: q in s.sides && q != p ==> s'.sides[q] == s.sides[q])
      && (forall q :: q in s.logs && q != p ==> s'.logs[q] == s.logs[q])
      && p in s'.sides && p in s'.logs && |s'.attrs| == |s'.states| && SideOk(s', p, m')
    requires ThrottlingOk(s')
    ensures Inv(s', m')
  {
    hide *;
    InvParts(s, m);
    ChangeUnfolds(s, id, st, true);
    HandKept(s, id, st);
    ChangeBase(s, id, st, true);
    BaseMoved(Change(s, id, st, true), s');
    ChangeOthers(s, s', id, m, m');
    InvWhole(s', m');
  }

  lemma HandKept(s: Sender, id: Id, st: State)
    requires CanChange(s, id, st)
    ensures PlaceOf(st) == InHand ==> s.queues.hand == [] || PlaceOf(s.states[id]) == InHand
  {
    hide ShapeOk, Held, HeldLarge, PlaceOf;
  }

  lemma InvWhole(s: Sender, m: Mode)
    requires BaseOk(s) && |s.attrs| == |s.states| && SidesOk(s, m) && ThrottlingOk(s)
    ensures Inv(s, m)
  {
    hide BaseOk, SidesOk, ThrottlingOk;
  }

  lemma HandState(s: Sender, id: Id)
    requires BaseOk(s) && s.queues.hand == [id]
    ensures id < |s.states| && PlaceOf(s.states[id]) == InHand
  {
    assert QueueOk(At(s.queues, InHand), InHand, s.states);
    assert id in At(s.queues, InHand);
  }

  // ----- waiting for a number -----

  // Components of one partner's part, when request id of that partner changes.

  lemma AcksSame(p: Pid, side: Side, side': Side, attrs: seq<Attr>, states: seq<State>, id: Id, st: State)
    requires |attrs| == |states| && id < |states| && AcksOk(p, side, attrs, states)
    requires side'.nonAcked == side.nonAcked && st.needAck == states[id].needAck
    ensures AcksOk(p, side', attrs, states[id := st])
  {
  }

  lemma AcksGain(p: Pid, side: Side, side': Side, attrs: seq<Attr>, states: seq<State>, id: Id, st: State)
    requires |attrs| == |states| && id < |states| && AcksOk(p, side, attrs, states) && attrs[id].partner == p
    requires side'.nonAcked == side.nonAcked + [id] && st.needAck
    ensures AcksOk(p, side', attrs, states[id := st])
  {
  }

  lemma AcksLose(p: Pid, side: Side, side': Side, attrs: seq<Attr>, states: seq<State>, id: Id, st: State)
    requires |attrs| == |states| && id < |states| && AcksOk(p, side, attrs, states) && attrs[id].partner == p
    requires side.nonAcked == [id] + side'.nonAcked && id !in side'.nonAcked && !st.needAck
    ensures AcksOk(p, side', attrs, states[id := st])
  {
  }

  lemma WaitingSame(p: Pid, side: Side, side': Side, attrs: seq<Attr>, states: seq<State>, id: Id, st: State)
    requires |attrs| == |states| && id < |states| && WaitingOk(p, side, attrs, states)
    requires side'.needSeqnum == side.needSeqnum && PlaceOf(states[id]) != NeedSeqnum && PlaceOf(st) != NeedSeqnum
    ensures WaitingOk(p, side', attrs, states[id := st])
  {
    hide PlaceOf;
  }

  lemma WaitingGain(p: Pid, side: Side, side': Side, attrs: seq<Attr>, states: seq<State>, id: Id, st: State)
    requires |attrs| == |states| && id < |states| && WaitingOk(p, side, attrs, states) && attrs[id].partner == p
    requires side'.needSeqnum == side.needSeqnum + [id] && PlaceOf(states[id]) != NeedSeqnum && PlaceOf(st) == NeedSeqnum
    ensures WaitingOk(p, side', attrs, states[id := st])
  {
    hide PlaceOf;
  }

  lemma WaitingLose(p: Pid, side: Side, side': Side, attrs: seq<Attr>, states: seq<State>, id: Id, st: State)
    requires |attrs| == |states| && id < |states| && WaitingOk(p, side, attrs, states)
    requires side.needSeqnum == [id] + side'.needSeqnum && PlaceOf(st) != NeedSeqnum
    ensures WaitingOk(p, side', attrs, states[id := st])
  {
    hide PlaceOf, NoDup;
    TailNoDup(side.needSeqnum, id, side'.needSeqnum);
  }

  // Where the hand goes when request id leaves it.
  lemma LeaveHand(qs: Queues, id: Id, to: Place)
    requires qs.hand == [id] && to != InHand
    ensures Move(qs, InHand, to, id, true).hand == []
    ensures to != NeedResources ==> Move(qs, InHand, to, id, true).needResources == qs.needResources
  {
    assert [id][1..] == [] && Without([], id) == [];
    assert Without([id], id) == Without([id][1..], id);
  }

  // The window is full: to the partner's queue, and the partner is throttling.
  function Wait(s: Sender, id: Id): Sender
    requires id < |s.states| && CanChange(s, id, s.states[id].(needSeqnum := true)) && s.attrs[id].partner in s.sides
  {
    var p := s.attrs[id].partner;
    var side := s.sides[p];
    Change(s, id, s.states[id].(needSeqnum := true), true).(
      sides := s.sides[p := side.(needSeqnum := side.needSeqnum + [id], throttlingNr := side.throttlingNr + 1)],
      throttling := if side.throttlingNr == 0 then s.throttling + [p] else s.throttling)
  }

  lemma WaitFifo(s: Sender, id: Id, s': Sender, p: Pid)
    requires p in s.sides && p in s.logs && p in s'.sides && p in s'.logs && s'.attrs == s.attrs
    requires s.queues.hand == [id] && s'.queues.hand == [] && s'.queues.needResources == s.queues.needResources
    requires s'.logs[p] == s.logs[p] && s'.sides[p].needSeqnum == s.sides[p].needSeqnum + [id]
    requires FifoOk(s, p, false)
    ensures FifoOk(s', p, false)
  {
    hide UsersOf;
    var attrs, wait, rest := s.attrs, s.sides[p].needSeqnum, s.queues.needResources;
    UsersOne(attrs, id, wait, p);
    UsersOne(attrs, id, rest, p);
    NothingAdded(rest);
    var a, w, u, r := UsersOf(attrs, s.logs[p].given, p), UsersOf(attrs, wait, p), UsersOf(attrs, [id], p), UsersOf(attrs, rest, p);
    Regroup(a + w, u, r);
    Regroup(a, w, u);
  }

  lemma WaitSide(s: Sender, id: Id, s': Sender, p: Pid)
    requires ShapesOk(s) && s.queues.hand == [id] && id < |s.states| && PlaceOf(s.states[id]) == InHand
    requires p == s.attrs[id].partner && p in s.sides && p in s.logs && SideOk(s, p, REST)
    requires |s.logs[p].given| + 1 - s.logs[p].acked >= THROTTLING_OFFSET_MAX
    requires CanChange(s, id, s.states[id].(needSeqnum := true)) && s' == Wait(s, id)
    ensures SideOk(s', p, REST)
  {
    hide NumbersOk, AcksOk, WaitingOk, FifoOk, ShapeOk, Held, HeldLarge;
    var side, side', st := s.sides[p], s'.sides[p], s'.states[id];
    NumbersKept(p, side, side', s.logs[p], s.attrs, s.states, id, st);
    LeaveHand(s.queues, id, NeedSeqnum);
    WaitFifo(s, id, s', p);
    AcksSame(p, side, side', s.attrs, s.states, id, st);
    WaitingGain(p, side, side', s.attrs, s.states, id, st);
  }

  lemma WaitKeeps(s: Sender, id: Id)
    requires Inv(s, REST) && s.queues.hand == [id] && id < |s.states| && s.states[id].missing == {} && !s.states[id].partial
    requires var p := s.attrs[id].partner; p in s.logs && |s.logs[p].given| + 1 - s.logs[p].acked >= THROTTLING_OFFSET_MAX
    ensures CanChange(s, id, s.states[id].(needSeqnum := true)) && s.attrs[id].partner in s.sides
    ensures Inv(Wait(s, id), REST)
  {
    hide *;
    InvParts(s, REST);
    HandState(s, id);
    OneSide(s, id, REST);
    var p, st := s.attrs[id].partner, s.states[id].(needSeqnum := true);
    WaitFacts(s, id);
    WaitUnfolds(s, id);
    ChangeUnfolds(s, id, st, true);
    WaitSide(s, id, Wait(s, id), p);
    WaitThrottling(s, Wait(s, id), p);
    AtRest();
    OneChanged(s, Wait(s, id), id, st, REST, REST);
  }

  lemma AtRest()
    ensures REST.slack == 0 && REST.sent == 0
  {
  }

  lemma WaitFacts(s: Sender, id: Id)
    requires ShapesOk(s) && s.queues.hand == [id] && id < |s.states| && PlaceOf(s.states[id]) == InHand
    requires s.states[id].missing == {} && !s.states[id].partial
    ensures CanChange(s, id, s.states[id].(needSeqnum := true))
  {
    assert ShapeOk(s.attrs[id], s.states[id]);
  }

  lemma WaitUnfolds(s: Sender, id: Id)
    requires id < |s.states| && CanChange(s, id, s.states[id].(needSeqnum := true)) && s.attrs[id].partner in s.sides
    ensures var p := s.attrs[id].partner;
      var side := s.sides[p];
      Wait(s, id) == Change(s, id, s.states[id].(needSeqnum := true), true).(
        sides := s.sides[p := side.(needSeqnum := side.needSeqnum + [id], throttlingNr := side.throttlingNr + 1)],
        throttling := if side.throttlingNr == 0 then s.throttling + [p] else s.throttling)
  {
    hide Change, CanChange;
  }

  lemma WaitThrottling(s: Sender, s': Sender, p: Pid)
    requires ThrottlingOk(s) && p in s.sides && p in s'.sides && s'.sides.Keys == s.sides.Keys
    requires (forall q :: q in s.sides && q != p ==> s'.sides[q] == s.sides[q]) && s'.sides[p].throttlingNr == s.sides[p].throttlingNr + 1
    requires s'.throttling == if s.sides[p].throttlingNr == 0 then s.throttling + [p] else s.throttling
    ensures ThrottlingOk(s')
  {
    AppendNoDupIf(s.throttling, p);
    hide NoDup;
  }

  lemma AppendNoDupIf(q: seq<nat>, x: nat)
    requires NoDup(q)
    ensures x !in q ==> NoDup(q + [x])
  {
    if x !in q {
      AppendNoDup(q, x);
    }
  }

  // The first request of the partner's queue is taken in hand to get a number.
  function TakeWaiting(s: Sender, p: Pid, id: Id): Sender
    requires id < |s.states| && CanChange(s, id, s.states[id].(needSeqnum := false)) && p in s.sides && s.sides[p].needSeqnum != []
  {
    Change(s, id, s.states[id].(needSeqnum := false), true).(
      sides := s.sides[p := s.sides[p].(needSeqnum := s.sides[p].needSeqnum[1..])])
  }

  lemma TakeWaitingFifo(s: Sender, id: Id, s': Sender, p: Pid, front: bool)
    requires p in s.sides && p in s.logs && p in s'.sides && p in s'.logs && s'.attrs == s.attrs
    requires s.queues.hand == [] && s'.queues.hand == [id] && s'.queues.needResources == s.queues.needResources
    requires s'.logs[p] == s.logs[p] && s.sides[p].needSeqnum == [id] + s'.sides[p].needSeqnum
    requires FifoOk(s, p, front)
    ensures FifoOk(s', p, true)
  {
    hide UsersOf;
    var attrs, wait, rest := s.attrs, s'.sides[p].needSeqnum, s.queues.needResources;
    UsersOne(attrs, id, wait, p);
    UsersNone(attrs, p);
    NothingAdded(rest);
    var a, w, u := UsersOf(attrs, s.logs[p].given, p), UsersOf(attrs, wait, p), UsersOf(attrs, [id], p);
    NothingAdded(a);
    Regroup(a, u, w);
  }

  lemma TakeWaitingSide(s: Sender, p: Pid, id: Id, s': Sender, m: Mode)
    requires ShapesOk(s) && s.queues.hand == [] && id < |s.states| && p == s.attrs[id].partner == m.p
    requires p in s.sides && p in s.logs && SideOk(s, p, m)
    requires s.sides[p].needSeqnum != [] && s.sides[p].needSeqnum[0] == id && PlaceOf(s.states[id]) == NeedSeqnum
    requires CanChange(s, id, s.states[id].(needSeqnum := false)) && PlaceOf(s.states[id].(needSeqnum := false)) == InHand
    requires s' == TakeWaiting(s, p, id)
    ensures s'.queues.hand == [id] && SideOk(s', p, m.(front := true, sent := m.sent + 1))
  {
    hide NumbersOk, AcksOk, WaitingOk, FifoOk, ShapeOk, Held, HeldLarge;
    var side, side', st := s.sides[p], s'.sides[p], s'.states[id];
    NumbersKept(p, side, side', s.logs[p], s.attrs, s.states, id, st);
    assert [] + [id] == [id] && side.needSeqnum == [id] + side'.needSeqnum;
    TakeWaitingFifo(s, id, s', p, m.front);
    AcksSame(p, side, side', s.attrs, s.states, id, st);
    WaitingLose(p, side, side', s.attrs, s.states, id, st);
  }

  lemma WaitingState(s: Sender, p: Pid, id: Id, m: Mode)
    requires ShapesOk(s) && SidesOk(s, m) && p in s.sides && id in s.sides[p].needSeqnum
    ensures id < |s.states| && s.attrs[id].partner == p && PlaceOf(s.states[id]) == NeedSeqnum
    ensures s.states[id].missing == {} && !s.states[id].partial
    ensures PlaceOf(s.states[id].(needSeqnum := false)) == InHand
  {
    assert SideOk(s, p, m);
    hide NumbersOk, AcksOk, WindowOk, FifoOk;
    assert ShapeOk(s.attrs[id], s.states[id]);
  }

  lemma TakeWaitingKeeps(s: Sender, p: Pid, id: Id, m: Mode)
    requires Inv(s, m) && p in s.sides && p == m.p && s.sides[p].needSeqnum != [] && s.sides[p].needSeqnum[0] == id && s.queues.hand == []
    ensures id < |s.states| && CanChange(s, id, s.states[id].(needSeqnum := false))
    ensures s.attrs[id].partner == p && s.states[id].missing == {} && !s.states[id].partial && PlaceOf(s.states[id]) == NeedSeqnum
    ensures Inv(TakeWaiting(s, p, id), m.(front := true, sent := m.sent + 1))
    ensures TakeWaiting(s, p, id).queues.hand == [id]
  {
    hide *;
    InvParts(s, m);
    OldestWaits(s.sides[p].needSeqnum);
    WaitingState(s, p, id, m);
    OneSide(s, id, m);
    var st := s.states[id].(needSeqnum := false);
    TakeWaitingFacts(s, id);
    TakeWaitingUnfolds(s, p, id);
    ChangeUnfolds(s, id, st, true);
    TakeWaitingSide(s, p, id, TakeWaiting(s, p, id), m);
    SameThrottling(s, TakeWaiting(s, p, id));
    OneChanged(s, TakeWaiting(s, p, id), id, st, m, m.(front := true, sent := m.sent + 1));
  }

  lemma OldestWaits(q: seq<Id>)
    requires q != []
    ensures q[0] in q
  {
  }

  lemma TakeWaitingFacts(s: Sender, id: Id)
    requires ShapesOk(s) && s.queues.hand == [] && id < |s.states| && PlaceOf(s.states[id]) == NeedSeqnum
    requires s.states[id].missing == {} && !s.states[id].partial && PlaceOf(s.states[id].(needSeqnum := false)) == InHand
    ensures CanChange(s, id, s.states[id].(needSeqnum := false))
  {
    assert ShapeOk(s.attrs[id], s.states[id]);
  }

  lemma TakeWaitingUnfolds(s: Sender, p: Pid, id: Id)
    requires id < |s.states| && CanChange(s, id, s.states[id].(needSeqnum := false)) && p in s.sides && s.sides[p].needSeqnum != []
    ensures TakeWaiting(s, p, id) == Change(s, id, s.states[id].(needSeqnum := false), true).(
      sides := s.sides[p := s.sides[p].(needSeqnum := s.sides[p].needSeqnum[1..])])
  {
    hide Change, CanChange;
  }

  lemma SameThrottling(s: Sender, s': Sender)
    requires ThrottlingOk(s) && s'.sides.Keys == s.sides.Keys && s'.throttling == s.throttling
    requires forall q :: q in s.sides ==> s'.sides[q].throttlingNr == s.sides[q].throttlingNr
    ensures ThrottlingOk(s')
  {
    hide NoDup;
  }

  // ----- getting a number -----

  // omx__post_isend_*: what the driver accepted decides the state.
  function Posted(attr: Attr, st: State, accepted: nat, now: nat): State {
    if !attr.kind.MediumSq? then st.(resends := st.resends + 1, lastSend := now)
    else if accepted == 0 then st.(pending := 0)
    else st.(pending := accepted, sending := true, resends := st.resends + 1, lastSend := now)
  }

  lemma PostedCounts(attr: Attr, st: State, accepted: nat, now: nat)
    ensures var st' := Posted(attr, st, accepted, now);
      if attr.kind.MediumSq? && accepted == 0 then st'.resends == st.resends && st'.lastSend == st.lastSend
      else st'.resends == st.resends + 1 && st'.lastSend == now
  {
  }

  // When the driver refuses a fragment of a first post, the rest of the
  // message is still to be copied into its slots. The loop tests j, the slot
  // to copy to, and increments i.
  datatype Finishing = Finishing(i: nat, j: nat, remaining: nat)

  function Finish(f: Finishing, n: nat): Finishing {
    if n == 0 then f
    else
      var g := Finish(f, n - 1);
      var chunk := if g.remaining > Fragments.FRAG_LENGTH_MAX then Fragments.FRAG_LENGTH_MAX else g.remaining;
      g.(i := (g.i + 1) % 0x1_0000_0000, remaining := g.remaining - chunk)
  }

  ghost predicate Finishes(f: Finishing, frags: nat) {
    exists n :: Finish(f, n).j >= frags
  }

  // A first post of which the driver takes this many fragments returns.
  ghost predicate PostReturns(frags: nat, accepted: nat, remaining: nat) {
    accepted == frags || Finishes(Finishing(accepted, accepted + 1, remaining), frags)
  }

  lemma {:induction false} SlotStays(f: Finishing, n: nat)
    ensures Finish(f, n).j == f.j
  {
    if n > 0 { SlotStays(f, n - 1); }
  }

  // It does exactly when all were taken, or all but the last.
  lemma PostReturnsIff(frags: nat, accepted: nat, remaining: nat)
    requires accepted <= frags
    ensures PostReturns(frags, accepted, remaining) <==> frags <= accepted + 1
  {
    var f := Finishing(accepted, accepted + 1, remaining);
    forall n ensures Finish(f, n).j == accepted + 1 {
      SlotStays(f, n);
    }
    assert Finish(f, 0) == f;
  }

  // Of three fragments the second one is refused: the test never fails.
  lemma RefusedPostLoopsForever(remaining: nat)
    ensures !PostReturns(3, 1, remaining)
  {
    PostReturnsIff(3, 1, remaining);
  }

  // omx__setup_isend_*, omx__setup_notify
  function Given(attr: Attr, st: State, seqnum: SeqNum16, resendsMax: nat, accepted: nat, now: nat): State {
    Posted(attr, st.(seqnum := seqnum, resends := 0, resendsMax := resendsMax), accepted, now).(
      needAck := true, needReply := attr.kind.Large?)
  }

  function Give(s: Sender, id: Id, st: State): Sender
    requires id < |s.states| && CanChange(s, id, st) && s.attrs[id].partner in s.sides && s.attrs[id].partner in s.logs
  {
    var p := s.attrs[id].partner;
    var side, log := s.sides[p], s.logs[p];
    Change(s, id, st, true).(
      sides := s.sides[p := side.(nextSend := IncreaseBy(side.nextSend, 1), nonAcked := side.nonAcked + [id])],
      logs := s.logs[p := log.(given := log.given + [id])])
  }

  // Room for one more number: one set free by an ack, or the window is not full.
  ghost predicate HasNumber(s: Sender, p: Pid, m: Mode)
    requires p in s.sides && p in s.logs
  {
    if m.p == p && m.slack > 0 then true
    else s.sides[p].needSeqnum == [] && |s.logs[p].given| + 1 - s.logs[p].acked < THROTTLING_OFFSET_MAX
  }

  function Used(m: Mode, p: Pid): Mode {
    if m.p == p && m.slack > 0 then m.(slack := m.slack - 1) else m
  }

  lemma GiveNumbers(p: Pid, side: Side, log: Log, attrs: seq<Attr>, states: seq<State>, id: Id, st: State)
    requires NumbersOk(p, side, log, attrs, states) && id < |states| && id < |attrs| && attrs[id].partner == p
    requires !Numbered(states[id]) && Numbered(st) && st.seqnum == side.nextSend
    ensures NumbersOk(p, side.(nextSend := IncreaseBy(side.nextSend, 1), nonAcked := side.nonAcked + [id]),
                      log.(given := log.given + [id]), attrs, states[id := st])
  {
    hide PlaceOf;
    var log' := log.(given := log.given + [id]);
    IncreaseIsWire(log.session, |log.given| + 1, 1);
    forall k | 0 <= k < |log.given|
      ensures log.given[k] != id
    {
      assert NumberOk(log, attrs, states, p, k);
    }
    assert log'.given[log.acked - 1..] == log.given[log.acked - 1..] + [id];
    forall k {:trigger NumberOk(log', attrs, states[id := st], p, k)} | 0 <= k < |log'.given|
      ensures NumberOk(log', attrs, states[id := st], p, k)
    {
      if k < |log.given| {
        assert NumberOk(log, attrs, states, p, k);
      }
    }
  }

  lemma GiveFifo(s: Sender, id: Id, s': Sender, p: Pid)
    requires p in s.sides && p in s.logs && p in s'.sides && p in s'.logs && s'.attrs == s.attrs
    requires s.queues.hand == [id] && s'.queues.hand == [] && s'.queues.needResources == s.queues.needResources
    requires s'.logs[p] == s.logs[p].(given := s.logs[p].given + [id]) && s'.sides[p].needSeqnum == s.sides[p].needSeqnum
    requires FifoOk(s, p, true)
    ensures FifoOk(s', p, true)
  {
    hide UsersOf;
    UsersOne(s.attrs, id, s.logs[p].given, p);
    UsersNone(s.attrs, p);
    NothingAdded(UsersOf(s.attrs, s.logs[p].given + [id], p));
  }

  lemma GiveSide(s: Sender, id: Id, st: State, s': Sender, p: Pid, m: Mode)
    requires ShapesOk(s) && s.queues.hand == [id] && id < |s.states| && PlaceOf(s.states[id]) == InHand && !s.states[id].needAck
    requires p == s.attrs[id].partner && p in s.sides && p in s.logs && SideOk(s, p, m) && m.front && HasNumber(s, p, m)
    requires st.needAck && st.seqnum == s.sides[p].nextSend && PlaceOf(st) in {NonAcked, Sending}
    requires CanChange(s, id, st) && s' == Give(s, id, st)
    ensures SideOk(s', p, Used(m, p))
  {
    hide NumbersOk, AcksOk, WaitingOk, FifoOk, ShapeOk, Held, HeldLarge;
    var side, side' := s.sides[p], s'.sides[p];
    GiveNumbers(p, side, s.logs[p], s.attrs, s.states, id, st);
    LeaveHand(s.queues, id, PlaceOf(st));
    GiveFifo(s, id, s', p);
    AcksGain(p, side, side', s.attrs, s.states, id, st);
    WaitingSame(p, side, side', s.attrs, s.states, id, st);
  }

  lemma GiveKeeps(s: Sender, id: Id, st: State, m: Mode)
    requires Inv(s, m) && s.queues.hand == [id] && id < |s.states| && m.front && PlaceOf(s.states[id]) == InHand
    requires var p := s.attrs[id].partner;
      && p in s.sides && p in s.logs && HasNumber(s, p, m) && (m.p != p ==> m.slack == 0 && m.sent == 0)
      && st.needAck && st.seqnum == s.sides[p].nextSend && PlaceOf(st) in {NonAcked, Sending}
    requires CanChange(s, id, st)
    ensures Inv(Give(s, id, st), Used(m, s.attrs[id].partner))
  {
    hide *;
    InvParts(s, m);
    OneSide(s, id, m);
    var p := s.attrs[id].partner;
    GiveUnfolds(s, id, st);
    ChangeUnfolds(s, id, st, true);
    NoAckInHand(s.states[id]);
    GiveSide(s, id, st, Give(s, id, st), p, m);
    SameThrottling(s, Give(s, id, st));
    UsedFor(m, p);
    OneChanged(s, Give(s, id, st), id, st, m, Used(m, p));
  }

  lemma NoAckInHand(st: State)
    requires PlaceOf(st) == InHand
    ensures !st.needAck
  {
  }

  lemma UsedFor(m: Mode, p: Pid)
    ensures Used(m, p).p == m.p && Used(m, p).sent == m.sent && (m.p != p ==> Used(m, p) == m)
  {
  }

  lemma GiveUnfolds(s: Sender, id: Id, st: State)
    requires id < |s.states| && CanChange(s, id, st) && s.attrs[id].partner in s.sides && s.attrs[id].partner in s.logs
    ensures var p := s.attrs[id].partner;
      var side, log := s.sides[p], s.logs[p];
      Give(s, id, st) == Change(s, id, st, true).(
        sides := s.sides[p := side.(nextSend := IncreaseBy(side.nextSend, 1), nonAcked := side.nonAcked + [id])],
        logs := s.logs[p := log.(given := log.given + [id])])
  {
    hide Change, CanChange;
  }

  // ----- acknowledgements -----

  // omx__mark_request_acked: complete, or only wait for the driver or the reply.
  function Acked(attr: Attr, st: State): State {
    st.(needAck := false, done := !(attr.kind.MediumSq? && st.sending) && !(attr.kind.Large? && st.needReply))
  }

  // The oldest request that needs an ack got one.
  function AckHead(s: Sender, p: Pid, id: Id): Sender
    requires id < |s.states| && id < |s.attrs| && CanChange(s, id, Acked(s.attrs[id], s.states[id])) && p in s.sides && p in s.logs
    requires s.sides[p].nonAcked != []
  {
    var side, log := s.sides[p], s.logs[p];
    Change(s, id, Acked(s.attrs[id], s.states[id]), true).(
      sides := s.sides[p := side.(nonAcked := side.nonAcked[1..], nextAcked := IncreaseBy(side.nextAcked, 1))],
      logs := s.logs[p := log.(acked := log.acked + 1)])
  }

  lemma AckNumbers(p: Pid, side: Side, log: Log, attrs: seq<Attr>, states: seq<State>, id: Id, st: State)
    requires NumbersOk(p, side, log, attrs, states) && id < |states|
    requires side.nonAcked != [] && Numbered(st) && st.seqnum == states[id].seqnum
    ensures NumbersOk(p, side.(nonAcked := side.nonAcked[1..], nextAcked := IncreaseBy(side.nextAcked, 1)),
                      log.(acked := log.acked + 1), attrs, states[id := st])
    ensures side.nonAcked[0] !in side.nonAcked[1..] && side.nonAcked == [side.nonAcked[0]] + side.nonAcked[1..]
    ensures side.nonAcked[0] == log.given[log.acked - 1]
  {
    hide PlaceOf;
    var log' := log.(acked := log.acked + 1);
    IncreaseIsWire(log.session, log.acked, 1);
    assert log.given[log.acked - 1..][1..] == log.given[log.acked..];
    forall k | log.acked <= k < |log.given|
      ensures log.given[k] != log.given[log.acked - 1]
    {
    }
    forall k {:trigger NumberOk(log', attrs, states[id := st], p, k)} | 0 <= k < |log'.given|
      ensures NumberOk(log', attrs, states[id := st], p, k)
    {
      assert NumberOk(log, attrs, states, p, k);
    }
  }

  lemma AckedState(s: Sender, p: Pid, id: Id, m: Mode)
    requires ShapesOk(s) && SidesOk(s, m) && p in s.sides && s.sides[p].nonAcked != [] && s.sides[p].nonAcked[0] == id
    ensures p in s.logs && id < |s.states| && s.attrs[id].partner == p && s.states[id].needAck
    ensures var st := Acked(s.attrs[id], s.states[id]);
      && PlaceOf(s.states[id]) in {Sending, NonAcked} && PlaceOf(st) in {Sending, NeedReply, Done} && Numbered(st)
      && ShapeOk(s.attrs[id], st) && !st.needAck && st.seqnum == s.states[id].seqnum
      && Held(s.attrs[id], st) == Held(s.attrs[id], s.states[id]) && HeldLarge(s.attrs[id], st) == HeldLarge(s.attrs[id], s.states[id])
  {
    assert SideOk(s, p, m);
    var log := s.logs[p];
    assert NumberOk(log, s.attrs, s.states, p, log.acked - 1);
    assert s.states[id].needAck <==> id in s.sides[p].nonAcked;
    assert ShapeOk(s.attrs[id], s.states[id]);
  }

  lemma AckSide(s: Sender, p: Pid, id: Id, s': Sender, m: Mode)
    requires ShapesOk(s) && s.queues.hand == [] && id < |s.states| && p == s.attrs[id].partner == m.p
    requires p in s.sides && p in s.logs && SideOk(s, p, m) && s.sides[p].nonAcked != [] && s.sides[p].nonAcked[0] == id
    requires var st := Acked(s.attrs[id], s.states[id]);
      && PlaceOf(s.states[id]) in {Sending, NonAcked} && PlaceOf(st) in {Sending, NeedReply, Done} && Numbered(st) && CanChange(s, id, st)
      && !st.needAck && st.seqnum == s.states[id].seqnum
    requires s' == AckHead(s, p, id)
    ensures SideOk(s', p, m.(slack := m.slack + 1))
  {
    hide NumbersOk, AcksOk, WaitingOk, ShapeOk, Held, HeldLarge, UsersOf;
    var side, side', st := s.sides[p], s'.sides[p], s'.states[id];
    AckNumbers(p, side, s.logs[p], s.attrs, s.states, id, st);
    AcksLose(p, side, side', s.attrs, s.states, id, st);
    WaitingSame(p, side, side', s.attrs, s.states, id, st);
  }

  lemma AckKeeps(s: Sender, p: Pid, id: Id, m: Mode)
    requires Inv(s, m) && s.queues.hand == [] && p == m.p
    requires p in s.sides && s.sides[p].nonAcked != [] && s.sides[p].nonAcked[0] == id
    ensures id < |s.states| && p in s.logs && CanChange(s, id, Acked(s.attrs[id], s.states[id]))
    ensures s.states[id].needAck && PlaceOf(s.states[id]) in {Sending, NonAcked}
    ensures Inv(AckHead(s, p, id), m.(slack := m.slack + 1))
  {
    hide *;
    InvParts(s, m);
    AckedState(s, p, id, m);
    OneSide(s, id, m);
    var st := Acked(s.attrs[id], s.states[id]);
    AckedFacts(s, id, st);
    AckHeadUnfolds(s, p, id);
    ChangeUnfolds(s, id, st, true);
    AckSide(s, p, id, AckHead(s, p, id), m);
    SameThrottling(s, AckHead(s, p, id));
    OneChanged(s, AckHead(s, p, id), id, st, m, m.(slack := m.slack + 1));
  }

  lemma AckedFacts(s: Sender, id: Id, st: State)
    requires id < |s.states| == |s.attrs| && s.queues.hand == [] && ShapeOk(s.attrs[id], st)
    requires Held(s.attrs[id], st) == Held(s.attrs[id], s.states[id]) && HeldLarge(s.attrs[id], st) == HeldLarge(s.attrs[id], s.states[id])
    ensures CanChange(s, id, st)
  {
    hide ShapeOk, Held, HeldLarge, PlaceOf;
  }

  lemma AckHeadUnfolds(s: Sender, p: Pid, id: Id)
    requires id < |s.states| && id < |s.attrs| && CanChange(s, id, Acked(s.attrs[id], s.states[id]))
    requires p in s.sides && p in s.logs && s.sides[p].nonAcked != []
    ensures var side, log := s.sides[p], s.logs[p];
      AckHead(s, p, id) == Change(s, id, Acked(s.attrs[id], s.states[id]), true).(
        sides := s.sides[p := side.(nonAcked := side.nonAcked[1..], nextAcked := IncreaseBy(side.nextAcked, 1))],
        logs := s.logs[p := log.(acked := log.acked + 1)])
  {
    hide Change, CanChange, Acked;
  }

  // ----- back to rest -----

  lemma FrontFree(s: Sender, m: Mode, front: bool)
    requires Inv(s, m)
    requires forall id :: id in s.queues.hand ==> id < |s.attrs| && s.attrs[id].partner in s.sides && s.sides[s.attrs[id].partner].needSeqnum == []
    ensures Inv(s, m.(front := front))
  {
    hide NumbersOk, AcksOk, WaitingOk, QueuesOk, ShapeOk, Held, HeldLarge;
    var m' := m.(front := front);
    forall p {:trigger SideOk(s, p, m')} | p in s.sides
      ensures SideOk(s, p, m')
    {
      assert SideOk(s, p, m);
      FrontFifo(s, p, m.front, front);
    }
  }

  lemma FrontFifo(s: Sender, p: Pid, front: bool, front': bool)
    requires p in s.sides && p in s.logs && FifoOk(s, p, front) && |s.queues.hand| <= 1
    requires forall id :: id in s.queues.hand ==> id < |s.attrs| && (s.attrs[id].partner == p ==> s.sides[p].needSeqnum == [])
    ensures FifoOk(s, p, front')
  {
    UsersConcat(s.attrs, s.queues.hand, s.queues.needResources, p);
    if s.queues.hand != [] {
      var id := s.queues.hand[0];
      assert s.queues.hand == [id];
      UsersOne(s.attrs, id, [], p);
      assert [id] + [] == [id];
    }
  }

  // omx__update_partner_throttling
  function Settle(s: Sender, p: Pid, sent: nat): Sender
    requires p in s.sides && sent <= s.sides[p].throttlingNr
  {
    var left := s.sides[p].throttlingNr - sent;
    s.(sides := s.sides[p := s.sides[p].(throttlingNr := left)],
       throttling := if sent > 0 && left == 0 then Without(s.throttling, p) else s.throttling)
  }

  lemma SettleThrottling(s: Sender, p: Pid, sent: nat)
    requires ThrottlingOk(s) && p in s.sides && sent <= s.sides[p].throttlingNr
    ensures ThrottlingOk(Settle(s, p, sent))
  {
    WithoutOk(s.throttling, p);
  }

  lemma SettleKeeps(s: Sender, m: Mode)
    requires Inv(s, m) && m.p in s.sides && s.queues.hand == [] && (m.slack == 0 || s.sides[m.p].needSeqnum == [])
    ensures m.sent <= s.sides[m.p].throttlingNr
    ensures Inv(Settle(s, m.p, m.sent), REST)
  {
    assert SideOk(s, m.p, m);
    var s' := Settle(s, m.p, m.sent);
    SettleThrottling(s, m.p, m.sent);
    hide SideOk, QueuesOk, ShapeOk, Held, HeldLarge, ThrottlingOk;
    forall p {:trigger SideOk(s', p, REST)} | p in s'.sides
      ensures SideOk(s', p, REST)
    {
      SettleSide(s, m, s', p);
    }
  }

  // What does not read the number of requests waiting.
  lemma SettledParts(s: Sender, s': Sender, p: Pid)
    requires |s.attrs| == |s.states| && p in s.sides && p in s'.sides && p in s.logs
    requires s' == s.(sides := s'.sides, throttling := s'.throttling) && s'.sides[p] == s.sides[p].(throttlingNr := s'.sides[p].throttlingNr)
    ensures NumbersOk(p, s.sides[p], s.logs[p], s.attrs, s.states) ==> NumbersOk(p, s'.sides[p], s.logs[p], s.attrs, s.states)
    ensures AcksOk(p, s.sides[p], s.attrs, s.states) ==> AcksOk(p, s'.sides[p], s.attrs, s.states)
    ensures WaitingOk(p, s.sides[p], s.attrs, s.states) ==> WaitingOk(p, s'.sides[p], s.attrs, s.states)
    ensures FifoOk(s, p, false) ==> FifoOk(s', p, false)
  {
  }

  lemma SettleSide(s: Sender, m: Mode, s': Sender, p: Pid)
    requires Inv(s, m) && m.p in s.sides && s.queues.hand == [] && (m.slack == 0 || s.sides[m.p].needSeqnum == [])
    requires m.sent <= s.sides[m.p].throttlingNr && s' == Settle(s, m.p, m.sent) && p in s.sides
    ensures SideOk(s', p, REST)
  {
    hide QueuesOk, ShapeOk, Held, HeldLarge, PlaceOf, UsersOf, NumberOk, NumbersOk, AcksOk, WaitingOk, FifoOk, Sum, NoDup;
    assert SideOk(s, p, m);
    FrontFifo(s, p, m.front, false);
    SettledParts(s, s', p);
  }

  // ----- new requests -----

  // A new request, in hand or at the tail of those that wait for resources.
  function Add(s: Sender, attr: Attr, st: State): Sender
    requires attr.partner in s.logs
  {
    var id, log := |s.states|, s.logs[attr.partner];
    s.(attrs := s.attrs + [attr], states := s.states + [st],
       queues := if st.needResources then s.queues.(needResources := s.queues.needResources + [id])
                 else s.queues.(hand := [id]),
       logs := if attr.kind.RecvLarge? then s.logs else s.logs[attr.partner := log.(issued := log.issued + [id])])
  }

  // What submission makes of a request.
  predicate IsNew(attr: Attr, st: State) {
    && PlaceOf(st) in {InHand, NeedResources} && !st.needAck && (st.missing == Wanted(attr.kind) || (attr.kind.RecvLarge? && !st.partial))
  }

  lemma QueueGrows(q: seq<Id>, place: Place, states: seq<State>, st: State)
    requires QueueOk(q, place, states)
    ensures PlaceOf(st) != place ==> QueueOk(q, place, states + [st])
    ensures PlaceOf(st) == place ==> QueueOk(q + [|states|], place, states + [st])
  {
    hide PlaceOf;
    var n, more := |states|, states + [st];
    assert more[n] == st && forall id :: 0 <= id < n ==> more[id] == states[id];
    assert forall k :: 0 <= k < |q| ==> q[k] in q;
    forall id: nat
      ensures id in q + [n] <==> id in q || id == n
    {
    }
  }

  lemma AddQueues(qs: Queues, states: seq<State>, st: State, qs': Queues)
    requires QueuesOk(qs, states) && PlaceOf(st) in {InHand, NeedResources} && (PlaceOf(st) == InHand ==> qs.hand == [])
    requires qs' == if PlaceOf(st) == NeedResources then qs.(needResources := qs.needResources + [|states|]) else qs.(hand := [|states|])
    ensures QueuesOk(qs', states + [st])
  {
    hide PlaceOf;
    forall place {:trigger QueueOk(At(qs', place), place, states + [st])} | Queued(place)
      ensures QueueOk(At(qs', place), place, states + [st])
    {
      assert QueueOk(At(qs, place), place, states);
      QueueGrows(At(qs, place), place, states, st);
      assert [] + [|states|] == [|states|];
    }
  }

  lemma AddSums(s: Sender, attr: Attr, st: State)
    requires ShapesOk(s) && CreditsOk(s) && IsNew(attr, st)
    ensures s.availExpEvents + Sum(s.attrs + [attr], s.states + [st], Held) == EXP_EVENTS
    ensures s.largeSendsAvail + Sum(s.attrs + [attr], s.states + [st], HeldLarge) == LARGE_SENDS
  {
    SumAppend(s.attrs, s.states, Held, attr, st);
    SumAppend(s.attrs, s.states, HeldLarge, attr, st);
  }

  lemma AddNumbers(p: Pid, side: Side, log: Log, attrs: seq<Attr>, states: seq<State>, attr: Attr, st: State)
    requires NumbersOk(p, side, log, attrs, states)
    ensures NumbersOk(p, side, log, attrs + [attr], states + [st])
    ensures NumbersOk(p, side, log.(issued := log.issued + [|states|]), attrs + [attr], states + [st])
    ensures Known(log.given, attrs) && Known(side.nonAcked, attrs)
  {
    hide PlaceOf;
    forall k | 0 <= k < |log.given|
      ensures log.given[k] < |attrs|
    {
      assert NumberOk(log, attrs, states, p, k);
    }
    forall k {:trigger NumberOk(log, attrs + [attr], states + [st], p, k)} | 0 <= k < |log.given|
      ensures NumberOk(log, attrs + [attr], states + [st], p, k)
    {
      assert NumberOk(log, attrs, states, p, k);
    }
    var log' := log.(issued := log.issued + [|states|]);
    forall k {:trigger NumberOk(log', attrs + [attr], states + [st], p, k)} | 0 <= k < |log'.given|
      ensures NumberOk(log', attrs + [attr], states + [st], p, k)
    {
      assert NumberOk(log, attrs + [attr], states + [st], p, k);
    }
  }

  lemma AddFifo(s: Sender, attr: Attr, st: State, p: Pid)
    requires attr.partner in s.logs && p in s.sides && p in s.logs && |s.attrs| == |s.states| && IsNew(attr, st)
    requires Known(s.logs[p].given, s.attrs) && Known(s.sides[p].needSeqnum, s.attrs) && Known(s.queues.needResources, s.attrs)
    requires s.queues.hand == [] && (st.needResources || attr.kind.RecvLarge? || s.queues.needResources == [])
    requires FifoOk(s, p, false)
    ensures FifoOk(Add(s, attr, st), p, false)
  {
    hide UsersOf, Held, HeldLarge, PlaceOf;
    var id, more, rest := |s.states|, s.attrs + [attr], s.queues.needResources;
    UsersMore(s.attrs, [attr], s.logs[p].given, p);
    UsersMore(s.attrs, [attr], s.sides[p].needSeqnum, p);
    UsersMore(s.attrs, [attr], rest, p);
    UsersOne(more, id, rest, p);
    NothingAdded(rest);
    NothingAdded(rest + [id]);
    NothingAdded([id]);
    assert IsUserOf(more, id, p) <==> attr.partner == p && !attr.kind.RecvLarge?;
    var a, w, r := UsersOf(more, s.logs[p].given, p), UsersOf(more, s.sides[p].needSeqnum, p), UsersOf(more, rest, p);
    NothingAdded(r);
    Regroup(a + w, r, UsersOf(more, [id], p));
    UsersNone(more, p);
  }

  lemma AddSide(s: Sender, attr: Attr, st: State, p: Pid)
    requires attr.partner in s.logs && p in s.sides && p in s.logs && |s.attrs| == |s.states| && IsNew(attr, st)
    requires Known(s.queues.needResources, s.attrs)
    requires s.queues.hand == [] && (st.needResources || attr.kind.RecvLarge? || s.queues.needResources == [])
    requires SideOk(s, p, REST)
    ensures SideOk(Add(s, attr, st), p, REST)
  {
    AddNumbers(p, s.sides[p], s.logs[p], s.attrs, s.states, attr, st);
    hide NumbersOk, PlaceOf;
    AddFifo(s, attr, st, p);
  }

  lemma AddKeeps(s: Sender, attr: Attr, st: State)
    requires Inv(s, REST) && attr.partner in s.sides && ShapeOk(attr, st) && IsNew(attr, st)
    requires s.queues.hand == [] && (st.needResources || attr.kind.RecvLarge? || s.queues.needResources == [])
    ensures attr.partner in s.logs && Inv(Add(s, attr, st), REST)
  {
    var s' := Add(s, attr, st);
    AddQueues(s.queues, s.states, st, s'.queues);
    AddSums(s, attr, st);
    KnownResources(s);
    hide SideOk, ShapeOk, Held, HeldLarge, IsNew, PlaceOf, QueuesOk, Sum;
    forall p {:trigger SideOk(s', p, REST)} | p in s'.sides
      ensures SideOk(s', p, REST)
    {
      assert SideOk(s, p, REST);
      AddSide(s, attr, st, p);
    }
  }

  lemma KnownResources(s: Sender)
    requires BaseOk(s)
    ensures Known(s.queues.needResources, s.attrs)
  {
    hide PlaceOf;
    assert QueueOk(At(s.queues, NeedResources), NeedResources, s.states);
  }

  // ----- steps no partner notices -----

  lemma ChangeIs(s: Sender, id: Id, st: State, tail: bool, qs: Queues, e: nat, l: nat)
    requires CanChange(s, id, st) && qs == Move(s.queues, PlaceOf(s.states[id]), PlaceOf(st), id, tail)
    requires e == s.availExpEvents + Held(s.attrs[id], s.states[id]) - Held(s.attrs[id], st)
    requires l == s.largeSendsAvail + HeldLarge(s.attrs[id], s.states[id]) - HeldLarge(s.attrs[id], st)
    ensures Change(s, id, st, tail) == s.(states := s.states[id := st], queues := qs, availExpEvents := e, largeSendsAvail := l)
  {
  }

  lemma QuietIs(s: Sender, id: Id, st: State, tail: bool, qs: Queues, e: nat, l: nat)
    requires Inv(s, REST) && CanChange(s, id, st) && Quiet(s.states[id], st)
    requires qs == Move(s.queues, PlaceOf(s.states[id]), PlaceOf(st), id, tail) && SameLine(s.attrs, s.queues, qs, id)
    requires e == s.availExpEvents + Held(s.attrs[id], s.states[id]) - Held(s.attrs[id], st)
    requires l == s.largeSendsAvail + HeldLarge(s.attrs[id], s.states[id]) - HeldLarge(s.attrs[id], st)
    ensures Inv(s.(states := s.states[id := st], queues := qs, availExpEvents := e, largeSendsAvail := l), REST)
  {
    hide Inv, CanChange, Quiet, Move, Held, HeldLarge, PlaceOf, SameLine;
    QuietKeeps(s, id, st, tail, REST);
    ChangeIs(s, id, st, tail, qs, e, l);
  }

  // Back to those that wait for resources: at the head, or at the tail if
  // that is the same or the request is not a user send.
  lemma RequeueKeeps(s: Sender, id: Id, tail: bool)
    requires Inv(s, REST) && s.queues.hand == [id] && id < |s.states| && PlaceOf(s.states[id]) == InHand
    requires tail ==> s.queues.needResources == [] || (id < |s.attrs| && s.attrs[id].kind.RecvLarge?)
    requires id < |s.attrs| && (s.attrs[id].kind.MediumSq? || s.attrs[id].kind.Large? || s.states[id].partial) ==> s.states[id].missing != {}
    ensures Inv(s.(states := s.states[id := s.states[id].(needResources := true)],
                   queues := s.queues.(hand := [], needResources := if tail then s.queues.needResources + [id] else [id] + s.queues.needResources)), REST)
  {
    hide *;
    var st, q := s.states[id].(needResources := true), s.queues.needResources;
    var qs := s.queues.(hand := [], needResources := if tail then q + [id] else [id] + q);
    RequeueFacts(s, id, st);
    TakenFromHand(s.queues, id, tail);
    RequeueLine(s.attrs, s.queues, id, tail);
    QuietIs(s, id, st, tail, qs, s.availExpEvents, s.largeSendsAvail);
  }

  lemma RequeueFacts(s: Sender, id: Id, st: State)
    requires Inv(s, REST) && s.queues.hand == [id] && id < |s.states| && PlaceOf(s.states[id]) == InHand
    requires id < |s.attrs| && (s.attrs[id].kind.MediumSq? || s.attrs[id].kind.Large? || s.states[id].partial) ==> s.states[id].missing != {}
    requires st == s.states[id].(needResources := true)
    ensures id < |s.attrs| && CanChange(s, id, st) && Quiet(s.states[id], st) && PlaceOf(st) == NeedResources
    ensures Held(s.attrs[id], st) == Held(s.attrs[id], s.states[id]) && HeldLarge(s.attrs[id], st) == HeldLarge(s.attrs[id], s.states[id])
  {
    hide SideOk, ThrottlingOk, Sum, QueueOk;
    InvSide(s, id, REST);
  }

  lemma RequeueLine(attrs: seq<Attr>, qs: Queues, id: Id, tail: bool)
    requires id < |attrs| && qs.hand == [id] && (tail ==> qs.needResources == [] || attrs[id].kind.RecvLarge?)
    ensures SameLine(attrs, qs, qs.(hand := [], needResources := if tail then qs.needResources + [id] else [id] + qs.needResources), id)
  {
    var q := qs.needResources;
    assert [] + ([id] + q) == [id] + q && (q == [] ==> [] + (q + [id]) == [id] + q);
  }

  lemma TakenFromHand(qs: Queues, id: Id, tail: bool)
    requires qs.hand == [id]
    ensures Move(qs, InHand, NeedResources, id, tail) ==
      qs.(hand := [], needResources := if tail then qs.needResources + [id] else [id] + qs.needResources)
    ensures Move(qs, InHand, Pulling, id, true) == qs.(hand := [], pulling := qs.pulling + [id])
  {
    assert [id][1..] == [] && Without([], id) == [];
    assert Without([id], id) == Without([id][1..], id);
  }

  predicate StillWanting(attr: Attr, st: State) {
    attr.kind.MediumSq? || attr.kind.Large? || st.partial ==> st.missing != {}
  }

  lemma TakenToHand(qs: Queues, id: Id)
    requires qs.hand == [] && qs.needResources != [] && qs.needResources[0] == id && NoDup(qs.needResources)
    ensures Move(qs, NeedResources, InHand, id, true) == qs.(hand := [id], needResources := qs.needResources[1..])
    ensures [id] + qs.needResources[1..] == [] + qs.needResources
  {
    WithoutHead(qs.needResources);
    assert [] + [id] == [id];
  }

  // The first request waiting for resources is taken in hand.
  lemma TakeDelayedKeeps(s: Sender, id: Id)
    requires Inv(s, REST) && s.queues.hand == [] && s.queues.needResources != [] && s.queues.needResources[0] == id
    ensures id < |s.states| && id < |s.attrs|
    ensures PlaceOf(s.states[id].(needResources := false)) == InHand && StillWanting(s.attrs[id], s.states[id])
    ensures Inv(s.(states := s.states[id := s.states[id].(needResources := false)],
                   queues := s.queues.(hand := [id], needResources := s.queues.needResources[1..])), REST)
  {
    hide *;
    DelayedKnown(s, id);
    var st := s.states[id].(needResources := false);
    DelayedFacts(s, id, st);
    TakenToHand(s.queues, id);
    TakenLine(s.attrs, s.queues, id);
    QuietIs(s, id, st, true, s.queues.(hand := [id], needResources := s.queues.needResources[1..]), s.availExpEvents, s.largeSendsAvail);
  }

  lemma DelayedKnown(s: Sender, id: Id)
    requires Inv(s, REST) && s.queues.needResources != [] && s.queues.needResources[0] == id
    ensures id < |s.states| && PlaceOf(s.states[id]) == NeedResources && NoDup(s.queues.needResources)
  {
    hide SidesOk, ThrottlingOk, CreditsOk, ShapeOk, PlaceOf;
    assert QueueOk(At(s.queues, NeedResources), NeedResources, s.states);
    assert id in s.queues.needResources;
  }

  lemma DelayedFacts(s: Sender, id: Id, st: State)
    requires Inv(s, REST) && s.queues.hand == [] && id < |s.states| && PlaceOf(s.states[id]) == NeedResources
    requires st == s.states[id].(needResources := false)
    ensures id < |s.attrs| && CanChange(s, id, st) && Quiet(s.states[id], st) && PlaceOf(st) == InHand
    ensures StillWanting(s.attrs[id], s.states[id])
    ensures Held(s.attrs[id], st) == Held(s.attrs[id], s.states[id]) && HeldLarge(s.attrs[id], st) == HeldLarge(s.attrs[id], s.states[id])
  {
    hide SideOk, ThrottlingOk, Sum, QueueOk;
    InvSide(s, id, REST);
  }

  lemma TakenLine(attrs: seq<Attr>, qs: Queues, id: Id)
    requires id < |attrs| && qs.hand == [] && qs.needResources != [] && qs.needResources[0] == id
    ensures SameLine(attrs, qs, qs.(hand := [id], needResources := qs.needResources[1..]), id)
  {
    assert [id] + qs.needResources[1..] == [] + qs.needResources;
  }

  // The pull is posted to the driver.
  lemma PullPostedKeeps(s: Sender, id: Id)
    requires Inv(s, REST) && s.queues.hand == [id] && id < |s.states| && PlaceOf(s.states[id]) == InHand
    requires s.states[id].partial && s.states[id].missing == {PullHandle, LargeRegion}
    ensures Inv(s.(states := s.states[id := s.states[id].(missing := {}, pulling := true)],
                   queues := s.queues.(hand := [], pulling := s.queues.pulling + [id])), REST)
  {
    hide *;
    var st := s.states[id].(missing := {}, pulling := true);
    PullPostedFacts(s, id, st);
    TakenFromHand(s.queues, id, true);
    QuietIs(s, id, st, true, s.queues.(hand := [], pulling := s.queues.pulling + [id]), s.availExpEvents, s.largeSendsAvail);
  }

  lemma PullPostedFacts(s: Sender, id: Id, st: State)
    requires Inv(s, REST) && s.queues.hand == [id] && id < |s.states| && PlaceOf(s.states[id]) == InHand
    requires s.states[id].partial && s.states[id].missing == {PullHandle, LargeRegion}
    requires st == s.states[id].(missing := {}, pulling := true)
    ensures id < |s.attrs| && CanChange(s, id, st) && Quiet(s.states[id], st) && PlaceOf(st) == Pulling
    ensures Held(s.attrs[id], st) == Held(s.attrs[id], s.states[id]) && HeldLarge(s.attrs[id], st) == HeldLarge(s.attrs[id], s.states[id])
    ensures SameLine(s.attrs, s.queues, s.queues.(hand := [], pulling := s.queues.pulling + [id]), id)
  {
    hide SideOk, ThrottlingOk, Sum, QueueOk;
    InvSide(s, id, REST);
  }

  lemma PullDoneFacts(s: Sender, id: Id, st: State, qs: Queues)
    requires Inv(s, REST) && s.queues.hand == [] && id in s.queues.pulling && id < |s.states|
    requires st == s.states[id].(partial := false, pulling := false) && qs == s.queues.(hand := [id], pulling := Without(s.queues.pulling, id))
    ensures |s.attrs| == |s.states| && s.attrs[id].kind.RecvLarge? && s.states[id].missing == {} && PlaceOf(st) == InHand
    ensures CanChange(s, id, st) && Quiet(s.states[id], st)
    ensures qs == Move(s.queues, PlaceOf(s.states[id]), PlaceOf(st), id, true) && SameLine(s.attrs, s.queues, qs, id)
    ensures Held(s.attrs[id], st) + 1 == Held(s.attrs[id], s.states[id]) && HeldLarge(s.attrs[id], st) == HeldLarge(s.attrs[id], s.states[id])
  {
    hide SideOk, ThrottlingOk, Sum;
    assert QueueOk(At(s.queues, Pulling), Pulling, s.states);
    InvSide(s, id, REST);
    assert [] + [id] == [id];
  }

  lemma PullIsKnown(s: Sender, id: Id)
    requires Inv(s, REST) && id in s.queues.pulling
    ensures id < |s.states| == |s.attrs|
  {
    hide SideOk, ThrottlingOk, Sum;
    assert QueueOk(At(s.queues, Pulling), Pulling, s.states);
  }

  // The pull is done: the notify is in hand, and the credit comes back.
  lemma PullDoneKeeps(s: Sender, id: Id)
    requires Inv(s, REST) && s.queues.hand == [] && id in s.queues.pulling
    ensures id < |s.states| && id < |s.attrs| && s.attrs[id].kind.RecvLarge? && s.states[id].missing == {}
    ensures PlaceOf(s.states[id].(partial := false, pulling := false)) == InHand
    ensures Inv(s.(states := s.states[id := s.states[id].(partial := false, pulling := false)],
                   availExpEvents := s.availExpEvents + 1,
                   queues := s.queues.(hand := [id], pulling := Without(s.queues.pulling, id))), REST)
  {
    hide *;
    PullIsKnown(s, id);
    var st := s.states[id].(partial := false, pulling := false);
    var qs := s.queues.(hand := [id], pulling := Without(s.queues.pulling, id));
    PullDoneFacts(s, id, st, qs);
    QuietIs(s, id, st, true, qs, s.availExpEvents + 1, s.largeSendsAvail);
  }

  // What a request being sent looks like once one of its fragments is done.
  function FragDoneState(st: State): State {
    st.(pending := if st.pending > 0 then st.pending - 1 else 0, sending := st.pending > 1, done := st.pending <= 1 && !st.needAck)
  }

  lemma FragDoneFacts(attr: Attr, st: State)
    requires ShapeOk(attr, st) && PlaceOf(st) == Sending
    ensures var st' := FragDoneState(st);
      && ShapeOk(attr, st') && Quiet(st, st') && st.sending && st.pending > 0 && Held(attr, st) == Held(attr, st') + 1 && HeldLarge(attr, st') == HeldLarge(attr, st)
      && PlaceOf(st') == (if st'.sending then Sending else if st'.needAck then NonAcked else Done)
  {
  }

  function FragDoneQueues(qs: Queues, id: Id, st: State): Queues {
    if st.sending then qs
    else if st.needAck then qs.(sending := Without(qs.sending, id), nonAcked := qs.nonAcked + [id])
    else qs.(sending := Without(qs.sending, id))
  }

  lemma FragDoneLine(attrs: seq<Attr>, qs: Queues, id: Id, st: State, st': State)
    requires id < |attrs| && PlaceOf(st) == Sending && st' == FragDoneState(st) && st.sending
    requires PlaceOf(st') == if st'.sending then Sending else if st'.needAck then NonAcked else Done
    ensures FragDoneQueues(qs, id, st') == Move(qs, PlaceOf(st), PlaceOf(st'), id, true) && SameLine(attrs, qs, FragDoneQueues(qs, id, st'), id)
  {
    hide PlaceOf;
  }

  lemma FragDoneKeeps(s: Sender, id: Id)
    requires Inv(s, REST) && s.queues.hand == [] && id < |s.states| && PlaceOf(s.states[id]) == Sending
    ensures var st := FragDoneState(s.states[id]);
      Inv(s.(states := s.states[id := st], availExpEvents := s.availExpEvents + 1, queues := FragDoneQueues(s.queues, id, st)), REST)
  {
    hide *;
    InvSide(s, id, REST);
    FragDoneFacts(s.attrs[id], s.states[id]);
    var st := FragDoneState(s.states[id]);
    CanBe(s, id, st);
    FragDoneLine(s.attrs, s.queues, id, s.states[id], st);
    QuietIs(s, id, st, true, FragDoneQueues(s.queues, id, st), s.availExpEvents + 1, s.largeSendsAvail);
  }

  lemma ReplyFacts(s: Sender, id: Id, st: State, qs: Queues)
    requires Inv(s, REST) && s.queues.hand == [] && id < |s.states| && s.states[id].needReply
    requires st == s.states[id].(needReply := false, done := !s.states[id].needAck)
    requires qs == if s.states[id].needAck then s.queues else s.queues.(needReply := Without(s.queues.needReply, id))
    ensures |s.attrs| == |s.states|
    ensures CanChange(s, id, st) && Quiet(s.states[id], st)
    ensures qs == Move(s.queues, PlaceOf(s.states[id]), PlaceOf(st), id, true) && SameLine(s.attrs, s.queues, qs, id)
    ensures Held(s.attrs[id], st) == Held(s.attrs[id], s.states[id]) && HeldLarge(s.attrs[id], st) + 1 == HeldLarge(s.attrs[id], s.states[id])
  {
    hide SideOk, ThrottlingOk, Sum, QueueOk;
    InvSide(s, id, REST);
  }

  // The notify of a large send: complete, or only the ack is missing.
  lemma ReplyKeeps(s: Sender, id: Id)
    requires Inv(s, REST) && s.queues.hand == [] && id < |s.states| && s.states[id].needReply
    ensures var st := s.states[id].(needReply := false, done := !s.states[id].needAck);
      Inv(s.(states := s.states[id := st], largeSendsAvail := s.largeSendsAvail + 1,
             queues := if s.states[id].needAck then s.queues else s.queues.(needReply := Without(s.queues.needReply, id))), REST)
  {
    hide *;
    var st := s.states[id].(needReply := false, done := !s.states[id].needAck);
    var qs := if s.states[id].needAck then s.queues else s.queues.(needReply := Without(s.queues.needReply, id));
    ReplyFacts(s, id, st, qs);
    QuietIs(s, id, st, true, qs, s.availExpEvents, s.largeSendsAvail + 1);
  }

  // ----- resending -----

  // The oldest request of the queue is posted again and goes to the end.
  function Rotated(q: seq<Id>): seq<Id> {
    if q == [] then [] else q[1..] + [q[0]]
  }

  lemma RotateQueue(q: seq<Id>, place: Place, states: seq<State>)
    requires QueueOk(q, place, states)
    ensures QueueOk(Rotated(q), place, states)
  {
    hide PlaceOf, NoDup;
    if q != [] {
      SplitHead(q);
      TailNoDup(q, q[0], q[1..]);
      AppendNoDup(q[1..], q[0]);
    }
  }

  lemma RotateKeeps(s: Sender)
    requires Inv(s, REST)
    ensures Inv(s.(queues := s.queues.(nonAcked := Rotated(s.queues.nonAcked))), REST)
  {
    var s' := s.(queues := s.queues.(nonAcked := Rotated(s.queues.nonAcked)));
    assert QueueOk(At(s.queues, NonAcked), NonAcked, s.states);
    RotateQueue(s.queues.nonAcked, NonAcked, s.states);
    hide ShapeOk, PlaceOf, NumbersOk, AcksOk, WaitingOk, WindowOk, QueueOk, Sum;
    forall place {:trigger QueueOk(At(s'.queues, place), place, s'.states)} | Queued(place)
      ensures QueueOk(At(s'.queues, place), place, s'.states)
    {
      assert QueueOk(At(s.queues, place), place, s.states);
    }
    forall p {:trigger SideOk(s', p, REST)} | p in s'.sides
      ensures SideOk(s', p, REST)
    {
      assert SideOk(s, p, REST);
    }
  }

  lemma PostedAgain(attr: Attr, st: State, accepted: nat, now: nat)
    requires ShapeOk(attr, st) && PlaceOf(st) == NonAcked && accepted <= attr.frags
    ensures var st' := Posted(attr, st, accepted, now);
      && ShapeOk(attr, st') && Quiet(st, st') && HeldLarge(attr, st') == HeldLarge(attr, st) && Held(attr, st) == 0
      && Held(attr, st') == (if attr.kind.MediumSq? then accepted else 0)
      && PlaceOf(st') == (if attr.kind.MediumSq? && accepted > 0 then Sending else NonAcked)
      && st'.sending == (attr.kind.MediumSq? && accepted > 0) && !st.sending && st'.slots == st.slots
  {
  }

  lemma RepostFacts(s: Sender, id: Id, accepted: nat, now: nat, st: State, qs: Queues)
    requires Inv(s, REST) && s.queues.hand == [] && id in s.queues.nonAcked && id < |s.attrs| && id < |s.states|
    requires accepted <= s.attrs[id].frags && (s.attrs[id].kind.MediumSq? ==> accepted <= s.availExpEvents)
    requires st == Posted(s.attrs[id], s.states[id], accepted, now)
    requires qs == if st.sending then s.queues.(nonAcked := Without(s.queues.nonAcked, id), sending := s.queues.sending + [id]) else s.queues
    ensures CanChange(s, id, st) && Quiet(s.states[id], st)
    ensures qs == Move(s.queues, PlaceOf(s.states[id]), PlaceOf(st), id, true) && SameLine(s.attrs, s.queues, qs, id)
    ensures ShapeOk(s.attrs[id], s.states[id]) && PlaceOf(s.states[id]) == NonAcked
    ensures Held(s.attrs[id], s.states[id]) == 0 && Held(s.attrs[id], st) == if s.attrs[id].kind.MediumSq? then accepted else 0
    ensures HeldLarge(s.attrs[id], st) == HeldLarge(s.attrs[id], s.states[id])
  {
    hide SideOk, ThrottlingOk, Sum, Posted;
    InvSide(s, id, REST);
    assert QueueOk(At(s.queues, NonAcked), NonAcked, s.states);
    PostedAgain(s.attrs[id], s.states[id], accepted, now);
  }

  lemma RepostKeeps(s: Sender, id: Id, accepted: nat, now: nat)
    requires Inv(s, REST) && s.queues.hand == [] && id in s.queues.nonAcked && id < |s.attrs| && id < |s.states|
    requires accepted <= s.attrs[id].frags && (s.attrs[id].kind.MediumSq? ==> accepted <= s.availExpEvents)
    ensures ShapeOk(s.attrs[id], s.states[id]) && PlaceOf(s.states[id]) == NonAcked
    ensures var st := Posted(s.attrs[id], s.states[id], accepted, now);
      Inv(s.(states := s.states[id := st], availExpEvents := s.availExpEvents - (if s.attrs[id].kind.MediumSq? then accepted else 0),
             queues := if st.sending then s.queues.(nonAcked := Without(s.queues.nonAcked, id), sending := s.queues.sending + [id]) else s.queues), REST)
  {
    hide *;
    var st := Posted(s.attrs[id], s.states[id], accepted, now);
    var qs := if st.sending then s.queues.(nonAcked := Without(s.queues.nonAcked, id), sending := s.queues.sending + [id]) else s.queues;
    var e := s.availExpEvents - (if s.attrs[id].kind.MediumSq? then accepted else 0);
    RepostFacts(s, id, accepted, now, st, qs);
    QuietIs(s, id, st, true, qs, e, s.largeSendsAvail);
  }

  // ----- the order of numbers is the order of the API calls -----

  // Filtering keeps the order.
  lemma {:induction false} UserAt(attrs: seq<Attr>, q: seq<Id>, p: Pid, i: nat) returns (a: nat)
    requires i < |UsersOf(attrs, q, p)|
    ensures a < |q| && q[a] == UsersOf(attrs, q, p)[i] && IsUserOf(attrs, q[a], p)
    ensures forall j :: i < j < |UsersOf(attrs, q, p)| ==> UsersOf(attrs, q, p)[j] in q[a + 1..]
  {
    var rest := UsersOf(attrs, q[1..], p);
    if IsUserOf(attrs, q[0], p) && i == 0 {
      a := 0;
      forall j | 0 < j < |UsersOf(attrs, q, p)|
        ensures UsersOf(attrs, q, p)[j] in q[1..]
      {
        var b := UserAt(attrs, q[1..], p, j - 1);
      }
    } else {
      var k := if IsUserOf(attrs, q[0], p) then i - 1 else i;
      var b := UserAt(attrs, q[1..], p, k);
      a := b + 1;
      assert q[1..][b + 1..] == q[a + 1..];
    }
  }

  // A user send that has a number was preceded, for the same partner, only by
  // sends that have smaller ones.
  lemma ApiOrder(s: Sender, p: Pid, i: nat, j: nat) returns (a: nat, b: nat)
    requires Inv(s, REST) && s.queues.hand == [] && p in s.sides && p in s.logs
    requires i < j < |s.logs[p].issued| && s.logs[p].issued[j] < |s.states| && Numbered(s.states[s.logs[p].issued[j]])
    ensures a < b < |s.logs[p].given| && s.logs[p].given[a] == s.logs[p].issued[i] && s.logs[p].given[b] == s.logs[p].issued[j]
    ensures s.logs[p].session < SESSIONS && NumberOk(s.logs[p], s.attrs, s.states, p, a) && NumberOk(s.logs[p], s.attrs, s.states, p, b)
  {
    assert SideOk(s, p, REST);
    var log := s.logs[p];
    var users := UsersOf(s.attrs, log.given, p);
    IssuedNumbered(s, p, j);
    a := UserAt(s.attrs, log.given, p, i);
    assert users[j] in log.given[a + 1..];
    var c :| 0 <= c < |log.given[a + 1..]| && log.given[a + 1..][c] == users[j];
    b := a + 1 + c;
  }

  lemma {:induction false} UsersIn(attrs: seq<Attr>, q: seq<Id>, p: Pid)
    ensures forall x :: x in UsersOf(attrs, q, p) ==> x in q
  {
    if q != [] {
      UsersIn(attrs, q[1..], p);
      assert forall x :: x in q[1..] ==> x in q;
    }
  }

  // What the queues say of the requests issued.
  lemma IssuedParts(s: Sender, p: Pid)
    requires Inv(s, REST) && s.queues.hand == [] && p in s.sides && p in s.logs
    ensures s.logs[p].issued == UsersOf(s.attrs, s.logs[p].given, p) + (UsersOf(s.attrs, s.sides[p].needSeqnum, p) + UsersOf(s.attrs, s.queues.needResources, p))
  {
    hide Inv, PlaceOf, UsersOf;
    FifoOfSide(s, p);
    assert [] + s.queues.needResources == s.queues.needResources;
  }

  lemma RestUnnumbered(s: Sender, p: Pid, x: Id)
    requires Inv(s, REST) && p in s.sides && p in s.logs
    requires x in UsersOf(s.attrs, s.sides[p].needSeqnum, p) + UsersOf(s.attrs, s.queues.needResources, p)
    ensures x < |s.states| && !Numbered(s.states[x])
  {
    hide Inv, PlaceOf, UsersOf, Numbered;
    WaitingHaveNone(s, p);
    UsersIn(s.attrs, s.sides[p].needSeqnum, p);
    UsersIn(s.attrs, s.queues.needResources, p);
  }

  lemma IssuedNumbered(s: Sender, p: Pid, j: nat)
    requires Inv(s, REST) && s.queues.hand == [] && p in s.sides && p in s.logs
    requires j < |s.logs[p].issued| && s.logs[p].issued[j] < |s.states| && Numbered(s.states[s.logs[p].issued[j]])
    ensures var users := UsersOf(s.attrs, s.logs[p].given, p);
      j < |users| <= |s.logs[p].issued| && s.logs[p].issued[..|users|] == users
  {
    hide *;
    IssuedParts(s, p);
    var users := UsersOf(s.attrs, s.logs[p].given, p);
    var rest := UsersOf(s.attrs, s.sides[p].needSeqnum, p) + UsersOf(s.attrs, s.queues.needResources, p);
    if j >= |users| {
      assert rest[j - |users|] in rest;
      RestUnnumbered(s, p, s.logs[p].issued[j]);
    }
  }

  lemma FifoOfSide(s: Sender, p: Pid)
    requires Inv(s, REST) && p in s.sides && p in s.logs
    ensures FifoOk(s, p, false)
  {
    assert SideOk(s, p, REST);
  }

  lemma WaitingHaveNone(s: Sender, p: Pid)
    requires Inv(s, REST) && p in s.sides
    ensures forall x :: x in s.sides[p].needSeqnum || x in s.queues.needResources ==> x < |s.states| && !Numbered(s.states[x])
  {
    assert SideOk(s, p, REST);
    assert QueueOk(At(s.queues, NeedResources), NeedResources, s.states);
    hide PlaceOf, NumbersOk, AcksOk, WindowOk, FifoOk, ShapeOk;
  }
}
