// A connection between two processes: the sending endpoint, the structure of
// the partner at the receiver, and between them a network that loses,
// duplicates and reorders. What the library's own code does is a run of
// Delivery, whose guarantee is therefore its own.
module Connection {
  import opened Checksum
  import opened SeqNum
  import opened Fragments
  import opened RecvSpec
  import opened Protocol
  import opened Delivery
  import opened Partners
  import opened EndpointModule
  import Medium
  import Segments
  import SenderModel
  import SlotsModel
  import opened Collections

  // ----- runs that go on -----

  lemma {:induction false} RunGoesOn(session: nat, t: Transfer, run: seq<Action>, a: Action)
    requires session < SESSIONS && LegalRun(session, t, run) && CanDo(Run(session, t, run), a)
    ensures LegalRun(session, t, run + [a]) && Run(session, t, run + [a]) == Do(session, Run(session, t, run), a)
    decreases |run|
  {
    hide CanDo, Do;
    if run == [] {
      assert [] + [a] == [a] && [a][1..] == [];
      assert LegalRun(session, Do(session, t, a), []);
    } else {
      assert (run + [a])[1..] == run[1..] + [a];
      RunGoesOn(session, Do(session, t, run[0]), run[1..], a);
    }
  }

  ghost function Now(session: nat, run: seq<Action>): Transfer
    requires session < SESSIONS && LegalRun(session, NOTHING_SENT, run)
  {
    Run(session, NOTHING_SENT, run)
  }

  lemma Then(session: nat, run: seq<Action>, a: Action)
    requires session < SESSIONS && LegalRun(session, NOTHING_SENT, run) && CanDo(Now(session, run), a)
    ensures LegalRun(session, NOTHING_SENT, run + [a]) && Now(session, run + [a]) == Do(session, Now(session, run), a)
  {
    hide CanDo, Do, LegalRun, Run;
    RunGoesOn(session, NOTHING_SENT, run, a);
  }

  // ----- the sender's part -----

  function KindOf(kind: SenderModel.Kind): Kind {
    match kind
    case Tiny => Kind.Tiny
    case Small => Kind.Small
    case MediumSq => Kind.Medium
    case MediumVa => Kind.Medium
    case Large => Kind.Rndv
    case RecvLarge => Kind.Notify
  }

  // The message of a request, and its bytes.
  ghost predicate MessageOk(attr: SenderModel.Attr, msg: Message, content: seq<Byte>) {
    && ValidMessage(msg) && |content| == msg.length && msg.kind == KindOf(attr.kind)
    && (attr.kind.MediumSq? ==> attr.frags == FragsNr(msg.length))
  }

  ghost predicate OnWire(session: nat, sent: seq<Message>, data: set<Packet>, n: nat, k: nat)
    requires session < SESSIONS
  {
    1 <= n <= |sent| && k < PacketsNr(sent[n - 1]) ==> WirePacket(session, sent[n - 1], n, k) in data
  }

  // Whatever has a number may be on the wire: the driver took it from the
  // first post, or will take it from a resend.
  ghost predicate AllPosted(session: nat, s: System)
    requires session < SESSIONS
  {
    forall n: nat, k: nat :: OnWire(session, s.sent, s.data, n, k)
  }

  ghost predicate SentAs(messages: seq<Message>, contents: seq<seq<Byte>>, given: seq<nat>, t: Transfer) {
    && |messages| == |contents| && |t.s.sent| == |given| == |t.contents|
    && forall k :: 0 <= k < |given| ==> given[k] < |messages| && t.s.sent[k] == messages[given[k]] && t.contents[k] == contents[given[k]]
  }

  // The endpoint's log of a partner is the sender of a run.
  ghost predicate Linked(session: nat, messages: seq<Message>, contents: seq<seq<Byte>>, log: SenderModel.Log, t: Transfer)
    requires session < SESSIONS
  {
    log.session == session && t.s.nextAcked == log.acked && SentAs(messages, contents, log.given, t) && AllPosted(session, t.s)
  }

  lemma StepIs(session: nat, t: Transfer, e: Event, content: seq<Byte>)
    requires session < SESSIONS && Enabled(t.s, e) && !e.DeliverData? && (e.Send? ==> |content| == e.msg.length)
    ensures CanDo(t, Step(e, content, map[]))
    ensures Do(session, t, Step(e, content, map[])) == Transfer(Apply(session, t.s, e), if e.Send? then t.contents + [content] else t.contents, t.inbox)
  {
    hide Enabled, Apply;
  }

  // Every fragment of the message just numbered is posted.
  lemma {:induction false} PostFrags(session: nat, run: seq<Action>, n: nat, k: nat) returns (run': seq<Action>)
    requires session < SESSIONS && LegalRun(session, NOTHING_SENT, run)
    requires var s := Now(session, run).s; s.nextAcked <= n < NextSend(s) && 1 <= n && k <= PacketsNr(s.sent[n - 1])
    ensures LegalRun(session, NOTHING_SENT, run')
    ensures var t, t' := Now(session, run), Now(session, run');
      && t' == t.(s := t.s.(data := t'.s.data)) && t.s.data <= t'.s.data
      && forall j: nat :: j < k ==> OnWire(session, t.s.sent, t'.s.data, n, j)
  {
    hide LegalRun, Run, WirePacket;
    run' := run;
    if k > 0 {
      run' := PostFrags(session, run, n, k - 1);
      var t := Now(session, run');
      StepIs(session, t, Post(n, k - 1), []);
      Then(session, run', Step(Post(n, k - 1), [], map[]));
      run' := run' + [Step(Post(n, k - 1), [], map[])];
      forall j: nat | j < k
        ensures OnWire(session, t.s.sent, Now(session, run').s.data, n, j)
      {
        assert j < k - 1 ==> OnWire(session, t.s.sent, t.s.data, n, j);
      }
    }
  }

  // One more request has its number.
  lemma SendOne(session: nat, run: seq<Action>, messages: seq<Message>, contents: seq<seq<Byte>>, log: SenderModel.Log, id: nat) returns (run': seq<Action>)
    requires session < SESSIONS && LegalRun(session, NOTHING_SENT, run) && Linked(session, messages, contents, log, Now(session, run))
    requires id < |messages| && ValidMessage(messages[id]) && |contents[id]| == messages[id].length
    requires |log.given| + 1 - log.acked < THROTTLING_OFFSET_MAX && log.acked <= |log.given| + 1
    ensures LegalRun(session, NOTHING_SENT, run')
    ensures var t, t' := Now(session, run), Now(session, run');
      Linked(session, messages, contents, log.(given := log.given + [id]), t') && t'.inbox == t.inbox && t'.s.r == t.s.r && t'.s.acks == t.s.acks
  {
    hide LegalRun, Run, WirePacket;
    var t, msg, n := Now(session, run), messages[id], |log.given| + 1;
    StepIs(session, t, Send(msg), contents[id]);
    Then(session, run, Step(Send(msg), contents[id], map[]));
    var mid := run + [Step(Send(msg), contents[id], map[])];
    run' := PostFrags(session, mid, n, PacketsNr(msg));
    var t' := Now(session, run');
    assert t'.s.sent == t.s.sent + [msg] && t'.contents == t.contents + [contents[id]];
    forall i: nat, k: nat
      ensures OnWire(session, t'.s.sent, t'.s.data, i, k)
    {
      assert OnWire(session, t.s.sent, t.s.data, i, k);
    }
  }

  // All that have one are in the run.
  lemma {:induction false} CatchUp(session: nat, run: seq<Action>, messages: seq<Message>, contents: seq<seq<Byte>>, log: SenderModel.Log, given: seq<nat>)
    returns (run': seq<Action>)
    requires session < SESSIONS && LegalRun(session, NOTHING_SENT, run) && Linked(session, messages, contents, log, Now(session, run))
    requires forall id: nat :: id < |messages| ==> ValidMessage(messages[id]) && |contents[id]| == messages[id].length
    requires log.given <= given && (forall k :: 0 <= k < |given| ==> given[k] < |messages|)
    requires log.acked <= |log.given| + 1 && |given| + 1 <= log.acked + THROTTLING_OFFSET_MAX
    ensures LegalRun(session, NOTHING_SENT, run')
    ensures var t, t' := Now(session, run), Now(session, run');
      Linked(session, messages, contents, log.(given := given), t') && t'.inbox == t.inbox && t'.s.r == t.s.r && t'.s.acks == t.s.acks
    decreases |given| - |log.given|
  {
    hide LegalRun, Run, Now, Linked;
    if |log.given| == |given| {
      assert log.given == given;
      return run;
    }
    var id := given[|log.given|];
    assert log.given + [id] <= given;
    var next := SendOne(session, run, messages, contents, log, id);
    run' := CatchUp(session, next, messages, contents, log.(given := log.given + [id]), given);
  }

  ghost predicate RequestsOk(attrs: seq<SenderModel.Attr>, messages: seq<Message>, contents: seq<seq<Byte>>) {
    && |messages| == |contents| == |attrs|
    && forall id: nat {:trigger MessageOk(attrs[id], messages[id], contents[id])} :: id < |attrs| ==> MessageOk(attrs[id], messages[id], contents[id])
  }

  lemma NewRequestOk(attrs: seq<SenderModel.Attr>, messages: seq<Message>, contents: seq<seq<Byte>>, attr: SenderModel.Attr, msg: Message, content: seq<Byte>)
    requires RequestsOk(attrs, messages, contents) && MessageOk(attr, msg, content)
    ensures RequestsOk(attrs + [attr], messages + [msg], contents + [content])
  {
    hide MessageOk;
    var attrs', messages', contents' := attrs + [attr], messages + [msg], contents + [content];
    forall id: nat {:trigger MessageOk(attrs'[id], messages'[id], contents'[id])} | id < |attrs'|
      ensures MessageOk(attrs'[id], messages'[id], contents'[id])
    {
      assert id < |attrs| ==> MessageOk(attrs[id], messages[id], contents[id]);
    }
  }

  lemma ContentsFit(attrs: seq<SenderModel.Attr>, messages: seq<Message>, contents: seq<seq<Byte>>)
    requires RequestsOk(attrs, messages, contents)
    ensures |messages| == |contents| == |attrs|
    ensures forall id: nat :: id < |messages| ==> ValidMessage(messages[id]) && |contents[id]| == messages[id].length
  {
    hide ValidMessage;
    forall id: nat | id < |messages|
      ensures ValidMessage(messages[id]) && |contents[id]| == messages[id].length
    {
      assert MessageOk(attrs[id], messages[id], contents[id]);
    }
  }

  lemma LinkedMore(session: nat, messages: seq<Message>, contents: seq<seq<Byte>>, msg: Message, content: seq<Byte>, log: SenderModel.Log, t: Transfer)
    requires session < SESSIONS && Linked(session, messages, contents, log, t)
    ensures Linked(session, messages + [msg], contents + [content], log, t)
  {
    hide AllPosted;
  }

  lemma LinkedSame(session: nat, messages: seq<Message>, contents: seq<seq<Byte>>, log: SenderModel.Log, log': SenderModel.Log, t: Transfer)
    requires session < SESSIONS && Linked(session, messages, contents, log, t)
    requires log'.session == log.session && log'.acked == log.acked && log'.given == log.given
    ensures Linked(session, messages, contents, log', t)
  {
    hide AllPosted, SentAs;
  }

  lemma LinkedIs(session: nat, messages: seq<Message>, contents: seq<seq<Byte>>, log: SenderModel.Log, t: Transfer)
    requires session < SESSIONS && Linked(session, messages, contents, log, t)
    ensures log.session == session && t.s.nextAcked == log.acked && |t.s.sent| == |log.given| == |t.contents| && |messages| == |contents|
    ensures forall k :: 0 <= k < |log.given| ==> log.given[k] < |messages| && t.s.sent[k] == messages[log.given[k]] && t.contents[k] == contents[log.given[k]]
  {
    hide AllPosted;
  }

  // What the state of an endpoint says of the numbers of one partner.
  lemma GivenKnown(s: SenderModel.Sender, q: SenderModel.Pid)
    requires SenderModel.Inv(s, SenderModel.REST) && s.queues.hand == [] && q in s.sides && q in s.logs
    ensures forall k :: 0 <= k < |s.logs[q].given| ==> s.logs[q].given[k] < |s.attrs|
    ensures s.logs[q].session < SESSIONS && 1 <= s.logs[q].acked <= |s.logs[q].given| + 1 <= s.logs[q].acked + THROTTLING_OFFSET_MAX
  {
    AckStart(s, q);
    assert SenderModel.SideOk(s, q, SenderModel.REST);
    forall k | 0 <= k < |s.logs[q].given|
      ensures s.logs[q].given[k] < |s.attrs|
    {
      assert SenderModel.NumberOk(s.logs[q], s.attrs, s.states, q, k);
    }
  }

  // A packet the network may deliver is one the partner's methods accept.
  lemma PacketReady(session: nat, s: System, p: Packet, denied: Denied)
    requires session < SESSIONS && SystemOk(session, s) && Enabled(s, DeliverData(p, denied))
    ensures ValidPacket(session, p) && Consistent(s.r, p) && InWindow(s.r, p) && Ses(p.seqnum) == session
  {
    hide EarlyOk, RecvOk, ValidPacket;
    assert ValidPacket(session, p) && Genuine(s.sent, p);
    PacketIs(session, p);
    IncreaseIsWire(session, p.number, 0);
    GenuineIsConsistent(s.sent, s.delivered, s.r, p);
    Known(session, s);
  }

  lemma Known(session: nat, s: System)
    requires session < SESSIONS && SystemOk(session, s)
    ensures s.r.nextFrag <= s.r.nextMatch <= s.r.nextFrag + THROTTLING_OFFSET_MAX && s.r.nextMatch <= |s.sent| + 1 <= s.nextAcked + THROTTLING_OFFSET_MAX
    ensures 1 <= s.nextAcked <= s.r.nextFrag
    ensures forall a :: a in s.acks ==> 1 <= a <= s.r.nextFrag
  {
    hide EarlyOk, PartialKnown, Partition, CompletedKnown;
    if s.r.partials != [] {
      PartialRange(session, s.r, 0);
    }
  }

  // ----- what a post carries -----

  // The bytes of the send queue are those of the fragments copied there.
  ghost predicate SlotBytes(sendq: seq<Byte>, filled: map<nat, (nat, nat)>, contents: seq<seq<Byte>>) {
    forall x :: x in filled ==> filled[x].0 < |contents| && Medium.SlotHolds(sendq, contents[filled[x].0], x, filled[x].1)
  }

  lemma SlotStays(was: seq<Byte>, now: seq<Byte>, slots: seq<nat>, msg: seq<Byte>, x: nat, k: nat)
    requires Medium.SlotHolds(was, msg, x, k) && Medium.OtherSlotsKept(was, now, slots) && x !in slots
    ensures Medium.SlotHolds(now, msg, x, k)
  {
    var at, len := x * FRAG_LENGTH_MAX, FragLength(|msg|, k);
    forall i | at <= i < at + len
      ensures now[i] == was[i]
    {
      assert i / FRAG_LENGTH_MAX == x;
    }
    assert now[at..at + len] == was[at..at + len];
  }

  // Medium.CutMessage does to the bytes what the first post does to the record
  // of them.
  lemma CutFills(was: seq<Byte>, now: seq<Byte>, filled: map<nat, (nat, nat)>, slots: seq<nat>, id: nat, contents: seq<seq<Byte>>)
    requires SlotBytes(was, filled, contents) && id < |contents| && NoDup(slots)
    requires Medium.Cut(now, contents[id], slots, |slots|) && Medium.OtherSlotsKept(was, now, slots)
    ensures SlotBytes(now, SlotsModel.Fill(filled, slots, |slots|, id), contents)
  {
    hide Medium.SlotHolds, Medium.OtherSlotsKept, SlotsModel.Fill, NoDup;
    var filled' := SlotsModel.Fill(filled, slots, |slots|, id);
    SlotsModel.FillIs(filled, slots, |slots|, id);
    forall x | x in filled'
      ensures filled'[x].0 < |contents| && Medium.SlotHolds(now, contents[filled'[x].0], x, filled'[x].1)
    {
      if x in slots {
        var k: nat :| k < |slots| && slots[k] == x;
        assert filled'[slots[k]] == (id, k);
      } else {
        SlotStays(was, now, slots, contents[filled[x].0], x, filled[x].1);
      }
    }
  }

  // So that a post, the first one or a later one, sends fragment k of its own
  // message from slot k.
  lemma PostCarries(sendq: seq<Byte>, filled: map<nat, (nat, nat)>, contents: seq<seq<Byte>>, slots: seq<nat>, id: nat, msg: Message, k: nat)
    requires SlotBytes(sendq, filled, contents) && SlotsModel.SlotsHold(filled, slots, id) && k < |slots|
    requires id < |contents| && |contents[id]| == msg.length && msg.kind.Medium?
    ensures k < PacketsNr(msg) && slots[k] * FRAG_LENGTH_MAX + FragLength(msg.length, k) <= |sendq|
    ensures sendq[slots[k] * FRAG_LENGTH_MAX..slots[k] * FRAG_LENGTH_MAX + FragLength(msg.length, k)] == Payload(msg, contents[id], k)
  {
    assert Medium.SlotHolds(sendq, contents[id], slots[k], k);
  }

  // And the copy of Medium.MediumRecv into its segments is the one of the run.
  lemma CopiedAlike(was: seq<Byte>, now: seq<Byte>, bound: bool, msg: Message, content: seq<Byte>, k: nat)
    requires |content| == msg.length && msg.kind.Medium? && k < PacketsNr(msg)
    requires Medium.Placed(was, now, content, k, Medium.Min(|was|, |content|))
    ensures Delivery.Placed(Inbox(was, bound), msg, content, k) == Inbox(now, bound)
  {
    hide Segments.Splice;
    TakeOfSlice(content, k * FRAG_LENGTH_MAX, FragLength(msg.length, k), Medium.Chunk(msg.length, k, Medium.Min(|was|, |content|)));
  }

  // ----- both processes -----

  class Link {
    const ep: Endpoint
    const q: SenderModel.Pid
    const rp: Partner
    // the message of each request of the endpoint, and its bytes
    ghost var messages: seq<Message>
    ghost var contents: seq<seq<Byte>>
    ghost var run: seq<Action>

    // Everything but that the numbers given out are all in the run.
    ghost predicate Near(log: SenderModel.Log)
      reads this, ep, ep.sendq, ep.sendq.slots, rp
    {
      && ep.Valid() && rp.Valid() && RequestsOk(ep.attrs, messages, contents) && q in ep.sides && q in ep.logs
      && LegalRun(rp.session, NOTHING_SENT, run) && rp.Model() == Now(rp.session, run).s.r
      && Linked(rp.session, messages, contents, log, Now(rp.session, run))
    }

    // The endpoint and the partner are where the run is.
    ghost predicate Valid()
      reads this, ep, ep.sendq, ep.sendq.slots, rp
    {
      q in ep.logs && Near(ep.logs[q])
    }

    ghost function State(): Transfer
      requires rp.session < SESSIONS && LegalRun(rp.session, NOTHING_SENT, run)
      reads this, rp
    {
      Now(rp.session, run)
    }

    constructor (sessions: map<SenderModel.Pid, nat>, q: SenderModel.Pid, resendsMax: nat)
      requires q in sessions && forall p :: p in sessions ==> sessions[p] < SESSIONS
      ensures Valid() && this.q == q && fresh(ep) && fresh(ep.sendq) && fresh(ep.sendq.slots) && fresh(rp)
      ensures run == [] && ep.sides.Keys == sessions.Keys
    {
      hide *;
      ep := new Endpoint(sessions, resendsMax);
      this.q := q;
      rp := new Partner(sessions[q]);
      messages, contents, run := [], [], [];
      new;
      NothingYet(sessions[q]);
      NearNow();
    }

    // The endpoint gave out more numbers.
    ghost method Follow(was: SenderModel.Log)
      requires Near(was) && LogsGrow(map[q := was], ep.logs) && was.acked <= |was.given| + 1
      modifies `run
      ensures Valid() && State().inbox == old(State().inbox) && State().s.r == old(State().s.r)
    {
      hide *;
      NearIs(was);
      EndpointKnown(ep);
      GivenKnown(ep.Now(), q);
      GrownLog(was, ep.logs, q);
      ContentsFit(ep.attrs, messages, contents);
      run := CatchUp(rp.session, run, messages, contents, was, ep.logs[q].given);
      LinkedSame(rp.session, messages, contents, was.(given := ep.logs[q].given), ep.logs[q], Now(rp.session, run));
      NearNow();
    }

    // ----- calls into the sending endpoint -----

    method SubmitIsend(p: SenderModel.Pid, kind: SenderModel.Kind, frags: nat, regionOk: bool, accepted: nat, now: nat,
                       ghost msg: Message, ghost content: seq<Byte>) returns (id: SenderModel.Id)
      requires Valid() && p in ep.sides && p in ep.logs && !kind.RecvLarge?
      requires (kind.MediumSq? <==> frags > 0) && accepted <= frags <= FRAGS_MAX && frags <= accepted + 1
      requires MessageOk(SenderModel.Attr(kind, p, frags), msg, content)
      modifies this, ep, ep.sendq, ep.sendq.slots
      ensures Valid() && State().inbox == old(State().inbox) && State().s.r == old(State().s.r)
      ensures id == old(|messages|) && messages == old(messages) + [msg] && contents == old(contents) + [content]
    {
      hide *;
      Before();
      ghost var was := ep.logs[q];
      id := ep.SubmitIsend(p, kind, frags, regionOk, accepted, now);
      NewRequestOk(old(ep.attrs), messages, contents, SenderModel.Attr(kind, p, frags), msg, content);
      LinkedMore(rp.session, messages, contents, msg, content, was, Now(rp.session, run));
      messages, contents := messages + [msg], contents + [content];
      OneLog(old(ep.logs), ep.logs, q);
      NearThen(was);
      Follow(was);
    }

    // A pull, whose notify will be a message of this endpoint.
    method SubmitPull(p: SenderModel.Pid, empty: bool, regionOk: bool, now: nat, ghost msg: Message, ghost content: seq<Byte>) returns (id: SenderModel.Id)
      requires Valid() && p in ep.sides && p in ep.logs && MessageOk(SenderModel.Attr(SenderModel.RecvLarge, p, 0), msg, content)
      modifies this, ep
      ensures Valid() && State().inbox == old(State().inbox) && State().s.r == old(State().s.r)
      ensures id == old(|messages|) && messages == old(messages) + [msg] && contents == old(contents) + [content]
    {
      hide *;
      Before();
      ghost var was := ep.logs[q];
      id := ep.SubmitPull(p, empty, regionOk, now);
      NewRequestOk(old(ep.attrs), messages, contents, SenderModel.Attr(SenderModel.RecvLarge, p, 0), msg, content);
      LinkedMore(rp.session, messages, contents, msg, content, was, Now(rp.session, run));
      messages, contents := messages + [msg], contents + [content];
      OneLog(old(ep.logs), ep.logs, q);
      NearThen(was);
      Follow(was);
    }

    method PullDone(id: SenderModel.Id, now: nat)
      requires Valid() && id in ep.queues.pulling
      modifies `run, ep
      ensures Valid() && State().inbox == old(State().inbox) && State().s.r == old(State().s.r)
    {
      hide *;
      Before();
      ghost var was := ep.logs[q];
      ep.PullDone(id, now);
      OneLog(old(ep.logs), ep.logs, q);
      NearThen(was);
      Follow(was);
    }

    method ProcessDelayed(now: nat)
      requires Valid()
      modifies `run, ep, ep.sendq, ep.sendq.slots
      ensures Valid() && State().inbox == old(State().inbox) && State().s.r == old(State().s.r)
    {
      hide *;
      Before();
      ghost var was := ep.logs[q];
      ep.ProcessDelayed(now);
      OneLog(old(ep.logs), ep.logs, q);
      NearThen(was);
      Follow(was);
    }

    method FragDone(slot: nat)
      requires Valid() && slot in ep.owed
      modifies ep, ep.sendq, ep.sendq.slots
      ensures Valid() && State() == old(State())
    {
      hide *;
      Before();
      ep.FragDone(slot);
      NearNow();
    }

    method LargeReplied(id: SenderModel.Id)
      requires Valid() && id < |ep.states| && ep.states[id].needReply
      modifies ep
      ensures Valid() && State() == old(State())
    {
      hide *;
      Before();
      ep.LargeReplied(id);
      NearNow();
    }

    method ProcessResend(now: nat, resendDelay: nat) returns (timedOut: bool, p: SenderModel.Pid)
      requires Valid()
      modifies ep
      ensures Valid() && State() == old(State())
    {
      hide *;
      Before();
      timedOut, p := ep.ProcessResend(now, resendDelay);
      NearNow();
    }

    // An ack of this receiver reaches the endpoint, late, twice or out of
    // order, but not too late.
    method HandleLiback(libSeqnum: SeqNum16, acknum: nat, now: nat, ghost ack: nat)
      requires Valid()
      requires Ses(libSeqnum) == rp.session && acknum > ep.sides[q].lastRecvAcknum ==>
        libSeqnum == Wire(rp.session, ack) && Enabled(State().s, DeliverAck(ack))
      modifies `run, ep, ep.sendq, ep.sendq.slots
      ensures Valid() && State().inbox == old(State().inbox) && State().s.r == old(State().s.r)
      ensures Ses(libSeqnum) == rp.session && acknum > old(ep.sides[q].lastRecvAcknum) ==> ep.logs[q].acked == Max(old(ep.logs[q].acked), ack)
    {
      hide *;
      Before();
      ghost var was := ep.logs[q];
      ghost var taken := Ses(libSeqnum) == rp.session && acknum > ep.sides[q].lastRecvAcknum;
      if taken { AckReady(ack); }
      ep.HandleLiback(q, libSeqnum, acknum, now, ack);
      if taken {
        AckStep(rp.session, run, messages, contents, was, ack);
        run := run + [Step(DeliverAck(ack), [], map[])];
        AckedLog(was, ack, ep.logs, q);
        NearThen(was.(acked := Max(was.acked, ack)));
        Follow(was.(acked := Max(was.acked, ack)));
      } else {
        NearNow();
      }
    }

    // One from another partner.
    method HandleOtherLiback(p: SenderModel.Pid, libSeqnum: SeqNum16, acknum: nat, now: nat, ghost ack: nat)
      requires Valid() && p != q && p in ep.sides && p in ep.logs && ep.logs[p].session < SESSIONS
      requires Ses(libSeqnum) == ep.logs[p].session && acknum > ep.sides[p].lastRecvAcknum ==>
        libSeqnum == Wire(ep.logs[p].session, ack) && ack <= |ep.logs[p].given| + 1 && ep.logs[p].acked <= ack + MAX_ACK_STALENESS
      modifies ep, ep.sendq, ep.sendq.slots
      ensures Valid() && State() == old(State())
    {
      hide *;
      Before();
      ep.HandleLiback(p, libSeqnum, acknum, now, ack);
      NearNow();
    }

    // ----- the receiver -----

    // A packet of the network arrives.
    method Deliver(p: Packet, denied: Denied, ghost starts: map<nat, Inbox>)
      requires Valid() && CanDo(State(), Step(DeliverData(p, denied), [], starts))
      modifies `run, rp
      ensures Valid() && State() == Do(rp.session, old(State()), Step(DeliverData(p, denied), [], starts))
    {
      hide *;
      Before();
      PacketComes(p, denied, starts);
      rp.ProcessRecv(p, denied);
      Then(rp.session, run, Step(DeliverData(p, denied), [], starts));
      Delivered(rp.session, Now(rp.session, run), p, denied, starts);
      LinkedStill(rp.session, messages, contents, ep.logs[q], Now(rp.session, run), Now(rp.session, run + [Step(DeliverData(p, denied), [], starts)]));
      run := run + [Step(DeliverData(p, denied), [], starts)];
      NearNow();
    }

    // omx__get_partner_needed_ack: what goes back with the next packet.
    method NeededAck() returns (ack: SeqNum16)
      requires Valid()
      modifies `run
      ensures Valid() && ack == Wire(rp.session, rp.nextFrag) && rp.nextFrag in State().s.acks
      ensures State() == old(State()).(s := old(State()).s.(acks := old(State()).s.acks + {rp.nextFrag}))
    {
      hide *;
      Before();
      Acked(rp.session, Now(rp.session, run));
      StepIs(rp.session, Now(rp.session, run), Acknowledge, []);
      Then(rp.session, run, Step(Acknowledge, [], map[]));
      LinkedStill(rp.session, messages, contents, ep.logs[q], Now(rp.session, run), Now(rp.session, run + [Step(Acknowledge, [], map[])]));
      run := run + [Step(Acknowledge, [], map[])];
      ack := rp.nextFragRecvSeq;
      NearNow();
    }

    // A receive takes an unexpected message over.
    ghost method TakeOver(n: nat, buffer: seq<Byte>)
      requires Valid() && CanDo(State(), Bind(n, buffer))
      modifies `run
      ensures Valid() && State() == Do(rp.session, old(State()), Bind(n, buffer))
    {
      hide *;
      Before();
      Then(rp.session, run, Bind(n, buffer));
      Bound(rp.session, Now(rp.session, run), n, buffer);
      LinkedStill(rp.session, messages, contents, ep.logs[q], Now(rp.session, run), Now(rp.session, run + [Bind(n, buffer)]));
      run := run + [Bind(n, buffer)];
      NearNow();
    }

    // ----- main result -----

    // Whatever happened so far: each message that is complete at the receiver
    // is the one of the request that got its number, once, and its receive
    // holds the first bytes of that request; every acked request is complete.
    lemma Arrived()
      requires Valid()
      ensures NoDup(rp.completed) && forall n :: 1 <= n < ep.logs[q].acked ==> n in rp.completed
      ensures forall n :: n in rp.completed ==>
        && 1 <= n <= |ep.logs[q].given| && n in State().inbox
        && var id := ep.logs[q].given[n - 1];
           id < |messages| == |contents| && (HasData(messages[id].kind) ==> HoldsFirst(State().inbox[n].bytes, contents[id]))
    {
      hide *;
      Before();
      BytesArrive(rp.session, run);
      NowIs(rp.session, run);
      LinkedIs(rp.session, messages, contents, ep.logs[q], Now(rp.session, run));
    }

    // ----- what Valid says, and how it is established -----

    lemma Before()
      requires Valid()
      ensures ep.Valid() && rp.Valid() && RequestsOk(ep.attrs, messages, contents) && q in ep.sides && q in ep.logs && rp.session < SESSIONS
      ensures LegalRun(rp.session, NOTHING_SENT, run) && rp.Model() == Now(rp.session, run).s.r && State() == Now(rp.session, run)
      ensures Linked(rp.session, messages, contents, ep.logs[q], Now(rp.session, run)) && |messages| == |contents| == |ep.attrs| == |ep.states|
      ensures ep.logs[q].session == rp.session && 1 <= ep.logs[q].acked <= |ep.logs[q].given| + 1
      ensures rp.Model() == Receiver(rp.nextMatch, rp.nextFrag, rp.partialMediumQ, rp.earlyQ, rp.matched, rp.completed)
      ensures rp.nextFragRecvSeq == Wire(rp.session, rp.nextFrag)
    {
      hide *;
      ValidIsNear();
      NearIs(ep.logs[q]);
      EndpointKnown(ep);
      GivenKnown(ep.Now(), q);
      ContentsFit(ep.attrs, messages, contents);
      LinkedIs(rp.session, messages, contents, ep.logs[q], Now(rp.session, run));
      PartnerKnown(rp);
    }

    lemma ValidIsNear()
      requires Valid()
      ensures q in ep.logs && Near(ep.logs[q])
    {
      hide *;
      Unfold();
    }

    lemma Unfold()
      ensures Valid() <==> q in ep.logs && Near(ep.logs[q])
    {
      hide Near;
    }

    lemma AckReady(ack: nat)
      requires Valid() && rp.session < SESSIONS && LegalRun(rp.session, NOTHING_SENT, run) && Enabled(State().s, DeliverAck(ack))
      ensures ack <= |ep.logs[q].given| + 1 && ep.logs[q].acked <= ack + MAX_ACK_STALENESS && ep.logs[q].session < SESSIONS
    {
      hide *;
      Before();
      Reachable(rp.session, run);
      Known(rp.session, Now(rp.session, run).s);
      LinkedIs(rp.session, messages, contents, ep.logs[q], Now(rp.session, run));
      AckIn(Now(rp.session, run).s, ack);
    }

    lemma PacketComes(p: Packet, denied: Denied, starts: map<nat, Inbox>)
      requires Valid() && CanDo(State(), Step(DeliverData(p, denied), [], starts))
      ensures ValidPacket(rp.session, p) && Consistent(rp.Model(), p) && InWindow(rp.Model(), p) && Ses(p.seqnum) == rp.session
    {
      hide *;
      Before();
      Reachable(rp.session, run);
      CanDoIs(Now(rp.session, run), p, denied, starts);
      PacketReady(rp.session, Now(rp.session, run).s, p, denied);
    }

    lemma NearThen(log: SenderModel.Log)
      requires ep.Valid() && rp.Valid() && RequestsOk(ep.attrs, messages, contents) && q in ep.sides && q in ep.logs && rp.session < SESSIONS
      requires LegalRun(rp.session, NOTHING_SENT, run) && rp.Model() == Now(rp.session, run).s.r
      requires Linked(rp.session, messages, contents, log, Now(rp.session, run))
      ensures Near(log) && State() == Now(rp.session, run)
    {
      hide LegalRun, Linked, RequestsOk, Run;
    }

    lemma NearIs(log: SenderModel.Log)
      requires Near(log)
      ensures ep.Valid() && rp.Valid() && RequestsOk(ep.attrs, messages, contents) && q in ep.sides && q in ep.logs && rp.session < SESSIONS
      ensures LegalRun(rp.session, NOTHING_SENT, run) && rp.Model() == Now(rp.session, run).s.r && State() == Now(rp.session, run)
      ensures Linked(rp.session, messages, contents, log, Now(rp.session, run))
    {
      hide LegalRun, Linked, RequestsOk, Run;
    }

    lemma NearNow()
      requires ep.Valid() && rp.Valid() && RequestsOk(ep.attrs, messages, contents) && q in ep.sides && q in ep.logs && rp.session < SESSIONS
      requires LegalRun(rp.session, NOTHING_SENT, run) && rp.Model() == Now(rp.session, run).s.r
      requires Linked(rp.session, messages, contents, ep.logs[q], Now(rp.session, run))
      ensures Valid() && State() == Now(rp.session, run)
    {
      hide LegalRun, Linked, RequestsOk, Run;
    }
  }

  lemma PartnerKnown(rp: Partner)
    requires rp.Valid()
    ensures rp.Model() == Receiver(rp.nextMatch, rp.nextFrag, rp.partialMediumQ, rp.earlyQ, rp.matched, rp.completed)
    ensures rp.nextFragRecvSeq == Wire(rp.session, rp.nextFrag)
  {
    hide RecvOk, EarlyOk, EarlyConsistent, Wire;
  }

  lemma NowIs(session: nat, run: seq<Action>)
    requires session < SESSIONS && LegalRun(session, NOTHING_SENT, run)
    ensures Now(session, run) == Run(session, NOTHING_SENT, run)
  {
    hide Run, LegalRun;
  }

  lemma Reachable(session: nat, run: seq<Action>)
    requires session < SESSIONS && LegalRun(session, NOTHING_SENT, run)
    ensures SystemOk(session, Now(session, run).s)
  {
    hide SystemOk, BoxesOk, LegalRun, Run;
    NothingStored(session);
    RunStores(session, NOTHING_SENT, run);
  }

  lemma AckIn(s: System, ack: nat)
    requires Enabled(s, DeliverAck(ack))
    ensures ack in s.acks && s.nextAcked <= ack + MAX_ACK_STALENESS
  {
  }

  lemma CanDoIs(t: Transfer, p: Packet, denied: Denied, starts: map<nat, Inbox>)
    requires CanDo(t, Step(DeliverData(p, denied), [], starts))
    ensures Enabled(t.s, DeliverData(p, denied))
  {
  }

  // What the receiver does leaves the sender alone.
  lemma Delivered(session: nat, t: Transfer, p: Packet, denied: Denied, starts: map<nat, Inbox>)
    requires session < SESSIONS && CanDo(t, Step(DeliverData(p, denied), [], starts))
    ensures var t' := Do(session, t, Step(DeliverData(p, denied), [], starts));
      && t'.s.r == RecvSpec.Deliver(t.s.r, p, denied) && t'.s.sent == t.s.sent && t'.s.nextAcked == t.s.nextAcked
      && t'.contents == t.contents && t'.s.data == t.s.data
  {
    hide RecvSpec.Deliver, DeliverStored;
  }

  lemma Acked(session: nat, t: Transfer)
    requires session < SESSIONS
    ensures Enabled(t.s, Acknowledge) && Apply(session, t.s, Acknowledge) == t.s.(acks := t.s.acks + {t.s.r.nextFrag})
  {
  }

  lemma Bound(session: nat, t: Transfer, n: nat, buffer: seq<Byte>)
    requires session < SESSIONS && CanDo(t, Bind(n, buffer))
    ensures var t' := Do(session, t, Bind(n, buffer)); t'.s == t.s && t'.contents == t.contents
  {
  }

  lemma LinkedStill(session: nat, messages: seq<Message>, contents: seq<seq<Byte>>, log: SenderModel.Log, t: Transfer, t': Transfer)
    requires session < SESSIONS && Linked(session, messages, contents, log, t)
    requires t'.s.sent == t.s.sent && t'.s.nextAcked == t.s.nextAcked && t'.contents == t.contents && t'.s.data == t.s.data
    ensures Linked(session, messages, contents, log, t')
  {
    hide OnWire;
  }

  lemma AckStep(session: nat, run: seq<Action>, messages: seq<Message>, contents: seq<seq<Byte>>, log: SenderModel.Log, ack: nat)
    requires session < SESSIONS && LegalRun(session, NOTHING_SENT, run) && Linked(session, messages, contents, log, Now(session, run))
    requires Enabled(Now(session, run).s, DeliverAck(ack))
    ensures var run' := run + [Step(DeliverAck(ack), [], map[])];
      && LegalRun(session, NOTHING_SENT, run') && Linked(session, messages, contents, log.(acked := Max(log.acked, ack)), Now(session, run'))
      && Now(session, run').inbox == Now(session, run).inbox && Now(session, run').s.r == Now(session, run).s.r
  {
    hide LegalRun, Run, OnWire;
    StepIs(session, Now(session, run), DeliverAck(ack), []);
    Then(session, run, Step(DeliverAck(ack), [], map[]));
  }

  lemma OneLog(was: map<SenderModel.Pid, SenderModel.Log>, logs: map<SenderModel.Pid, SenderModel.Log>, q: SenderModel.Pid)
    requires LogsGrow(was, logs) && q in was
    ensures LogsGrow(map[q := was[q]], logs)
  {
  }

  lemma AckedLog(was: SenderModel.Log, ack: nat, logs: map<SenderModel.Pid, SenderModel.Log>, q: SenderModel.Pid)
    requires q in logs && logs[q].session == was.session && logs[q].acked == Max(was.acked, ack) && was.given <= logs[q].given
    ensures LogsGrow(map[q := was.(acked := Max(was.acked, ack))], logs)
    ensures was.acked <= |was.given| + 1 && ack <= |was.given| + 1 ==> Max(was.acked, ack) <= |was.given| + 1
  {
  }

  lemma NothingYet(session: nat)
    requires session < SESSIONS
    ensures LegalRun(session, NOTHING_SENT, []) && Now(session, []).s.r == Receiver(1, 1, [], [], [], [])
    ensures RequestsOk([], [], []) && Linked(session, [], [], SenderModel.Log(session, [], [], 1), Now(session, []))
  {
  }

  lemma EndpointKnown(ep: Endpoint)
    requires ep.Valid()
    ensures SenderModel.Inv(ep.Now(), SenderModel.REST) && ep.queues.hand == [] && ep.Now().attrs == ep.attrs && ep.Now().logs == ep.logs && ep.Now().sides == ep.sides
    ensures ep.Now().queues == ep.queues && |ep.states| == |ep.attrs|
  {
  }

  lemma GrownLog(was: SenderModel.Log, logs: map<SenderModel.Pid, SenderModel.Log>, q: SenderModel.Pid)
    requires LogsGrow(map[q := was], logs)
    ensures q in logs && logs[q].session == was.session && logs[q].acked == was.acked && was.given <= logs[q].given
  {
    assert q in map[q := was];
  }
}
