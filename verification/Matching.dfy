// Matching of receives and messages: the queues kept by context id give the
// same answer as one queue for all (omx_recv.c, omx_types.h).
module Matching {
  import opened Bits

  // Matching information is 64 bits wide, bit 0 the least significant.
  const INFO_BITS: nat := 64

  type Info = x: seq<bool> | |x| == INFO_BITS witness Zeros(INFO_BITS)

  // A posted receive or an unexpected message; no mask applies to the latter.
  datatype Entry = Entry(req: nat, info: Info, mask: Info)

  datatype Option<T> = None | Some(value: T)

  // Which bits of the matching information are the context id.
  datatype Layout = Layout(bits: nat, shift: nat)

  predicate LayoutOk(l: Layout) {
    l.bits + l.shift <= INFO_BITS
  }

  // CTXID_FROM_MATCHING: a shift to the right and a mask of low bits.
  function Ctxid(l: Layout, info: Info): (id: seq<bool>)
    requires LayoutOk(l)
    ensures |id| == l.bits
  {
    info[l.shift..l.shift + l.bits]
  }

  function CtxidMask(l: Layout): Info
    requires LayoutOk(l)
  {
    seq(INFO_BITS, i => l.shift <= i < l.shift + l.bits)
  }

  // A receive with this information and mask takes this message.
  predicate Takes(info: Info, mask: Info, msg: Info) {
    info == And(mask, msg)
  }

  // The checks of omx_irecv.
  predicate GoodMask(l: Layout, info: Info, mask: Info)
    requires LayoutOk(l)
  {
    And(info, Invert(mask)) == Zeros(INFO_BITS) && And(CtxidMask(l), Invert(mask)) == Zeros(INFO_BITS)
  }

  lemma {:induction false} ZerosAre(x: seq<bool>)
    ensures x == Zeros(|x|) <==> forall i :: 0 <= i < |x| ==> !x[i]
  {
    assert forall i :: 0 <= i < |x| ==> !Zeros(|x|)[i];
  }

  // A receive that passes the check only takes messages of its own context id.
  lemma TakesOwnCtxid(l: Layout, info: Info, mask: Info, msg: Info)
    requires LayoutOk(l) && GoodMask(l, info, mask) && Takes(info, mask, msg)
    ensures Ctxid(l, info) == Ctxid(l, msg)
  {
    var outside := And(CtxidMask(l), Invert(mask));
    ZerosAre(outside);
    forall i | 0 <= i < l.bits
      ensures Ctxid(l, info)[i] == Ctxid(l, msg)[i]
    {
      var j := l.shift + i;
      assert !outside[j] && CtxidMask(l)[j] && Invert(mask)[j] == !mask[j];
      assert And(mask, msg)[j] == (mask[j] && msg[j]);
    }
  }

  // The first receive of a queue that takes a message, and the first message
  // that a receive takes.
  function FirstRecv(q: seq<Entry>, msg: Info): (r: Option<Entry>)
    ensures r.Some? ==> r.value in q && Takes(r.value.info, r.value.mask, msg)
  {
    if q == [] then None else if Takes(q[0].info, q[0].mask, msg) then Some(q[0]) else FirstRecv(q[1..], msg)
  }

  function FirstMsg(q: seq<Entry>, info: Info, mask: Info): (r: Option<Entry>)
    ensures r.Some? ==> r.value in q && Takes(info, mask, r.value.info)
  {
    if q == [] then None else if Takes(info, mask, q[0].info) then Some(q[0]) else FirstMsg(q[1..], info, mask)
  }

  ghost predicate FirstRecvAt(q: seq<Entry>, msg: Info, k: nat) {
    && k < |q| && FirstRecv(q, msg) == Some(q[k])
    && forall j :: 0 <= j < k ==> !Takes(q[j].info, q[j].mask, msg)
  }

  ghost predicate FirstMsgAt(q: seq<Entry>, info: Info, mask: Info, k: nat) {
    && k < |q| && FirstMsg(q, info, mask) == Some(q[k])
    && forall j :: 0 <= j < k ==> !Takes(info, mask, q[j].info)
  }

  // First means: nothing before it will do, and nothing at all when there is none.
  lemma {:induction false} FirstRecvIsEarliest(q: seq<Entry>, msg: Info)
    ensures FirstRecv(q, msg) == None ==> forall e :: e in q ==> !Takes(e.info, e.mask, msg)
    ensures FirstRecv(q, msg).Some? ==> exists k :: 0 <= k < |q| && FirstRecvAt(q, msg, k)
  {
    if q != [] && !Takes(q[0].info, q[0].mask, msg) {
      FirstRecvIsEarliest(q[1..], msg);
      if FirstRecv(q, msg).Some? {
        var k :| 0 <= k < |q[1..]| && FirstRecvAt(q[1..], msg, k);
        forall j | 0 <= j < k + 1
          ensures !Takes(q[j].info, q[j].mask, msg)
        {
          assert j > 0 ==> q[1..][j - 1] == q[j];
        }
        assert FirstRecvAt(q, msg, k + 1);
      }
    } else if q != [] {
      assert FirstRecvAt(q, msg, 0);
    }
  }

  lemma {:induction false} FirstMsgIsEarliest(q: seq<Entry>, info: Info, mask: Info)
    ensures FirstMsg(q, info, mask) == None ==> forall e :: e in q ==> !Takes(info, mask, e.info)
    ensures FirstMsg(q, info, mask).Some? ==> exists k :: 0 <= k < |q| && FirstMsgAt(q, info, mask, k)
  {
    if q != [] && !Takes(info, mask, q[0].info) {
      FirstMsgIsEarliest(q[1..], info, mask);
      if FirstMsg(q, info, mask).Some? {
        var k :| 0 <= k < |q[1..]| && FirstMsgAt(q[1..], info, mask, k);
        forall j | 0 <= j < k + 1
          ensures !Takes(info, mask, q[j].info)
        {
          assert j > 0 ==> q[1..][j - 1] == q[j];
        }
        assert FirstMsgAt(q, info, mask, k + 1);
      }
    } else if q != [] {
      assert FirstMsgAt(q, info, mask, 0);
    }
  }

  // The entries of one context id, in order.
  ghost function OfCtxid(l: Layout, q: seq<Entry>, id: seq<bool>): (out: seq<Entry>)
    requires LayoutOk(l)
    ensures forall e :: e in out <==> e in q && Ctxid(l, e.info) == id
  {
    if q == [] then []
    else (if Ctxid(l, q[0].info) == id then [q[0]] else []) + OfCtxid(l, q[1..], id)
  }

  // list_del
  function Del(q: seq<Entry>, e: Entry): (out: seq<Entry>)
    ensures forall x :: x in out ==> x in q
  {
    if q == [] then [] else if q[0] == e then q[1..] else [q[0]] + Del(q[1..], e)
  }

  ghost predicate AllGood(l: Layout, q: seq<Entry>)
    requires LayoutOk(l)
  {
    forall e :: e in q ==> GoodMask(l, e.info, e.mask)
  }

  lemma OfCtxidStep(l: Layout, q: seq<Entry>, id: seq<bool>)
    requires LayoutOk(l) && q != []
    ensures Ctxid(l, q[0].info) == id ==> OfCtxid(l, q, id) == [q[0]] + OfCtxid(l, q[1..], id)
    ensures Ctxid(l, q[0].info) == id ==> OfCtxid(l, q, id) != [] && OfCtxid(l, q, id)[0] == q[0]
    ensures Ctxid(l, q[0].info) == id ==> OfCtxid(l, q, id)[1..] == OfCtxid(l, q[1..], id)
    ensures Ctxid(l, q[0].info) != id ==> OfCtxid(l, q, id) == OfCtxid(l, q[1..], id)
  {
    var tail := OfCtxid(l, q[1..], id);
    hide Ctxid;
    assert [] + tail == tail;
    assert ([q[0]] + tail)[1..] == tail;
  }

  lemma FirstRecvStep(q: seq<Entry>, msg: Info)
    requires q != []
    ensures FirstRecv(q, msg) == if Takes(q[0].info, q[0].mask, msg) then Some(q[0]) else FirstRecv(q[1..], msg)
  {
  }

  lemma FirstMsgStep(q: seq<Entry>, info: Info, mask: Info)
    requires q != []
    ensures FirstMsg(q, info, mask) == if Takes(info, mask, q[0].info) then Some(q[0]) else FirstMsg(q[1..], info, mask)
  {
  }

  lemma DelStep(q: seq<Entry>, e: Entry)
    requires q != []
    ensures q[0] == e ==> Del(q, e) == q[1..]
    ensures q[0] != e ==> Del(q, e) == [q[0]] + Del(q[1..], e)
    ensures q[0] != e ==> Del(q, e) != [] && Del(q, e)[0] == q[0] && Del(q, e)[1..] == Del(q[1..], e)
  {
  }

  lemma Empties(l: Layout, id: seq<bool>, e: Entry)
    requires LayoutOk(l)
    ensures OfCtxid(l, [], id) == [] && Del([], e) == []
  {
  }

  lemma TailGood(l: Layout, q: seq<Entry>)
    requires LayoutOk(l) && AllGood(l, q) && q != []
    ensures AllGood(l, q[1..]) && GoodMask(l, q[0].info, q[0].mask)
  {
    hide GoodMask;
    assert q[0] in q;
  }

  // Searching the queue of the message's context id is searching all receives.
  lemma {:induction false} CtxidQueueFindsRecv(l: Layout, q: seq<Entry>, msg: Info)
    requires LayoutOk(l) && AllGood(l, q)
    ensures FirstRecv(OfCtxid(l, q, Ctxid(l, msg)), msg) == FirstRecv(q, msg)
    decreases |q|
  {
    hide *;
    var id := Ctxid(l, msg);
    if q == [] {
      Empties(l, id, Entry(0, msg, msg));
    } else {
      TailGood(l, q);
      CtxidQueueFindsRecv(l, q[1..], msg);
      OfCtxidStep(l, q, id);
      FirstRecvStep(q, msg);
      if Ctxid(l, q[0].info) == id {
        FirstRecvStep(OfCtxid(l, q, id), msg);
      } else if Takes(q[0].info, q[0].mask, msg) {
        TakesOwnCtxid(l, q[0].info, q[0].mask, msg);
      }
    }
  }

  // And the same for the messages a receive may take.
  lemma {:induction false} CtxidQueueFindsMsg(l: Layout, q: seq<Entry>, info: Info, mask: Info)
    requires LayoutOk(l) && GoodMask(l, info, mask)
    ensures FirstMsg(OfCtxid(l, q, Ctxid(l, info)), info, mask) == FirstMsg(q, info, mask)
    decreases |q|
  {
    hide *;
    var id := Ctxid(l, info);
    if q == [] {
      Empties(l, id, Entry(0, info, mask));
    } else {
      CtxidQueueFindsMsg(l, q[1..], info, mask);
      OfCtxidStep(l, q, id);
      FirstMsgStep(q, info, mask);
      if Ctxid(l, q[0].info) == id {
        FirstMsgStep(OfCtxid(l, q, id), info, mask);
      } else if Takes(info, mask, q[0].info) {
        TakesOwnCtxid(l, info, mask, q[0].info);
      }
    }
  }

  // Removing an entry from the queue of its context id is removing it from all.
  lemma {:induction false} DelOfCtxid(l: Layout, q: seq<Entry>, e: Entry, id: seq<bool>)
    requires LayoutOk(l)
    ensures OfCtxid(l, Del(q, e), id) == if Ctxid(l, e.info) == id then Del(OfCtxid(l, q, id), e) else OfCtxid(l, q, id)
    decreases |q|
  {
    hide *;
    if q == [] {
      Empties(l, id, e);
    } else {
      OfCtxidStep(l, q, id);
      DelStep(q, e);
      if Ctxid(l, q[0].info) == id {
        DelStep(OfCtxid(l, q, id), e);
      }
      if q[0] != e {
        DelOfCtxid(l, q[1..], e, id);
        OfCtxidStep(l, Del(q, e), id);
      }
    }
  }

  lemma {:induction false} AddOfCtxid(l: Layout, q: seq<Entry>, e: Entry, id: seq<bool>)
    requires LayoutOk(l)
    ensures OfCtxid(l, q + [e], id) == OfCtxid(l, q, id) + if Ctxid(l, e.info) == id then [e] else []
    decreases |q|
  {
    hide *;
    OfCtxidStep(l, q + [e], id);
    if q == [] {
      assert q + [e] == [e] && [e][1..] == [];
      Empties(l, id, e);
    } else {
      AddOfCtxid(l, q[1..], e, id);
      OfCtxidStep(l, q, id);
      assert (q + [e])[1..] == q[1..] + [e];
    }
  }

  // The reference: one queue of receives, one of messages, and the pairs made;
  // the messages the unexpected handler took care of, and those refused for
  // lack of memory, which come again.
  datatype Flat = Flat(posted: seq<Entry>, waiting: seq<Entry>, pairs: seq<(Entry, Entry)>, finished: seq<Entry>, refused: seq<Entry>)

  const NO_FLAT := Flat([], [], [], [], [])

  // What the unexpected handler does: it may post receives, and says whether
  // it took care of the message itself.
  datatype Handler = NoHandler | Handler(posts: seq<Entry>, done: bool)

  datatype Event = Arrival(e: Entry, handler: Handler, hasMemory: bool) | Posting(e: Entry)

  function OnPosting(f: Flat, recv: Entry): Flat {
    var m := FirstMsg(f.waiting, recv.info, recv.mask);
    if m.Some? then f.(waiting := Del(f.waiting, m.value), pairs := f.pairs + [(recv, m.value)])
    else f.(posted := f.posted + [recv])
  }

  function OnPostings(f: Flat, posts: seq<Entry>): Flat {
    if posts == [] then f else OnPosting(OnPostings(f, posts[..|posts| - 1]), posts[|posts| - 1])
  }

  // The first receive that takes the message gets it; otherwise it waits.
  function OnMatch(f: Flat, msg: Entry, hasMemory: bool): Flat {
    var r := FirstRecv(f.posted, msg.info);
    if r.Some? then f.(posted := Del(f.posted, r.value), pairs := f.pairs + [(r.value, msg)])
    else if hasMemory then f.(waiting := f.waiting + [msg])
    else f.(refused := f.refused + [msg])
  }

  // The handler is asked about a message no receive takes; then it is tried
  // again, unless the handler is done with it.
  function OnArrival(f: Flat, msg: Entry, handler: Handler, hasMemory: bool): Flat {
    if FirstRecv(f.posted, msg.info).Some? || handler.NoHandler? then OnMatch(f, msg, hasMemory)
    else
      var g := OnPostings(f, handler.posts);
      if handler.done then g.(finished := g.finished + [msg]) else OnMatch(g, msg, hasMemory)
  }

  function Step(f: Flat, e: Event): Flat {
    if e.Arrival? then OnArrival(f, e.e, e.handler, e.hasMemory) else OnPosting(f, e.e)
  }

  function Run(events: seq<Event>): Flat {
    if events == [] then NO_FLAT else Step(Run(events[..|events| - 1]), events[|events| - 1])
  }

  // No posted receive takes any waiting message.
  ghost predicate Settled(f: Flat) {
    forall r, m :: r in f.posted && m in f.waiting ==> !Takes(r.info, r.mask, m.info)
  }

  ghost predicate GoodPairs(f: Flat) {
    forall p :: p in f.pairs ==> Takes(p.0.info, p.0.mask, p.1.info)
  }

  lemma PostingKeepsSettled(f: Flat, recv: Entry)
    requires Settled(f) && GoodPairs(f)
    ensures Settled(OnPosting(f, recv)) && GoodPairs(OnPosting(f, recv))
  {
    hide Takes;
    FirstMsgIsEarliest(f.waiting, recv.info, recv.mask);
  }

  lemma {:induction false} PostingsKeepSettled(f: Flat, posts: seq<Entry>)
    requires Settled(f) && GoodPairs(f)
    ensures Settled(OnPostings(f, posts)) && GoodPairs(OnPostings(f, posts))
  {
    hide Settled, GoodPairs, OnPosting;
    if posts != [] {
      PostingsKeepSettled(f, posts[..|posts| - 1]);
      PostingKeepsSettled(OnPostings(f, posts[..|posts| - 1]), posts[|posts| - 1]);
    }
  }

  lemma MatchKeepsSettled(f: Flat, msg: Entry, hasMemory: bool)
    requires Settled(f) && GoodPairs(f)
    ensures Settled(OnMatch(f, msg, hasMemory)) && GoodPairs(OnMatch(f, msg, hasMemory))
  {
    hide Takes;
    FirstRecvIsEarliest(f.posted, msg.info);
  }

  lemma StepKeepsSettled(f: Flat, e: Event)
    requires Settled(f) && GoodPairs(f)
    ensures Settled(Step(f, e)) && GoodPairs(Step(f, e))
  {
    hide Takes, FirstRecv, FirstMsg, OnMatch, OnPosting, OnPostings;
    if e.Posting? {
      PostingKeepsSettled(f, e.e);
    } else if FirstRecv(f.posted, e.e.info).Some? || e.handler.NoHandler? {
      MatchKeepsSettled(f, e.e, e.hasMemory);
    } else {
      PostingsKeepSettled(f, e.handler.posts);
      MatchKeepsSettled(OnPostings(f, e.handler.posts), e.e, e.hasMemory);
    }
  }

  // In every reachable state, no posted receive takes any waiting message, and
  // the pairs made are of receives that take their messages.
  lemma {:induction false} AlwaysSettled(events: seq<Event>)
    ensures Settled(Run(events)) && GoodPairs(Run(events))
  {
    if events != [] {
      AlwaysSettled(events[..|events| - 1]);
      StepKeepsSettled(Run(events[..|events| - 1]), events[|events| - 1]);
    }
  }

  function Recvs(pairs: seq<(Entry, Entry)>): seq<Entry> {
    seq(|pairs|, i requires 0 <= i < |pairs| => pairs[i].0)
  }

  function Msgs(pairs: seq<(Entry, Entry)>): seq<Entry> {
    seq(|pairs|, i requires 0 <= i < |pairs| => pairs[i].1)
  }

  // The receives posted by an event, by the application or its handler.
  function PostedBy(f: Flat, e: Event): multiset<Entry> {
    if e.Posting? then multiset{e.e}
    else if FirstRecv(f.posted, e.e.info).Some? || e.handler.NoHandler? then multiset{}
    else multiset(e.handler.posts)
  }

  function Postings(events: seq<Event>): multiset<Entry> {
    if events == [] then multiset{}
    else Postings(events[..|events| - 1]) + PostedBy(Run(events[..|events| - 1]), events[|events| - 1])
  }

  function Arrivals(events: seq<Event>): multiset<Entry> {
    if events == [] then multiset{}
    else Arrivals(events[..|events| - 1]) + if events[|events| - 1].Arrival? then multiset{events[|events| - 1].e} else multiset{}
  }

  lemma {:induction false} DelOne(q: seq<Entry>, e: Entry)
    requires e in q
    ensures multiset(Del(q, e)) + multiset{e} == multiset(q)
  {
    assert q == [q[0]] + q[1..];
    if q[0] != e {
      DelOne(q[1..], e);
      HeadCounts(q[0], Del(q[1..], e));
    }
  }

  lemma HeadCounts(x: Entry, q: seq<Entry>)
    ensures multiset([x] + q) == multiset{x} + multiset(q)
  {
  }

  lemma MorePairs(pairs: seq<(Entry, Entry)>, r: Entry, m: Entry)
    ensures multiset(Recvs(pairs + [(r, m)])) == multiset(Recvs(pairs)) + multiset{r}
    ensures multiset(Msgs(pairs + [(r, m)])) == multiset(Msgs(pairs)) + multiset{m}
  {
    assert Recvs(pairs + [(r, m)]) == Recvs(pairs) + [r];
    assert Msgs(pairs + [(r, m)]) == Msgs(pairs) + [m];
  }

  function AllRecvs(f: Flat): multiset<Entry> {
    multiset(f.posted) + multiset(Recvs(f.pairs))
  }

  function AllMsgs(f: Flat): multiset<Entry> {
    multiset(f.waiting) + multiset(Msgs(f.pairs)) + multiset(f.finished) + multiset(f.refused)
  }

  lemma MatchCounts(f: Flat, msg: Entry, hasMemory: bool)
    ensures AllRecvs(OnMatch(f, msg, hasMemory)) == AllRecvs(f) && AllMsgs(OnMatch(f, msg, hasMemory)) == AllMsgs(f) + multiset{msg}
  {
    var r := FirstRecv(f.posted, msg.info);
    hide Takes, Recvs, Msgs, Del;
    if r.Some? {
      DelOne(f.posted, r.value);
      MorePairs(f.pairs, r.value, msg);
    }
  }

  lemma PostingCounts(f: Flat, recv: Entry)
    ensures AllRecvs(OnPosting(f, recv)) == AllRecvs(f) + multiset{recv} && AllMsgs(OnPosting(f, recv)) == AllMsgs(f)
  {
    var m := FirstMsg(f.waiting, recv.info, recv.mask);
    hide Takes, Recvs, Msgs, Del;
    if m.Some? {
      DelOne(f.waiting, m.value);
      MorePairs(f.pairs, recv, m.value);
    }
  }

  lemma {:induction false} PostingsCount(f: Flat, posts: seq<Entry>)
    ensures AllRecvs(OnPostings(f, posts)) == AllRecvs(f) + multiset(posts) && AllMsgs(OnPostings(f, posts)) == AllMsgs(f)
  {
    hide AllRecvs, AllMsgs, OnPosting;
    if posts != [] {
      assert posts == posts[..|posts| - 1] + [posts[|posts| - 1]];
      PostingsCount(f, posts[..|posts| - 1]);
      PostingCounts(OnPostings(f, posts[..|posts| - 1]), posts[|posts| - 1]);
    }
  }

  lemma FinishedCounts(f: Flat, msg: Entry)
    ensures AllRecvs(f.(finished := f.finished + [msg])) == AllRecvs(f) && AllMsgs(f.(finished := f.finished + [msg])) == AllMsgs(f) + multiset{msg}
  {
  }

  lemma StepCounts(f: Flat, e: Event)
    ensures AllRecvs(Step(f, e)) == AllRecvs(f) + PostedBy(f, e)
    ensures AllMsgs(Step(f, e)) == AllMsgs(f) + if e.Arrival? then multiset{e.e} else multiset{}
  {
    hide AllRecvs, AllMsgs, OnMatch, OnPosting, OnPostings, FirstRecv;
    if e.Posting? {
      PostingCounts(f, e.e);
    } else if FirstRecv(f.posted, e.e.info).Some? || e.handler.NoHandler? {
      MatchCounts(f, e.e, e.hasMemory);
    } else {
      PostingsCount(f, e.handler.posts);
      MatchCounts(OnPostings(f, e.handler.posts), e.e, e.hasMemory);
      FinishedCounts(OnPostings(f, e.handler.posts), e.e);
    }
  }

  // A posted receive is waiting or in one pair; a message that arrived is
  // waiting, in one pair, taken care of by the handler, or was refused.
  lemma {:induction false} NothingLostNorDoubled(events: seq<Event>)
    ensures AllRecvs(Run(events)) == Postings(events) && AllMsgs(Run(events)) == Arrivals(events)
  {
    if events == [] {
      assert Recvs([]) == [] && Msgs([]) == [];
    } else {
      NothingLostNorDoubled(events[..|events| - 1]);
      StepCounts(Run(events[..|events| - 1]), events[|events| - 1]);
    }
  }

  // The queue of a context id, in the array of the endpoint.
  function Queue(qs: map<seq<bool>, seq<Entry>>, id: seq<bool>): seq<Entry> {
    if id in qs then qs[id] else []
  }

  // The queues of an endpoint: posted receives by context id, and unexpected
  // messages in one queue and, with several context ids, also in one for each.
  ghost predicate QueuesOk(l: Layout, recvs: map<seq<bool>, seq<Entry>>, unexps: map<seq<bool>, seq<Entry>>, f: Flat) {
    && LayoutOk(l) && AllGood(l, f.posted) && Settled(f) && GoodPairs(f)
    && (forall id: seq<bool> :: |id| == l.bits ==> Queue(recvs, id) == OfCtxid(l, f.posted, id))
    && (forall id: seq<bool> :: |id| == l.bits && l.bits > 0 ==> Queue(unexps, id) == OfCtxid(l, f.waiting, id))
  }

  lemma DelGood(l: Layout, q: seq<Entry>, e: Entry)
    requires LayoutOk(l) && AllGood(l, q)
    ensures AllGood(l, Del(q, e))
  {
  }

  lemma Matched(l: Layout, recvs: map<seq<bool>, seq<Entry>>, unexps: map<seq<bool>, seq<Entry>>, f: Flat, msg: Entry, hasMemory: bool)
    requires QueuesOk(l, recvs, unexps, f)
    ensures var id := Ctxid(l, msg.info);
            var r := FirstRecv(Queue(recvs, id), msg.info);
            && r == FirstRecv(f.posted, msg.info)
            && (r.Some? ==> Ctxid(l, r.value.info) == id && QueuesOk(l, recvs[id := Del(Queue(recvs, id), r.value)], unexps, OnMatch(f, msg, hasMemory)))
  {
    hide Ctxid, CtxidMask, Takes, GoodMask, Settled, GoodPairs, Del, FirstRecv, FirstMsg, OfCtxid;
    var id := Ctxid(l, msg.info);
    var q := Queue(recvs, id);
    CtxidQueueFindsRecv(l, f.posted, msg.info);
    MatchKeepsSettled(f, msg, hasMemory);
    var r := FirstRecv(q, msg.info);
    if r.Some? {
      TakesOwnCtxid(l, r.value.info, r.value.mask, msg.info);
      DelGood(l, f.posted, r.value);
      forall i: seq<bool> | |i| == l.bits
        ensures Queue(recvs[id := Del(q, r.value)], i) == OfCtxid(l, Del(f.posted, r.value), i)
      {
        DelOfCtxid(l, f.posted, r.value, i);
      }
    }
  }

  lemma Unmatched(l: Layout, recvs: map<seq<bool>, seq<Entry>>, unexps: map<seq<bool>, seq<Entry>>, f: Flat, msg: Entry)
    requires QueuesOk(l, recvs, unexps, f) && FirstRecv(f.posted, msg.info).None?
    ensures var id := Ctxid(l, msg.info);
            QueuesOk(l, recvs, if l.bits > 0 then unexps[id := Queue(unexps, id) + [msg]] else unexps, OnMatch(f, msg, true))
    ensures QueuesOk(l, recvs, unexps, OnMatch(f, msg, false))
  {
    hide Ctxid, CtxidMask, Takes, GoodMask, Settled, GoodPairs, Del, FirstRecv, FirstMsg, OfCtxid;
    var id := Ctxid(l, msg.info);
    MatchKeepsSettled(f, msg, true);
    MatchKeepsSettled(f, msg, false);
    forall i: seq<bool> | |i| == l.bits && l.bits > 0
      ensures Queue(unexps[id := Queue(unexps, id) + [msg]], i) == OfCtxid(l, f.waiting + [msg], i)
    {
      AddOfCtxid(l, f.waiting, msg, i);
    }
  }

  lemma Taken(l: Layout, recvs: map<seq<bool>, seq<Entry>>, unexps: map<seq<bool>, seq<Entry>>, f: Flat, recv: Entry)
    requires QueuesOk(l, recvs, unexps, f) && GoodMask(l, recv.info, recv.mask)
    ensures var id := Ctxid(l, recv.info);
            var m := FirstMsg(if l.bits > 0 then Queue(unexps, id) else f.waiting, recv.info, recv.mask);
            && m == FirstMsg(f.waiting, recv.info, recv.mask)
            && (m.Some? ==> Ctxid(l, m.value.info) == id)
            && (m.Some? ==> QueuesOk(l, recvs, if l.bits > 0 then unexps[id := Del(Queue(unexps, id), m.value)] else unexps, OnPosting(f, recv)))
  {
    hide Ctxid, CtxidMask, Takes, GoodMask, Settled, GoodPairs, Del, FirstRecv, FirstMsg, OfCtxid;
    var id := Ctxid(l, recv.info);
    CtxidQueueFindsMsg(l, f.waiting, recv.info, recv.mask);
    PostingKeepsSettled(f, recv);
    var m := FirstMsg(f.waiting, recv.info, recv.mask);
    if m.Some? {
      TakesOwnCtxid(l, recv.info, recv.mask, m.value.info);
      forall i: seq<bool> | |i| == l.bits && l.bits > 0
        ensures Queue(unexps[id := Del(Queue(unexps, id), m.value)], i) == OfCtxid(l, Del(f.waiting, m.value), i)
      {
        DelOfCtxid(l, f.waiting, m.value, i);
      }
    }
  }

  lemma Posted(l: Layout, recvs: map<seq<bool>, seq<Entry>>, unexps: map<seq<bool>, seq<Entry>>, f: Flat, recv: Entry)
    requires QueuesOk(l, recvs, unexps, f) && GoodMask(l, recv.info, recv.mask) && FirstMsg(f.waiting, recv.info, recv.mask).None?
    ensures var id := Ctxid(l, recv.info);
            QueuesOk(l, recvs[id := Queue(recvs, id) + [recv]], unexps, OnPosting(f, recv))
  {
    hide Ctxid, CtxidMask, Takes, GoodMask, Settled, GoodPairs, Del, FirstRecv, FirstMsg, OfCtxid;
    var id := Ctxid(l, recv.info);
    PostingKeepsSettled(f, recv);
    forall i: seq<bool> | |i| == l.bits
      ensures Queue(recvs[id := Queue(recvs, id) + [recv]], i) == OfCtxid(l, f.posted + [recv], i)
    {
      AddOfCtxid(l, f.posted, recv, i);
    }
  }

  // The search loops.
  method SearchRecv(q: seq<Entry>, msg: Info) returns (r: Option<Entry>)
    ensures r == FirstRecv(q, msg)
  {
    var k := 0;
    while k < |q|
      invariant k <= |q| && FirstRecv(q[k..], msg) == FirstRecv(q, msg)
    {
      if Takes(q[k].info, q[k].mask, msg) {
        return Some(q[k]);
      }
      k := k + 1;
    }
    r := None;
  }

  method SearchMsg(q: seq<Entry>, info: Info, mask: Info) returns (r: Option<Entry>)
    ensures r == FirstMsg(q, info, mask)
  {
    var k := 0;
    while k < |q|
      invariant k <= |q| && FirstMsg(q[k..], info, mask) == FirstMsg(q, info, mask)
    {
      if Takes(info, mask, q[k].info) {
        return Some(q[k]);
      }
      k := k + 1;
    }
    r := None;
  }

  datatype Outcome = GoesTo(recv: Entry) | Waits | NoResources | Finished

  datatype Result = BadMask | BadContextMask | Queued | Took(msg: Entry)

  lemma MaskChecked(l: Layout, info: Info, mask: Info)
    requires LayoutOk(l)
    ensures |Invert(mask)| == INFO_BITS
    ensures GoodMask(l, info, mask) <==> And(info, Invert(mask)) == Zeros(INFO_BITS) && And(CtxidMask(l), Invert(mask)) == Zeros(INFO_BITS)
  {
  }

  class MatchQueues {
    const l: Layout
    var recvs: map<seq<bool>, seq<Entry>>
    var unexps: map<seq<bool>, seq<Entry>>
    var any: seq<Entry>
    ghost var posted: seq<Entry>
    ghost var pairs: seq<(Entry, Entry)>
    ghost var finished: seq<Entry>
    ghost var refused: seq<Entry>

    ghost function Now(): Flat
      reads this
    {
      Flat(posted, any, pairs, finished, refused)
    }

    ghost predicate Valid()
      reads this
    {
      QueuesOk(l, recvs, unexps, Now())
    }

    constructor (l: Layout)
      requires LayoutOk(l)
      ensures Valid() && Now() == Run([]) && this.l == l
    {
      this.l, recvs, unexps, any, posted, pairs, finished, refused := l, map[], map[], [], [], [], [], [];
    }

    lemma Known()
      requires Valid()
      ensures LayoutOk(l) && QueuesOk(l, recvs, unexps, Now()) && Now() == Flat(posted, any, pairs, finished, refused)
    {
    }

    lemma Conclude()
      requires QueuesOk(l, recvs, unexps, Flat(posted, any, pairs, finished, refused))
      ensures Valid() && Now() == Flat(posted, any, pairs, finished, refused)
    {
    }

    // omx__match_recv, and what becomes of a message it finds no receive for.
    method Match(msg: Entry, hasMemory: bool) returns (r: Outcome)
      requires Valid()
      modifies this
      ensures Valid() && Now() == OnMatch(old(Now()), msg, hasMemory)
      ensures r == (match FirstRecv(old(posted), msg.info) case Some(recv) => GoesTo(recv) case None => if hasMemory then Waits else NoResources)
    {
      hide *;
      Known();
      MatchIs(Now(), msg, hasMemory);
      var id := Ctxid(l, msg.info);
      var found := SearchRecv(Queue(recvs, id), msg.info);
      Matched(l, recvs, unexps, Now(), msg, hasMemory);
      if found.Some? {
        recvs := recvs[id := Del(Queue(recvs, id), found.value)];
        posted := Del(posted, found.value);
        pairs := pairs + [(found.value, msg)];
        r := GoesTo(found.value);
      } else {
        Unmatched(l, recvs, unexps, Now(), msg);
        if hasMemory {
          any := any + [msg];
          if l.bits > 0 {
            unexps := unexps[id := Queue(unexps, id) + [msg]];
          }
          r := Waits;
        } else {
          refused := refused + [msg];
          r := NoResources;
        }
      }
      Conclude();
    }

    // omx__try_match_next_recv: a message no receive takes is shown to the
    // unexpected handler first, which may post receives meanwhile.
    method Arrive(msg: Entry, handler: Handler, hasMemory: bool) returns (r: Outcome)
      requires Valid() && (handler.Handler? ==> AllGood(l, handler.posts))
      modifies this
      ensures Valid() && Now() == OnArrival(old(Now()), msg, handler, hasMemory)
      ensures FirstRecv(old(posted), msg.info).Some? ==> r == GoesTo(FirstRecv(old(posted), msg.info).value)
      ensures r == Finished <==> FirstRecv(old(posted), msg.info).None? && handler.Handler? && handler.done
    {
      hide *;
      Known();
      ArrivalIs(Now(), msg, handler, hasMemory);
      var found := SearchRecv(Queue(recvs, Ctxid(l, msg.info)), msg.info);
      Matched(l, recvs, unexps, Now(), msg, hasMemory);
      if found.None? && handler.Handler? {
        ghost var was := Now();
        NonePosted(was, handler.posts);
        for k := 0 to |handler.posts|
          invariant Valid() && Now() == OnPostings(was, handler.posts[..k])
        {
          GoodOne(l, handler.posts, k);
          var posted := Post(handler.posts[k]);
          OnePosted(was, handler.posts, k);
        }
        assert handler.posts[..|handler.posts|] == handler.posts;
        if handler.done {
          Known();
          FinishedOk(l, recvs, unexps, Now(), msg);
          finished := finished + [msg];
          Conclude();
          return Finished;
        }
      }
      r := Match(msg, hasMemory);
    }

    // omx_irecv and omx__irecv_segs: a receive takes the first waiting message
    // it can, or is queued.
    method Post(recv: Entry) returns (r: Result)
      requires Valid()
      modifies this
      ensures Valid()
      ensures r.BadMask? || r.BadContextMask? <==> !GoodMask(l, recv.info, recv.mask)
      ensures r.BadMask? || r.BadContextMask? ==> Now() == old(Now())
      ensures r.Queued? || r.Took? ==> Now() == OnPosting(old(Now()), recv)
      ensures r.Took? ==> FirstMsg(old(any), recv.info, recv.mask) == Some(r.msg)
      ensures r.Queued? ==> FirstMsg(old(any), recv.info, recv.mask) == None
    {
      hide *;
      Known();
      PostingIs(Now(), recv);
      MaskChecked(l, recv.info, recv.mask);
      if And(recv.info, Invert(recv.mask)) != Zeros(INFO_BITS) {
        return BadMask;
      }
      if And(CtxidMask(l), Invert(recv.mask)) != Zeros(INFO_BITS) {
        return BadContextMask;
      }
      Taken(l, recvs, unexps, Now(), recv);
      var id := Ctxid(l, recv.info);
      var m := SearchMsg(if l.bits > 0 then Queue(unexps, id) else any, recv.info, recv.mask);
      if m.Some? {
        any := Del(any, m.value);
        if l.bits > 0 {
          unexps := unexps[id := Del(Queue(unexps, id), m.value)];
        }
        pairs := pairs + [(recv, m.value)];
        r := Took(m.value);
      } else {
        Posted(l, recvs, unexps, Now(), recv);
        recvs := recvs[id := Queue(recvs, id) + [recv]];
        posted := posted + [recv];
        r := Queued;
      }
      Conclude();
    }
  }

  lemma MatchIs(f: Flat, msg: Entry, hasMemory: bool)
    ensures var r := FirstRecv(f.posted, msg.info);
            OnMatch(f, msg, hasMemory) == if r.Some? then Flat(Del(f.posted, r.value), f.waiting, f.pairs + [(r.value, msg)], f.finished, f.refused)
                                          else if hasMemory then Flat(f.posted, f.waiting + [msg], f.pairs, f.finished, f.refused)
                                          else Flat(f.posted, f.waiting, f.pairs, f.finished, f.refused + [msg])
  {
  }

  lemma ArrivalIs(f: Flat, msg: Entry, handler: Handler, hasMemory: bool)
    ensures OnArrival(f, msg, handler, hasMemory) ==
      if FirstRecv(f.posted, msg.info).Some? || handler.NoHandler? then OnMatch(f, msg, hasMemory)
      else if handler.done then
        var g := OnPostings(f, handler.posts); Flat(g.posted, g.waiting, g.pairs, g.finished + [msg], g.refused)
      else OnMatch(OnPostings(f, handler.posts), msg, hasMemory)
  {
    hide OnMatch, OnPostings, FirstRecv;
  }

  lemma NonePosted(f: Flat, posts: seq<Entry>)
    ensures OnPostings(f, posts[..0]) == f
  {
  }

  lemma OnePosted(f: Flat, posts: seq<Entry>, k: nat)
    requires k < |posts|
    ensures OnPostings(f, posts[..k + 1]) == OnPosting(OnPostings(f, posts[..k]), posts[k])
  {
    assert posts[..k + 1][..k] == posts[..k];
  }

  lemma GoodOne(l: Layout, posts: seq<Entry>, k: nat)
    requires LayoutOk(l) && AllGood(l, posts) && k < |posts|
    ensures GoodMask(l, posts[k].info, posts[k].mask)
  {
    assert posts[k] in posts;
  }

  lemma FinishedOk(l: Layout, recvs: map<seq<bool>, seq<Entry>>, unexps: map<seq<bool>, seq<Entry>>, f: Flat, msg: Entry)
    requires QueuesOk(l, recvs, unexps, f)
    ensures QueuesOk(l, recvs, unexps, f.(finished := f.finished + [msg]))
  {
  }

  lemma PostingIs(f: Flat, recv: Entry)
    ensures var m := FirstMsg(f.waiting, recv.info, recv.mask);
            OnPosting(f, recv) == if m.Some? then Flat(f.posted, Del(f.waiting, m.value), f.pairs + [(recv, m.value)], f.finished, f.refused)
                                  else Flat(f.posted + [recv], f.waiting, f.pairs, f.finished, f.refused)
  {
  }
}
