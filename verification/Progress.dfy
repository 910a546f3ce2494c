// No reachable state of the protocol is stuck: some continuation of the run
// delivers, completes and acknowledges everything that was sent.
module Progress {
  import opened SeqNum
  import opened Fragments
  import opened RecvSpec
  import opened Protocol

  ghost predicate CanReach(session: nat, s: System, t: System)
    requires session < SESSIONS
  {
    exists events :: Legal(session, s, events) && Exec(session, s, events) == t
  }

  lemma {:induction false} ConcatRuns(session: nat, s: System, first: seq<Event>, second: seq<Event>)
    requires session < SESSIONS && Legal(session, s, first)
    requires Legal(session, Exec(session, s, first), second)
    ensures Legal(session, s, first + second)
    ensures Exec(session, s, first + second) == Exec(session, Exec(session, s, first), second)
    decreases |first|
  {
    if first == [] {
      assert first + second == second;
    } else {
      ConcatRuns(session, Apply(session, s, first[0]), first[1..], second);
      assert (first + second)[1..] == first[1..] + second;
    }
  }

  lemma ReachTransitive(session: nat, s: System, t: System, u: System)
    requires session < SESSIONS && CanReach(session, s, t) && CanReach(session, t, u)
    ensures CanReach(session, s, u)
  {
    var first :| Legal(session, s, first) && Exec(session, s, first) == t;
    var second :| Legal(session, t, second) && Exec(session, t, second) == u;
    ConcatRuns(session, s, first, second);
  }

  lemma OneStep(session: nat, s: System, e: Event)
    requires session < SESSIONS && Enabled(s, e)
    ensures CanReach(session, s, Apply(session, s, e))
  {
    var t := Apply(session, s, e);
    assert [e][1..] == [];
    assert Legal(session, t, []) && Exec(session, t, []) == t;
    assert Legal(session, s, [e]);
    assert Exec(session, s, [e]) == t;
  }

  lemma HeadRange(session: nat, r: Receiver)
    requires session < SESSIONS && RecvOk(session, r)
    ensures r.nextFrag <= r.nextMatch
    ensures r.nextFrag == r.nextMatch <==> r.partials == []
  {
    if r.partials != [] {
      PartialRange(session, r, 0);
    }
  }

  // Message n is entirely received, or the first pending one with at least
  // the fragments in got.
  ghost predicate HeadHas(r: Receiver, n: nat, got: set<nat>) {
    r.nextFrag > n || (r.partials != [] && r.partials[0].number == n && got <= r.partials[0].got)
  }

  lemma OrderedKeepsHead(session: nat, r: Receiver, p: Packet, ok: bool, n: nat, got: set<nat>)
    requires session < SESSIONS && RecvOk(session, r) && ValidPacket(session, p)
    requires Consistent(r, p) && InWindow(r, p)
    requires HeadHas(r, n, got)
    ensures HeadHas(Ordered(r, p, ok), n, got)
  {
    OrderedKeeps(session, r, p, ok);
    var s := Ordered(r, p, ok);
    if r.nextFrag <= n && p.msg.kind.Medium? && r.nextFrag <= p.number < r.nextMatch {
      var i := IndexOf(r.partials, p.number);
      if i < |r.partials| && p.frag !in r.partials[i].got {
        RemovedIndices(r.partials, i);
        if i == 0 && AllReceived(p.msg.length, r.partials[0].got + {p.frag}) {
          LaterHead(session, r, p);
        }
      }
    }
  }

  lemma LaterHead(session: nat, r: Receiver, p: Packet)
    requires session < SESSIONS && RecvOk(session, r) && ValidPacket(session, p) && p.msg.kind.Medium? && Consistent(r, p)
    requires r.partials != [] && r.partials[0].number == p.number && p.frag !in r.partials[0].got
    requires AllReceived(p.msg.length, r.partials[0].got + {p.frag})
    ensures Continue(r, p).nextFrag > p.number
  {
    assert Consistent(r, p) && r.partials[0].msg == p.msg;
    RemovedIndices(r.partials, 0);
    if |r.partials| > 1 {
      assert r.partials[0].number < r.partials[1].number;
    }
  }

  lemma {:induction false} DrainKeepsHead(session: nat, sent: seq<Message>, delivered: set<(nat, nat)>, r: Receiver, base: nat, acked: nat,
                                          i: nat, denied: Denied, n: nat, got: set<nat>)
    requires session < SESSIONS && i <= |r.early|
    requires DrainOk(session, sent, delivered, r, base, acked)
    requires forall j :: 0 <= j < i ==> r.early[j].number > base + 1
    requires HeadHas(r, n, got)
    ensures HeadHas(Drain(r, i, base + 1, denied), n, got)
    decreases |r.early| - i
  {
    if i < |r.early| {
      if r.early[i].number <= base + 1 {
        var p := r.early[i];
        var q := r.(early := RemoveAt(r.early, i));
        TakeDue(session, sent, delivered, r, base, acked, i, HasMemory(denied, p));
        GenuineIsConsistent(sent, delivered, r, p);
        OrderedKeepsHead(session, q, p, HasMemory(denied, p), n, got);
        RemovedIndices(r.early, i);
        DrainKeepsHead(session, sent, delivered, Ordered(q, p, HasMemory(denied, p)), base, acked, i, denied, n, got);
      } else {
        DrainKeepsHead(session, sent, delivered, r, base, acked, i + 1, denied, n, got);
      }
    }
  }

  // Delivering one more fragment of the first missing message.
  lemma DeliverHead(session: nat, sent: seq<Message>, delivered: set<(nat, nat)>, r: Receiver, acked: nat, p: Packet, got: set<nat>)
    requires session < SESSIONS
    requires DrainOk(session, sent, delivered, r, r.nextMatch, acked) && ValidPacket(session, p)
    requires Genuine(sent, p) && (p.number, p.frag) in delivered && p.number == r.nextFrag
    requires got == {} || HeadHas(r, p.number, got)
    ensures HeadHas(Deliver(r, p, {}), p.number, got + {p.frag})
  {
    var t := Ordered(r, p, true);
    if p.number == r.nextMatch {
      assert r.partials == [] by {
        HeadRange(session, r);
      }
      assert HeadHas(t, p.number, {p.frag});
      OrderedDrainOk(session, sent, delivered, r, r.nextMatch, acked, p, true);
      DrainKeepsHead(session, sent, delivered, t, r.nextMatch, acked, 0, {}, p.number, {p.frag});
      assert got == {};
      assert got + {p.frag} == {p.frag};
    } else {
      assert r.partials != [] && r.partials[0].number == p.number;
      GenuineIsConsistent(sent, delivered, r, p);
      if p.frag !in r.partials[0].got && AllReceived(p.msg.length, r.partials[0].got + {p.frag}) {
        LaterHead(session, r, p);
      }
    }
  }

  // Posting and delivering fragment k of the first missing message.
  lemma DeliverNext(session: nat, s: System, n: nat, k: nat) returns (next: System)
    requires session < SESSIONS && SystemOk(session, s) && 1 <= n < NextSend(s) && n == s.r.nextFrag
    requires k < PacketsNr(s.sent[n - 1])
    requires k == 0 || HeadHas(s.r, n, Below(k))
    ensures CanReach(session, s, next) && SystemOk(session, next)
    ensures next.sent == s.sent && HeadHas(next.r, n, Below(k + 1)) && n <= next.r.nextFrag
  {
    hide *;
    var p := NextPacket(session, s, n, k);
    var posted := Apply(session, s, Post(n, k));
    OneStep(session, s, Post(n, k));
    StepKeeps(session, s, Post(n, k));
    var e := DeliverData(p, {});
    next := Apply(session, posted, e);
    OneStep(session, posted, e);
    StepKeeps(session, posted, e);
    ReachTransitive(session, s, posted, next);
    DeliverHeadOf(session, posted, p, Below(k));
    HeadDelivered(session, posted, p, n, k);
  }

  // What posting fragment k of the first missing message enables.
  lemma NextPacket(session: nat, s: System, n: nat, k: nat) returns (p: Packet)
    requires session < SESSIONS && SystemOk(session, s) && 1 <= n < NextSend(s) && n == s.r.nextFrag && k < PacketsNr(s.sent[n - 1])
    ensures Enabled(s, Post(n, k)) && p.number == n && p.frag == k
    ensures var posted := Apply(session, s, Post(n, k));
      posted.r == s.r && posted.sent == s.sent && Enabled(posted, DeliverData(p, {}))
    ensures k == 0 ==> Below(k) == {}
  {
    hide EarlyOk, Knows, Deliver;
    HeadRange(session, s.r);
    p := WirePacket(session, s.sent[n - 1], n, k);
  }

  lemma HeadDelivered(session: nat, s: System, p: Packet, n: nat, k: nat)
    requires session < SESSIONS && SystemOk(session, s) && Enabled(s, DeliverData(p, {})) && n == s.r.nextFrag && p.frag == k
    requires HeadHas(Deliver(s.r, p, {}), n, Below(k) + {p.frag})
    requires SystemOk(session, Apply(session, s, DeliverData(p, {})))
    ensures var next := Apply(session, s, DeliverData(p, {}));
      next.sent == s.sent && HeadHas(next.r, n, Below(k + 1)) && n <= next.r.nextFrag
  {
    hide EarlyOk, Knows, Deliver;
    assert Below(k) + {k} == Below(k + 1);
    var next := Apply(session, s, DeliverData(p, {}));
    HeadRange(session, next.r);
    if next.r.partials != [] {
      PartialRange(session, next.r, 0);
    }
  }

  lemma DeliverHeadOf(session: nat, s: System, p: Packet, got: set<nat>)
    requires session < SESSIONS && SystemOk(session, s) && Enabled(s, DeliverData(p, {}))
    requires p.number == s.r.nextFrag && (got == {} || HeadHas(s.r, p.number, got))
    ensures HeadHas(Deliver(s.r, p, {}), p.number, got + {p.frag})
  {
    var delivered := s.delivered + {(p.number, p.frag)};
    KnowsMore(s.sent, s.delivered, s.r, [], {(p.number, p.frag)});
    assert s.sent + [] == s.sent;
    DeliverHead(session, s.sent, delivered, s.r, s.nextAcked, p, got);
  }

  // A message that is pending lacks a fragment.
  lemma MissingFrag(session: nat, s: System) returns (j: nat)
    requires session < SESSIONS && SystemOk(session, s) && s.r.partials != []
    ensures 1 <= s.r.partials[0].number <= |s.sent| && j < PacketsNr(s.sent[s.r.partials[0].number - 1])
    ensures j !in s.r.partials[0].got
  {
    assert PartialKnown(s.sent, s.delivered, s.r.partials[0]);
    PartialRange(session, s.r, 0);
    var q := s.r.partials[0];
    assert !AllReceived(q.msg.length, q.got);
    j :| j < FragsNr(q.msg.length) && j !in q.got;
  }

  lemma HeadMissing(session: nat, s: System, n: nat)
    requires session < SESSIONS && SystemOk(session, s) && 1 <= n < NextSend(s)
    requires HeadHas(s.r, n, Below(PacketsNr(s.sent[n - 1])))
    ensures s.r.nextFrag > n
  {
    hide SystemOk;
    if s.r.partials != [] {
      var j := MissingFrag(session, s);
      assert s.r.partials[0].number == n ==> j in Below(PacketsNr(s.sent[n - 1]));
    }
  }

  // Sending every fragment of the first missing message completes it.
  lemma {:induction false} CompleteHead(session: nat, s: System, n: nat, k: nat) returns (t: System)
    requires session < SESSIONS && SystemOk(session, s) && 1 <= n < NextSend(s) && n <= s.r.nextFrag
    requires k <= PacketsNr(s.sent[n - 1])
    requires s.r.nextFrag > n || k == 0 || HeadHas(s.r, n, Below(k))
    ensures CanReach(session, s, t) && SystemOk(session, t)
    ensures t.sent == s.sent && t.r.nextFrag > n
    decreases PacketsNr(s.sent[n - 1]) - k
  {
    if s.r.nextFrag > n {
      assert Legal(session, s, []) && Exec(session, s, []) == s;
      return s;
    }
    var msg := s.sent[n - 1];
    if k == PacketsNr(msg) {
      HeadMissing(session, s, n);
      assert false;
    }
    var next := DeliverNext(session, s, n, k);
    t := CompleteHead(session, next, n, k + 1);
    ReachTransitive(session, s, next, t);
  }

  lemma {:induction false} CompleteAll(session: nat, s: System) returns (t: System)
    requires session < SESSIONS && SystemOk(session, s)
    ensures CanReach(session, s, t) && SystemOk(session, t)
    ensures t.sent == s.sent && t.r.nextFrag == NextSend(s)
    decreases NextSend(s) - s.r.nextFrag
  {
    HeadRange(session, s.r);
    if s.r.nextFrag == NextSend(s) {
      assert Legal(session, s, []) && Exec(session, s, []) == s;
      return s;
    }
    var u := CompleteHead(session, s, s.r.nextFrag, 0);
    HeadRange(session, u.r);
    t := CompleteAll(session, u);
    ReachTransitive(session, s, u, t);
  }

  // From every reachable state, a legal continuation matches, completes and
  // acknowledges exactly what was sent.
  lemma NoReachableStateIsStuck(session: nat, events: seq<Event>)
    requires session < SESSIONS && Legal(session, INITIAL, events)
    ensures exists more ::
      && Legal(session, INITIAL, events + more)
      && var s := Exec(session, INITIAL, events);
         var t := Exec(session, INITIAL, events + more);
         t.sent == s.sent && t.r.matched == s.sent && t.r.partials == [] && t.nextAcked == NextSend(s)
  {
    hide *;
    var s := Exec(session, INITIAL, events);
    InitialOk(session);
    RunKeeps(session, INITIAL, events);
    var t := CompleteAll(session, s);
    SameNext(s, t);
    var done := AckAll(session, t);
    ReachTransitive(session, s, t, done);
    var more := RunTo(session, s, done);
    ConcatRuns(session, INITIAL, events, more);
  }

  lemma InitialOk(session: nat)
    requires session < SESSIONS
    ensures SystemOk(session, INITIAL)
  {
  }

  lemma SameNext(s: System, t: System)
    requires s.sent == t.sent
    ensures NextSend(s) == NextSend(t)
  {
  }

  lemma RunTo(session: nat, s: System, t: System) returns (events: seq<Event>)
    requires session < SESSIONS && CanReach(session, s, t)
    ensures Legal(session, s, events) && Exec(session, s, events) == t
  {
    events :| Legal(session, s, events) && Exec(session, s, events) == t;
  }

  // Everything has arrived: one more ack tells the sender.
  lemma AckAll(session: nat, t: System) returns (done: System)
    requires session < SESSIONS && SystemOk(session, t) && t.r.nextFrag == NextSend(t)
    ensures CanReach(session, t, done) && done.sent == t.sent && done.r == t.r && done.nextAcked == NextSend(t)
    ensures done.r.partials == [] && done.r.matched == t.sent
  {
    hide RecvOk, EarlyOk, Partition, CompletedKnown, PartialKnown, Legal, Exec;
    var acked := Apply(session, t, Acknowledge);
    OneStep(session, t, Acknowledge);
    done := Apply(session, acked, DeliverAck(t.r.nextFrag));
    OneStep(session, acked, DeliverAck(t.r.nextFrag));
    ReachTransitive(session, t, acked, done);
    HeadRange(session, t.r);
    assert t.r.matched == t.sent[..|t.sent|];
  }
}
