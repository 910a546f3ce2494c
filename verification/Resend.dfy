// The resend pass with timeouts: a partner that does not answer is reset in
// the middle of the walk, and the walk starts again.
module Resend {
  import SenderModel

  // A request of the non-acked queue; frags is 0 but for mediumsq sends.
  datatype Item = Item(id: nat, partner: nat, frags: nat, resends: nat, resendsMax: nat, lastSend: nat)

  // One post of the pass: the driver takes the first fragments only.
  datatype Post = Post(item: Item, accepted: nat)

  // omx__partner_cleanup takes the partner's requests out of the queues that
  // wait for acks; those the driver is sending stay until it is done.
  function Cleaned(q: seq<Item>, p: nat): (out: seq<Item>)
    ensures forall x :: x in out <==> x in q && x.partner != p
    ensures |out| <= |q|
  {
    if q == [] then [] else (if q[0].partner == p then [] else [q[0]]) + Cleaned(q[1..], p)
  }

  function CleanedAll(q: seq<Item>, gone: set<nat>): (out: seq<Item>)
    ensures forall x :: x in out <==> x in q && x.partner !in gone
  {
    if q == [] then [] else (if q[0].partner in gone then [] else [q[0]]) + CleanedAll(q[1..], gone)
  }

  lemma {:induction false} CleanedShorter(q: seq<Item>, p: nat, x: Item)
    requires x in q && x.partner == p
    ensures |Cleaned(q, p)| < |q|
  {
    if q[0].partner != p {
      CleanedShorter(q[1..], p, x);
    }
  }

  lemma {:induction false} CleanedMore(q: seq<Item>, gone: set<nat>, p: nat)
    ensures Cleaned(CleanedAll(q, gone), p) == CleanedAll(q, gone + {p})
  {
    if q != [] {
      CleanedMore(q[1..], gone, p);
      var rest := CleanedAll(q[1..], gone);
      assert ([q[0]] + rest)[1..] == rest && [] + rest == rest;
      assert [] + Cleaned(rest, p) == Cleaned(rest, p);
    }
  }

  lemma {:induction false} CleanedNone(q: seq<Item>)
    ensures CleanedAll(q, {}) == q
  {
    if q != [] {
      CleanedNone(q[1..]);
    }
  }

  // What a post leaves of its request, as omx__post_isend_* do: a mediumsq
  // whose first fragment the driver refuses is neither counted nor stamped.
  predicate Refused(p: Post) {
    p.item.frags > 0 && p.accepted == 0
  }

  function Reposted(p: Post, now: nat): Item {
    if Refused(p) then p.item else p.item.(resends := p.item.resends + 1, lastSend := now)
  }

  // It is what a post of the endpoint does to the fields of the request.
  lemma PostedAlike(attr: SenderModel.Attr, st: SenderModel.State, accepted: nat, now: nat, p: Post)
    requires attr.kind.MediumSq? <==> attr.frags > 0
    requires p.item.frags == attr.frags && p.accepted == accepted && p.item.resends == st.resends && p.item.lastSend == st.lastSend
    ensures var y, st' := Reposted(p, now), SenderModel.Posted(attr, st, accepted, now);
      y.resends == st'.resends && y.lastSend == st'.lastSend && y == p.item.(resends := y.resends, lastSend := y.lastSend)
  {
    hide Returns;
    SenderModel.PostedCounts(attr, st, accepted, now);
  }

  // The requests posted, what becomes of them, those of them the driver is
  // sending now, and those that go back to the non-acked queue.
  function Posted(posts: seq<Post>): seq<Item> {
    if posts == [] then [] else Posted(posts[..|posts| - 1]) + [posts[|posts| - 1].item]
  }

  function Results(posts: seq<Post>, now: nat): seq<Item> {
    if posts == [] then [] else Results(posts[..|posts| - 1], now) + [Reposted(posts[|posts| - 1], now)]
  }

  function ToDriver(posts: seq<Post>, now: nat): seq<Item> {
    if posts == [] then []
    else ToDriver(posts[..|posts| - 1], now) + if posts[|posts| - 1].accepted > 0 then [Reposted(posts[|posts| - 1], now)] else []
  }

  function ToQueue(posts: seq<Post>, now: nat): seq<Item> {
    if posts == [] then []
    else ToQueue(posts[..|posts| - 1], now) + if posts[|posts| - 1].accepted > 0 then [] else [Reposted(posts[|posts| - 1], now)]
  }

  // The credits that went with them.
  function Credits(posts: seq<Post>): nat {
    if posts == [] then 0 else Credits(posts[..|posts| - 1]) + posts[|posts| - 1].accepted
  }

  lemma OneMorePost(posts: seq<Post>, p: Post, now: nat)
    ensures Posted(posts + [p]) == Posted(posts) + [p.item] && Credits(posts + [p]) == Credits(posts) + p.accepted
    ensures ToDriver(posts + [p], now) == ToDriver(posts, now) + if p.accepted > 0 then [Reposted(p, now)] else []
    ensures ToQueue(posts + [p], now) == ToQueue(posts, now) + if p.accepted > 0 then [] else [Reposted(p, now)]
  {
    assert (posts + [p])[..|posts|] == posts;
  }

  // Nothing is lost or doubled among the two.
  lemma {:induction false} EachInOneQueue(posts: seq<Post>, now: nat)
    ensures multiset(ToDriver(posts, now)) + multiset(ToQueue(posts, now)) == multiset(Results(posts, now))
  {
    if posts != [] {
      EachInOneQueue(posts[..|posts| - 1], now);
    }
  }

  lemma {:induction false} CleanedAllConcat(a: seq<Item>, b: seq<Item>, gone: set<nat>)
    ensures CleanedAll(a + b, gone) == CleanedAll(a, gone) + CleanedAll(b, gone)
  {
    if a == [] {
      assert a + b == b;
    } else {
      assert (a + b)[1..] == a[1..] + b;
      CleanedAllConcat(a[1..], b, gone);
    }
  }

  lemma {:induction false} CleanedCounts(q: seq<Item>, p: nat)
    ensures multiset(Cleaned(q, p)) <= multiset(q)
  {
    if q != [] {
      CleanedCounts(q[1..], p);
      assert q == [q[0]] + q[1..];
    }
  }

  // Those still to be walked are never of a partner that was reset.
  lemma OneNotGone(x: Item, gone: set<nat>)
    requires x.partner !in gone
    ensures CleanedAll([x], gone) == [x]
  {
    assert [x][1..] == [] && [x] + [] == [x];
  }

  lemma HeadMoves(a: seq<Item>, q: seq<Item>)
    requires q != []
    ensures a + q == (a + [q[0]]) + q[1..]
    ensures multiset(a + [q[0]]) + multiset(q[1..]) == multiset(a) + multiset(q)
  {
    assert q == [q[0]] + q[1..];
  }

  // What has been posted and what is still to be walked make up the queue, but
  // for the partners reset; each request was posted at most once, when due.
  ghost predicate Halfway(q0: seq<Item>, posts: seq<Post>, q: seq<Item>, gone: set<nat>, now: nat, delay: nat) {
    && CleanedAll(q0, gone) == CleanedAll(Posted(posts), gone) + q
    && multiset(Posted(posts)) + multiset(q) <= multiset(q0)
    && (forall x :: x in q ==> x.partner !in gone)
    && GoneTimedOut(q0, gone) && AllDue(posts, now, delay)
  }

  predicate Due(x: Item, now: nat, delay: nat) {
    x.lastSend + delay <= now
  }

  // A post that returns: a request never counted yet is still to be copied,
  // see SenderModel.PostReturnsIff.
  predicate Returns(p: Post) {
    p.accepted <= p.item.frags && (p.item.resends == 0 ==> p.item.frags <= p.accepted + 1)
  }

  ghost predicate GoneTimedOut(q0: seq<Item>, gone: set<nat>) {
    forall p :: p in gone ==> exists x :: x in q0 && x.partner == p && x.resends > x.resendsMax
  }

  ghost predicate AllDue(posts: seq<Post>, now: nat, delay: nat) {
    forall p :: p in posts ==> Due(p.item, now, delay) && p.item.resends <= p.item.resendsMax && Returns(p)
  }

  lemma HalfwayStart(q0: seq<Item>, now: nat, delay: nat)
    ensures Halfway(q0, [], q0, {}, now, delay)
  {
    CleanedNone(q0);
  }

  lemma HalfwayPost(q0: seq<Item>, posts: seq<Post>, q: seq<Item>, gone: set<nat>, now: nat, delay: nat, accepted: nat)
    requires Halfway(q0, posts, q, gone, now, delay) && q != [] && Returns(Post(q[0], accepted))
    requires Due(q[0], now, delay) && q[0].resends <= q[0].resendsMax
    ensures Halfway(q0, posts + [Post(q[0], accepted)], q[1..], gone, now, delay)
  {
    hide CleanedAll, Posted, GoneTimedOut;
    OneMorePost(posts, Post(q[0], accepted), now);
    CleanedAllConcat(Posted(posts), [q[0]], gone);
    OneNotGone(q[0], gone);
    HeadMoves(CleanedAll(Posted(posts), gone), q);
    HeadMoves(Posted(posts), q);
  }

  lemma MoreGone(q0: seq<Item>, gone: set<nat>, x: Item)
    requires GoneTimedOut(q0, gone) && x in q0 && x.resends > x.resendsMax
    ensures GoneTimedOut(q0, gone + {x.partner})
  {
  }

  lemma StillThere(posted: multiset<Item>, q: seq<Item>, q0: seq<Item>)
    requires posted + multiset(q) <= multiset(q0) && q != []
    ensures q[0] in q0
  {
    assert q[0] in multiset(q);
    assert q[0] in multiset(q0);
  }

  lemma HalfwayReset(q0: seq<Item>, posts: seq<Post>, q: seq<Item>, gone: set<nat>, now: nat, delay: nat)
    requires Halfway(q0, posts, q, gone, now, delay) && q != [] && q[0].resends > q[0].resendsMax
    ensures Halfway(q0, posts, Cleaned(q, q[0].partner), gone + {q[0].partner}, now, delay)
  {
    hide CleanedAll, Posted, Cleaned, GoneTimedOut, AllDue;
    var p := q[0].partner;
    CleanedMore(q0, gone, p);
    CleanedMore(Posted(posts), gone, p);
    CleanedBoth(CleanedAll(Posted(posts), gone), q, p);
    CleanedCounts(q, p);
    StillThere(multiset(Posted(posts)), q, q0);
    MoreGone(q0, gone, q[0]);
  }

  lemma {:induction false} CleanedBoth(a: seq<Item>, b: seq<Item>, p: nat)
    ensures Cleaned(a + b, p) == Cleaned(a, p) + Cleaned(b, p)
  {
    if a == [] {
      assert a + b == b;
    } else {
      assert (a + b)[1..] == a[1..] + b;
      CleanedBoth(a[1..], b, p);
    }
  }

  // What a pass may do, whatever the driver answers: who was posted, what is
  // left to walk, and the partners reset.
  ghost predicate Pass(q0: seq<Item>, avail0: nat, now: nat, delay: nat, posts: seq<Post>, left: seq<Item>, gone: set<nat>) {
    && Halfway(q0, posts, left, gone, now, delay) && Credits(posts) <= avail0
    && (left != [] ==> !Due(left[0], now, delay) || (left[0].resends <= left[0].resendsMax && avail0 - Credits(posts) < left[0].frags))
  }

  // The non-acked queue after it.
  function QueueAfter(posts: seq<Post>, left: seq<Item>, gone: set<nat>, now: nat): seq<Item> {
    left + CleanedAll(ToQueue(posts, now), gone)
  }

  // The first part of omx__process_resend_requests. It ends, because each turn
  // shortens the queue. Each request that waited long enough is posted once,
  // the oldest first, until credits are short; but for the partners reset,
  // it is afterwards with the driver or behind the others.
  method ResendPass(q0: seq<Item>, sending0: seq<Item>, avail0: nat, now: nat, delay: nat)
    returns (q: seq<Item>, sending: seq<Item>, avail: nat, ghost posts: seq<Post>, ghost left: seq<Item>, ghost gone: set<nat>)
    ensures Pass(q0, avail0, now, delay, posts, left, gone)
    ensures sending == sending0 + ToDriver(posts, now)
    ensures q == QueueAfter(posts, left, gone, now)
    ensures avail == avail0 - Credits(posts)
  {
    hide *;
    q, sending, avail := q0, sending0, avail0;
    var tmp: seq<Item> := [];
    posts, gone := [], {};
    HalfwayStart(q0, now, delay);
    NothingPosted(now);
    while q != []
      invariant Halfway(q0, posts, q, gone, now, delay)
      invariant tmp == CleanedAll(ToQueue(posts, now), gone) && sending == sending0 + ToDriver(posts, now)
      invariant Credits(posts) <= avail0 && avail == avail0 - Credits(posts)
      decreases |q|
    {
      var req := q[0];
      DueIs(req, now, delay);
      if now < req.lastSend + delay {
        break;
      }
      if req.resends > req.resendsMax {
        CleanedShorter(q, req.partner, req);
        HalfwayReset(q0, posts, q, gone, now, delay);
        CleanedMore(ToQueue(posts, now), gone, req.partner);
        q := Cleaned(q, req.partner);
        tmp := Cleaned(tmp, req.partner);
        gone := gone + {req.partner};
      } else {
        if avail < req.frags {
          break;
        }
        var accepted: nat := *;
        if accepted > req.frags || (req.resends == 0 && req.frags > accepted + 1) {
          accepted := req.frags;
        }
        ReturnsIs(Post(req, accepted));
        HalfwayPost(q0, posts, q, gone, now, delay, accepted);
        Moved(q0, posts, q, gone, now, delay, accepted);
        avail := avail - req.frags;
        avail := avail + (req.frags - accepted);
        if accepted > 0 {
          sending := sending + [Reposted(Post(req, accepted), now)];
        } else {
          tmp := tmp + [Reposted(Post(req, accepted), now)];
        }
        posts := posts + [Post(req, accepted)];
        q := q[1..];
      }
    }
    left := q;
    q := q + tmp;
    PassEnds(q0, avail0, now, delay, posts, left, gone);
  }

  lemma DueIs(x: Item, now: nat, delay: nat)
    ensures Due(x, now, delay) <==> x.lastSend + delay <= now
  {
  }

  lemma ReturnsIs(p: Post)
    ensures Returns(p) <==> p.accepted <= p.item.frags && (p.item.resends == 0 ==> p.item.frags <= p.accepted + 1)
  {
  }

  lemma PassEnds(q0: seq<Item>, avail0: nat, now: nat, delay: nat, posts: seq<Post>, left: seq<Item>, gone: set<nat>)
    requires Halfway(q0, posts, left, gone, now, delay) && Credits(posts) <= avail0
    requires left != [] ==> !Due(left[0], now, delay) || (left[0].resends <= left[0].resendsMax && avail0 - Credits(posts) < left[0].frags)
    ensures Pass(q0, avail0, now, delay, posts, left, gone)
    ensures QueueAfter(posts, left, gone, now) == left + CleanedAll(ToQueue(posts, now), gone)
  {
    hide Halfway, Due, Credits, CleanedAll, ToQueue;
  }

  lemma NothingPosted(now: nat)
    ensures CleanedAll(ToQueue([], now), {}) == [] == ToDriver([], now) && Credits([]) == 0 && Posted([]) == []
  {
  }

  lemma Moved(q0: seq<Item>, posts: seq<Post>, q: seq<Item>, gone: set<nat>, now: nat, delay: nat, accepted: nat)
    requires Halfway(q0, posts, q, gone, now, delay) && q != []
    ensures var p := Post(q[0], accepted);
      && Credits(posts + [p]) == Credits(posts) + accepted
      && ToDriver(posts + [p], now) == ToDriver(posts, now) + (if accepted > 0 then [Reposted(p, now)] else [])
      && CleanedAll(ToQueue(posts + [p], now), gone)
         == CleanedAll(ToQueue(posts, now), gone) + (if accepted > 0 then [] else [Reposted(p, now)])
  {
    hide CleanedAll, ToQueue, ToDriver, Credits;
    var p := Post(q[0], accepted);
    OneMorePost(posts, p, now);
    CleanedAllConcat(ToQueue(posts, now), [Reposted(p, now)], gone);
    OneNotGone(Reposted(p, now), gone);
    assert ToQueue(posts, now) + [] == ToQueue(posts, now);
  }

  // ----- stopping at the first request that need not be sent again -----

  // No request behind one that is not due is due.
  ghost predicate StopIsSafe(q: seq<Item>, now: nat, delay: nat) {
    forall i, j :: 0 <= i < j < |q| && !Due(q[i], now, delay) ==> !Due(q[j], now, delay)
  }

  // A request with an older one behind it is due already.
  ghost predicate ByAge(q: seq<Item>, now: nat, delay: nat) {
    forall i, j :: 0 <= i < j < |q| ==> q[i].lastSend <= q[j].lastSend || Due(q[i], now, delay)
  }

  // Stopping is safe from some time on, while the queue stays as it is, if and
  // only if the queue is ordered by age as far as requests are not due yet.
  lemma StopIsSafeIff(q: seq<Item>, now: nat, delay: nat)
    ensures (forall t :: t >= now ==> StopIsSafe(q, t, delay)) <==> ByAge(q, now, delay)
  {
    if ByAge(q, now, delay) {
      forall t, i, j | t >= now && 0 <= i < j < |q| && !Due(q[i], t, delay)
        ensures !Due(q[j], t, delay)
      {
        assert !Due(q[i], now, delay);
      }
    }
    if forall t :: t >= now ==> StopIsSafe(q, t, delay) {
      forall i, j | 0 <= i < j < |q|
        ensures q[i].lastSend <= q[j].lastSend || Due(q[i], now, delay)
      {
        var t := if q[j].lastSend + delay < now then now else q[j].lastSend + delay;
        assert StopIsSafe(q, t, delay) && Due(q[j], t, delay);
      }
    }
  }

  // The posts whose requests are behind the others after the pass.
  function Staying(posts: seq<Post>, gone: set<nat>): seq<Post> {
    if posts == [] then []
    else
      var p := posts[|posts| - 1];
      Staying(posts[..|posts| - 1], gone) + if p.accepted > 0 || p.item.partner in gone then [] else [p]
  }

  lemma {:induction false} StayingIs(posts: seq<Post>, gone: set<nat>, now: nat)
    ensures |CleanedAll(ToQueue(posts, now), gone)| == |Staying(posts, gone)|
    ensures forall i :: 0 <= i < |Staying(posts, gone)| ==>
      var p := Staying(posts, gone)[i]; p in posts && p.accepted == 0 && CleanedAll(ToQueue(posts, now), gone)[i] == Reposted(p, now)
  {
    hide *;
    if posts == [] {
      NothingStays(gone, now);
    } else {
      var before, p := posts[..|posts| - 1], posts[|posts| - 1];
      assert posts == before + [p];
      StayingIs(before, gone, now);
      OneStays(before, p, gone, now);
    }
  }

  lemma NothingStays(gone: set<nat>, now: nat)
    ensures Staying([], gone) == [] && CleanedAll(ToQueue([], now), gone) == []
  {
  }

  lemma OneStays(before: seq<Post>, p: Post, gone: set<nat>, now: nat)
    ensures var stays := p.accepted == 0 && p.item.partner !in gone;
      && Staying(before + [p], gone) == Staying(before, gone) + (if stays then [p] else [])
      && CleanedAll(ToQueue(before + [p], now), gone) == CleanedAll(ToQueue(before, now), gone) + (if stays then [Reposted(p, now)] else [])
  {
    hide CleanedAll, ToQueue;
    assert (before + [p])[..|before|] == before;
    OneMorePost(before, p, now);
    CleanedAllConcat(ToQueue(before, now), [Reposted(p, now)], gone);
    OneCleaned(Reposted(p, now), gone);
    assert ToQueue(before, now) + [] == ToQueue(before, now);
  }

  lemma OneCleaned(x: Item, gone: set<nat>)
    ensures CleanedAll([x], gone) == if x.partner in gone then [] else [x]
  {
    assert [x][1..] == [] && [x] + [] == [x];
  }

  lemma {:induction false} CleanedByAge(q: seq<Item>, gone: set<nat>, now: nat, delay: nat)
    requires ByAge(q, now, delay)
    ensures ByAge(CleanedAll(q, gone), now, delay)
  {
    if q != [] {
      CleanedByAge(q[1..], gone, now, delay);
      var rest := CleanedAll(q[1..], gone);
      forall j | 0 <= j < |rest|
        ensures q[0].lastSend <= rest[j].lastSend || Due(q[0], now, delay)
      {
        assert rest[j] in q[1..];
      }
    }
  }

  // What the driver refused is in front among the requests put behind the
  // others, and no request left is younger.
  ghost predicate RefusedFirst(posts: seq<Post>, left: seq<Item>, gone: set<nat>, now: nat, delay: nat) {
    var s := Staying(posts, gone);
    forall k :: 0 <= k < |s| && Refused(s[k]) ==>
      (forall j :: 0 <= j < k ==> Refused(s[j])) && (forall x :: x in left ==> Due(x, now, delay))
  }

  // A pass keeps the queue in that order if and only if those refused again
  // get in front of all that are not due.
  lemma PassKeepsAgeIff(q0: seq<Item>, avail0: nat, now: nat, delay: nat, posts: seq<Post>, left: seq<Item>, gone: set<nat>)
    requires Pass(q0, avail0, now, delay, posts, left, gone) && delay > 0
    requires ByAge(q0, now, delay) && forall x :: x in q0 ==> x.lastSend <= now
    ensures ByAge(QueueAfter(posts, left, gone, now), now, delay) <==> RefusedFirst(posts, left, gone, now, delay)
  {
    hide Staying, ToQueue, CleanedAll, Posted, Credits;
    var s, tail, q := Staying(posts, gone), CleanedAll(ToQueue(posts, now), gone), QueueAfter(posts, left, gone, now);
    StayingIs(posts, gone, now);
    LeftByAge(q0, posts, left, gone, now, delay);
    forall i | 0 <= i < |s|
      ensures q[|left| + i] == Reposted(s[i], now) && Due(s[i].item, now, delay)
      ensures Refused(s[i]) ==> Due(q[|left| + i], now, delay)
      ensures !Refused(s[i]) ==> q[|left| + i].lastSend == now
    {
      assert q[|left| + i] == tail[i];
    }
    if RefusedFirst(posts, left, gone, now, delay) {
      forall i, j | 0 <= i < j < |q|
        ensures q[i].lastSend <= q[j].lastSend || Due(q[i], now, delay)
      {
        if i >= |left| {
          assert j - |left| < |s| && q[j] == q[|left| + (j - |left|)] && q[i] == q[|left| + (i - |left|)];
        } else if j >= |left| {
          assert j - |left| < |s| && q[j] == q[|left| + (j - |left|)] && q[i] in left;
        } else {
          assert q[i] == left[i] && q[j] == left[j];
        }
      }
    }
    if ByAge(q, now, delay) {
      forall k | 0 <= k < |s| && Refused(s[k])
        ensures (forall j :: 0 <= j < k ==> Refused(s[j])) && (forall x :: x in left ==> Due(x, now, delay))
      {
        assert q[|left| + k].lastSend < now;
        forall j | 0 <= j < k ensures Refused(s[j]) {
          assert q[|left| + j].lastSend <= q[|left| + k].lastSend || Due(q[|left| + j], now, delay);
        }
        forall x | x in left ensures Due(x, now, delay) {
          var i :| 0 <= i < |left| && left[i] == x;
          assert q[i].lastSend <= q[|left| + k].lastSend || Due(q[i], now, delay);
        }
      }
    }
  }

  lemma SuffixByAge(q: seq<Item>, first: seq<Item>, left: seq<Item>, now: nat, delay: nat)
    requires q == first + left && ByAge(q, now, delay) && forall x :: x in q ==> x.lastSend <= now
    ensures ByAge(left, now, delay) && forall x :: x in left ==> x.lastSend <= now
  {
    assert forall i :: 0 <= i < |left| ==> left[i] == q[|first| + i];
    forall x | x in left ensures x in q { }
  }

  lemma LeftByAge(q0: seq<Item>, posts: seq<Post>, left: seq<Item>, gone: set<nat>, now: nat, delay: nat)
    requires Halfway(q0, posts, left, gone, now, delay)
    requires ByAge(q0, now, delay) && forall x :: x in q0 ==> x.lastSend <= now
    ensures ByAge(left, now, delay) && forall x :: x in left ==> x.lastSend <= now
  {
    hide *;
    CleanedByAge(q0, gone, now, delay);
    LeftIs(q0, posts, left, gone, now, delay);
    SuffixByAge(CleanedAll(q0, gone), CleanedAll(Posted(posts), gone), left, now, delay);
  }

  lemma LeftIs(q0: seq<Item>, posts: seq<Post>, left: seq<Item>, gone: set<nat>, now: nat, delay: nat)
    requires Halfway(q0, posts, left, gone, now, delay)
    ensures CleanedAll(q0, gone) == CleanedAll(Posted(posts), gone) + left
  {
    hide CleanedAll, Posted, GoneTimedOut, AllDue;
  }

  // A request that joins the queue, after its first post or when the driver
  // is done with it, keeps the order if and only if no younger one is waiting.
  lemma JoinKeepsAgeIff(q: seq<Item>, x: Item, now: nat, delay: nat)
    ensures ByAge(q + [x], now, delay)
       <==> ByAge(q, now, delay) && forall y :: y in q ==> y.lastSend <= x.lastSend || Due(y, now, delay)
  {
    var out := q + [x];
    if ByAge(out, now, delay) {
      assert forall i, j :: 0 <= i < j < |q| ==> out[i] == q[i] && out[j] == q[j];
      forall y | y in q ensures y.lastSend <= x.lastSend || Due(y, now, delay) {
        var i :| 0 <= i < |q| && q[i] == y;
        assert out[i] == y && out[|q|] == x;
      }
    }
  }

  // A mediumsq refused while a younger request is not due yet is behind it
  // afterwards.
  lemma RefusedGoesBehind(avail: nat)
    requires avail >= 2
    ensures var refused, younger := Item(0, 0, 2, 1, 9, 0), Item(1, 0, 0, 1, 9, 50);
      && Pass([refused, younger], avail, 100, 60, [Post(refused, 0)], [younger], {})
      && QueueAfter([Post(refused, 0)], [younger], {}, 100) == [younger, refused]
  {
    hide *;
    var refused, younger := Item(0, 0, 2, 1, 9, 0), Item(1, 0, 0, 1, 9, 50);
    OnePost(Post(refused, 0), 100);
    RefusedAlone(refused, younger, avail, Post(refused, 0));
  }

  lemma RefusedAlone(x: Item, y: Item, avail: nat, p: Post)
    requires p.item == x && p.accepted == 0 && x.frags == 2 && x.resends == 1 && x.resendsMax == 9 && x.lastSend == 0 && y.lastSend == 50
    requires Posted([p]) == [x] && Credits([p]) == 0 && ToQueue([p], 100) == [x]
    ensures Pass([x, y], avail, 100, 60, [p], [y], {}) && QueueAfter([p], [y], {}, 100) == [y, x]
  {
    hide Posted, Credits, ToQueue, CleanedAll;
    CleanedNone([x]);
    CleanedNone([x, y]);
    assert [x, y] == [x] + [y] && [y, x] == [y] + [x];
  }

  // The next pass then posts nothing, though the mediumsq is due.
  lemma RefusedIsPassedOver(avail: nat, posts: seq<Post>, left: seq<Item>, gone: set<nat>)
    requires Pass([Item(1, 0, 0, 1, 9, 50), Item(0, 0, 2, 1, 9, 0)], avail, 101, 60, posts, left, gone)
    ensures posts == [] && left == [Item(1, 0, 0, 1, 9, 50), Item(0, 0, 2, 1, 9, 0)] && Due(left[1], 101, 60)
  {
    hide CleanedAll, Posted, Credits;
    var q := [Item(1, 0, 0, 1, 9, 50), Item(0, 0, 2, 1, 9, 0)];
    NoneGone(q, gone);
    CleanedNone(q);
    CleanedNone(Posted(posts));
    if posts != [] {
      FirstPosted(posts);
    } else {
      NothingPosted(101);
    }
  }

  lemma OnePost(p: Post, now: nat)
    ensures Posted([p]) == [p.item] && Credits([p]) == p.accepted
    ensures ToQueue([p], now) == if p.accepted > 0 then [] else if Refused(p) then [p.item] else [Reposted(p, now)]
    ensures Refused(p) <==> p.item.frags > 0 && p.accepted == 0
  {
    assert [] + [p] == [p];
    OneMorePost([], p, now);
  }

  lemma NoneGone(q: seq<Item>, gone: set<nat>)
    requires GoneTimedOut(q, gone) && forall x :: x in q ==> x.resends <= x.resendsMax
    ensures gone == {}
  {
  }

  lemma {:induction false} FirstPosted(posts: seq<Post>)
    requires posts != []
    ensures |Posted(posts)| > 0 && Posted(posts)[0] == posts[0].item
  {
    if |posts| > 1 {
      FirstPosted(posts[..|posts| - 1]);
    }
  }

  // Sent at 0 and done in the driver at 55, behind a request sent at 50.
  lemma DriverDoneIsBehind()
    ensures var done, younger := Item(0, 0, 2, 1, 9, 0), Item(1, 0, 0, 1, 9, 50);
      ByAge([younger], 55, 60) && !ByAge([younger] + [done], 55, 60)
      && Due(done, 60, 60) && !StopIsSafe([younger] + [done], 60, 60)
  {
    var done, younger := Item(0, 0, 2, 1, 9, 0), Item(1, 0, 0, 1, 9, 50);
    JoinKeepsAgeIff([younger], done, 55, 60);
    var q := [younger] + [done];
    assert q[0] == younger && q[1] == done && !Due(q[0], 60, 60) && Due(q[1], 60, 60);
  }

  // ----- the count of resends -----

  // The driver's answers to the posts of a request, with their times.
  function Repeated(x: Item, answers: seq<(nat, nat)>): Item {
    if answers == [] then x
    else
      var (accepted, now) := answers[|answers| - 1];
      Reposted(Post(Repeated(x, answers[..|answers| - 1]), accepted), now)
  }

  function Taken(x: Item, answers: seq<(nat, nat)>): nat {
    if answers == [] then 0
    else Taken(x, answers[..|answers| - 1]) + if x.frags > 0 && answers[|answers| - 1].0 == 0 then 0 else 1
  }

  // A request times out by the posts that were not refused entirely, and never
  // while the driver goes on refusing.
  lemma {:induction false} TimesOutIff(x: Item, answers: seq<(nat, nat)>)
    ensures var y := Repeated(x, answers);
      && y == x.(resends := y.resends, lastSend := y.lastSend)
      && (y.resends > y.resendsMax <==> x.resends + Taken(x, answers) > x.resendsMax)
      && (Taken(x, answers) == 0 ==> y == x)
    ensures Repeated(x, answers).resends == x.resends + Taken(x, answers)
  {
    if answers != [] {
      TimesOutIff(x, answers[..|answers| - 1]);
    }
  }
}
