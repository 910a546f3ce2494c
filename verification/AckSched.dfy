// Which partners are owed an ack, and when it is sent (omx_lib.h, omx_ack.c).
module AckSched {
  import opened Collections
  import opened SeqNum

  type Pid = nat

  datatype NeedAck = NeedNoAck | NeedAckDelayed | NeedAckImmediate

  datatype Partner = Partner(nextFrag: SeqNum16, lastAcked: SeqNum16, needAck: NeedAck, oldest: nat)

  // The unbounded numbers behind the two fields.
  datatype Numbers = Numbers(session: nat, frag: nat, acked: nat)

  // The list is in the order in which its partners became owed an ack.
  ghost predicate Sorted(q: seq<Pid>, partners: map<Pid, Partner>) {
    forall i, j :: 0 <= i < j < |q| && q[i] in partners && q[j] in partners ==> partners[q[i]].oldest <= partners[q[j]].oldest
  }

  lemma {:induction false} WithoutKeeps(q: seq<Pid>, p: Pid, partners: map<Pid, Partner>)
    requires NoDup(q)
    ensures NoDup(Without(q, p))
    ensures Sorted(q, partners) ==> Sorted(Without(q, p), partners)
  {
    hide *;
    if q == [] {
      WithoutNone(p, partners);
    } else {
      HeadFirst(q, partners);
      WithoutKeeps(q[1..], p, partners);
      WithoutHeadKeeps(q, p, partners, Without(q[1..], p));
    }
  }

  lemma WithoutNone(p: Pid, partners: map<Pid, Partner>)
    ensures Without([], p) == [] && NoDup<Pid>([]) && Sorted([], partners)
  {
  }

  lemma HeadFirst(q: seq<Pid>, partners: map<Pid, Partner>)
    requires NoDup(q) && q != []
    ensures NoDup(q[1..]) && q[0] !in q[1..]
    ensures Sorted(q, partners) ==> Sorted(q[1..], partners) && forall x :: x in q[1..] && x in partners && q[0] in partners ==> partners[q[0]].oldest <= partners[x].oldest
  {
    assert forall k :: 0 <= k < |q[1..]| ==> q[1..][k] == q[k + 1];
  }

  lemma WithoutHeadKeeps(q: seq<Pid>, p: Pid, partners: map<Pid, Partner>, rest: seq<Pid>)
    requires q != [] && rest == Without(q[1..], p) && q[0] !in q[1..] && NoDup(rest)
    ensures NoDup(Without(q, p))
    ensures Sorted(rest, partners) && (forall x :: x in q[1..] && x in partners && q[0] in partners ==> partners[q[0]].oldest <= partners[x].oldest)
      ==> Sorted(Without(q, p), partners)
  {
    var out := Without(q, p);
    assert forall k :: 0 <= k < |rest| ==> rest[k] in rest && rest[k] in q[1..];
    assert forall k :: 0 < k < |[q[0]] + rest| ==> ([q[0]] + rest)[k] == rest[k - 1];
  }

  lemma SortedSame(q: seq<Pid>, partners: map<Pid, Partner>, partners': map<Pid, Partner>)
    requires Sorted(q, partners) && partners'.Keys == partners.Keys
    requires forall p :: p in q && p in partners ==> partners'[p].oldest == partners[p].oldest
    ensures Sorted(q, partners')
  {
  }

  lemma AppendLast(q: seq<Pid>, p: Pid, partners: map<Pid, Partner>)
    requires NoDup(q) && p !in q && Sorted(q, partners)
    requires p in partners && forall x :: x in q && x in partners ==> partners[x].oldest <= partners[p].oldest
    ensures NoDup(q + [p]) && Sorted(q + [p], partners)
  {
    assert forall k :: 0 <= k < |q| ==> q[k] in q;
  }

  lemma PutFirst(q: seq<Pid>, p: Pid)
    requires NoDup(q) && p !in q
    ensures NoDup([p] + q) && NoDup(q + [p])
  {
    assert forall k :: 0 <= k < |q| ==> q[k] in q;
  }

  // The lists say what the partner's state says.
  ghost predicate ListedOk(p: Pid, partner: Partner, n: Numbers, immediate: seq<Pid>, delayed: seq<Pid>,
                           now: nat, cleanAt: nat, delay: nat) {
    && n.session < SESSIONS && n.acked <= n.frag < n.acked + SEQNUM_RANGE
    && partner.nextFrag == Wire(n.session, n.frag) && partner.lastAcked == Wire(n.session, n.acked)
    && (p in immediate <==> partner.needAck.NeedAckImmediate?)
    && (p in delayed <==> partner.needAck.NeedAckDelayed?)
    && (partner.needAck.NeedAckDelayed? ==> partner.oldest <= now && cleanAt < partner.oldest + delay)
  }

  // What has arrived in full but was not acked is never forgotten, and not
  // delayed when there is much of it.
  ghost predicate Obliged(partner: Partner, n: Numbers, notAckedMax: nat) {
    n.frag != n.acked ==>
      && !partner.needAck.NeedNoAck?
      && (n.frag - n.acked >= notAckedMax ==> partner.needAck.NeedAckImmediate?)
  }

  ghost predicate AllOk(partners: map<Pid, Partner>, numbers: map<Pid, Numbers>, immediate: seq<Pid>, delayed: seq<Pid>,
                        now: nat, cleanAt: nat, delay: nat, notAckedMax: nat, exempt: set<Pid>) {
    && partners.Keys == numbers.Keys
    && NoDup(immediate) && NoDup(delayed) && Sorted(delayed, partners)
    && (forall p :: p in immediate || p in delayed ==> p in partners)
    && (forall p {:trigger numbers[p]} {:trigger partners[p]} :: p in partners ==>
          ListedOk(p, partners[p], numbers[p], immediate, delayed, now, cleanAt, delay))
    && (forall p {:trigger numbers[p]} {:trigger partners[p]} :: p in partners && p !in exempt ==>
          Obliged(partners[p], numbers[p], notAckedMax))
  }

  // An ack is sent: the partner leaves its list.
  lemma AckedOk(partners: map<Pid, Partner>, numbers: map<Pid, Numbers>, immediate: seq<Pid>, delayed: seq<Pid>,
                now: nat, cleanAt: nat, delay: nat, notAckedMax: nat, p: Pid)
    requires AllOk(partners, numbers, immediate, delayed, now, cleanAt, delay, notAckedMax, {}) && p in partners
    ensures AllOk(partners[p := partners[p].(needAck := NeedNoAck, lastAcked := partners[p].nextFrag)],
                  numbers[p := numbers[p].(acked := numbers[p].frag)],
                  Without(immediate, p), Without(delayed, p), now, cleanAt, delay, notAckedMax, {})
  {
    var partners' := partners[p := partners[p].(needAck := NeedNoAck, lastAcked := partners[p].nextFrag)];
    var numbers' := numbers[p := numbers[p].(acked := numbers[p].frag)];
    hide ListedOk, Obliged, Sorted, NoDup, Without;
    var i, d := Without(immediate, p), Without(delayed, p);
    WithoutKeeps(delayed, p, partners);
    WithoutKeeps(immediate, p, partners);
    WithoutThe(immediate, p);
    WithoutThe(delayed, p);
    SortedSame(d, partners, partners');
    AckedOne(p, partners[p], numbers[p], immediate, delayed, now, cleanAt, delay, notAckedMax);
    forall q {:trigger numbers'[q]} {:trigger partners'[q]} | q in partners'
      ensures ListedOk(q, partners'[q], numbers'[q], i, d, now, cleanAt, delay) && Obliged(partners'[q], numbers'[q], notAckedMax)
    {
      if q != p {
        NotAcked(q, partners[q], numbers[q], immediate, delayed, i, d, now, cleanAt, delay);
        assert Obliged(partners[q], numbers[q], notAckedMax);
      }
    }
  }

  lemma WithoutThe(q: seq<Pid>, p: Pid)
    ensures forall x :: x in Without(q, p) <==> x in q && x != p
  {
  }

  lemma AckedOne(p: Pid, partner: Partner, n: Numbers, immediate: seq<Pid>, delayed: seq<Pid>,
                 now: nat, cleanAt: nat, delay: nat, notAckedMax: nat)
    requires ListedOk(p, partner, n, immediate, delayed, now, cleanAt, delay)
    ensures var partner', n' := partner.(needAck := NeedNoAck, lastAcked := partner.nextFrag), n.(acked := n.frag);
      && ListedOk(p, partner', n', Without(immediate, p), Without(delayed, p), now, cleanAt, delay)
      && Obliged(partner', n', notAckedMax)
  {
    hide Wire;
  }

  lemma NotAcked(q: Pid, partner: Partner, n: Numbers, immediate: seq<Pid>, delayed: seq<Pid>, i: seq<Pid>, d: seq<Pid>,
                 now: nat, cleanAt: nat, delay: nat)
    requires ListedOk(q, partner, n, immediate, delayed, now, cleanAt, delay)
    requires (q in i <==> q in immediate) && (q in d <==> q in delayed)
    ensures ListedOk(q, partner, n, i, d, now, cleanAt, delay)
  {
    hide Wire;
  }

  // A partner is on at most one list.
  lemma OneList(partners: map<Pid, Partner>, numbers: map<Pid, Numbers>, immediate: seq<Pid>, delayed: seq<Pid>,
                now: nat, cleanAt: nat, delay: nat, notAckedMax: nat, p: Pid)
    requires AllOk(partners, numbers, immediate, delayed, now, cleanAt, delay, notAckedMax, {}) && p in partners
    ensures partners[p].needAck.NeedAckImmediate? || Without(immediate, p) == immediate
    ensures partners[p].needAck.NeedAckDelayed? || Without(delayed, p) == delayed
  {
    assert ListedOk(p, partners[p], numbers[p], immediate, delayed, now, cleanAt, delay);
    hide Sorted, NoDup, Obliged;
    if p !in immediate {
      WithoutAbsent(immediate, p);
    }
    if p !in delayed {
      WithoutAbsent(delayed, p);
    }
  }

  // The partner goes from the delayed list, if it was there, to the other one.
  lemma ImmediateOk(partners: map<Pid, Partner>, numbers: map<Pid, Numbers>, immediate: seq<Pid>, delayed: seq<Pid>,
                    now: nat, cleanAt: nat, delay: nat, notAckedMax: nat, p: Pid)
    requires AllOk(partners, numbers, immediate, delayed, now, cleanAt, delay, notAckedMax, {p}) && p in partners && p !in immediate
    ensures var partners' := partners[p := partners[p].(needAck := NeedAckImmediate)];
      && AllOk(partners', numbers, [p] + immediate, Without(delayed, p), now, cleanAt, delay, notAckedMax, {})
      && AllOk(partners', numbers, immediate + [p], Without(delayed, p), now, cleanAt, delay, notAckedMax, {})
    ensures p !in delayed ==> Without(delayed, p) == delayed
  {
    var partners' := partners[p := partners[p].(needAck := NeedAckImmediate)];
    WithoutKeeps(delayed, p, partners);
    PutFirst(immediate, p);
    SortedSame(Without(delayed, p), partners, partners');
    if p !in delayed {
      WithoutAbsent(delayed, p);
    }
    hide Sorted, NoDup, Wire, Without;
    var d := Without(delayed, p);
    assert ListedOk(p, partners[p], numbers[p], immediate, delayed, now, cleanAt, delay);
    forall q {:trigger numbers[q]} {:trigger partners'[q]} | q in partners'
      ensures ListedOk(q, partners'[q], numbers[q], [p] + immediate, d, now, cleanAt, delay)
      ensures ListedOk(q, partners'[q], numbers[q], immediate + [p], d, now, cleanAt, delay)
      ensures Obliged(partners'[q], numbers[q], notAckedMax)
    {
      assert ListedOk(q, partners[q], numbers[q], immediate, delayed, now, cleanAt, delay);
      assert q != p ==> Obliged(partners[q], numbers[q], notAckedMax);
    }
    hide ListedOk, Obliged;
  }

  lemma Keys(partners: map<Pid, Partner>, numbers: map<Pid, Numbers>, immediate: seq<Pid>, delayed: seq<Pid>,
             now: nat, cleanAt: nat, delay: nat, notAckedMax: nat, exempt: set<Pid>, p: Pid)
    requires AllOk(partners, numbers, immediate, delayed, now, cleanAt, delay, notAckedMax, exempt)
    ensures partners.Keys == numbers.Keys && NoDup(immediate) && NoDup(delayed)
    ensures forall q :: q in immediate || q in delayed ==> q in partners
    ensures p in partners ==> ListedOk(p, partners[p], numbers[p], immediate, delayed, now, cleanAt, delay)
  {
    hide Sorted, NoDup, ListedOk, Obliged;
    assert p in partners ==> ListedOk(p, partners[p], numbers[p], immediate, delayed, now, cleanAt, delay);
  }

  // One partner changes, its place on the lists does not.
  lemma OneChanges(partners: map<Pid, Partner>, numbers: map<Pid, Numbers>, immediate: seq<Pid>, delayed: seq<Pid>,
                   now: nat, cleanAt: nat, delay: nat, notAckedMax: nat, exempt: set<Pid>, exempt': set<Pid>, p: Pid, partner: Partner, n: Numbers)
    requires AllOk(partners, numbers, immediate, delayed, now, cleanAt, delay, notAckedMax, exempt) && p in partners
    requires partner.oldest == partners[p].oldest && exempt <= exempt' + {p}
    requires ListedOk(p, partner, n, immediate, delayed, now, cleanAt, delay) && (p in exempt' || Obliged(partner, n, notAckedMax))
    ensures AllOk(partners[p := partner], numbers[p := n], immediate, delayed, now, cleanAt, delay, notAckedMax, exempt')
  {
    hide Sorted, NoDup, ListedOk, Obliged;
    var partners', numbers' := partners[p := partner], numbers[p := n];
    SortedSame(delayed, partners, partners');
    forall q {:trigger numbers'[q]} {:trigger partners'[q]} | q in partners'
      ensures ListedOk(q, partners'[q], numbers'[q], immediate, delayed, now, cleanAt, delay)
      ensures q !in exempt' ==> Obliged(partners'[q], numbers'[q], notAckedMax)
    {
      if q != p {
        assert ListedOk(q, partners[q], numbers[q], immediate, delayed, now, cleanAt, delay);
        assert q !in exempt ==> Obliged(partners[q], numbers[q], notAckedMax);
      }
    }
  }

  // More has arrived for partner p; whether it is listed is to be seen.
  lemma Arrived(p: Pid, partner: Partner, n: Numbers, immediate: seq<Pid>, delayed: seq<Pid>, now: nat, cleanAt: nat, delay: nat,
                newFrag: SeqNum16, frag: nat)
    requires ListedOk(p, partner, n, immediate, delayed, now, cleanAt, delay)
    requires newFrag == Wire(n.session, frag) && n.frag < frag < n.acked + SEQNUM_RANGE
    ensures ListedOk(p, partner.(nextFrag := newFrag), n.(frag := frag), immediate, delayed, now, cleanAt, delay)
    ensures n.session < SESSIONS && Seq(newFrag - partner.lastAcked) == frag - n.acked
  {
    WireDifference(n.session, frag, n.acked);
    hide Wire, Seq;
  }

  // The partner is put last on the delayed list.
  lemma DelayedOk(partners: map<Pid, Partner>, numbers: map<Pid, Numbers>, immediate: seq<Pid>, delayed: seq<Pid>,
                  now: nat, cleanAt: nat, delay: nat, notAckedMax: nat, p: Pid)
    requires AllOk(partners, numbers, immediate, delayed, now, cleanAt, delay, notAckedMax, {p}) && p in partners && p in numbers
    requires partners[p].needAck.NeedNoAck? && numbers[p].frag - numbers[p].acked < notAckedMax && cleanAt <= now && delay > 0
    ensures AllOk(partners[p := partners[p].(needAck := NeedAckDelayed, oldest := now)], numbers, immediate, delayed + [p],
                  now, cleanAt, delay, notAckedMax, {})
  {
    hide Sorted, NoDup, Obliged;
    var partners' := partners[p := partners[p].(needAck := NeedAckDelayed, oldest := now)];
    Keys(partners, numbers, immediate, delayed, now, cleanAt, delay, notAckedMax, {p}, p);
    SortedSame(delayed, partners, partners');
    NoneNewer(partners, numbers, immediate, delayed, now, cleanAt, delay, notAckedMax, {p});
    AppendLast(delayed, p, partners');
    NotMuch(partners'[p], numbers[p], notAckedMax);
    forall q {:trigger numbers[q]} {:trigger partners'[q]} | q in partners'
      ensures ListedOk(q, partners'[q], numbers[q], immediate, delayed + [p], now, cleanAt, delay)
      ensures Obliged(partners'[q], numbers[q], notAckedMax)
    {
      assert ListedOk(q, partners[q], numbers[q], immediate, delayed, now, cleanAt, delay);
      assert q != p ==> Obliged(partners[q], numbers[q], notAckedMax);
    }
  }

  lemma NoneNewer(partners: map<Pid, Partner>, numbers: map<Pid, Numbers>, immediate: seq<Pid>, delayed: seq<Pid>,
                  now: nat, cleanAt: nat, delay: nat, notAckedMax: nat, exempt: set<Pid>)
    requires AllOk(partners, numbers, immediate, delayed, now, cleanAt, delay, notAckedMax, exempt)
    ensures forall q :: q in delayed && q in partners ==> partners[q].oldest <= now
  {
    hide Sorted, NoDup, Obliged, Wire;
    forall q | q in delayed && q in partners
      ensures partners[q].oldest <= now
    {
      assert ListedOk(q, partners[q], numbers[q], immediate, delayed, now, cleanAt, delay);
    }
  }

  lemma NotMuch(partner: Partner, n: Numbers, notAckedMax: nat)
    requires !partner.needAck.NeedNoAck? && n.frag - n.acked < notAckedMax
    ensures Obliged(partner, n, notAckedMax)
  {
  }

  lemma Listed(p: Pid, partner: Partner, n: Numbers, immediate: seq<Pid>, delayed: seq<Pid>, now: nat, cleanAt: nat, delay: nat)
    requires ListedOk(p, partner, n, immediate, delayed, now, cleanAt, delay)
    ensures (p in immediate <==> partner.needAck.NeedAckImmediate?) && (p in delayed <==> partner.needAck.NeedAckDelayed?)
  {
    hide Wire;
  }

  // A partner already on a list needs nothing more.
  lemma ListedSuffices(partners: map<Pid, Partner>, numbers: map<Pid, Numbers>, immediate: seq<Pid>, delayed: seq<Pid>,
                       now: nat, cleanAt: nat, delay: nat, notAckedMax: nat, p: Pid)
    requires AllOk(partners, numbers, immediate, delayed, now, cleanAt, delay, notAckedMax, {p}) && p in partners && p in numbers
    requires partners[p].needAck.NeedAckImmediate? || (!partners[p].needAck.NeedNoAck? && numbers[p].frag - numbers[p].acked < notAckedMax)
    ensures AllOk(partners, numbers, immediate, delayed, now, cleanAt, delay, notAckedMax, {})
  {
    Keys(partners, numbers, immediate, delayed, now, cleanAt, delay, notAckedMax, {p}, p);
    hide Sorted, NoDup, ListedOk;
  }

  // Nothing arrives by sending acks; some partners are acked up to date.
  ghost predicate OnlyAcks(was: map<Pid, Numbers>, numbers: map<Pid, Numbers>) {
    && was.Keys == numbers.Keys
    && forall p :: p in numbers ==>
         && numbers[p] == was[p].(acked := numbers[p].acked)
         && (numbers[p].acked == was[p].acked || numbers[p].acked == numbers[p].frag)
  }

  class AckScheduler {
    const notAckedMax: nat
    const ackDelay: nat
    var partners: map<Pid, Partner>
    var immediate: seq<Pid>
    var delayed: seq<Pid>
    var jiffies: nat
    var lastAcking: nat
    ghost var numbers: map<Pid, Numbers>
    // last time the delayed list was found free of overdue partners
    ghost var cleanAt: nat

    // All partners but some are served.
    ghost predicate ValidBut(exempt: set<Pid>)
      reads this
    {
      && ackDelay > 0 && cleanAt <= jiffies
      && AllOk(partners, numbers, immediate, delayed, jiffies, cleanAt, ackDelay, notAckedMax, exempt)
    }

    ghost predicate Valid()
      reads this
    {
      ValidBut({})
    }

    // A partner that waited for its ack too long.
    predicate Overdue(p: Pid)
      reads this
    {
      p in partners && p in delayed && jiffies - partners[p].oldest >= ackDelay
    }

    constructor (sessions: map<Pid, nat>, notAckedMax: nat, ackDelay: nat)
      requires ackDelay > 0 && forall p :: p in sessions ==> sessions[p] < SESSIONS
      ensures Valid() && partners.Keys == sessions.Keys
    {
      this.notAckedMax, this.ackDelay := notAckedMax, ackDelay;
      partners := map p | p in sessions :: Partner(Wire(sessions[p], 1), Wire(sessions[p], 1), NeedNoAck, 0);
      numbers := map p | p in sessions :: Numbers(sessions[p], 1, 1);
      immediate, delayed, jiffies, lastAcking, cleanAt := [], [], 0, 0, 0;
    }

    method Tick(later: nat)
      requires Valid() && jiffies <= later
      modifies `jiffies
      ensures Valid() && jiffies == later
    {
      jiffies := later;
    }

    // omx__mark_partner_need_ack_delayed, for a gap that may wait.
    method MarkDelayed(p: Pid)
      requires ValidBut({p}) && p in partners && numbers[p].frag - numbers[p].acked < notAckedMax
      modifies `partners, `delayed
      ensures Valid() && partners == old(partners)[p := partners[p]] && partners[p].nextFrag == old(partners[p].nextFrag)
    {
      hide AllOk, ListedOk, Obliged, Sorted, NoDup, Without, Wire, Seq;
      Keys(partners, numbers, immediate, delayed, jiffies, cleanAt, ackDelay, notAckedMax, {p}, p);
      if partners[p].needAck.NeedNoAck? {
        DelayedOk(partners, numbers, immediate, delayed, jiffies, cleanAt, ackDelay, notAckedMax, p);
        partners := partners[p := partners[p].(needAck := NeedAckDelayed, oldest := jiffies)];
        delayed := delayed + [p];
      } else {
        ListedSuffices(partners, numbers, immediate, delayed, jiffies, cleanAt, ackDelay, notAckedMax, p);
      }
    }

    // omx__mark_partner_need_ack_immediate
    method MarkImmediate(p: Pid)
      requires ValidBut({p}) && p in partners
      modifies `partners, `immediate, `delayed
      ensures Valid() && partners == old(partners)[p := partners[p]] && partners[p].needAck.NeedAckImmediate?
      ensures partners[p].nextFrag == old(partners[p].nextFrag)
    {
      hide AllOk, ListedOk, Obliged, Sorted, NoDup, Without, Wire, Seq;
      Keys(partners, numbers, immediate, delayed, jiffies, cleanAt, ackDelay, notAckedMax, {p}, p);
      Listed(p, partners[p], numbers[p], immediate, delayed, jiffies, cleanAt, ackDelay);
      if !partners[p].needAck.NeedAckImmediate? {
        ImmediateOk(partners, numbers, immediate, delayed, jiffies, cleanAt, ackDelay, notAckedMax, p);
        if partners[p].needAck.NeedAckDelayed? {
          delayed := Without(delayed, p);
          immediate := [p] + immediate;
        } else {
          immediate := immediate + [p];
        }
        partners := partners[p := partners[p].(needAck := NeedAckImmediate)];
      } else {
        ListedSuffices(partners, numbers, immediate, delayed, jiffies, cleanAt, ackDelay, notAckedMax, p);
      }
    }

    // The end of omx__update_partner_next_frag_recv_seq: more has arrived. The
    // sender's window keeps the gap below the range of the numbers.
    method Advance(p: Pid, newFrag: SeqNum16, ghost frag: nat)
      requires Valid() && p in partners && newFrag == Wire(numbers[p].session, frag)
      requires numbers[p].frag < frag < numbers[p].acked + SEQNUM_RANGE
      modifies `partners, `immediate, `delayed, `numbers
      ensures Valid() && partners.Keys == old(partners.Keys)
      ensures numbers == old(numbers)[p := old(numbers[p]).(frag := frag)] && partners[p].nextFrag == newFrag
      ensures frag - numbers[p].acked >= notAckedMax ==> p in immediate
    {
      hide AllOk, ListedOk, Obliged, Sorted, NoDup, Without, Wire, Seq;
      Keys(partners, numbers, immediate, delayed, jiffies, cleanAt, ackDelay, notAckedMax, {}, p);
      Arrived(p, partners[p], numbers[p], immediate, delayed, jiffies, cleanAt, ackDelay, newFrag, frag);
      OneChanges(partners, numbers, immediate, delayed, jiffies, cleanAt, ackDelay, notAckedMax, {}, {p}, p,
                 partners[p].(nextFrag := newFrag), numbers[p].(frag := frag));
      partners := partners[p := partners[p].(nextFrag := newFrag)];
      numbers := numbers[p := numbers[p].(frag := frag)];
      if Seq(newFrag - partners[p].lastAcked) >= notAckedMax {
        MarkImmediate(p);
      } else {
        MarkDelayed(p);
      }
      Keys(partners, numbers, immediate, delayed, jiffies, cleanAt, ackDelay, notAckedMax, {}, p);
      Listed(p, partners[p], numbers[p], immediate, delayed, jiffies, cleanAt, ackDelay);
    }

    // omx__mark_partner_ack_sent
    method AckSent(p: Pid)
      requires Valid() && p in partners
      modifies `partners, `immediate, `delayed, `numbers
      ensures Valid() && partners.Keys == old(partners.Keys)
      ensures numbers == old(numbers)[p := old(numbers[p]).(acked := old(numbers[p].frag))]
      ensures immediate == Without(old(immediate), p) && delayed == Without(old(delayed), p)
      ensures forall q :: q in old(partners) && q != p ==> partners[q] == old(partners[q])
    {
      hide AllOk, ListedOk, Obliged, Sorted, NoDup, Without, Wire, Seq;
      Keys(partners, numbers, immediate, delayed, jiffies, cleanAt, ackDelay, notAckedMax, {}, p);
      AckedOk(partners, numbers, immediate, delayed, jiffies, cleanAt, ackDelay, notAckedMax, p);
      OneList(partners, numbers, immediate, delayed, jiffies, cleanAt, ackDelay, notAckedMax, p);
      match partners[p].needAck {
        case NeedNoAck =>
        case NeedAckDelayed => delayed := Without(delayed, p);
        case NeedAckImmediate => immediate := Without(immediate, p);
      }
      partners := partners[p := partners[p].(needAck := NeedNoAck, lastAcked := partners[p].nextFrag)];
      numbers := numbers[p := numbers[p].(acked := numbers[p].frag)];
    }

    // The first of a list got its ack.
    method ServeFirst(fromImmediate: bool)
      requires Valid() && if fromImmediate then immediate != [] else delayed != []
      modifies `partners, `immediate, `delayed, `numbers
      ensures Valid() && OnlyAcks(old(numbers), numbers)
      ensures if fromImmediate then immediate == old(immediate)[1..] && delayed == old(delayed)
              else delayed == old(delayed)[1..] && immediate == old(immediate)
      ensures partners.Keys == old(partners.Keys)
      ensures forall q :: q in partners && q != (if fromImmediate then old(immediate) else old(delayed))[0] ==> partners[q] == old(partners[q])
      ensures fromImmediate ==> old(immediate)[0] !in delayed
    {
      hide AllOk, ListedOk, Obliged, Sorted, NoDup, Without, Wire, Seq;
      Keys(partners, numbers, immediate, delayed, jiffies, cleanAt, ackDelay, notAckedMax, {}, if fromImmediate then immediate[0] else delayed[0]);
      var p := if fromImmediate then immediate[0] else delayed[0];
      assert p in if fromImmediate then immediate else delayed;
      Listed(p, partners[p], numbers[p], immediate, delayed, jiffies, cleanAt, ackDelay);
      if fromImmediate {
        WithoutHead(immediate);
        WithoutAbsent(delayed, p);
      } else {
        WithoutHead(delayed);
        WithoutAbsent(immediate, p);
      }
      AckSent(p);
    }

    // The first loop of omx__process_partners_to_ack; sending an ack may fail,
    // which ends it.
    method ServeImmediate() returns (allSent: bool)
      requires Valid()
      modifies `partners, `immediate, `delayed, `numbers
      ensures Valid() && OnlyAcks(old(numbers), numbers) && delayed == old(delayed) && (allSent ==> immediate == [])
      ensures partners.Keys == old(partners.Keys) && forall q :: q in delayed && q in partners ==> partners[q] == old(partners[q])
    {
      hide AllOk;
      allSent := true;
      while immediate != []
        invariant Valid() && OnlyAcks(old(numbers), numbers) && allSent && delayed == old(delayed)
        invariant partners.Keys == old(partners.Keys) && forall q :: q in delayed && q in partners ==> partners[q] == old(partners[q])
        decreases |immediate|
      {
        var sent: bool := *;
        if !sent {
          allSent := false;
          break;
        }
        ServeFirst(true);
      }
    }

    // The second one, up to the first partner that may still wait.
    method ServeDelayed() returns (allSent: bool)
      requires Valid()
      modifies `partners, `immediate, `delayed, `numbers, `cleanAt
      ensures Valid() && OnlyAcks(old(numbers), numbers) && immediate == old(immediate)
      ensures allSent ==> cleanAt == jiffies && forall p :: !Overdue(p)
    {
      while delayed != []
        invariant Valid() && OnlyAcks(old(numbers), numbers) && immediate == old(immediate) && cleanAt == old(cleanAt)
        decreases |delayed|
      {
        assert delayed[0] in delayed;
        if jiffies - partners[delayed[0]].oldest < ackDelay {
          break;
        }
        var sent: bool := *;
        if !sent {
          return false;
        }
        ServeFirst(false);
      }
      RestIsRecent();
      cleanAt := jiffies;
      allSent := true;
    }

    // omx__process_partners_to_ack: the delayed list is looked at by the first
    // call at a time only. A call whose sends all succeed leaves no partner
    // overdue if and only if it is that one, or none was overdue.
    method ProcessPartnersToAck() returns (allSent: bool)
      requires Valid()
      modifies `partners, `immediate, `delayed, `numbers, `lastAcking, `cleanAt
      ensures Valid() && OnlyAcks(old(numbers), numbers)
      ensures allSent ==> immediate == []
      ensures allSent && (old(lastAcking) != jiffies || old(cleanAt) == jiffies) ==> cleanAt == jiffies && forall p :: !Overdue(p)
      ensures allSent ==> ((forall p :: !Overdue(p)) <==> old(lastAcking) != jiffies || old(forall p :: !Overdue(p)))
    {
      hide AllOk;
      allSent := ServeImmediate();
      assert forall p :: Overdue(p) <==> old(Overdue(p));
      if jiffies == lastAcking {
        CleanIsClean();
        return;
      }
      lastAcking := jiffies;
      var delayedSent := ServeDelayed();
      allSent := allSent && delayedSent;
    }

    lemma CleanIsClean()
      requires Valid()
      ensures cleanAt == jiffies ==> forall p :: !Overdue(p)
    {
    }

    // The list being sorted, the first partner that is recent ends the search.
    lemma RestIsRecent()
      requires Valid() && (delayed == [] || jiffies - partners[delayed[0]].oldest < ackDelay)
      ensures forall p :: p in delayed ==> jiffies < partners[p].oldest + ackDelay
      ensures forall p :: !Overdue(p)
    {
      forall p | p in delayed
        ensures jiffies < partners[p].oldest + ackDelay
      {
        var k :| 0 <= k < |delayed| && delayed[k] == p;
        assert delayed[0] in delayed;
      }
    }

    // The wake-up time of omx__prepare_progress_wakeup: the first of the list
    // is the first to become overdue.
    method NextWakeup() returns (due: bool, at: nat)
      requires Valid()
      ensures due <==> delayed != []
      ensures due ==> forall p :: p in delayed ==> at <= partners[p].oldest + ackDelay
      ensures due ==> exists p :: p in delayed && at == partners[p].oldest + ackDelay
    {
      due := delayed != [];
      at := 0;
      if due {
        assert delayed[0] in delayed;
        at := partners[delayed[0]].oldest + ackDelay;
        forall p | p in delayed
          ensures at <= partners[p].oldest + ackDelay
        {
          var k :| 0 <= k < |delayed| && delayed[k] == p;
        }
      }
    }
  }
}
