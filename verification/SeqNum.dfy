// Sequence-number arithmetic of omx_types.h: 14 bits of sequence number below
// 2 bits of session number, packed in 16 bits.
module SeqNum {

  const SEQNUM_RANGE: nat := 0x4000
  const SESSIONS: nat := 4
  const EARLY_PACKET_OFFSET_MAX: nat := 0xff
  const THROTTLING_OFFSET_MAX: nat := (SEQNUM_RANGE - 1) / 2

  // omx__seqnum_t
  type SeqNum16 = x: int | 0 <= x < 0x10000

  // OMX__SEQNUM: the C operand is an int, so a difference may be negative;
  // masking its two's complement is the Euclidean remainder.
  function Seq(x: int): nat {
    x % SEQNUM_RANGE
  }

  // OMX__SESNUM_SHIFTED
  function Ses(x: SeqNum16): nat {
    x / SEQNUM_RANGE
  }

  // OMX__SEQNUM_INCREASE_BY
  function IncreaseBy(x: SeqNum16, n: nat): SeqNum16 {
    Ses(x) * SEQNUM_RANGE + Seq(x + n)
  }

  // The 16-bit field that carries the unbounded number n in a session.
  function Wire(session: nat, n: nat): SeqNum16
    requires session < SESSIONS
  {
    session * SEQNUM_RANGE + n % SEQNUM_RANGE
  }

  // Increasing the 16-bit field tracks increasing the unbounded number: the
  // session bits survive every wrap.
  lemma IncreaseIsWire(session: nat, n: nat, k: nat)
    requires session < SESSIONS
    ensures IncreaseBy(Wire(session, n), k) == Wire(session, n + k)
    ensures Ses(Wire(session, n)) == session
  {
  }

  // A masked difference of two fields of one session is the difference of the
  // unbounded numbers modulo the range.
  lemma WireDifference(session: nat, a: nat, b: nat)
    requires session < SESSIONS
    ensures Seq(Wire(session, a) - Wire(session, b)) == (a - b) % SEQNUM_RANGE
    ensures 0 <= a - b < SEQNUM_RANGE ==> Seq(Wire(session, a) - Wire(session, b)) == a - b
  {
  }

  // How a receiver treats an incoming sequence number.
  datatype Class =
    | Match     // the next message to match
    | Within    // already matched, maybe not entirely received
    | Early     // to be postponed
    | Previous  // last fully received message: its ack was probably lost
    | Obsolete  // dropped

  // The branches of omx__process_recv on the 14-bit fields.
  function Classify(nextMatch: SeqNum16, nextFrag: SeqNum16, seqnum: SeqNum16): Class {
    var fragIndex := Seq(seqnum - nextFrag);
    var fragIndexMax := Seq(nextMatch - nextFrag);
    if fragIndex <= fragIndexMax then
      if Seq(seqnum - nextMatch) == 0 then Match else Within
    else if fragIndex <= fragIndexMax + EARLY_PACKET_OFFSET_MAX then Early
    else if fragIndex == Seq(-1) then Previous
    else Obsolete
  }

  // The same decision on unbounded numbers.
  function ClassifyUnbounded(nextMatch: nat, nextFrag: nat, n: nat): Class {
    if n == nextMatch then Match
    else if nextFrag <= n < nextMatch then Within
    else if nextMatch < n <= nextMatch + EARLY_PACKET_OFFSET_MAX then Early
    else if n + 1 == nextFrag then Previous
    else Obsolete
  }

  // How far back a packet may come from before its number looks new again.
  const MAX_AGE: nat := SEQNUM_RANGE - 1 - EARLY_PACKET_OFFSET_MAX

  // What the network and the sender's window guarantee about an incoming number.
  predicate Fresh(nextMatch: nat, nextFrag: nat, n: nat) {
    nextMatch <= n + MAX_AGE && n < nextFrag + THROTTLING_OFFSET_MAX
  }

  lemma ClassifyAgrees(session: nat, nextMatch: nat, nextFrag: nat, n: nat)
    requires session < SESSIONS
    requires nextFrag <= nextMatch <= nextFrag + THROTTLING_OFFSET_MAX
    requires Fresh(nextMatch, nextFrag, n)
    ensures Classify(Wire(session, nextMatch), Wire(session, nextFrag), Wire(session, n))
         == ClassifyUnbounded(nextMatch, nextFrag, n)
  {
    WireDifference(session, n, nextFrag);
    WireDifference(session, nextMatch, nextFrag);
    WireDifference(session, n, nextMatch);
  }

  // The age bound is exact: over the whole first wrap, an already received
  // number is treated as one if and only if it is at most MAX_AGE behind.
  lemma AgeBoundIsExact(session: nat, nextMatch: nat, nextFrag: nat, n: nat)
    requires session < SESSIONS
    requires nextFrag <= nextMatch <= nextFrag + THROTTLING_OFFSET_MAX
    requires n < nextFrag && nextMatch <= n + SEQNUM_RANGE
    ensures Classify(Wire(session, nextMatch), Wire(session, nextFrag), Wire(session, n))
            == ClassifyUnbounded(nextMatch, nextFrag, n)
       <==> nextMatch <= n + MAX_AGE
  {
    WireDifference(session, n, nextFrag);
    WireDifference(session, nextMatch, nextFrag);
    WireDifference(session, n, nextMatch);
  }

  // A concrete stale packet one step past the bound: number 1 is taken for an
  // early packet when 16130 is expected.
  lemma StalePacketLooksNew()
    ensures Classify(Wire(0, 16130), Wire(0, 16130), Wire(0, 1)) == Early
    ensures ClassifyUnbounded(16130, 16130, 1) == Obsolete
  {
  }

  // ----- acknowledgements -----

  // The test of omx__handle_ack: the new next number to be acked.
  function AckBefore(nextSend: SeqNum16, nextAcked: SeqNum16, ack: SeqNum16): SeqNum16 {
    var missingAcks := Seq(nextSend - nextAcked);
    var newAcks := Seq(ack - nextAcked);
    if newAcks == 0 || newAcks > missingAcks then nextAcked else ack
  }

  function Max(a: nat, b: nat): nat {
    if a < b then b else a
  }

  // An ack for a number already sent moves the field to the maximum of the two
  // numbers if and only if it is not so stale that it looks new.
  lemma AckIsMax(session: nat, nextSend: nat, nextAcked: nat, ack: nat)
    requires session < SESSIONS
    requires nextAcked <= nextSend <= nextAcked + THROTTLING_OFFSET_MAX
    requires ack <= nextSend && nextAcked < ack + SEQNUM_RANGE
    ensures AckBefore(Wire(session, nextSend), Wire(session, nextAcked), Wire(session, ack))
            == Wire(session, Max(nextAcked, ack))
       <==> nextAcked <= ack || nextAcked - ack < SEQNUM_RANGE - (nextSend - nextAcked)
  {
    WireDifference(session, nextSend, nextAcked);
    WireDifference(session, ack, nextAcked);
    if nextAcked > ack {
      WireDifference(session, nextAcked, ack);
    }
  }

  // A concrete stale ack: with numbers 12000 to 19999 to be acked, one for what
  // is below 3616 acks them all.
  lemma StaleAckLooksNew()
    ensures AckBefore(Wire(0, 20000), Wire(0, 12000), Wire(0, 3616)) == Wire(0, 20000) != Wire(0, Max(12000, 3616))
  {
  }

  const MAX_ACK_STALENESS: nat := SEQNUM_RANGE / 2

  // Whatever the window holds, half the range is always safe.
  lemma HalfRangeIsSafe(session: nat, nextSend: nat, nextAcked: nat, ack: nat)
    requires session < SESSIONS
    requires nextAcked <= nextSend <= nextAcked + THROTTLING_OFFSET_MAX
    requires ack <= nextSend && nextAcked <= ack + MAX_ACK_STALENESS
    ensures AckBefore(Wire(session, nextSend), Wire(session, nextAcked), Wire(session, ack))
            == Wire(session, Max(nextAcked, ack))
  {
    AckIsMax(session, nextSend, nextAcked, ack);
  }
}
