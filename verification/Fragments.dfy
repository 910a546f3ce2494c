// How a medium message is cut into fragments, and why counting received bytes
// tells when the last fragment has come.
module Fragments {

  // OMX_MEDIUM_FRAG_LENGTH_MAX and OMX_MEDIUM_FRAGS_MAX
  const FRAG_LENGTH_MAX: nat := 4096
  const FRAGS_MAX: nat := 32

  function FragsNr(length: nat): nat {
    (length + FRAG_LENGTH_MAX - 1) / FRAG_LENGTH_MAX
  }

  // Fragment k of a message: every fragment is full but the last.
  function FragLength(length: nat, k: nat): (n: nat)
    requires k < FragsNr(length)
    ensures 0 < n <= FRAG_LENGTH_MAX
    ensures k * FRAG_LENGTH_MAX + n <= length
    ensures n < FRAG_LENGTH_MAX ==> k * FRAG_LENGTH_MAX + n == length
  {
    if length - k * FRAG_LENGTH_MAX > FRAG_LENGTH_MAX then FRAG_LENGTH_MAX else length - k * FRAG_LENGTH_MAX
  }

  // The first k fragments.
  function Below(k: nat): (below: set<nat>)
    ensures forall j: nat :: j in below <==> j < k
  {
    if k == 0 then {} else Below(k - 1) + {k - 1}
  }

  predicate AllReceived(length: nat, got: set<nat>) {
    forall k: nat :: k < FragsNr(length) ==> k in got
  }

  // Bytes of the received fragments among the first n.
  function BytesBelow(length: nat, got: set<nat>, n: nat): nat
    requires n <= FragsNr(length)
  {
    if n == 0 then 0
    else BytesBelow(length, got, n - 1) + if n - 1 in got then FragLength(length, n - 1) else 0
  }

  function ReceivedBytes(length: nat, got: set<nat>): nat {
    BytesBelow(length, got, FragsNr(length))
  }

  lemma {:induction false} AddOneBelow(length: nat, got: set<nat>, k: nat, n: nat)
    requires k < FragsNr(length) && n <= FragsNr(length) && k !in got
    ensures BytesBelow(length, got + {k}, n)
         == BytesBelow(length, got, n) + if k < n then FragLength(length, k) else 0
  {
    if n > 0 {
      AddOneBelow(length, got, k, n - 1);
    }
  }

  lemma {:induction false} NoneBelow(length: nat, n: nat)
    requires n <= FragsNr(length)
    ensures BytesBelow(length, {}, n) == 0
  {
    if n > 0 {
      NoneBelow(length, n - 1);
    }
  }

  // The first n fragments weigh n full fragments, or the whole message.
  lemma {:induction false} BytesBelowBound(length: nat, got: set<nat>, n: nat)
    requires n <= FragsNr(length)
    ensures BytesBelow(length, got, n) <= if n == FragsNr(length) then length else n * FRAG_LENGTH_MAX
    ensures BytesBelow(length, got, n) == (if n == FragsNr(length) then length else n * FRAG_LENGTH_MAX)
       <==> forall k: nat :: k < n ==> k in got
  {
    if n > 0 {
      BytesBelowBound(length, got, n - 1);
    }
  }

  // The accumulated length reaches the message length exactly when no fragment
  // is missing, whatever the order of arrival.
  lemma CompleteIffAllBytes(length: nat, got: set<nat>)
    ensures ReceivedBytes(length, got) == length <==> AllReceived(length, got)
    ensures ReceivedBytes(length, got) <= length
  {
    BytesBelowBound(length, got, FragsNr(length));
  }

  lemma AddFragment(length: nat, got: set<nat>, k: nat)
    requires k < FragsNr(length) && k !in got
    ensures ReceivedBytes(length, got + {k}) == ReceivedBytes(length, got) + FragLength(length, k)
  {
    AddOneBelow(length, got, k, FragsNr(length));
  }

  lemma FirstFragment(length: nat, k: nat)
    requires k < FragsNr(length)
    ensures ReceivedBytes(length, {k}) == FragLength(length, k)
  {
    NoneBelow(length, FragsNr(length));
    AddFragment(length, {}, k);
    assert {} + {k} == {k};
  }
}
