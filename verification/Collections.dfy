// Small notions about sequences used by several components.
module Collections {

  ghost predicate NoDup<T(!new)>(q: seq<T>) {
    forall i, j :: 0 <= i < j < |q| ==> q[i] != q[j]
  }

  function SetOf(q: seq<nat>): set<nat> {
    set x | x in q
  }

  // What list_del leaves of a queue.
  function Without(q: seq<nat>, id: nat): (out: seq<nat>)
    ensures forall x :: x in out <==> x in q && x != id
  {
    if q == [] then [] else if q[0] == id then Without(q[1..], id) else [q[0]] + Without(q[1..], id)
  }

  lemma {:induction false} WithoutOk(q: seq<nat>, id: nat)
    requires NoDup(q)
    ensures NoDup(Without(q, id))
  {
    if q != [] {
      var rest := Without(q[1..], id);
      assert forall k :: 0 <= k < |q[1..]| ==> q[1..][k] == q[k + 1];
      assert q[0] !in q[1..];
      WithoutOk(q[1..], id);
      assert q[0] !in rest;
      assert forall k :: 0 <= k < |rest| ==> rest[k] in rest;
    }
  }

  // list_del on a queue without duplicates
  lemma {:induction false} WithoutHead(q: seq<nat>)
    requires q != [] && NoDup(q)
    ensures Without(q, q[0]) == q[1..]
  {
    assert q[0] !in q[1..];
    WithoutAbsent(q[1..], q[0]);
  }

  lemma {:induction false} WithoutAbsent(q: seq<nat>, id: nat)
    requires id !in q
    ensures Without(q, id) == q
  {
    if q != [] {
      WithoutAbsent(q[1..], id);
    }
  }

  lemma {:induction false} WithoutShorter(q: seq<nat>, id: nat)
    ensures |Without(q, id)| <= |q|
  {
    if q != [] {
      WithoutShorter(q[1..], id);
    }
  }

  lemma AppendNoDup(q: seq<nat>, x: nat)
    requires NoDup(q) && x !in q
    ensures NoDup(q + [x]) && NoDup([x] + q)
  {
    assert forall k :: 0 <= k < |q| ==> q[k] in q;
  }

  lemma TailNoDup(q: seq<nat>, x: nat, rest: seq<nat>)
    requires NoDup(q) && q == [x] + rest
    ensures NoDup(rest) && x !in rest
    ensures forall y :: y in q <==> y == x || y in rest
  {
    assert forall k :: 0 <= k < |rest| ==> rest[k] == q[k + 1];
    assert q[0] == x;
  }

  lemma SplitHead(q: seq<nat>)
    requires q != []
    ensures q == [q[0]] + q[1..]
  {
  }

  lemma Regroup(a: seq<nat>, b: seq<nat>, c: seq<nat>)
    ensures (a + b) + c == a + (b + c)
  {
  }

  lemma NothingAdded(a: seq<nat>)
    ensures [] + a == a && a + [] == a
  {
  }
}
