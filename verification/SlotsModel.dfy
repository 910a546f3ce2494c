// Send-queue slots and the fragment-done events the driver owes for them.
module SlotsModel {
  import opened Collections
  import opened SenderModel

  // How many of the slots have an event to come.
  function Count(slots: seq<nat>, owed: set<nat>): nat {
    if slots == [] then 0 else (if slots[0] in owed then 1 else 0) + Count(slots[1..], owed)
  }

  lemma {:induction false} CountNone(slots: seq<nat>, owed: set<nat>)
    requires forall s :: s in slots ==> s !in owed
    ensures Count(slots, owed) == 0
  {
    if slots != [] {
      assert forall s :: s in slots[1..] ==> s in slots;
      CountNone(slots[1..], owed);
    }
  }

  lemma {:induction false} CountSome(slots: seq<nat>, owed: set<nat>, s: nat)
    requires s in slots && s in owed
    ensures Count(slots, owed) > 0
  {
    if slots[0] != s {
      CountSome(slots[1..], owed, s);
    }
  }

  lemma {:induction false} CountSame(slots: seq<nat>, owed: set<nat>, owed': set<nat>)
    requires forall s :: s in slots ==> (s in owed <==> s in owed')
    ensures Count(slots, owed') == Count(slots, owed)
  {
    if slots != [] {
      assert slots[0] in slots && forall s :: s in slots[1..] ==> s in slots;
      CountSame(slots[1..], owed, owed');
    }
  }

  lemma {:induction false} CountLess(slots: seq<nat>, owed: set<nat>, s: nat)
    requires NoDup(slots) && s in slots && s in owed
    ensures Count(slots, owed - {s}) == Count(slots, owed) - 1
  {
    assert forall k :: 0 <= k < |slots[1..]| ==> slots[1..][k] == slots[k + 1];
    if slots[0] == s {
      assert s !in slots[1..];
      CountSame(slots[1..], owed, owed - {s});
    } else {
      CountLess(slots[1..], owed, s);
    }
  }

  lemma {:induction false} CountPosted(slots: seq<nat>, n: nat)
    requires NoDup(slots) && n <= |slots|
    ensures Count(slots, SetOf(slots[..n])) == n
  {
    var owed := SetOf(slots[..n]);
    if n == 0 {
      CountNone(slots, owed);
    } else {
      var rest := slots[1..];
      assert forall k :: 0 <= k < |rest| ==> rest[k] == slots[k + 1];
      CountPosted(rest, n - 1);
      assert slots[..n] == [slots[0]] + rest[..n - 1];
      assert slots[0] !in rest;
      CountSame(rest, SetOf(rest[..n - 1]), owed);
    }
  }

  // The slots of request id are in its name, and as many events as it counts
  // are to come for them.
  ghost predicate RequestSlots(attrs: seq<Attr>, states: seq<State>, owners: map<nat, nat>, owed: set<nat>, id: Id)
    requires id < |attrs| && id < |states|
  {
    && (HoldsSlots(attrs[id], states[id]) ==> forall s :: s in states[id].slots ==> s in owners && owners[s] == id)
    && (states[id].sending ==> HoldsSlots(attrs[id], states[id]) && Count(states[id].slots, owed) == states[id].pending)
  }

  // A used slot belongs to a request that holds it; an event is owed only for
  // a slot of a request that is being sent.
  ghost predicate SlotUsed(attrs: seq<Attr>, states: seq<State>, owners: map<nat, nat>, owed: set<nat>, s: nat)
    requires s in owners
  {
    var id := owners[s];
    && id < |attrs| && id < |states| && HoldsSlots(attrs[id], states[id]) && s in states[id].slots
    && (s in owed ==> states[id].sending)
  }

  ghost predicate SlotsInv(attrs: seq<Attr>, states: seq<State>, owners: map<nat, nat>, owed: set<nat>) {
    && |attrs| == |states| && owed <= owners.Keys
    && (forall id {:trigger RequestSlots(attrs, states, owners, owed, id)} :: 0 <= id < |states| ==> RequestSlots(attrs, states, owners, owed, id))
    && (forall s {:trigger SlotUsed(attrs, states, owners, owed, s)} :: s in owners ==> SlotUsed(attrs, states, owners, owed, s))
  }

  // The event always finds its request.
  lemma EventFindsOwner(attrs: seq<Attr>, states: seq<State>, owners: map<nat, nat>, owed: set<nat>, slot: nat)
    requires SlotsInv(attrs, states, owners, owed) && slot in owed
    ensures slot in owners && owners[slot] < |states|
    ensures var st := states[owners[slot]]; st.sending && slot in st.slots && st.pending > 0
    ensures attrs[owners[slot]].kind.MediumSq?
  {
    assert SlotUsed(attrs, states, owners, owed, slot);
    assert RequestSlots(attrs, states, owners, owed, owners[slot]);
    CountSome(states[owners[slot]].slots, owed, slot);
  }

  // Slots may be released as soon as the request is no longer being sent.
  lemma NothingOwed(attrs: seq<Attr>, states: seq<State>, owners: map<nat, nat>, owed: set<nat>, id: Id)
    requires SlotsInv(attrs, states, owners, owed) && id < |states| && HoldsSlots(attrs[id], states[id]) && !states[id].sending
    ensures forall s :: s in states[id].slots ==> s in owners && s !in owed
  {
    forall s | s in states[id].slots
      ensures s in owners && s !in owed
    {
      assert RequestSlots(attrs, states, owners, owed, id);
      assert SlotUsed(attrs, states, owners, owed, s);
    }
  }

  ghost predicate OthersKeep(attrs: seq<Attr>, states: seq<State>, states': seq<State>, owners: map<nat, nat>, owners': map<nat, nat>,
                             owed: set<nat>, owed': set<nat>, id: Id)
    requires id < |states| == |attrs|
  {
    && |states'| == |states| && states' == states[id := states'[id]]
    && (forall s :: s in owners && owners[s] != id ==> s in owners' && owners'[s] == owners[s])
    && (forall s :: s in owners' && owners'[s] != id ==> s in owners && owners[s] == owners'[s])
    && (forall s :: s in owners' && owners'[s] != id ==> (s in owed <==> s in owed'))
  }

  // One request changes, with its slots and its events.
  lemma SlotsChange(attrs: seq<Attr>, states: seq<State>, states': seq<State>, owners: map<nat, nat>, owners': map<nat, nat>,
                    owed: set<nat>, owed': set<nat>, id: Id)
    requires SlotsInv(attrs, states, owners, owed) && id < |states| && OthersKeep(attrs, states, states', owners, owners', owed, owed', id)
    requires owed' <= owners'.Keys && RequestSlots(attrs, states', owners', owed', id)
    requires forall s :: s in owners' && owners'[s] == id ==> SlotUsed(attrs, states', owners', owed', s)
    ensures SlotsInv(attrs, states', owners', owed')
  {
    forall s {:trigger SlotUsed(attrs, states', owners', owed', s)} | s in owners'
      ensures SlotUsed(attrs, states', owners', owed', s)
    {
      if owners'[s] != id {
        assert SlotUsed(attrs, states, owners, owed, s);
      }
    }
    forall j {:trigger RequestSlots(attrs, states', owners', owed', j)} | 0 <= j < |states'|
      ensures RequestSlots(attrs, states', owners', owed', j)
    {
      if j != id {
        assert RequestSlots(attrs, states, owners, owed, j);
        if HoldsSlots(attrs[j], states[j]) {
          CountSame(states[j].slots, owed, owed');
        }
      }
    }
  }

  lemma SlotsKept(attrs: seq<Attr>, states: seq<State>, owners: map<nat, nat>, owed: set<nat>, id: Id, st: State)
    requires SlotsInv(attrs, states, owners, owed) && id < |states|
    requires st.slots == states[id].slots && HoldsSlots(attrs[id], st) == HoldsSlots(attrs[id], states[id])
    requires st.sending == states[id].sending && (st.sending ==> st.pending == states[id].pending)
    ensures SlotsInv(attrs, states[id := st], owners, owed)
  {
    assert RequestSlots(attrs, states, owners, owed, id);
    forall s | s in owners && owners[s] == id
      ensures SlotUsed(attrs, states[id := st], owners, owed, s)
    {
      assert SlotUsed(attrs, states, owners, owed, s);
    }
    SlotsChange(attrs, states, states[id := st], owners, owners, owed, owed, id);
  }

  lemma SlotsAdded(attrs: seq<Attr>, states: seq<State>, owners: map<nat, nat>, owed: set<nat>, attr: Attr, st: State)
    requires SlotsInv(attrs, states, owners, owed) && !st.sending && !HoldsSlots(attr, st)
    ensures SlotsInv(attrs + [attr], states + [st], owners, owed)
  {
    var attrs', states' := attrs + [attr], states + [st];
    forall s {:trigger SlotUsed(attrs', states', owners, owed, s)} | s in owners
      ensures SlotUsed(attrs', states', owners, owed, s)
    {
      assert SlotUsed(attrs, states, owners, owed, s);
    }
    forall j {:trigger RequestSlots(attrs', states', owners, owed, j)} | 0 <= j < |states'|
      ensures RequestSlots(attrs', states', owners, owed, j)
    {
      if j < |states| {
        assert RequestSlots(attrs, states, owners, owed, j);
      }
    }
  }

  lemma SlotsTaken(attrs: seq<Attr>, states: seq<State>, owners: map<nat, nat>, owed: set<nat>, id: Id, founds: seq<nat>)
    requires SlotsInv(attrs, states, owners, owed) && id < |states| && !HoldsSlots(attrs[id], states[id])
    requires forall s :: s in founds ==> s !in owners
    requires attrs[id].kind.MediumSq? && !states[id].sending && !states[id].done
    ensures SlotsInv(attrs, states[id := states[id].(slots := founds, missing := states[id].missing - {SendqSlot})],
                     owners + map s | s in founds :: id, owed)
  {
    var st := states[id].(slots := founds, missing := states[id].missing - {SendqSlot});
    var owners' := owners + map s | s in founds :: id;
    forall s | s in owners
      ensures owners[s] != id
    {
      assert SlotUsed(attrs, states, owners, owed, s);
    }
    SlotsChange(attrs, states, states[id := st], owners, owners', owed, owed, id);
  }

  lemma SlotsPosted(attrs: seq<Attr>, states: seq<State>, owners: map<nat, nat>, owed: set<nat>, id: Id, st: State, accepted: nat)
    requires SlotsInv(attrs, states, owners, owed) && id < |states| && HoldsSlots(attrs[id], states[id]) && !states[id].sending
    requires NoDup(states[id].slots) && accepted <= |states[id].slots|
    requires st.slots == states[id].slots && HoldsSlots(attrs[id], st) && st.sending == (accepted > 0) && st.pending == accepted
    ensures SlotsInv(attrs, states[id := st], owners, owed + SetOf(states[id].slots[..accepted]))
  {
    var slots := states[id].slots;
    var more := SetOf(slots[..accepted]);
    NothingOwed(attrs, states, owners, owed, id);
    assert RequestSlots(attrs, states, owners, owed, id);
    assert forall s :: s in slots[..accepted] ==> s in slots;
    CountPosted(slots, accepted);
    CountSame(slots, more, owed + more);
    forall s | s in owners && owners[s] == id
      ensures SlotUsed(attrs, states[id := st], owners, owed + more, s)
    {
      assert SlotUsed(attrs, states, owners, owed, s);
    }
    SlotsChange(attrs, states, states[id := st], owners, owners, owed, owed + more, id);
  }

  lemma SlotsEvent(attrs: seq<Attr>, states: seq<State>, owners: map<nat, nat>, owed: set<nat>, slot: nat, st: State)
    requires SlotsInv(attrs, states, owners, owed) && slot in owed && slot in owners && owners[slot] < |states|
    requires var was := states[owners[slot]];
      && was.pending > 0 && NoDup(was.slots) && st.slots == was.slots && st.pending == was.pending - 1 && st.sending == (st.pending > 0)
      && HoldsSlots(attrs[owners[slot]], st)
    ensures SlotsInv(attrs, states[owners[slot] := st], owners, owed - {slot})
  {
    var id := owners[slot];
    assert SlotUsed(attrs, states, owners, owed, slot);
    assert RequestSlots(attrs, states, owners, owed, id);
    CountLess(st.slots, owed, slot);
    forall s | s in owners && owners[s] == id
      ensures SlotUsed(attrs, states[id := st], owners, owed - {slot}, s)
    {
      assert SlotUsed(attrs, states, owners, owed, s);
      if s in owed - {slot} {
        CountSome(st.slots, owed - {slot}, s);
      }
    }
    SlotsChange(attrs, states, states[id := st], owners, owners, owed, owed - {slot}, id);
  }

  lemma SlotsReleased(attrs: seq<Attr>, states: seq<State>, owners: map<nat, nat>, owed: set<nat>, id: Id, st: State)
    requires SlotsInv(attrs, states, owners, owed) && id < |states| && HoldsSlots(attrs[id], states[id]) && !states[id].sending
    requires !HoldsSlots(attrs[id], st) && !st.sending
    ensures SlotsInv(attrs, states[id := st], owners - SetOf(states[id].slots), owed)
  {
    var gone := SetOf(states[id].slots);
    NothingOwed(attrs, states, owners, owed, id);
    assert RequestSlots(attrs, states, owners, owed, id);
    forall s | s in owners - gone
      ensures owners[s] != id
    {
      assert SlotUsed(attrs, states, owners, owed, s);
    }
    SlotsChange(attrs, states, states[id := st], owners, owners - gone, owed, owed, id);
  }

  // ----- what is in the slots -----

  // The fragments copied to the send queue: slot to request and fragment. The
  // first post of a message copies fragment k to its slot k.
  function Fill(filled: map<nat, (Id, nat)>, slots: seq<nat>, n: nat, id: Id): map<nat, (Id, nat)>
    requires n <= |slots|
  {
    if n == 0 then filled else Fill(filled, slots, n - 1, id)[slots[n - 1] := (id, n - 1)]
  }

  ghost predicate SlotsHold(filled: map<nat, (Id, nat)>, slots: seq<nat>, id: Id) {
    forall k :: 0 <= k < |slots| ==> slots[k] in filled && filled[slots[k]] == (id, k)
  }

  lemma {:induction false} FillIs(filled: map<nat, (Id, nat)>, slots: seq<nat>, n: nat, id: Id)
    requires n <= |slots| && NoDup(slots)
    ensures forall k :: 0 <= k < n ==> slots[k] in Fill(filled, slots, n, id) && Fill(filled, slots, n, id)[slots[k]] == (id, k)
    ensures forall x :: x !in slots ==> (x in Fill(filled, slots, n, id) <==> x in filled)
    ensures forall x :: x in filled && x !in slots ==> Fill(filled, slots, n, id)[x] == filled[x]
  {
    if n > 0 {
      FillIs(filled, slots, n - 1, id);
      assert slots[n - 1] in slots;
    }
  }

  // A message that was posted is in its slots, to be posted again from there,
  // until it is neither waited for nor being sent.
  ghost predicate FilledOk(attrs: seq<Attr>, states: seq<State>, filled: map<nat, (Id, nat)>) {
    forall id {:trigger states[id]} :: 0 <= id < |states| && id < |attrs| && attrs[id].kind.MediumSq? && (states[id].needAck || states[id].sending) ==>
      SlotsHold(filled, states[id].slots, id)
  }

  lemma FilledKept(attrs: seq<Attr>, states: seq<State>, filled: map<nat, (Id, nat)>, id: Id, st: State)
    requires FilledOk(attrs, states, filled) && id < |states|
    requires st.needAck || st.sending ==> (states[id].needAck || states[id].sending) && st.slots == states[id].slots
    ensures FilledOk(attrs, states[id := st], filled)
  {
    hide SlotsHold;
  }

  lemma FilledAdded(attrs: seq<Attr>, states: seq<State>, filled: map<nat, (Id, nat)>, attr: Attr, st: State)
    requires FilledOk(attrs, states, filled) && |attrs| == |states| && !st.needAck && !st.sending
    ensures FilledOk(attrs + [attr], states + [st], filled)
  {
    hide SlotsHold;
    assert forall id :: 0 <= id < |states| ==> (states + [st])[id] == states[id] && (attrs + [attr])[id] == attrs[id];
  }

  // A first post fills slots that are in nobody else's name.
  lemma FilledPosted(attrs: seq<Attr>, states: seq<State>, owners: map<nat, nat>, owed: set<nat>, filled: map<nat, (Id, nat)>, id: Id, st: State)
    requires SlotsInv(attrs, states, owners, owed) && FilledOk(attrs, states, filled) && id < |states| == |attrs|
    requires (forall j :: 0 <= j < |states| && attrs[j].kind.MediumSq? && (states[j].needAck || states[j].sending) ==> HoldsSlots(attrs[j], states[j]))
    requires HoldsSlots(attrs[id], states[id]) && NoDup(states[id].slots) && st.slots == states[id].slots
    ensures FilledOk(attrs, states[id := st], Fill(filled, st.slots, |st.slots|, id)) && SlotsHold(Fill(filled, st.slots, |st.slots|, id), st.slots, id)
  {
    hide SlotsInv, HoldsSlots, NoDup;
    var now := Fill(filled, st.slots, |st.slots|, id);
    FillIs(filled, st.slots, |st.slots|, id);
    forall j {:trigger states[j]} | 0 <= j < |states| && attrs[j].kind.MediumSq? && (states[j].needAck || states[j].sending) && j != id
      ensures SlotsHold(now, states[j].slots, j)
    {
      SlotsApart(attrs, states, owners, owed, id, j);
      OthersHold(filled, now, states[id].slots, states[j].slots, j);
    }
  }

  lemma OthersHold(filled: map<nat, (Id, nat)>, now: map<nat, (Id, nat)>, changed: seq<nat>, slots: seq<nat>, id: Id)
    requires SlotsHold(filled, slots, id) && forall k :: 0 <= k < |slots| ==> slots[k] !in changed
    requires forall x :: x in filled && x !in changed ==> x in now && now[x] == filled[x]
    ensures SlotsHold(now, slots, id)
  {
  }

  lemma SlotsApart(attrs: seq<Attr>, states: seq<State>, owners: map<nat, nat>, owed: set<nat>, i: Id, j: Id)
    requires SlotsInv(attrs, states, owners, owed) && i < |states| && j < |states| && i != j
    requires HoldsSlots(attrs[i], states[i]) && HoldsSlots(attrs[j], states[j])
    ensures forall k :: 0 <= k < |states[j].slots| ==> states[j].slots[k] !in states[i].slots
  {
    assert RequestSlots(attrs, states, owners, owed, i) && RequestSlots(attrs, states, owners, owed, j);
    assert forall k :: 0 <= k < |states[j].slots| ==> states[j].slots[k] in states[j].slots;
  }
}
