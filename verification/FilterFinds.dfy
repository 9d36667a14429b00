/** What the blocking evaluator finds is a part of the data, or a collection made by a filter:
    what holds of all parts holds of what is found. */
module FilterFinds {
  import opened Wrappers
  import opened Json
  import opened DottedLookup
  import opened Evaluate
  import opened AsyncRefinesSync

  /** A property of payloads that goes down to entries, to the members of collections as they
      are fetched, and holds of every document. */
  ghost predicate PartClosed(store: Store, holds: Json -> bool) {
    && (forall json: Json, index: nat :: holds(json) && Entry(json, index).Some? ==> holds(Entry(json, index).value))
    && (forall json: Json :: holds(json) && Get(Some(json), MEMBERS).Some? ==> holds(Wrap(MEMBERS, Get(Some(json), MEMBERS).value)))
    && (forall uri: string :: uri in store ==> holds(store[uri]) && holds(Wrap(MEMBERS, store[uri])))
  }

  lemma {:induction false} MembersHold(store: Store, json: Json, holds: Json -> bool)
    requires PartClosed(store, holds) && holds(json)
    ensures var members := ByNodeName(store, Some(json), MEMBERS).0;
            members.Some? ==> holds(members.value)
  {
    NoDotOneSegment(MEMBERS);
  }

  lemma {:induction false} IndexFinds(store: Store, payload: Option<Json>, index: nat, fuel: nat, holds: Json -> bool)
    requires PartClosed(store, holds) && (payload.Some? ==> holds(payload.value))
    requires ByIndex(store, payload, index, fuel).Value? && ByIndex(store, payload, index, fuel).found.Some?
    ensures holds(ByIndex(store, payload, index, fuel).found.value)
    decreases fuel
  {
    if IsCollection(payload.value) {
      MembersHold(store, payload.value, holds);
      IndexFinds(store, ByNodeName(store, payload, MEMBERS).0, index, fuel - 1, holds);
    } else {
      assert Entry(payload.value, index).Some?;
    }
  }

  ghost predicate HoldsOrMade(json: Json, holds: Json -> bool) {
    IsMade(json) || holds(json)
  }

  ghost predicate AllHoldOrMade(valid: seq<Json>, holds: Json -> bool) {
    forall k :: 0 <= k < |valid| ==> HoldsOrMade(valid[k], holds)
  }

  lemma {:induction false} CombineHolds(valid: seq<Json>, holds: Json -> bool)
    requires AllHoldOrMade(valid, holds) && Combine(valid).Some?
    ensures HoldsOrMade(Combine(valid).value, holds)
  {
    if |valid| > 1 {
      var made := MakeCollection(valid);
      assert made.members[0] == Member(COUNT, Int(|valid|)) && made.members[1] == Member(MEMBERS, Arr(valid));
    }
  }

  lemma {:induction false} OpFinds(store: Store, payload: Option<Json>, filter: Filter, fuel: nat, holds: Json -> bool)
    requires PartClosed(store, holds) && (payload.Some? ==> holds(payload.value))
    requires OpResult(store, payload, filter, fuel).Value? && OpResult(store, payload, filter, fuel).found.Some?
    ensures HoldsOrMade(OpResult(store, payload, filter, fuel).found.value, holds)
    decreases fuel, 0
  {
    if IsCollection(payload.value) {
      MembersHold(store, payload.value, holds);
      CollectionFinds(store, payload.value, filter, fuel, CollectionSize(payload.value), ByNodeName(store, payload, MEMBERS), holds);
    } else if payload.value.Arr? {
      var size := |payload.value.items|;
      SlotsFind(store, payload, 0, size, filter, fuel - 1, holds);
      CombineHolds(Slots(store, payload, 0, size, filter, fuel - 1).valid, holds);
    }
  }

  lemma {:induction false} CollectionFinds(store: Store, json: Json, filter: Filter, fuel: nat, size: nat, fetched: (Option<Json>, nat), holds: Json -> bool)
    requires PartClosed(store, holds) && IsCollection(json) && (fetched.0.Some? ==> holds(fetched.0.value))
    requires size == CollectionSize(json) && fetched == ByNodeName(store, Some(json), MEMBERS)
    requires OpResult(store, Some(json), filter, fuel).Value? && OpResult(store, Some(json), filter, fuel).found.Some?
    ensures HoldsOrMade(OpResult(store, Some(json), filter, fuel).found.value, holds)
    decreases fuel, 0, 0
  {
    CollectionOp(store, json, filter, fuel, size, fetched);
    var kept := Slots(store, fetched.0, 0, size, filter, fuel - 1);
    SlotsFind(store, fetched.0, 0, size, filter, fuel - 1, holds);
    CombineHolds(kept.valid, holds);
  }

  lemma {:induction false} SlotsFind(store: Store, source: Option<Json>, from: nat, size: nat, filter: Filter, fuel: nat, holds: Json -> bool)
    requires PartClosed(store, holds) && (source.Some? ==> holds(source.value))
    requires Slots(store, source, from, size, filter, fuel).Kept?
    ensures AllHoldOrMade(Slots(store, source, from, size, filter, fuel).valid, holds)
    decreases fuel, 2, size - from
  {
    if from < size {
      var slot, later := Slot(store, source, from, filter, fuel), Slots(store, source, from + 1, size, filter, fuel);
      assert Slots(store, source, from, size, filter, fuel) == Keep(slot, later);
      SlotsFind(store, source, from + 1, size, filter, fuel, holds);
      if slot.found.Some? {
        SlotFinds(store, source, from, filter, fuel, holds);
      }
    }
  }

  lemma {:induction false} SlotFinds(store: Store, source: Option<Json>, index: nat, filter: Filter, fuel: nat, holds: Json -> bool)
    requires PartClosed(store, holds) && (source.Some? ==> holds(source.value))
    requires Slot(store, source, index, filter, fuel).Value? && Slot(store, source, index, filter, fuel).found.Some?
    ensures HoldsOrMade(Slot(store, source, index, filter, fuel).found.value, holds)
    decreases fuel, 1
  {
    var element := ByIndex(store, source, index, fuel);
    if element.found.Some? {
      IndexFinds(store, source, index, fuel, holds);
    }
    OpFinds(store, element.found, filter, fuel, holds);
  }
}
