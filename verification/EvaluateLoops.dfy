/** The filter loops of the blocking evaluator as they run: a `valid` array of one entry per
    element, a running count, and a collection built from what was kept. */
module EvaluateLoops {
  import opened Wrappers
  import opened Json
  import opened RedPath
  import opened Evaluate

  /** The first `count` entries of `valid` are the payloads `kept`. */
  ghost predicate Holds(valid: array<Option<Json>>, count: nat, kept: seq<Json>)
    reads valid
  {
    && count == |kept| <= valid.Length
    && forall k :: 0 <= k < count ==> valid[k] == Some(kept[k])
  }

  /** `createCollection`: the members are appended one by one. */
  method CreateCollection(count: nat, payloads: array<Option<Json>>, ghost kept: seq<Json>) returns (collection: Json)
    requires Holds(payloads, count, kept)
    ensures collection == MakeCollection(kept)
  {
    var members: seq<Json> := [];
    var i := 0;
    while i < count
      invariant 0 <= i <= count && members == kept[..i]
    {
      members := members + [payloads[i].value];
      i := i + 1;
    }
    assert kept[..count] == kept;
    collection := Obj([Member(COUNT, Int(count)), Member(MEMBERS, Arr(members))]);
  }

  /** The end of both loops: nothing, the one payload, or a collection of them. */
  method Conclude(valid: array<Option<Json>>, validCount: nat, ghost kept: seq<Json>) returns (found: Option<Json>)
    requires Holds(valid, validCount, kept)
    ensures found == Combine(kept)
  {
    if validCount == 0 {
      return None;
    }
    if validCount == 1 {
      return valid[0];
    }
    var collection := CreateCollection(validCount, valid, kept);
    found := Some(collection);
  }

  /** What is kept already, followed by what the later slots keep. */
  ghost function Before(kept: seq<Json>, gets: nat, later: Kept): Kept {
    if later.TooDeep? then TooDeep else Kept(kept + later.valid, gets + later.gets)
  }

  lemma {:induction false} SlotDone(kept: seq<Json>, gets: nat, slot: Eval, later: Kept)
    requires slot.Value?
    ensures Before(kept, gets, Keep(slot, later)) ==
            Before(kept + (if slot.found.Some? then [slot.found.value] else []), gets + slot.gets, later)
  {
    if later.Kept? {
      var one := if slot.found.Some? then [slot.found.value] else [];
      assert kept + (one + later.valid) == kept + one + later.valid;
    }
  }

  /** One turn of the loop moves what its slot keeps from the later slots to the kept ones. */
  lemma {:induction false} TurnDone(store: Store, source: Option<Json>, i: nat, validMax: nat, filter: Filter, fuel: nat,
                                    kept: seq<Json>, gets: nat, slot: Eval)
    requires i < validMax && slot == Slot(store, source, i, filter, fuel)
    ensures Before(kept, gets, Slots(store, source, i, validMax, filter, fuel)) ==
            if slot.Diverges? then TooDeep
            else Before(kept + (if slot.found.Some? then [slot.found.value] else []), gets + slot.gets,
                        Slots(store, source, i + 1, validMax, filter, fuel))
  {
    var later := Slots(store, source, i + 1, validMax, filter, fuel);
    assert Slots(store, source, i, validMax, filter, fuel) == Keep(slot, later);
    if slot.Value? {
      SlotDone(kept, gets, slot, later);
    }
  }

  lemma {:induction false} NothingBefore(later: Kept)
    ensures Before([], 0, later) == later
  {
    if later.Kept? {
      assert [] + later.valid == later.valid;
    }
  }

  /** One turn of a loop: fetch the element, filter it. */
  method EvalSlot(store: Store, source: Option<Json>, i: nat, filter: Filter, fuel: nat) returns (r: Eval)
    ensures r == Slot(store, source, i, filter, fuel)
    decreases fuel, 2
  {
    var tmp := ByIndex(store, source, i, fuel);
    if tmp.Diverges? {
      return Diverges;
    }
    r := GetOpResult(store, tmp.found, filter, fuel);
    r := Add(tmp.gets, r);
  }

  /** The loop of `collectionEvalOp` and `arrayEvalOp`, over the entries of `source`. */
  method EvalSlots(store: Store, source: Option<Json>, validMax: nat, filter: Filter, fuel: nat)
    returns (r: Eval)
    ensures r == Collected(Slots(store, source, 0, validMax, filter, fuel))
    decreases fuel, 3
  {
    var valid := new Option<Json>[validMax](_ => None);
    var validCount, i := 0, 0;
    var gets: nat := 0;
    ghost var kept: seq<Json> := [];
    NothingBefore(Slots(store, source, 0, validMax, filter, fuel));
    while i < validMax
      invariant 0 <= i <= validMax && validCount <= i
      invariant Holds(valid, validCount, kept)
      invariant Slots(store, source, 0, validMax, filter, fuel)
             == Before(kept, gets, Slots(store, source, i, validMax, filter, fuel))
    {
      var slot := EvalSlot(store, source, i, filter, fuel);
      TurnDone(store, source, i, validMax, filter, fuel, kept, gets, slot);
      if slot.Diverges? {
        return Diverges;
      }
      valid[validCount] := slot.found;
      gets := gets + slot.gets;
      if slot.found.Some? {
        kept := kept + [slot.found.value];
        validCount := validCount + 1;
      } else {
        assert kept + [] == kept;
      }
      i := i + 1;
    }
    var found := Conclude(valid, validCount, kept);
    assert kept + [] == kept;
    r := Value(found, gets);
  }

  method CollectionEvalOp(store: Store, payload: Json, filter: Filter, fuel: nat) returns (r: Eval)
    requires IsCollection(payload) && fuel > 0
    ensures r == OpResult(store, Some(payload), filter, fuel)
    decreases fuel, 0
  {
    var validMax := CollectionSize(payload);
    if validMax == 0 {
      return Value(None, 0);
    }
    var (members, gets) := ByNodeName(store, Some(payload), MEMBERS);
    r := EvalSlots(store, members, validMax, filter, fuel - 1);
    r := Add(gets, r);
  }

  method ArrayEvalOp(store: Store, payload: Json, filter: Filter, fuel: nat) returns (r: Eval)
    requires payload.Arr? && !IsCollection(payload) && fuel > 0
    ensures r == OpResult(store, Some(payload), filter, fuel)
    decreases fuel, 0
  {
    var validMax := |payload.items|;
    if validMax == 0 {
      return Value(None, 0);
    }
    r := EvalSlots(store, Some(payload), validMax, filter, fuel - 1);
  }

  /** `getOpResult`. */
  method GetOpResult(store: Store, payload: Option<Json>, filter: Filter, fuel: nat) returns (r: Eval)
    ensures r == OpResult(store, payload, filter, fuel)
    decreases fuel, 1
  {
    if fuel == 0 {
      return Diverges;
    }
    if payload.None? {
      return Value(None, 0);
    }
    if IsCollection(payload.value) {
      r := CollectionEvalOp(store, payload.value, filter, fuel);
      return;
    }
    if payload.value.Arr? {
      r := ArrayEvalOp(store, payload.value, filter, fuel);
      return;
    }
    if filter.check.Unnamed? {
      return Value(None, 0);
    }
    var (found, gets) := ByNodeName(store, payload, filter.prop);
    if found.None? {
      return Value(None, gets);
    }
    var keep := SimpleOp(found.value, filter);
    if keep.None? {
      return Diverges;
    }
    r := Value(if keep.value then payload else None, gets);
  }
}
