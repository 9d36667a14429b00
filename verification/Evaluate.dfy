/** The blocking RedPath evaluator. A service is a store of documents; `gets` counts the
    requests made. The source recurses without a bound (a collection can hold itself), so
    evaluation takes the allowed C call depth and says Diverges when that runs out, or when a
    test is reached whose outcome the library leaves undefined. */
module Evaluate {
  import opened Wrappers
  import opened Json
  import opened DottedLookup
  import opened RedPath
  import CNumbers

  type Store = map<string, Json>

  datatype Eval = Diverges | Value(found: Option<Json>, gets: nat)

  datatype Kept = TooDeep | Kept(valid: seq<Json>, gets: nat)

  /** `RedPathOp`, and whether the filter names a property at all. */
  datatype Check =
    | Compares(op: Op)
    | Present      // REDPATH_OP_EXISTS
    | Erroneous    // REDPATH_OP_ERROR
    | Unnamed      // no property name

  /** Only a comparison has a value; for the others the parser leaves it NULL. */
  datatype Filter = Filter(prop: string, check: Check, value: Option<string>)

  const MEMBERS := "Members"
  const COUNT := "Members@odata.count"
  const ODATA_ID := "@odata.id"

  // ------------------------------------------------------------------- payloads

  /** `isOdataIdNode`: an object whose only entry is a string called @odata.id. */
  function LinkOf(json: Json): Option<string> {
    if json.Obj? && |json.members| == 1 && json.members[0].key == ODATA_ID && json.members[0].value.Str?
    then Some(json.members[0].value.s) else None
  }

  function Lookup(store: Store, uri: string): Option<Json> {
    if uri in store then Some(store[uri]) else None
  }

  /** Replace a link by the document it names, at the price of one request. */
  function Follow(store: Store, json: Json): (r: (Option<Json>, nat)) {
    match LinkOf(json)
    case Some(uri) => (Lookup(store, uri), 1)
    case None => (Some(json), 0)
  }

  /** A string answers as a one-entry object under the name it was asked for. */
  function Wrap(name: string, json: Json): Json {
    if json.Str? then Obj([Member(name, json)]) else json
  }

  function ByNodeName(store: Store, payload: Option<Json>, name: string): (Option<Json>, nat) {
    match ByPath(payload, name)
    case None => (None, 0)
    case Some(value) =>
      var (document, gets) := Follow(store, value);
      (if document.Some? then Some(Wrap(name, document.value)) else None, gets)
  }

  predicate IsCollection(json: Json) {
    Get(Some(json), COUNT).Some?
  }

  /** `getCollectionSize`, with the cast of a signed count to `size_t`. */
  function CollectionSize(json: Json): nat {
    match (Get(Some(json), MEMBERS), Get(Some(json), COUNT))
    case (Some(_), Some(Int(count))) => CNumbers.ToSizeT(count)
    case _ => 0
  }

  function ByIndex(store: Store, payload: Option<Json>, index: nat, fuel: nat): Eval
    decreases fuel
  {
    if fuel == 0 then Diverges
    else if payload.None? then Value(None, 0)
    else if IsCollection(payload.value) then
      var (members, gets) := ByNodeName(store, payload, MEMBERS);
      Add(gets, ByIndex(store, members, index, fuel - 1))
    else
      match Entry(payload.value, index)
      case None => Value(None, 0)
      case Some(value) =>
        var (document, gets) := Follow(store, value);
        Value(document, gets)
  }

  function Add(gets: nat, result: Eval): Eval {
    if result.Diverges? then Diverges else Value(result.found, gets + result.gets)
  }

  // ---------------------------------------------------------------- comparisons

  /** The sign of `strcmp`. */
  function StrCmp(a: string, b: string): (sign: int) {
    if a == [] && b == [] then 0
    else if a == [] then -1
    else if b == [] then 1
    else if a[0] == b[0] then StrCmp(a[1..], b[1..])
    else if a[0] < b[0] then -1 else 1
  }

  function IntCompare(a: int, b: int, check: Check): bool {
    match check
    case Compares(Equal) => a == b
    case Compares(NotEqual) => a != b
    case Compares(Less) => a < b
    case Compares(Greater) => a > b
    case Compares(LessEqual) => a <= b
    case Compares(GreaterEqual) => a >= b
    case _ => false
  }

  /** No outcome where `strcmp` would be given NULL. */
  function StringCompare(a: Option<string>, b: Option<string>, check: Check): Option<bool> {
    if check.Present? then Some(a.Some?)
    else if a.None? || b.None? then None
    else Some(IntCompare(StrCmp(a.value, b.value), 0, check))
  }

  function PropertyCompare(property: Option<Json>, filter: Filter): Option<bool> {
    if property.Some? && property.value.Str? then StringCompare(Some(property.value.s), filter.value, filter.check)
    else Some(false)
  }

  /** `getSimpleOpResult` on the resolved property; no outcome where `strcmp` or `strtoll` would
      be given NULL. The constants true, false and null are compared the other way round: the
      text of the query against the constant. */
  function SimpleOp(json: Json, filter: Filter): Option<bool> {
    match json
    case Obj(_) => if filter.check.Present? then Some(true) else PropertyCompare(Get(Some(json), filter.prop), filter)
    case Str(_) => PropertyCompare(Some(json), filter)
    case Bool(b) => StringCompare(filter.value, Some(if b then "true" else "false"), filter.check)
    case Int(i) =>
      if filter.value.None? then None else Some(IntCompare(i, CNumbers.StrToLl(filter.value.value), filter.check))
    case Null => StringCompare(filter.value, Some("null"), filter.check)
    case Arr(_) => Some(false)
    case Real(_) => Some(false)
  }

  predicate Passes(json: Json, filter: Filter) {
    SimpleOp(json, filter) == Some(true)
  }

  // -------------------------------------------------------------------- filters

  function MakeCollection(payloads: seq<Json>): Json {
    Obj([Member(COUNT, Int(|payloads|)), Member(MEMBERS, Arr(payloads))])
  }

  /** What a filter answers for the payloads it kept. */
  function Combine(valid: seq<Json>): Option<Json> {
    if |valid| == 0 then None
    else if |valid| == 1 then Some(valid[0])
    else Some(MakeCollection(valid))
  }

  /** `getOpResult`. */
  function OpResult(store: Store, payload: Option<Json>, filter: Filter, fuel: nat): Eval
    decreases fuel, 0
  {
    if fuel == 0 then Diverges
    else if payload.None? then Value(None, 0)
    else if IsCollection(payload.value) then
      var size := CollectionSize(payload.value);
      if size == 0 then Value(None, 0)
      else
        var (members, gets) := ByNodeName(store, payload, MEMBERS);
        Add(gets, Collected(Slots(store, members, 0, size, filter, fuel - 1)))
    else if payload.value.Arr? then
      Collected(Slots(store, payload, 0, |payload.value.items|, filter, fuel - 1))
    else
      PlainOp(store, payload.value, filter)
  }

  /** A filter on a payload that is neither a collection nor an array. */
  function PlainOp(store: Store, payload: Json, filter: Filter): Eval {
    if filter.check.Unnamed? then Value(None, 0)
    else
      var (found, gets) := ByNodeName(store, Some(payload), filter.prop);
      if found.None? then Value(None, gets)
      else if SimpleOp(found.value, filter).None? then Diverges
      else Value(if Passes(found.value, filter) then Some(payload) else None, gets)
  }

  function Collected(kept: Kept): Eval {
    if kept.TooDeep? then Diverges else Value(Combine(kept.valid), kept.gets)
  }

  /** One slot of a fan-out: fetch entry `index` of `source`, then filter it. */
  function Slot(store: Store, source: Option<Json>, index: nat,
                filter: Filter, fuel: nat): Eval
    decreases fuel, 1
  {
    var element := ByIndex(store, source, index, fuel);
    if element.Diverges? then Diverges
    else Add(element.gets, OpResult(store, element.found, filter, fuel))
  }

  /** The payloads kept by the slots `from..size`, in order. */
  function Slots(store: Store, source: Option<Json>, from: nat, size: nat,
                 filter: Filter, fuel: nat): Kept
    decreases fuel, 2, size - from
  {
    if from >= size then Kept([], 0)
    else Keep(Slot(store, source, from, filter, fuel),
              Slots(store, source, from + 1, size, filter, fuel))
  }

  function Keep(slot: Eval, later: Kept): Kept {
    if slot.Diverges? || later.TooDeep? then TooDeep
    else Kept((if slot.found.Some? then [slot.found.value] else []) + later.valid, slot.gets + later.gets)
  }

  // ---------------------------------------------------------------------- paths

  /** The filter of a step that is neither a name nor an index. */
  function FilterOf(step: Step): Filter {
    match step
    case Compare(prop, op, value) => Filter(prop, Compares(op), Some(value))
    case Exists(prop) => Filter(prop, Present, None)
    case Malformed(prop) => Filter(prop, Erroneous, None)
    case _ => Filter("", Unnamed, None)
  }

  function EvalStep(store: Store, payload: Json, step: Step, fuel: nat): Eval {
    match step
    case Name(name) => var (found, gets) := ByNodeName(store, Some(payload), name); Value(found, gets)
    case Index(index) => ByIndex(store, Some(payload), index, fuel)
    case _ => OpResult(store, Some(payload), FilterOf(step), fuel)
  }

  /** `getPayloadForPath`. */
  function EvalPath(store: Store, payload: Option<Json>, path: Path, fuel: nat): Eval
    decreases |path|
  {
    if payload.None? || path == [] then Value(None, 0)
    else
      var first := EvalStep(store, payload.value, path[0], fuel);
      if first.Diverges? || first.found.None? || |path| == 1 then first
      else Add(first.gets, EvalPath(store, first.found, path[1..], fuel))
  }

  // ----------------------------------------------------------------------- laws

  /** Evaluate `first`, then `second` on what it found. */
  function Then(store: Store, payload: Option<Json>, first: Path, second: Path, fuel: nat): Eval
  {
    var r := EvalPath(store, payload, first, fuel);
    if r.Diverges? then Diverges else Add(r.gets, EvalPath(store, r.found, second, fuel))
  }

  /** A path is evaluated by evaluating any front part of it and then the rest, request for
      request. */
  lemma {:induction false} PathsCompose(store: Store, payload: Option<Json>, first: Path, second: Path, fuel: nat)
    requires first != [] && second != []
    ensures EvalPath(store, payload, first + second, fuel) == Then(store, payload, first, second, fuel)
    decreases |first|
  {
    var path := first + second;
    assert path[0] == first[0] && path[1..] == first[1..] + second;
    if payload.Some? {
      var r := EvalStep(store, payload.value, first[0], fuel);
      if r.Value? && r.found.Some? {
        if |first| == 1 {
          assert path[1..] == second;
        } else {
          PathsCompose(store, r.found, first[1..], second, fuel);
        }
      }
    }
  }

  /** A deeper call stack changes no answer. */
  lemma {:induction false} ByIndexDeeper(store: Store, payload: Option<Json>, index: nat, fuel: nat, more: nat)
    requires fuel <= more && ByIndex(store, payload, index, fuel).Value?
    ensures ByIndex(store, payload, index, more) == ByIndex(store, payload, index, fuel)
    decreases fuel
  {
    if payload.Some? && IsCollection(payload.value) {
      CollectionIndex(store, payload.value, index, fuel);
      CollectionIndex(store, payload.value, index, more);
      ByIndexDeeper(store, ByNodeName(store, payload, MEMBERS).0, index, fuel - 1, more - 1);
    }
  }

  /** An index step on a collection goes on in its members. */
  lemma {:induction false} CollectionIndex(store: Store, payload: Json, index: nat, fuel: nat)
    requires IsCollection(payload) && fuel > 0
    ensures var (members, gets) := ByNodeName(store, Some(payload), MEMBERS);
            ByIndex(store, Some(payload), index, fuel) == Add(gets, ByIndex(store, members, index, fuel - 1))
  {
  }

  /** A filter on a collection goes through its members. */
  lemma {:induction false} CollectionOp(store: Store, payload: Json, filter: Filter, fuel: nat, size: nat, fetched: (Option<Json>, nat))
    requires IsCollection(payload) && fuel > 0
    requires size == CollectionSize(payload) && size > 0 && fetched == ByNodeName(store, Some(payload), MEMBERS)
    ensures OpResult(store, Some(payload), filter, fuel) == Add(fetched.1, Collected(Slots(store, fetched.0, 0, size, filter, fuel - 1)))
  {
  }

  lemma {:induction false} CollectionDeeper(store: Store, payload: Json, filter: Filter, fuel: nat, more: nat,
                                            size: nat, fetched: (Option<Json>, nat), kept: Kept)
    requires IsCollection(payload) && 0 < fuel <= more
    requires size == CollectionSize(payload) && size > 0 && fetched == ByNodeName(store, Some(payload), MEMBERS)
    requires kept == Slots(store, fetched.0, 0, size, filter, fuel - 1) == Slots(store, fetched.0, 0, size, filter, more - 1)
    ensures OpResult(store, Some(payload), filter, more) == OpResult(store, Some(payload), filter, fuel)
  {
    CollectionOp(store, payload, filter, fuel, size, fetched);
    CollectionOp(store, payload, filter, more, size, fetched);
  }

  lemma {:induction false} OpResultDeeper(store: Store, payload: Option<Json>, filter: Filter, fuel: nat, more: nat)
    requires fuel <= more && OpResult(store, payload, filter, fuel).Value?
    ensures OpResult(store, payload, filter, more) == OpResult(store, payload, filter, fuel)
    decreases fuel, 1
  {
    if payload.Some? {
      if IsCollection(payload.value) {
        if CollectionSize(payload.value) > 0 {
          MembersDeeper(store, payload.value, filter, fuel, more, CollectionSize(payload.value), ByNodeName(store, payload, MEMBERS));
        }
      } else if payload.value.Arr? {
        ItemsDeeper(store, payload.value, filter, fuel, more);
      }
    }
  }

  lemma {:induction false} MembersDeeper(store: Store, payload: Json, filter: Filter, fuel: nat, more: nat, size: nat, fetched: (Option<Json>, nat))
    requires IsCollection(payload) && fuel <= more && OpResult(store, Some(payload), filter, fuel).Value?
    requires size == CollectionSize(payload) && size > 0 && fetched == ByNodeName(store, Some(payload), MEMBERS)
    ensures OpResult(store, Some(payload), filter, more) == OpResult(store, Some(payload), filter, fuel)
    decreases fuel, 0
  {
    assert Slots(store, fetched.0, 0, size, filter, fuel - 1).Kept? by {
      CollectionOp(store, payload, filter, fuel, size, fetched);
    }
    SlotsDeeper(store, fetched.0, 0, size, filter, fuel - 1, more - 1);
    CollectionDeeper(store, payload, filter, fuel, more, size, fetched, Slots(store, fetched.0, 0, size, filter, fuel - 1));
  }

  lemma {:induction false} ItemsDeeper(store: Store, payload: Json, filter: Filter, fuel: nat, more: nat)
    requires payload.Arr? && fuel <= more && OpResult(store, Some(payload), filter, fuel).Value?
    ensures OpResult(store, Some(payload), filter, more) == OpResult(store, Some(payload), filter, fuel)
    decreases fuel, 0
  {
    assert !IsCollection(payload);
    SlotsDeeper(store, Some(payload), 0, |payload.items|, filter, fuel - 1, more - 1);
  }

  lemma {:induction false} SlotsDeeper(store: Store, source: Option<Json>, from: nat, size: nat,
                                       filter: Filter, fuel: nat, more: nat)
    requires fuel <= more && Slots(store, source, from, size, filter, fuel).Kept?
    ensures Slots(store, source, from, size, filter, more) == Slots(store, source, from, size, filter, fuel)
    decreases fuel, 2, size - from
  {
    if from < size {
      ByIndexDeeper(store, source, from, fuel, more);
      OpResultDeeper(store, ByIndex(store, source, from, fuel).found, filter, fuel, more);
      SlotsDeeper(store, source, from + 1, size, filter, fuel, more);
    }
  }

  lemma StepDeeper(store: Store, payload: Json, step: Step, fuel: nat, more: nat)
    requires fuel <= more && EvalStep(store, payload, step, fuel).Value?
    ensures EvalStep(store, payload, step, more) == EvalStep(store, payload, step, fuel)
  {
    match step {
      case Name(_) =>
      case Index(index) => ByIndexDeeper(store, Some(payload), index, fuel, more);
      case _ => OpResultDeeper(store, Some(payload), FilterOf(step), fuel, more);
    }
  }

  /** Whether a path has an answer, and which, does not depend on the depth allowed. */
  lemma {:induction false} PathDeeper(store: Store, payload: Option<Json>, path: Path, fuel: nat, more: nat)
    requires fuel <= more && EvalPath(store, payload, path, fuel).Value?
    ensures EvalPath(store, payload, path, more) == EvalPath(store, payload, path, fuel)
    decreases |path|
  {
    if payload.Some? && path != [] {
      StepDeeper(store, payload.value, path[0], fuel, more);
      var r := EvalStep(store, payload.value, path[0], fuel);
      if r.found.Some? && |path| > 1 {
        PathDeeper(store, r.found, path[1..], fuel, more);
      }
    }
  }
}
