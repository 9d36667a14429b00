/** How the six comparison filters over one array divide its elements. */
module FilterPartition {
  import opened Wrappers
  import opened Json
  import opened RedPath
  import opened Evaluate
  import DottedLookup
  import CNumbers

  // ------------------------------------------------------------------ one property

  /** The property values `getSimpleOpResult` has an order for. */
  predicate Comparable(json: Json, prop: string) {
    match json
    case Obj(_) => Get(Some(json), prop).Some? && Get(Some(json), prop).value.Str?
    case Arr(_) => false
    case Real(_) => false
    case _ => true
  }

  function Comparison(prop: string, op: Op, value: string): Filter {
    Filter(prop, Compares(op), Some(value))
  }

  /** Less, equal and greater exclude each other and leave nothing out; the other three are
      their unions and the complement. What has no order is kept by none of the six. */
  lemma SimpleOpTrichotomy(json: Json, prop: string, value: string)
    ensures var less, equal, greater :=
              Passes(json, Comparison(prop, Less, value)), Passes(json, Comparison(prop, Equal, value)),
              Passes(json, Comparison(prop, Greater, value));
            && !(less && equal) && !(equal && greater) && !(less && greater)
            && ((less || equal || greater) <==> Comparable(json, prop))
            && Passes(json, Comparison(prop, LessEqual, value)) == (less || equal)
            && Passes(json, Comparison(prop, GreaterEqual, value)) == (greater || equal)
            && Passes(json, Comparison(prop, NotEqual, value)) == (less || greater)
  {
  }

  /** An integer property is compared with the number that was written, negative ones
      included, as far as a signed 64-bit number goes. */
  lemma {:induction false} IntegersCompareAsWritten(i: int, prop: string, n: nat)
    requires n < CNumbers.TWO_63
    ensures SimpleOp(Int(i), Comparison(prop, Equal, CNumbers.Decimal(n))) == Some(i == n)
    ensures SimpleOp(Int(i), Comparison(prop, Less, CNumbers.Decimal(n))) == Some(i < n)
    ensures SimpleOp(Int(i), Comparison(prop, Greater, CNumbers.Decimal(n))) == Some(i > n)
    ensures SimpleOp(Int(i), Comparison(prop, Equal, "-" + CNumbers.Decimal(n))) == Some(i == 0 - n)
    ensures SimpleOp(Int(i), Comparison(prop, Less, "-" + CNumbers.Decimal(n))) == Some(i < 0 - n)
    ensures SimpleOp(Int(i), Comparison(prop, Greater, "-" + CNumbers.Decimal(n))) == Some(i > 0 - n)
  {
    CNumbers.DecimalScans(n);
    CNumbers.NegativeScans(n);
  }

  /** `strcmp` is an order: zero only for equal texts, antisymmetric, transitive. */
  lemma {:induction false} StrCmpIsAnOrder(a: string, b: string, c: string)
    ensures StrCmp(a, b) == 0 <==> a == b
    ensures StrCmp(a, b) == -StrCmp(b, a)
    ensures StrCmp(a, b) <= 0 && StrCmp(b, c) <= 0 ==> StrCmp(a, c) <= 0
    decreases |a| + |b| + |c|
  {
    if a != [] && b != [] && a[0] == b[0] {
      StrCmpIsAnOrder(a[1..], b[1..], if c == [] then [] else c[1..]);
      assert a == [a[0]] + a[1..] && b == [b[0]] + b[1..];
    } else if b != [] && c != [] && b[0] == c[0] && a == [] {
    }
  }

  // -------------------------------------------------------------------- the array

  /** What the filter makes of element `i`; an element that is an array or a collection is
      filtered itself. */
  function SlotAt(store: Store, items: seq<Json>, i: nat, filter: Filter, fuel: nat): Eval {
    Slot(store, Some(Arr(items)), i, filter, fuel)
  }

  predicate KeptAt(store: Store, items: seq<Json>, i: nat, filter: Filter, fuel: nat) {
    SlotAt(store, items, i, filter, fuel).Value? && SlotAt(store, items, i, filter, fuel).found.Some?
  }

  predicate FoundAt(store: Store, items: seq<Json>, i: nat, filter: Filter, fuel: nat, json: Json) {
    SlotAt(store, items, i, filter, fuel).Value? && SlotAt(store, items, i, filter, fuel).found == Some(json)
  }

  /** The positions a filter keeps something of, from `from` on. */
  function Positions(store: Store, items: seq<Json>, from: nat, filter: Filter, fuel: nat): seq<nat>
    requires from <= |items|
    decreases |items| - from
  {
    if from == |items| then []
    else (if KeptAt(store, items, from, filter, fuel) then [from] else []) +
         Positions(store, items, from + 1, filter, fuel)
  }

  predicate Increasing(ps: seq<nat>) {
    forall j, k :: 0 <= j < k < |ps| ==> ps[j] < ps[k]
  }

  lemma {:induction false} Prepend(first: nat, keep: bool, later: seq<nat>)
    requires Increasing(later) && forall i :: i in later ==> first < i
    ensures var ps := (if keep then [first] else []) + later;
            Increasing(ps) && forall i: nat :: i in ps <==> (keep && i == first) || i in later
  {
    assert forall k :: 0 <= k < |later| ==> later[k] in later;
  }

  /** Whether position `i`, at or after `from`, keeps something. */
  predicate KeptFrom(store: Store, items: seq<Json>, from: nat, i: nat, filter: Filter, fuel: nat) {
    from <= i < |items| && KeptAt(store, items, i, filter, fuel)
  }

  lemma {:induction false} PositionsAre(store: Store, items: seq<Json>, from: nat, filter: Filter, fuel: nat)
    requires from <= |items|
    ensures var ps := Positions(store, items, from, filter, fuel);
            Increasing(ps) && forall i: nat :: i in ps <==> KeptFrom(store, items, from, i, filter, fuel)
    decreases |items| - from
  {
    if from < |items| {
      PositionsAre(store, items, from + 1, filter, fuel);
      var keep, later := KeptAt(store, items, from, filter, fuel), Positions(store, items, from + 1, filter, fuel);
      assert Positions(store, items, from, filter, fuel) == (if keep then [from] else []) + later;
      Prepend(from, keep, later);
    }
  }

  /** Over any array the list a filter keeps is what it found at its positions, in order. */
  lemma {:induction false} SlotsArePositions(store: Store, items: seq<Json>, from: nat, filter: Filter, fuel: nat)
    requires from <= |items| && Slots(store, Some(Arr(items)), from, |items|, filter, fuel).Kept?
    ensures var kept := Slots(store, Some(Arr(items)), from, |items|, filter, fuel);
            var ps := Positions(store, items, from, filter, fuel);
            && |kept.valid| == |ps|
            && forall k :: 0 <= k < |ps| ==> FoundAt(store, items, ps[k], filter, fuel, kept.valid[k])
    decreases |items| - from
  {
    if from < |items| {
      var slot := SlotAt(store, items, from, filter, fuel);
      var later := Slots(store, Some(Arr(items)), from + 1, |items|, filter, fuel);
      assert Slots(store, Some(Arr(items)), from, |items|, filter, fuel) == Keep(slot, later);
      SlotsArePositions(store, items, from + 1, filter, fuel);
    }
  }

  // ------------------------------------------------------------- comparable elements

  /** Element `i` as the filter sees it. */
  function Element(store: Store, items: seq<Json>, i: nat): Option<Json>
    requires i < |items|
  {
    Follow(store, items[i]).0
  }

  function PropertyAt(store: Store, items: seq<Json>, i: nat, prop: string): Option<Json>
    requires i < |items|
  {
    ByNodeName(store, Element(store, items, i), prop).0
  }

  /** Element `i` is there, is no array or collection itself, and resolves the property to
      something that can be compared. */
  predicate ComparableAt(store: Store, items: seq<Json>, i: nat, prop: string)
    requires i < |items|
  {
    var element := Element(store, items, i);
    && element.Some? && !IsCollection(element.value) && !element.value.Arr?
    && PropertyAt(store, items, i, prop).Some? && Comparable(PropertyAt(store, items, i, prop).value, prop)
  }

  lemma {:induction false} ComparableKept(store: Store, items: seq<Json>, i: nat, prop: string, op: Op, value: string, fuel: nat)
    requires i < |items| && ComparableAt(store, items, i, prop) && fuel > 0
    ensures var slot := SlotAt(store, items, i, Comparison(prop, op, value), fuel);
            slot.Value? && slot.found ==
              if Passes(PropertyAt(store, items, i, prop).value, Comparison(prop, op, value)) then Element(store, items, i) else None
  {
    var filter := Comparison(prop, op, value);
    var element := Element(store, items, i).value;
    assert Get(Some(Arr(items)), COUNT).None?;
    assert ByIndex(store, Some(Arr(items)), i, fuel) == Value(Some(element), Follow(store, items[i]).1);
    assert OpResult(store, Some(element), filter, fuel) == PlainOp(store, element, filter);
  }

  /** Whether the filter with `op` keeps position `i`. */
  predicate KeepsPosition(store: Store, items: seq<Json>, i: nat, prop: string, op: Op, value: string, fuel: nat) {
    i in Positions(store, items, 0, Comparison(prop, op, value), fuel)
  }

  /** At every position that can be compared exactly one of `<`, `=` and `>` keeps the element;
      `<=` and `>=` are their unions and `!=` is the complement of `=`. Every kept list is in
      the order of the array (PositionsAre), so the unions preserve the order. */
  lemma {:induction false} FiltersPartition(store: Store, items: seq<Json>, prop: string, value: string, i: nat, fuel: nat)
    requires i < |items| && ComparableAt(store, items, i, prop) && fuel > 0
    ensures var less, equal, greater :=
              KeepsPosition(store, items, i, prop, Less, value, fuel), KeepsPosition(store, items, i, prop, Equal, value, fuel),
              KeepsPosition(store, items, i, prop, Greater, value, fuel);
            && (less || equal || greater) && !(less && equal) && !(equal && greater) && !(less && greater)
            && KeepsPosition(store, items, i, prop, LessEqual, value, fuel) == (less || equal)
            && KeepsPosition(store, items, i, prop, GreaterEqual, value, fuel) == (greater || equal)
            && KeepsPosition(store, items, i, prop, NotEqual, value, fuel) == !equal
  {
    var property := PropertyAt(store, items, i, prop).value;
    forall op: Op
      ensures KeepsPosition(store, items, i, prop, op, value, fuel) == Passes(property, Comparison(prop, op, value))
    {
      PositionsAre(store, items, 0, Comparison(prop, op, value), fuel);
      ComparableKept(store, items, i, prop, op, value, fuel);
      assert KeepsPosition(store, items, i, prop, op, value, fuel) == KeptFrom(store, items, 0, i, Comparison(prop, op, value), fuel);
    }
    SimpleOpTrichotomy(property, prop, value);
  }

  predicate AllComparable(store: Store, items: seq<Json>, prop: string) {
    forall i :: 0 <= i < |items| ==> ComparableAt(store, items, i, prop)
  }

  /** The lengths add up: nothing is kept twice and nothing is lost. */
  lemma {:induction false} FiltersCount(store: Store, items: seq<Json>, from: nat, prop: string, value: string, fuel: nat)
    requires AllComparable(store, items, prop) && from <= |items| && fuel > 0
    ensures |Positions(store, items, from, Comparison(prop, Less, value), fuel)|
          + |Positions(store, items, from, Comparison(prop, Equal, value), fuel)|
          + |Positions(store, items, from, Comparison(prop, Greater, value), fuel)| == |items| - from
    decreases |items| - from
  {
    if from < |items| {
      OneOfThree(store, items, from, prop, value, fuel);
      FiltersCount(store, items, from + 1, prop, value, fuel);
    }
  }

  lemma {:induction false} OneOfThree(store: Store, items: seq<Json>, i: nat, prop: string, value: string, fuel: nat)
    requires i < |items| && ComparableAt(store, items, i, prop) && fuel > 0
    ensures var less, equal, greater :=
              KeptAt(store, items, i, Comparison(prop, Less, value), fuel), KeptAt(store, items, i, Comparison(prop, Equal, value), fuel),
              KeptAt(store, items, i, Comparison(prop, Greater, value), fuel);
            (less || equal || greater) && !(less && equal) && !(equal && greater) && !(less && greater)
  {
    forall op: Op
      ensures KeptAt(store, items, i, Comparison(prop, op, value), fuel) == Passes(PropertyAt(store, items, i, prop).value, Comparison(prop, op, value))
    {
      ComparableKept(store, items, i, prop, op, value, fuel);
    }
    SimpleOpTrichotomy(PropertyAt(store, items, i, prop).value, prop, value);
  }

  // ------------------------------------------------------------------ existence test

  /** What the property of a plain payload resolves to, before a string is wrapped. */
  function Resolved(store: Store, payload: Json, prop: string): Option<Json> {
    match DottedLookup.ByPath(Some(payload), prop)
    case None => None
    case Some(value) => Follow(store, value).0
  }

  /** Whether the library defines what a test says: a comparison always, the existence test
      on everything but integers, a malformed operator only where no text is compared. */
  lemma UndefinedIff(json: Json, prop: string, op: Op, value: string)
    ensures SimpleOp(json, FilterOf(Compare(prop, op, value))).Some?
    ensures SimpleOp(json, FilterOf(Exists(prop))).None? <==> json.Int?
    ensures SimpleOp(json, FilterOf(Malformed(prop))).None? <==>
            match json
            case Obj(_) => Get(Some(json), prop).Some? && Get(Some(json), prop).value.Str?
            case Arr(_) => false
            case Real(_) => false
            case _ => true
  {
  }

  /** The existence test on a payload that is no collection or array, for all properties: it
      is undefined exactly on integers, and otherwise holds exactly for objects and strings,
      so a property that is true, false, null, a real number or an array counts as absent. */
  lemma {:induction false} ExistsIffObjectOrString(store: Store, payload: Json, prop: string, fuel: nat)
    requires !IsCollection(payload) && !payload.Arr? && fuel > 0
    ensures var r, value := OpResult(store, Some(payload), Filter(prop, Present, None), fuel), Resolved(store, payload, prop);
            && (r.Diverges? <==> value.Some? && value.value.Int?)
            && (r.Value? ==> (r.found == Some(payload) <==> value.Some? && (value.value.Obj? || value.value.Str?)))
            && (r.Value? && r.found.Some? ==> r.found == Some(payload))
  {
  }

  /** A payload that contains the property and fails the test, for every dot-free name. */
  lemma {:induction false} ContainedButNotFound(store: Store, prop: string, flag: bool, fuel: nat)
    requires '.' !in prop && fuel > 0
    ensures var payload := Obj([Member(prop, Bool(flag))]);
            && Get(Some(payload), prop).Some?
            && OpResult(store, Some(payload), Filter(prop, Present, None), fuel) == Value(None, 0)
  {
    var payload := Obj([Member(prop, Bool(flag))]);
    assert COUNT[13] == '.';
    assert Find(payload.members, COUNT) == Find(payload.members[1..], COUNT);
    assert Resolved(store, payload, prop) == Some(Bool(flag));
  }
}
