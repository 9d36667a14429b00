/** A service behaves like one JSON document: replacing inline objects by links to documents
    that hold them changes no answer of a RedPath, up to expanding those links again. */
module LinkTransparency {
  import opened Wrappers
  import opened Json
  import opened DottedLookup
  import opened RedPath
  import opened Evaluate
  import Text

  /** `b` is `a` with some of the objects inside it moved behind links. Links that `a` already
      has are kept, and are answered in the one service when they are in the other. */
  ghost predicate Same(inlined: Store, linked: Store, a: Json, b: Json)
    decreases a, 0
  {
    if LinkOf(a).Some? then a == b && (LinkOf(a).value in inlined <==> LinkOf(a).value in linked)
    else
      match a
      case Arr(items) =>
        b.Arr? && |b.items| == |items| && forall i :: 0 <= i < |items| ==> Moved(inlined, linked, items[i], b.items[i])
      case Obj(members) =>
        b.Obj? && |b.members| == |members| &&
        forall i :: 0 <= i < |members| ==>
          members[i].key == b.members[i].key && Moved(inlined, linked, members[i].value, b.members[i].value)
      case _ => a == b
  }

  /** The same value, or an object against a link to a document holding the same object. */
  ghost predicate Moved(inlined: Store, linked: Store, a: Json, b: Json)
    decreases a, 1
  {
    || Same(inlined, linked, a, b)
    || (a.Obj? && LinkOf(a).None? && LinkOf(b).Some? &&
        LinkOf(b).value in linked && Same(inlined, linked, a, linked[LinkOf(b).value]))
  }

  ghost predicate SameStores(inlined: Store, linked: Store) {
    forall uri :: uri in inlined ==> uri in linked && Same(inlined, linked, inlined[uri], linked[uri])
  }

  ghost predicate SameFound(inlined: Store, linked: Store, a: Option<Json>, b: Option<Json>) {
    (a.None? && b.None?) || (a.Some? && b.Some? && Same(inlined, linked, a.value, b.value))
  }

  ghost predicate SameEval(inlined: Store, linked: Store, a: Eval, b: Eval) {
    (a.Diverges? && b.Diverges?) || (a.Value? && b.Value? && SameFound(inlined, linked, a.found, b.found))
  }

  ghost predicate SameAll(inlined: Store, linked: Store, a: seq<Json>, b: seq<Json>) {
    |a| == |b| && forall i :: 0 <= i < |a| ==> Same(inlined, linked, a[i], b[i])
  }

  ghost predicate SameKept(inlined: Store, linked: Store, a: Kept, b: Kept) {
    (a.TooDeep? && b.TooDeep?) || (a.Kept? && b.Kept? && SameAll(inlined, linked, a.valid, b.valid))
  }

  // ----------------------------------------------------------------------- values

  /** Strings and numbers are never moved. */
  lemma {:induction false} LeafMoved(inlined: Store, linked: Store, a: Json, b: Json)
    requires Moved(inlined, linked, a, b)
    ensures a.Str? || b.Str? || a.Int? || b.Int? ==> a == b
  {
  }

  lemma {:induction false} NotALink(inlined: Store, linked: Store, a: Json, b: Json)
    requires Same(inlined, linked, a, b)
    ensures LinkOf(a) == LinkOf(b)
  {
    if LinkOf(a).None? && LinkOf(b).Some? {
      var x, y := a.members[0].value, b.members[0].value;
      assert a.members[0].key == b.members[0].key && Moved(inlined, linked, x, y);
      LeafMoved(inlined, linked, x, y);
      assert false;
    }
  }

  /** Following moved values leads to the same documents. */
  lemma {:induction false} FollowMoved(inlined: Store, linked: Store, a: Json, b: Json)
    requires SameStores(inlined, linked) && Moved(inlined, linked, a, b)
    ensures SameFound(inlined, linked, Follow(inlined, a).0, Follow(linked, b).0)
  {
    if Same(inlined, linked, a, b) {
      NotALink(inlined, linked, a, b);
    }
  }

  ghost predicate MovedFound(inlined: Store, linked: Store, a: Option<Json>, b: Option<Json>) {
    (a.None? && b.None?) || (a.Some? && b.Some? && Moved(inlined, linked, a.value, b.value))
  }

  lemma {:induction false} FindMoved(inlined: Store, linked: Store, a: seq<Member>, b: seq<Member>, key: string)
    requires |a| == |b|
    requires forall i :: 0 <= i < |a| ==> a[i].key == b[i].key && Moved(inlined, linked, a[i].value, b[i].value)
    ensures MovedFound(inlined, linked, Find(a, key), Find(b, key))
    decreases |a|
  {
    if a != [] && a[0].key != key {
      FindMoved(inlined, linked, a[1..], b[1..], key);
    }
  }

  lemma {:induction false} GetMoved(inlined: Store, linked: Store, a: Json, b: Json, key: string)
    requires Same(inlined, linked, a, b)
    ensures MovedFound(inlined, linked, Get(Some(a), key), Get(Some(b), key))
  {
    if a.Obj? {
      if LinkOf(a).Some? {
        var value := a.members[0].value;
        assert Same(inlined, linked, value, value);
        if Get(Some(a), key).Some? {
          FindIsPart(a.members, key);
        }
      } else {
        FindMoved(inlined, linked, a.members, b.members, key);
      }
    }
  }

  lemma {:induction false} EntryMoved(inlined: Store, linked: Store, a: Json, b: Json, index: nat)
    requires Same(inlined, linked, a, b)
    ensures MovedFound(inlined, linked, Entry(a, index), Entry(b, index))
  {
    if LinkOf(a).Some? {
      var value := a.members[0].value;
      assert Same(inlined, linked, value, value);
    }
  }

  lemma {:induction false} CollectionMoved(inlined: Store, linked: Store, a: Json, b: Json)
    requires Same(inlined, linked, a, b)
    ensures IsCollection(a) == IsCollection(b) && CollectionSize(a) == CollectionSize(b) && a.Arr? == b.Arr?
    ensures a.Arr? ==> |a.items| == |b.items|
  {
    GetMoved(inlined, linked, a, b, COUNT);
    GetMoved(inlined, linked, a, b, MEMBERS);
    if IsCollection(a) {
      LeafMoved(inlined, linked, Get(Some(a), COUNT).value, Get(Some(b), COUNT).value);
    }
  }

  lemma {:induction false} WrapSame(inlined: Store, linked: Store, name: string, a: Json, b: Json)
    requires Same(inlined, linked, a, b) && name != ODATA_ID
    ensures Same(inlined, linked, Wrap(name, a), Wrap(name, b))
  {
    if a.Str? {
      assert Moved(inlined, linked, a, b);
    }
  }

  /** The keys a name looks up one after another: the name itself, or its dotted parts. */
  function Keys(name: string): seq<string> {
    if '.' in name then DropEmpty(Segments(name)) else [name]
  }

  /** The names that look up at most one key. */
  predicate OneKey(name: string) {
    |Keys(name)| <= 1
  }

  lemma {:induction false} KeysFold(json: Option<Json>, name: string)
    ensures ByPath(json, name) == Fold(json, Keys(name))
  {
    if '.' !in name {
      assert Fold(json, [name]) == Fold(Get(json, name), []);
    }
  }

  lemma {:induction false} SegmentsHaveNoDot(name: string)
    ensures forall i :: 0 <= i < |Segments(name)| ==> '.' !in Segments(name)[i]
    decreases |name|
  {
    var n := Text.Until(name, '.');
    if n < |name| {
      SegmentsHaveNoDot(name[n + 1..]);
    }
  }

  lemma {:induction false} KeptFrom(segments: seq<string>)
    requires forall i :: 0 <= i < |segments| ==> '.' !in segments[i]
    ensures forall i :: 0 <= i < |DropEmpty(segments)| ==> '.' !in DropEmpty(segments)[i] && DropEmpty(segments)[i] != ""
    decreases |segments|
  {
    if segments != [] {
      KeptFrom(segments[1..]);
    }
  }

  lemma {:induction false} KeysHaveNoDot(name: string)
    ensures forall i :: 0 <= i < |Keys(name)| ==> '.' !in Keys(name)[i]
  {
    if '.' in name {
      SegmentsHaveNoDot(name);
      KeptFrom(Segments(name));
    }
  }

  lemma OdataIdHasTwoKeys()
    ensures !OneKey(ODATA_ID)
  {
    assert ODATA_ID[6] == '.';
    Text.UntilStops("@odata", ".id", '.');
    assert "@odata" + ".id" == ODATA_ID && ODATA_ID[..6] == "@odata" && ODATA_ID[7..] == "id";
    NoDotOneSegment("id");
    assert Segments(ODATA_ID) == ["@odata"] + Segments("id");
    DropEmptyIsIdentity(["@odata", "id"]);
    assert ["@odata"] + ["id"] == ["@odata", "id"];
  }

  /** A name of at most one key finds the same, up to the moved objects. */
  lemma {:induction false} NameSame(inlined: Store, linked: Store, a: Option<Json>, b: Option<Json>, name: string)
    requires SameStores(inlined, linked) && SameFound(inlined, linked, a, b) && OneKey(name)
    ensures SameFound(inlined, linked, ByNodeName(inlined, a, name).0, ByNodeName(linked, b, name).0)
  {
    KeysFold(a, name);
    KeysFold(b, name);
    assert MovedFound(inlined, linked, ByPath(a, name), ByPath(b, name)) by {
      KeyMoved(inlined, linked, a, b, Keys(name));
    }
    assert name != ODATA_ID by { OdataIdHasTwoKeys(); }
    var x, y := ByPath(a, name), ByPath(b, name);
    if x.Some? {
      FollowMoved(inlined, linked, x.value, y.value);
      var u, v := Follow(inlined, x.value).0, Follow(linked, y.value).0;
      if u.Some? {
        WrapSame(inlined, linked, name, u.value, v.value);
      }
    }
  }

  lemma {:induction false} KeyMoved(inlined: Store, linked: Store, a: Option<Json>, b: Option<Json>, keys: seq<string>)
    requires SameFound(inlined, linked, a, b) && |keys| <= 1
    ensures MovedFound(inlined, linked, Fold(a, keys), Fold(b, keys))
  {
    if keys != [] {
      assert Fold(a, keys) == Fold(Get(a, keys[0]), []) && Fold(b, keys) == Fold(Get(b, keys[0]), []);
      if a.Some? {
        GetMoved(inlined, linked, a.value, b.value, keys[0]);
      }
    }
  }

  lemma {:induction false} SimpleOpSame(inlined: Store, linked: Store, a: Json, b: Json, filter: Filter)
    requires Same(inlined, linked, a, b)
    ensures SimpleOp(a, filter) == SimpleOp(b, filter)
  {
    if a.Obj? {
      GetMoved(inlined, linked, a, b, filter.prop);
      if Get(Some(a), filter.prop).Some? {
        LeafMoved(inlined, linked, Get(Some(a), filter.prop).value, Get(Some(b), filter.prop).value);
      }
    }
  }

  lemma {:induction false} CombineSame(inlined: Store, linked: Store, a: seq<Json>, b: seq<Json>)
    requires SameAll(inlined, linked, a, b)
    ensures SameFound(inlined, linked, Combine(a), Combine(b))
  {
    if |a| >= 2 {
      var x, y := MakeCollection(a), MakeCollection(b);
      assert Same(inlined, linked, Int(|a|), Int(|b|));
      assert forall i :: 0 <= i < |a| ==> Moved(inlined, linked, a[i], b[i]);
      assert Same(inlined, linked, Arr(a), Arr(b));
      assert Same(inlined, linked, x, y);
    }
  }

  // ------------------------------------------------------------------- evaluation

  lemma {:induction false} MembersSame(inlined: Store, linked: Store, a: Json, b: Json)
    requires SameStores(inlined, linked) && Same(inlined, linked, a, b)
    ensures SameFound(inlined, linked, ByNodeName(inlined, Some(a), MEMBERS).0, ByNodeName(linked, Some(b), MEMBERS).0)
  {
    assert OneKey(MEMBERS);
    NameSame(inlined, linked, Some(a), Some(b), MEMBERS);
  }

  lemma {:induction false} IndexSame(inlined: Store, linked: Store, a: Option<Json>, b: Option<Json>, index: nat, fuel: nat)
    requires SameStores(inlined, linked) && SameFound(inlined, linked, a, b)
    ensures SameEval(inlined, linked, ByIndex(inlined, a, index, fuel), ByIndex(linked, b, index, fuel))
    decreases fuel
  {
    if fuel > 0 && a.Some? {
      CollectionMoved(inlined, linked, a.value, b.value);
      if IsCollection(a.value) {
        MembersSame(inlined, linked, a.value, b.value);
        IndexSame(inlined, linked, ByNodeName(inlined, a, MEMBERS).0, ByNodeName(linked, b, MEMBERS).0, index, fuel - 1);
      } else {
        EntryMoved(inlined, linked, a.value, b.value, index);
        if Entry(a.value, index).Some? {
          FollowMoved(inlined, linked, Entry(a.value, index).value, Entry(b.value, index).value);
        }
      }
    }
  }

  lemma {:induction false} CollectedSame(inlined: Store, linked: Store, a: Kept, b: Kept)
    requires SameKept(inlined, linked, a, b)
    ensures SameEval(inlined, linked, Collected(a), Collected(b))
  {
    if a.Kept? {
      CombineSame(inlined, linked, a.valid, b.valid);
    }
  }

  lemma {:induction false} KeepSame(inlined: Store, linked: Store, a: Eval, b: Eval, x: Kept, y: Kept)
    requires SameEval(inlined, linked, a, b) && SameKept(inlined, linked, x, y)
    ensures SameKept(inlined, linked, Keep(a, x), Keep(b, y))
  {
  }

  lemma {:induction false} OpSame(inlined: Store, linked: Store, a: Option<Json>, b: Option<Json>, filter: Filter, fuel: nat)
    requires SameStores(inlined, linked) && SameFound(inlined, linked, a, b) && OneKey(filter.prop)
    ensures SameEval(inlined, linked, OpResult(inlined, a, filter, fuel), OpResult(linked, b, filter, fuel))
    decreases fuel, 0
  {
    if fuel > 0 && a.Some? {
      CollectionMoved(inlined, linked, a.value, b.value);
      if IsCollection(a.value) {
        MembersSame(inlined, linked, a.value, b.value);
        var size := CollectionSize(a.value);
        var m, n := ByNodeName(inlined, a, MEMBERS).0, ByNodeName(linked, b, MEMBERS).0;
        SlotsSame(inlined, linked, m, n, 0, size, filter, fuel - 1);
        CollectedSame(inlined, linked, Slots(inlined, m, 0, size, filter, fuel - 1),
                      Slots(linked, n, 0, size, filter, fuel - 1));
      } else if a.value.Arr? {
        var size := |a.value.items|;
        SlotsSame(inlined, linked, a, b, 0, size, filter, fuel - 1);
        CollectedSame(inlined, linked, Slots(inlined, a, 0, size, filter, fuel - 1),
                      Slots(linked, b, 0, size, filter, fuel - 1));
      } else {
        NameSame(inlined, linked, a, b, filter.prop);
        var x, y := ByNodeName(inlined, a, filter.prop).0, ByNodeName(linked, b, filter.prop).0;
        if x.Some? {
          SimpleOpSame(inlined, linked, x.value, y.value, filter);
        }
      }
    }
  }

  lemma {:induction false} SlotsSame(inlined: Store, linked: Store, a: Option<Json>, b: Option<Json>, from: nat, size: nat,
                                     filter: Filter, fuel: nat)
    requires SameStores(inlined, linked) && SameFound(inlined, linked, a, b) && OneKey(filter.prop)
    ensures SameKept(inlined, linked, Slots(inlined, a, from, size, filter, fuel),
                     Slots(linked, b, from, size, filter, fuel))
    decreases fuel, 1, size - from
  {
    if from < size {
      IndexSame(inlined, linked, a, b, from, fuel);
      var x, y := ByIndex(inlined, a, from, fuel), ByIndex(linked, b, from, fuel);
      if x.Value? {
        OpSame(inlined, linked, x.found, y.found, filter, fuel);
      }
      SlotsSame(inlined, linked, a, b, from + 1, size, filter, fuel);
      KeepSame(inlined, linked,
               Slot(inlined, a, from, filter, fuel), Slot(linked, b, from, filter, fuel),
               Slots(inlined, a, from + 1, size, filter, fuel), Slots(linked, b, from + 1, size, filter, fuel));
    }
  }

  // ------------------------------------------------------------------------ paths

  /** Every name and every property in the path looks up at most one key; the dot-free ones
      do. */
  predicate OneKeyPath(path: Path) {
    forall i :: 0 <= i < |path| ==> OneKey(if path[i].Name? then path[i].name else FilterOf(path[i]).prop)
  }

  /** Every such path, whatever steps it has, finds the same in both services, up to the moved
      objects. */
  lemma {:induction false} LinksAreTransparent(inlined: Store, linked: Store, a: Option<Json>, b: Option<Json>, path: Path, fuel: nat)
    requires SameStores(inlined, linked) && SameFound(inlined, linked, a, b)
    requires OneKeyPath(path)
    ensures SameEval(inlined, linked, EvalPath(inlined, a, path, fuel), EvalPath(linked, b, path, fuel))
    decreases |path|
  {
    if a.Some? && path != [] {
      match path[0] {
        case Name(name) => NameSame(inlined, linked, a, b, name);
        case Index(index) => IndexSame(inlined, linked, a, b, index, fuel);
        case _ => OpSame(inlined, linked, a, b, FilterOf(path[0]), fuel);
      }
      var x, y := EvalStep(inlined, a.value, path[0], fuel), EvalStep(linked, b.value, path[0], fuel);
      if x.Value? && |path| > 1 {
        LinksAreTransparent(inlined, linked, x.found, y.found, path[1..], fuel);
      }
    }
  }

  // ----------------------------------------------------------- one single document

  ghost predicate LinkFree(json: Json)
    decreases json
  {
    && LinkOf(json).None?
    && match json
       case Arr(items) => forall i :: 0 <= i < |items| ==> LinkFree(items[i])
       case Obj(members) => forall i :: 0 <= i < |members| ==> LinkFree(members[i].value)
       case _ => true
  }

  ghost predicate FreeFound(found: Option<Json>) {
    found.Some? ==> LinkFree(found.value)
  }

  /** Answered without a request, by a part of the document. */
  ghost predicate Local(result: Eval) {
    result.Value? ==> result.gets == 0 && FreeFound(result.found)
  }

  ghost predicate LocalKept(kept: Kept) {
    kept.Kept? ==> kept.gets == 0 && forall i :: 0 <= i < |kept.valid| ==> LinkFree(kept.valid[i])
  }

  lemma {:induction false} FoldFree(json: Option<Json>, keys: seq<string>)
    requires FreeFound(json)
    ensures FreeFound(Fold(json, keys))
    decreases |keys|
  {
    if keys != [] {
      var found := Get(json, keys[0]);
      if found.Some? {
        FindIsPart(json.value.members, keys[0]);
        var k :| 0 <= k < |json.value.members| && json.value.members[k].value == found.value;
        assert LinkFree(json.value.members[k].value);
      }
      FoldFree(found, keys[1..]);
    }
  }

  lemma {:induction false} NameLocal(store: Store, json: Option<Json>, name: string)
    requires FreeFound(json) && OneKey(name)
    ensures ByNodeName(store, json, name).1 == 0 && FreeFound(ByNodeName(store, json, name).0)
  {
    KeysFold(json, name);
    FoldFree(json, Keys(name));
    assert name != ODATA_ID by { OdataIdHasTwoKeys(); }
    var value := ByPath(json, name);
    if value.Some? && value.value.Str? {
      assert LinkFree(Wrap(name, value.value));
    }
  }

  lemma {:induction false} IndexLocal(store: Store, json: Option<Json>, index: nat, fuel: nat)
    requires FreeFound(json)
    ensures Local(ByIndex(store, json, index, fuel))
    decreases fuel
  {
    if fuel > 0 && json.Some? && IsCollection(json.value) {
      assert OneKey(MEMBERS);
      NameLocal(store, json, MEMBERS);
      IndexLocal(store, ByNodeName(store, json, MEMBERS).0, index, fuel - 1);
    } else if json.Some? && Entry(json.value, index).Some? {
      assert LinkFree(Entry(json.value, index).value);
    }
  }

  lemma {:induction false} CollectedLocal(kept: Kept)
    requires LocalKept(kept)
    ensures Local(Collected(kept))
  {
    if kept.Kept? && |kept.valid| >= 2 {
      assert LinkFree(Arr(kept.valid));
    }
  }

  lemma {:induction false} OpLocal(store: Store, json: Option<Json>, filter: Filter, fuel: nat)
    requires FreeFound(json) && OneKey(filter.prop)
    ensures Local(OpResult(store, json, filter, fuel))
    decreases fuel, 0
  {
    if fuel > 0 && json.Some? {
      if IsCollection(json.value) {
        assert OneKey(MEMBERS);
        NameLocal(store, json, MEMBERS);
        var members, size := ByNodeName(store, json, MEMBERS).0, CollectionSize(json.value);
        SlotsLocal(store, members, 0, size, filter, fuel - 1);
        CollectedLocal(Slots(store, members, 0, size, filter, fuel - 1));
      } else if json.value.Arr? {
        SlotsLocal(store, json, 0, |json.value.items|, filter, fuel - 1);
        CollectedLocal(Slots(store, json, 0, |json.value.items|, filter, fuel - 1));
      } else {
        NameLocal(store, json, filter.prop);
      }
    }
  }

  lemma {:induction false} SlotsLocal(store: Store, source: Option<Json>, from: nat, size: nat, filter: Filter, fuel: nat)
    requires FreeFound(source) && OneKey(filter.prop)
    ensures LocalKept(Slots(store, source, from, size, filter, fuel))
    decreases fuel, 1, size - from
  {
    if from < size {
      IndexLocal(store, source, from, fuel);
      var element := ByIndex(store, source, from, fuel);
      if element.Value? {
        OpLocal(store, element.found, filter, fuel);
      }
      SlotsLocal(store, source, from + 1, size, filter, fuel);
    }
  }

  lemma {:induction false} PathLocal(store: Store, json: Option<Json>, path: Path, fuel: nat)
    requires FreeFound(json) && OneKeyPath(path)
    ensures Local(EvalPath(store, json, path, fuel))
    decreases |path|
  {
    if json.Some? && path != [] {
      match path[0] {
        case Name(name) => NameLocal(store, json, name);
        case Index(index) => IndexLocal(store, json, index, fuel);
        case _ => OpLocal(store, json, FilterOf(path[0]), fuel);
      }
      var r := EvalStep(store, json.value, path[0], fuel);
      if r.Value? && |path| > 1 {
        PathLocal(store, r.found, path[1..], fuel);
      }
    }
  }

  /** A whole service against one JSON document that holds everything inline: the same
      answers for every path, and for the document without a single request. */
  lemma {:induction false} ServiceIsOneDocument(document: Json, service: Store, root: Json, path: Path, fuel: nat)
    requires LinkFree(document) && Same(map[], service, document, root)
    requires OneKeyPath(path)
    ensures var one := EvalPath(map[], Some(document), path, fuel);
            SameEval(map[], service, one, EvalPath(service, Some(root), path, fuel)) &&
            (one.Value? ==> one.gets == 0)
  {
    LinksAreTransparent(map[], service, Some(document), Some(root), path, fuel);
    PathLocal(map[], Some(document), path, fuel);
  }

  // ----------------------------------------------------------------- dotted names

  /** The name step cannot tell any two related services apart. */
  ghost predicate Transparent(name: string) {
    forall inlined: Store, linked: Store, a: Option<Json>, b: Option<Json> ::
      SameStores(inlined, linked) && SameFound(inlined, linked, a, b) ==>
        SameFound(inlined, linked, ByNodeName(inlined, a, name).0, ByNodeName(linked, b, name).0)
  }

  /** A dotted name looks inside the value at hand only, so an object on its way that has been
      moved behind a link hides the rest. The name step respects link expansion exactly for
      the names that look up at most one key. */
  lemma {:induction false} TransparentIffOneKey(name: string)
    ensures Transparent(name) <==> OneKey(name)
    ensures '.' !in name ==> OneKey(name)
  {
    if OneKey(name) {
      forall inlined: Store, linked: Store, a: Option<Json>, b: Option<Json> |
        SameStores(inlined, linked) && SameFound(inlined, linked, a, b)
        ensures SameFound(inlined, linked, ByNodeName(inlined, a, name).0, ByNodeName(linked, b, name).0)
      {
        NameSame(inlined, linked, a, b, name);
      }
    } else {
      LinkHidesTheRest(name);
    }
  }

  /** The document a dotted name finds something in, and the same with its first object moved
      behind a link. */
  function Inlined(keys: seq<string>): Json
    requires |keys| >= 2
  {
    Obj([Member(keys[0], Nest(keys[1..]))])
  }

  function Linked(keys: seq<string>, uri: string): Json
    requires |keys| >= 2
  {
    Obj([Member(keys[0], Obj([Member(ODATA_ID, Str(uri))]))])
  }

  lemma {:induction false} NestSame(inlined: Store, linked: Store, keys: seq<string>)
    requires forall i :: 0 <= i < |keys| ==> keys[i] != ODATA_ID
    ensures Same(inlined, linked, Nest(keys), Nest(keys)) && LinkOf(Nest(keys)).None?
    decreases |keys|
  {
    if keys != [] {
      NestSame(inlined, linked, keys[1..]);
      assert Moved(inlined, linked, Nest(keys[1..]), Nest(keys[1..]));
    }
  }

  lemma {:induction false} LinkHidesTheRest(name: string)
    requires !OneKey(name)
    ensures var keys, uri := Keys(name), "/u";
            var inlined: Store, linked: Store := map[], map[uri := Nest(keys[1..])];
            && SameStores(inlined, linked) && SameFound(inlined, linked, Some(Inlined(keys)), Some(Linked(keys, uri)))
            && ByNodeName(inlined, Some(Inlined(keys)), name).0.Some?
            && ByNodeName(linked, Some(Linked(keys, uri)), name).0.None?
    ensures !Transparent(name)
  {
    var keys, uri := Keys(name), "/u";
    var inlined: Store, linked: Store := map[], map[uri := Nest(keys[1..])];
    var a, b, link := Inlined(keys), Linked(keys, uri), Obj([Member(ODATA_ID, Str(uri))]);
    KeysHaveNoDot(name);
    assert ODATA_ID[6] == '.';
    assert forall i :: 0 <= i < |keys| ==> keys[i] != ODATA_ID;
    assert Same(inlined, linked, a, b) by {
      NestSame(inlined, linked, keys[1..]);
      assert Moved(inlined, linked, Nest(keys[1..]), link);
    }
    assert ByPath(Some(a), name) == Some(Null) by {
      KeysFold(Some(a), name);
      assert a == Nest(keys);
      NestIsFound(keys);
    }
    assert ByPath(Some(b), name) == None by {
      KeysFold(Some(b), name);
      assert Fold(Some(b), keys) == Fold(Some(link), keys[1..]);
      assert keys[1..][0] == keys[1];
      assert Find(link.members[1..], keys[1]).None?;
      assert Fold(Some(link), keys[1..]) == Fold(Get(Some(link), keys[1]), keys[1..][1..]);
      FoldFromNothing(keys[1..][1..]);
    }
  }
}
