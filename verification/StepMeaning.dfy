/** What name, index and filter steps find, on payloads written out: which values are fetched,
    which texts are presented as objects, how collections stand for their members, and how a
    filter over many payloads follows from the filter of each. */
module StepMeaning {
  import opened Wrappers
  import opened Json
  import opened RedPath
  import opened Evaluate
  import CNumbers
  import DottedLookup
  import Text

  /** What a path of one step answers. */
  function Answer(store: Store, payload: Json, step: Step, fuel: nat): Eval {
    EvalPath(store, Some(payload), [step], fuel)
  }

  /** The object that stands for another document. */
  function LinkTo(uri: string): Json {
    Obj([Member("@odata.id", Str(uri))])
  }

  ghost predicate IsLink(json: Json) {
    exists uri :: json == LinkTo(uri)
  }

  lemma {:induction false} LinkIs(json: Json, uri: string)
    ensures LinkOf(json) == Some(uri) <==> json == LinkTo(uri)
  {
    if LinkOf(json) == Some(uri) {
      assert json.members == [json.members[0]];
    }
  }

  lemma {:induction false} LinkIff(json: Json)
    ensures LinkOf(json).Some? <==> IsLink(json)
  {
    if LinkOf(json).Some? {
      LinkIs(json, LinkOf(json).value);
    }
    if uri :| json == LinkTo(uri) {
      LinkIs(json, uri);
    }
  }

  // ------------------------------------------------------------------- name steps

  /** Entry `k` is the first that has the key. */
  predicate FirstAt(members: seq<Member>, key: string, k: nat) {
    k < |members| && members[k].key == key && forall i :: 0 <= i < k ==> members[i].key != key
  }

  lemma {:induction false} FindFirst(members: seq<Member>, key: string, k: nat)
    requires FirstAt(members, key, k)
    ensures Find(members, key) == Some(members[k].value)
    decreases k
  {
    if k > 0 {
      FindFirst(members[1..], key, k - 1);
    }
  }

  lemma {:induction false} FindMissing(members: seq<Member>, key: string)
    requires forall i :: 0 <= i < |members| ==> members[i].key != key
    ensures Find(members, key) == None
    decreases |members|
  {
    if members != [] {
      FindMissing(members[1..], key);
    }
  }

  lemma {:induction false} NameAnswer(store: Store, members: seq<Member>, name: string, k: nat, fuel: nat)
    requires '.' !in name && FirstAt(members, name, k)
    ensures Answer(store, Obj(members), Name(name), fuel) ==
            var (document, gets) := Follow(store, members[k].value);
            Value(if document.Some? then Some(Wrap(name, document.value)) else None, gets)
  {
    FindFirst(members, name, k);
    assert [Name(name)][0] == Name(name);
  }

  /** A name finds the value of the first entry of that key; a text is presented as an object
      with this one entry. */
  lemma {:induction false} NameFinds(store: Store, members: seq<Member>, name: string, k: nat, fuel: nat)
    requires '.' !in name && FirstAt(members, name, k) && !IsLink(members[k].value)
    ensures var value := members[k].value;
            Answer(store, Obj(members), Name(name), fuel) ==
            if value.Str? then Value(Some(Obj([Member(name, value)])), 0) else Value(Some(value), 0)
  {
    LinkIff(members[k].value);
    NameAnswer(store, members, name, k, fuel);
  }

  /** A link is replaced by the document, or by nothing, at the price of one request. */
  lemma {:induction false} NameFollows(store: Store, members: seq<Member>, name: string, k: nat, uri: string, fuel: nat)
    requires '.' !in name && FirstAt(members, name, k) && members[k].value == LinkTo(uri)
    ensures Answer(store, Obj(members), Name(name), fuel) ==
            if uri !in store then Value(None, 1)
            else if store[uri].Str? then Value(Some(Obj([Member(name, store[uri])])), 1)
            else Value(Some(store[uri]), 1)
  {
    LinkIs(members[k].value, uri);
    NameAnswer(store, members, name, k, fuel);
  }

  /** A name that is not there finds nothing, and so does any name but on an object. */
  lemma {:induction false} NameMissing(store: Store, payload: Json, name: string, fuel: nat)
    requires '.' !in name
    requires payload.Obj? ==> forall i :: 0 <= i < |payload.members| ==> payload.members[i].key != name
    ensures Answer(store, payload, Name(name), fuel) == Value(None, 0)
  {
    if payload.Obj? {
      FindMissing(payload.members, name);
    }
    assert [Name(name)][0] == Name(name);
  }

  /** A dotted name finds what its parts find one after another, in one document. */
  lemma {:induction false} DottedNameFinds(members: seq<Member>, name: string, k: nat, inner: string)
    requires name != "" && '.' !in name && FirstAt(members, name, k) && inner != "" && '.' !in inner
    ensures DottedLookup.ByPath(Some(Obj(members)), name + "." + inner) == Get(Some(members[k].value), inner)
  {
    var path := name + "." + inner;
    FindFirst(members, name, k);
    Text.UntilStops(name, "." + inner, '.');
    DottedLookup.NoDotOneSegment(inner);
    assert path == name + ("." + inner) && path[..|name|] == name && path[|name| + 1..] == inner;
    assert path[|name|] == '.';
    var segments := DottedLookup.Segments(path);
    assert segments == [name, inner];
    assert DottedLookup.DropEmpty([inner]) == [inner];
    assert segments == [name] + [inner] && segments[1..] == [inner];
    FoldTwo(Some(Obj(members)), name, inner);
  }

  lemma {:induction false} FoldTwo(json: Option<Json>, a: string, b: string)
    ensures DottedLookup.Fold(json, [a, b]) == Get(Get(json, a), b)
  {
    assert [a, b][1..] == [b] && [b][1..] == [];
    assert DottedLookup.Fold(Get(json, a), [b]) == DottedLookup.Fold(Get(Get(json, a), b), []);
  }

  // ------------------------------------------------------------------ index steps

  /** An entry that is found: a link is replaced by its document, anything else is the answer
      as it is. */
  ghost predicate Delivers(store: Store, value: Json, answer: Eval) {
    && (forall uri :: value == LinkTo(uri) ==> answer == Value(if uri in store then Some(store[uri]) else None, 1))
    && (!IsLink(value) ==> answer == Value(Some(value), 0))
  }

  lemma {:induction false} FollowDelivers(store: Store, value: Json)
    ensures Delivers(store, value, Value(Follow(store, value).0, Follow(store, value).1))
  {
    LinkIff(value);
    forall uri | value == LinkTo(uri) ensures LinkOf(value) == Some(uri) {
      LinkIs(value, uri);
    }
  }

  lemma {:induction false} IndexAnswer(store: Store, payload: Json, index: nat, fuel: nat)
    ensures Answer(store, payload, Index(index), fuel) == ByIndex(store, Some(payload), index, fuel)
  {
    assert [Index(index)][0] == Index(index);
  }

  /** The entry of an array, or what is behind it. */
  lemma {:induction false} IndexOfArray(store: Store, items: seq<Json>, index: nat, fuel: nat)
    requires fuel > 0
    ensures if index < |items| then Delivers(store, items[index], Answer(store, Arr(items), Index(index), fuel))
            else Answer(store, Arr(items), Index(index), fuel) == Value(None, 0)
  {
    IndexAnswer(store, Arr(items), index, fuel);
    if index < |items| {
      FollowDelivers(store, items[index]);
    }
  }

  /** The value at a position of an object that is not a collection; nothing elsewhere. */
  lemma {:induction false} IndexOfObject(store: Store, payload: Json, index: nat, fuel: nat)
    requires fuel > 0 && !payload.Arr?
    requires payload.Obj? ==> forall i :: 0 <= i < |payload.members| ==> payload.members[i].key != "Members@odata.count"
    ensures if payload.Obj? && index < |payload.members|
            then Delivers(store, payload.members[index].value, Answer(store, payload, Index(index), fuel))
            else Answer(store, payload, Index(index), fuel) == Value(None, 0)
  {
    IndexAnswer(store, payload, index, fuel);
    if payload.Obj? {
      FindMissing(payload.members, "Members@odata.count");
      if index < |payload.members| {
        FollowDelivers(store, payload.members[index].value);
      }
    }
  }

  // ------------------------------------------------------------------ collections

  /** An object with a count and members. */
  predicate CollectionOf(members: seq<Member>, count: Json, entries: Json) {
    exists c, m :: 0 <= c < |members| && 0 <= m < |members| && FirstAt(members, "Members@odata.count", c)
      && FirstAt(members, "Members", m) && members[c].value == count && members[m].value == entries
  }

  lemma {:induction false} CollectionHas(members: seq<Member>, count: Json, entries: Json)
    requires CollectionOf(members, count, entries)
    ensures Get(Some(Obj(members)), COUNT) == Some(count) && Get(Some(Obj(members)), MEMBERS) == Some(entries)
  {
    var c, m :| 0 <= c < |members| && 0 <= m < |members| && FirstAt(members, "Members@odata.count", c)
      && FirstAt(members, "Members", m) && members[c].value == count && members[m].value == entries;
    FindFirst(members, "Members@odata.count", c);
    FindFirst(members, "Members", m);
  }

  lemma {:induction false} MembersFetched(store: Store, members: seq<Member>, count: Json, entries: Json)
    requires CollectionOf(members, count, entries) && entries.Arr?
    ensures IsCollection(Obj(members)) && ByNodeName(store, Some(Obj(members)), MEMBERS) == (Some(entries), 0)
  {
    CollectionHas(members, count, entries);
    assert '.' !in "Members";
  }

  lemma {:induction false} LinkedMembersFetched(store: Store, members: seq<Member>, count: Json, uri: string, items: seq<Json>)
    requires CollectionOf(members, count, LinkTo(uri)) && uri in store && store[uri] == Arr(items)
    ensures IsCollection(Obj(members)) && ByNodeName(store, Some(Obj(members)), MEMBERS) == (Some(Arr(items)), 1)
  {
    CollectionHas(members, count, LinkTo(uri));
    LinkIs(LinkTo(uri), uri);
    assert '.' !in "Members";
  }

  function Dearer(gets: nat, answer: Eval): Eval {
    match answer
    case Diverges => Diverges
    case Value(found, more) => Value(found, gets + more)
  }

  /** An index into a collection is an index into its members, whatever the count says; members
      behind a link cost one request more. */
  lemma {:induction false} IndexOfCollection(store: Store, members: seq<Member>, count: Json, items: seq<Json>, uri: string, index: nat, fuel: nat)
    requires fuel > 0
    ensures CollectionOf(members, count, Arr(items)) ==>
              Answer(store, Obj(members), Index(index), fuel) == Answer(store, Arr(items), Index(index), fuel - 1)
    ensures CollectionOf(members, count, LinkTo(uri)) && uri in store && store[uri] == Arr(items) ==>
              Answer(store, Obj(members), Index(index), fuel) == Dearer(1, Answer(store, Arr(items), Index(index), fuel - 1))
  {
    IndexAnswer(store, Obj(members), index, fuel);
    IndexAnswer(store, Arr(items), index, fuel - 1);
    if CollectionOf(members, count, Arr(items)) {
      MembersFetched(store, members, count, Arr(items));
      CollectionIndex(store, Obj(members), index, fuel);
    }
    if CollectionOf(members, count, LinkTo(uri)) && uri in store && store[uri] == Arr(items) {
      LinkedMembersFetched(store, members, count, uri, items);
      CollectionIndex(store, Obj(members), index, fuel);
    }
  }

  // --------------------------------------------------------------- filters over many

  predicate IsFilterStep(step: Step) {
    !step.Name? && !step.Index?
  }

  /** What the filter answers for entry `i` alone: an index step and then the filter. */
  function AnswerAt(store: Store, items: seq<Json>, i: nat, step: Step, fuel: nat): Eval {
    EvalPath(store, Some(Arr(items)), [Index(i), step], fuel)
  }

  /** What was found, in order, and what it cost. */
  function FoundOf(answers: seq<Eval>): seq<Json> {
    if answers == [] then []
    else (if answers[0].Value? && answers[0].found.Some? then [answers[0].found.value] else []) + FoundOf(answers[1..])
  }

  function CostOf(answers: seq<Eval>): nat {
    if answers == [] then 0 else (if answers[0].Value? then answers[0].gets else 0) + CostOf(answers[1..])
  }

  function AnswersFrom(store: Store, items: seq<Json>, from: nat, upTo: nat, step: Step, fuel: nat): (answers: seq<Eval>)
    ensures |answers| == if from < upTo then upTo - from else 0
    ensures forall i :: 0 <= i < |answers| ==> answers[i] == AnswerAt(store, items, from + i, step, fuel)
    decreases upTo - from
  {
    if from >= upTo then []
    else [AnswerAt(store, items, from, step, fuel)] + AnswersFrom(store, items, from + 1, upTo, step, fuel)
  }

  /** Nothing found is nothing, one payload is itself, several are a new collection. */
  function Bundled(found: seq<Json>): Option<Json> {
    if found == [] then None
    else if |found| == 1 then Some(found[0])
    else Some(Obj([Member("Members@odata.count", Int(|found|)), Member("Members", Arr(found))]))
  }

  predicate NoneDiverges(answers: seq<Eval>) {
    forall i :: 0 <= i < |answers| ==> answers[i].Value?
  }

  function Bundle(answers: seq<Eval>): Eval {
    if NoneDiverges(answers) then Value(Bundled(FoundOf(answers)), CostOf(answers)) else Diverges
  }

  lemma {:induction false} SlotIsAnswer(store: Store, items: seq<Json>, i: nat, step: Step, fuel: nat)
    requires IsFilterStep(step) && fuel > 0
    ensures Slot(store, Some(Arr(items)), i, FilterOf(step), fuel) == AnswerAt(store, items, i, step, fuel)
  {
    var path := [Index(i), step];
    var element := ByIndex(store, Some(Arr(items)), i, fuel);
    assert path[0] == Index(i) && path[1..] == [step];
    if element.Value? && element.found.Some? {
      assert EvalPath(store, element.found, [step], fuel) == EvalStep(store, element.found.value, step, fuel);
    }
  }

  lemma {:induction false} KeepIsBundle(slot: Eval, later: Kept, answers: seq<Eval>, rest: seq<Eval>)
    requires answers == [slot] + rest
    requires if NoneDiverges(rest) then later == Kept(FoundOf(rest), CostOf(rest)) else later.TooDeep?
    ensures if NoneDiverges(answers) then Keep(slot, later) == Kept(FoundOf(answers), CostOf(answers)) else Keep(slot, later).TooDeep?
  {
    assert answers[0] == slot && answers[1..] == rest;
    if NoneDiverges(answers) {
      assert forall i :: 0 <= i < |rest| ==> rest[i] == answers[i + 1];
    } else if NoneDiverges(rest) {
      assert forall i :: 0 < i < |answers| ==> answers[i] == rest[i - 1];
    }
  }

  lemma {:induction false} SlotsAreAnswers(store: Store, items: seq<Json>, from: nat, upTo: nat, step: Step, fuel: nat)
    requires IsFilterStep(step) && fuel > 0
    ensures var slots, answers := Slots(store, Some(Arr(items)), from, upTo, FilterOf(step), fuel), AnswersFrom(store, items, from, upTo, step, fuel);
            if NoneDiverges(answers) then slots == Kept(FoundOf(answers), CostOf(answers)) else slots.TooDeep?
    decreases upTo - from
  {
    if from < upTo {
      SlotIsAnswer(store, items, from, step, fuel);
      SlotsAreAnswers(store, items, from + 1, upTo, step, fuel);
      var rest := AnswersFrom(store, items, from + 1, upTo, step, fuel);
      KeepIsBundle(AnswerAt(store, items, from, step, fuel), Slots(store, Some(Arr(items)), from + 1, upTo, FilterOf(step), fuel),
                   AnswersFrom(store, items, from, upTo, step, fuel), rest);
    }
  }

  /** A filter over an array finds what an index step and then the filter find, entry by entry
      in order, at the price of all of them together. */
  lemma {:induction false} FilterOfArray(store: Store, items: seq<Json>, step: Step, fuel: nat)
    requires IsFilterStep(step) && fuel > 1
    ensures Answer(store, Arr(items), step, fuel) == Bundle(AnswersFrom(store, items, 0, |items|, step, fuel - 1))
  {
    assert [step][0] == step;
    SlotsAreAnswers(store, items, 0, |items|, step, fuel - 1);
  }

  lemma {:induction false} FilterOfFetched(store: Store, payload: Json, size: nat, items: seq<Json>, gets: nat, step: Step, fuel: nat)
    requires IsFilterStep(step) && fuel > 1 && IsCollection(payload) && CollectionSize(payload) == size
    requires ByNodeName(store, Some(payload), MEMBERS) == (Some(Arr(items)), gets)
    ensures Answer(store, payload, step, fuel) ==
            if size == 0 then Value(None, 0) else Dearer(gets, Bundle(AnswersFrom(store, items, 0, size, step, fuel - 1)))
  {
    assert [step][0] == step;
    SlotsAreAnswers(store, items, 0, size, step, fuel - 1);
  }

  /** Over a collection it goes through as many entries as the count says, those that are not
      there finding nothing; a count of zero, or one that is no number, makes no request. */
  lemma {:induction false} FilterOfCollection(store: Store, members: seq<Member>, count: Json, items: seq<Json>, step: Step, fuel: nat)
    requires IsFilterStep(step) && fuel > 1 && (count.Int? ==> 0 <= count.i)
    requires CollectionOf(members, count, Arr(items))
    ensures Answer(store, Obj(members), step, fuel) == Bundle(AnswersFrom(store, items, 0, Slotted(count), step, fuel - 1))
  {
    CountOfCollection(members, count, Arr(items));
    MembersFetched(store, members, count, Arr(items));
    FilterOfFetched(store, Obj(members), Slotted(count), items, 0, step, fuel);
  }

  lemma {:induction false} FilterOfLinkedCollection(store: Store, members: seq<Member>, count: Json, items: seq<Json>, uri: string, step: Step, fuel: nat)
    requires IsFilterStep(step) && fuel > 1 && (count.Int? ==> 0 <= count.i)
    requires CollectionOf(members, count, LinkTo(uri)) && uri in store && store[uri] == Arr(items)
    ensures Answer(store, Obj(members), step, fuel) ==
            if Slotted(count) == 0 then Value(None, 0) else Dearer(1, Bundle(AnswersFrom(store, items, 0, Slotted(count), step, fuel - 1)))
  {
    CountOfCollection(members, count, LinkTo(uri));
    LinkedMembersFetched(store, members, count, uri, items);
    FilterOfFetched(store, Obj(members), Slotted(count), items, 1, step, fuel);
  }

  function Slotted(count: Json): nat {
    if count.Int? && count.i >= 0 then count.i else 0
  }

  lemma {:induction false} CountOfCollection(members: seq<Member>, count: Json, entries: Json)
    requires CollectionOf(members, count, entries) && (count.Int? ==> 0 <= count.i)
    ensures IsCollection(Obj(members)) && CollectionSize(Obj(members)) == Slotted(count)
  {
    CollectionHas(members, count, entries);
  }
}
