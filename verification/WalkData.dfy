/** Paths and the data they are evaluated on: what the theorem about whole walks asks of them,
    and that every step of the blocking walk hands it on to the payload it finds. */
module WalkData {
  import opened Wrappers
  import opened Json
  import opened DottedLookup
  import opened RedPath
  import opened Evaluate
  import opened AsyncEvaluate
  import opened AsyncRefinesSync
  import opened FilterFinds

  predicate PlainStep(step: Step) {
    (step.Name? && '.' !in step.name) || step.Index?
  }

  /** A filter whose property both evaluators resolve alike. */
  predicate GoodFilter(step: Step) {
    IsFilter(step) && GoodProperty(FilterOf(step).prop)
  }

  /** Dot-free names, indices and filters by a property, in any order. */
  predicate GoodPath(path: Path) {
    path != [] && forall i :: 0 <= i < |path| ==> PlainStep(path[i]) || GoodFilter(path[i])
  }

  function LastStep(path: Path): Step
    requires path != []
  {
    path[|path| - 1]
  }

  /** A filter that is not the last step; what comes behind it may run on the worker. */
  predicate FiltersOnTheWay(path: Path) {
    exists i :: 0 <= i < |path| - 1 && IsFilter(path[i])
  }

  lemma {:induction false} GoodPathIsQuery(path: Path)
    requires GoodPath(path)
    ensures IsQueryPath(path)
    ensures |path| > 1 ==>
              && GoodPath(path[1..]) && LastStep(path[1..]) == LastStep(path)
              && FiltersOnTheWay(path) == (IsFilter(path[0]) || FiltersOnTheWay(path[1..]))
  {
    if |path| > 1 {
      var rest := path[1..];
      assert forall i :: 0 <= i < |rest| ==> rest[i] == path[i + 1];
      if FiltersOnTheWay(rest) {
        var i :| 0 <= i < |rest| - 1 && IsFilter(rest[i]);
        assert IsFilter(path[i + 1]);
      }
      if FiltersOnTheWay(path) && !IsFilter(path[0]) {
        var i :| 0 <= i < |path| - 1 && IsFilter(path[i]);
        assert IsFilter(rest[i - 1]);
      }
    }
  }

  // The name step with callbacks also looks into the members of collections and arrays, which
  // the blocking one does not. It makes no difference where that finds nothing.

  /** No collection or array in `json` has members with a property `name` of their own. */
  predicate Unmapped(json: Json, name: string)
    decreases json
  {
    && NamedValue(json, name) == Get(Some(json), name)
    && match json
       case Arr(items) => forall i :: 0 <= i < |items| ==> Unmapped(items[i], name)
       case Obj(members) => forall i :: 0 <= i < |members| ==> Unmapped(members[i].value, name)
       case _ => true
  }

  /** The same for all names of a path, in a payload and in every document. */
  ghost predicate UnmappedOn(json: Json, path: Path) {
    forall i :: 0 <= i < |path| && path[i].Name? ==> Unmapped(json, path[i].name)
  }

  ghost predicate UnmappedStore(store: Store, path: Path) {
    forall uri :: uri in store ==> UnmappedOn(store[uri], path)
  }

  /** What is asked of the data when the blocking walk finds nothing. */
  ghost predicate NothingMapped(store: Store, json: Json, path: Path) {
    UnmappedStore(store, path) && UnmappedOn(json, path)
  }

  lemma {:induction false} UnmappedTail(store: Store, json: Json, path: Path)
    requires NothingMapped(store, json, path) && |path| > 1
    ensures NothingMapped(store, json, path[1..])
  {
    var rest := path[1..];
    assert forall i :: 0 <= i < |rest| ==> rest[i] == path[i + 1];
  }

  lemma {:induction false} UnmappedMember(json: Json, name: string, key: string)
    requires Unmapped(json, name) && Get(Some(json), key).Some?
    ensures Unmapped(Get(Some(json), key).value, name)
  {
    FindIsPart(json.members, key);
  }

  lemma {:induction false} UnmappedWrap(json: Json, name: string, asked: string)
    requires Unmapped(json, name) && '.' !in name && '.' !in asked
    ensures Unmapped(Wrap(asked, json), name)
  {
    if json.Str? {
      var wrapped := Wrap(asked, json);
      assert wrapped.members == [Member(asked, json)];
      assert Find(wrapped.members, COUNT) == Find(wrapped.members[1..], COUNT);
      assert '.' in COUNT by { assert COUNT[13] == '.'; }
    }
  }

  ghost predicate UnmappedDocuments(store: Store, name: string) {
    forall uri :: uri in store ==> Unmapped(store[uri], name)
  }

  lemma {:induction false} UnmappedCloses(store: Store, name: string)
    requires '.' !in name && UnmappedDocuments(store, name)
    ensures PartClosed(store, json => Unmapped(json, name))
  {
    forall json: Json | Unmapped(json, name) && Get(Some(json), MEMBERS).Some?
      ensures Unmapped(Wrap(MEMBERS, Get(Some(json), MEMBERS).value), name)
    {
      UnmappedMember(json, name, MEMBERS);
      UnmappedWrap(Get(Some(json), MEMBERS).value, name, MEMBERS);
    }
    forall uri: string | uri in store ensures Unmapped(Wrap(MEMBERS, store[uri]), name) {
      UnmappedWrap(store[uri], name, MEMBERS);
    }
  }

  // ------------------------------------------------------------------- soundness

  /** The property a step filters by, if any. */
  function PropertyOf(step: Step): Option<string> {
    if IsFilter(step) then Some(FilterOf(step).prop) else None
  }

  /** Every document is sound for every filter of the path. */
  ghost predicate StoreFits(store: Store, path: Path) {
    forall i :: 0 <= i < |path| ==> SoundStore(store, PropertyOf(path[i]))
  }

  ghost predicate JsonFits(store: Store, json: Json, path: Path, worker: bool) {
    forall i :: 0 <= i < |path| ==> Sound(store, json, PropertyOf(path[i]), worker)
  }

  lemma {:induction false} SoundCloses(store: Store, prop: Option<string>, worker: bool)
    requires SoundStore(store, prop)
    ensures PartClosed(store, json => Sound(store, json, prop, worker))
  {
    forall json: Json | Sound(store, json, prop, worker) && Get(Some(json), MEMBERS).Some?
      ensures Sound(store, Wrap(MEMBERS, Get(Some(json), MEMBERS).value), prop, worker)
    {
      SoundMember(store, json, prop, worker, MEMBERS);
      SoundWrap(store, Get(Some(json), MEMBERS).value, MEMBERS, prop, worker);
    }
    forall uri: string | uri in store ensures Sound(store, store[uri], prop, worker) {
      SoundElsewhere(store, store[uri], prop, worker);
    }
  }

  /** What is found by a name is sound where its payload is. */
  lemma {:induction false} NameFindsSound(store: Store, payload: Json, name: string, prop: Option<string>, worker: bool)
    requires SoundStore(store, prop) && Sound(store, payload, prop, worker) && '.' !in name
    ensures var found := ByNodeName(store, Some(payload), name).0;
            found.Some? ==> Sound(store, found.value, prop, worker)
  {
    NoDotOneSegment(name);
    var raw := Get(Some(payload), name);
    if raw.Some? {
      SoundMember(store, payload, prop, worker, name);
      match LinkOf(raw.value) {
        case Some(uri) =>
          if uri in store {
            SoundElsewhere(store, store[uri], prop, worker);
          }
        case None => SoundWrap(store, raw.value, name, prop, worker);
      }
    }
  }

  /** So is what any step of a path finds, unless a filter made a collection of it. */
  lemma {:induction false} StepFindsSound(store: Store, payload: Json, step: Step, prop: Option<string>, worker: bool, fuel: nat)
    requires PlainStep(step) || IsFilter(step)
    requires SoundStore(store, prop) && Sound(store, payload, prop, worker)
    requires EvalStep(store, payload, step, fuel).Value? && EvalStep(store, payload, step, fuel).found.Some?
    requires IsFilter(step) ==> !IsMade(EvalStep(store, payload, step, fuel).found.value)
    ensures Sound(store, EvalStep(store, payload, step, fuel).found.value, prop, worker)
  {
    match step {
      case Name(name) => NameFindsSound(store, payload, name, prop, worker);
      case Index(index) =>
        SoundCloses(store, prop, worker);
        IndexFinds(store, Some(payload), index, fuel, json => Sound(store, json, prop, worker));
      case _ =>
        SoundCloses(store, prop, worker);
        OpFinds(store, Some(payload), FilterOf(step), fuel, json => Sound(store, json, prop, worker));
    }
  }

  lemma {:induction false} NameFindsUnmapped(store: Store, payload: Json, asked: string, name: string)
    requires UnmappedDocuments(store, name) && Unmapped(payload, name) && '.' !in name && '.' !in asked
    ensures var found := ByNodeName(store, Some(payload), asked).0;
            found.Some? ==> Unmapped(found.value, name)
  {
    NoDotOneSegment(asked);
    var raw := Get(Some(payload), asked);
    if raw.Some? {
      UnmappedMember(payload, name, asked);
      match LinkOf(raw.value) {
        case Some(uri) =>
          if uri in store {
            UnmappedWrap(store[uri], name, asked);
          }
        case None => UnmappedWrap(raw.value, name, asked);
      }
    }
  }

  lemma {:induction false} StepFindsUnmapped(store: Store, payload: Json, step: Step, name: string, fuel: nat)
    requires PlainStep(step) || IsFilter(step)
    requires UnmappedDocuments(store, name) && Unmapped(payload, name) && '.' !in name
    requires EvalStep(store, payload, step, fuel).Value? && EvalStep(store, payload, step, fuel).found.Some?
    requires IsFilter(step) ==> !IsMade(EvalStep(store, payload, step, fuel).found.value)
    ensures Unmapped(EvalStep(store, payload, step, fuel).found.value, name)
  {
    match step {
      case Name(asked) => NameFindsUnmapped(store, payload, asked, name);
      case Index(index) =>
        UnmappedCloses(store, name);
        IndexFinds(store, Some(payload), index, fuel, json => Unmapped(json, name));
      case _ =>
        UnmappedCloses(store, name);
        OpFinds(store, Some(payload), FilterOf(step), fuel, json => Unmapped(json, name));
    }
  }

  // ------------------------------------------------------------------ whole paths

  /** In the blocking walk no filter that is not the last step makes a collection: it keeps at
      most one payload. The order in which a collection comes out depends on the order of
      replies, and an index behind it would tell. */
  ghost predicate Narrow(store: Store, json: Json, path: Path, fuel: nat)
    decreases |path|
  {
    |path| <= 1 ||
    var r := EvalStep(store, json, path[0], fuel);
    r.Value? && r.found.Some? ==>
      (IsFilter(path[0]) ==> !IsMade(r.found.value)) && Narrow(store, r.found.value, path[1..], fuel)
  }

  /** All that is asked of a path and its data, with what the blocking walk answers. A walk
      that filters on its way may go on on the worker. */
  ghost predicate Fits(store: Store, json: Json, path: Path, worker: bool, answer: Option<Json>, gets: nat, fuel: nat) {
    && GoodPath(path) && IsQueryPath(path)
    && StoreFits(store, path) && JsonFits(store, json, path, worker || FiltersOnTheWay(path))
    && EvalPath(store, Some(json), path, fuel) == Value(answer, gets)
    && Narrow(store, json, path, fuel)
    && (answer.None? ==> NothingMapped(store, json, path))
  }

  lemma {:induction false} FoundFits(store: Store, json: Json, path: Path, worker: bool, fuel: nat, found: Json)
    requires GoodPath(path) && |path| > 1 && StoreFits(store, path) && JsonFits(store, json, path, worker)
    requires EvalStep(store, json, path[0], fuel).Value? && EvalStep(store, json, path[0], fuel).found == Some(found)
    requires IsFilter(path[0]) ==> !IsMade(found)
    ensures StoreFits(store, path[1..]) && JsonFits(store, found, path[1..], worker)
    ensures NothingMapped(store, json, path) ==> NothingMapped(store, found, path[1..])
  {
    var rest := path[1..];
    assert forall i :: 0 <= i < |rest| ==> rest[i] == path[i + 1];
    forall i | 0 <= i < |rest| ensures Sound(store, found, PropertyOf(rest[i]), worker) {
      StepFindsSound(store, json, path[0], PropertyOf(path[i + 1]), worker, fuel);
    }
    if NothingMapped(store, json, path) {
      FoundUnmapped(store, json, path, fuel, found);
    }
  }

  lemma {:induction false} FoundUnmapped(store: Store, json: Json, path: Path, fuel: nat, found: Json)
    requires GoodPath(path) && |path| > 1 && NothingMapped(store, json, path)
    requires EvalStep(store, json, path[0], fuel).Value? && EvalStep(store, json, path[0], fuel).found == Some(found)
    requires IsFilter(path[0]) ==> !IsMade(found)
    ensures NothingMapped(store, found, path[1..])
  {
    UnmappedTail(store, json, path);
    var rest := path[1..];
    forall i | 0 <= i < |rest| && rest[i].Name? ensures Unmapped(found, rest[i].name) {
      assert rest[i] == path[i + 1];
      assert UnmappedDocuments(store, path[i + 1].name);
      StepFindsUnmapped(store, json, path[0], path[i + 1].name, fuel);
    }
  }

  lemma {:induction false} PathUnfolds(store: Store, json: Json, path: Path, fuel: nat, r: Eval)
    requires |path| > 1 && r == EvalStep(store, json, path[0], fuel)
    ensures EvalPath(store, Some(json), path, fuel) ==
            if r.Diverges? || r.found.None? then r else Add(r.gets, EvalPath(store, r.found, path[1..], fuel))
  {
  }

  /** What the first step has found fits the rest of the path. */
  ghost predicate RestFits(store: Store, found: Option<Json>, rest: Path, worker: bool, answer: Option<Json>, left: nat, fuel: nat) {
    if found.None? then answer.None? && left == 0 else Fits(store, found.value, rest, worker, answer, left, fuel)
  }

  /** How the answer of a path comes about. */
  ghost predicate RestAnswers(store: Store, r: Eval, rest: Path, answer: Option<Json>, gets: nat, fuel: nat) {
    r.Value? &&
    if r.found.None? then answer.None? && gets == r.gets
    else r.gets <= gets && EvalPath(store, r.found, rest, fuel) == Value(answer, gets - r.gets)
  }

  lemma {:induction false} PathAnswers(store: Store, json: Json, path: Path, r: Eval, answer: Option<Json>, gets: nat, fuel: nat)
    requires |path| > 1 && r == EvalStep(store, json, path[0], fuel)
    requires EvalPath(store, Some(json), path, fuel) == Value(answer, gets)
    ensures RestAnswers(store, r, path[1..], answer, gets, fuel)
  {
    PathUnfolds(store, json, path, fuel, r);
    assert r.Value?;
    AnswerSplits(r, EvalPath(store, r.found, path[1..], fuel), answer, gets);
  }

  lemma AnswerSplits(r: Eval, later: Eval, answer: Option<Json>, gets: nat)
    requires Value(answer, gets) == if r.Diverges? || r.found.None? then r else Add(r.gets, later)
    ensures r.Value? && if r.found.None? then answer.None? && gets == r.gets
                        else r.gets <= gets && later == Value(answer, gets - r.gets)
  {
  }

  lemma {:induction false} NarrowRest(store: Store, json: Json, path: Path, fuel: nat, found: Json)
    requires Narrow(store, json, path, fuel) && |path| > 1
    requires EvalStep(store, json, path[0], fuel).Value? && EvalStep(store, json, path[0], fuel).found == Some(found)
    ensures Narrow(store, found, path[1..], fuel) && (IsFilter(path[0]) ==> !IsMade(found))
  {
  }

  lemma {:induction false} StepFits(store: Store, json: Json, path: Path, worker: bool, answer: Option<Json>, gets: nat, fuel: nat)
    requires Fits(store, json, path, worker, answer, gets, fuel) && |path| > 1
    ensures var r := EvalStep(store, json, path[0], fuel);
            && r.Value? && r.gets <= gets
            && RestFits(store, r.found, path[1..], worker || IsFilter(path[0]), answer, gets - r.gets, fuel)
            && (IsFilter(path[0]) && r.found.Some? ==> !IsMade(r.found.value))
  {
    var r := EvalStep(store, json, path[0], fuel);
    PathAnswers(store, json, path, r, answer, gets, fuel);
    if r.found.Some? {
      NarrowRest(store, json, path, fuel, r.found.value);
      FoundFitsPath(store, json, path, path[1..], worker, r.found.value, answer, gets, gets - r.gets, fuel);
    }
  }

  lemma {:induction false} FoundFitsPath(store: Store, json: Json, path: Path, rest: Path, worker: bool, found: Json,
                                         answer: Option<Json>, gets: nat, left: nat, fuel: nat)
    requires Fits(store, json, path, worker, answer, gets, fuel) && |path| > 1 && rest == path[1..]
    requires EvalStep(store, json, path[0], fuel).Value? && EvalStep(store, json, path[0], fuel).found == Some(found)
    requires Narrow(store, found, rest, fuel) && (IsFilter(path[0]) ==> !IsMade(found))
    requires EvalPath(store, Some(found), rest, fuel) == Value(answer, left)
    ensures Fits(store, found, rest, worker || IsFilter(path[0]), answer, left, fuel)
  {
    GoodPathIsQuery(path);
    GoodPathIsQuery(rest);
    FoundFits(store, json, path, worker || FiltersOnTheWay(path), fuel, found);
  }

  /** What fits on the worker fits everywhere. */
  lemma {:induction false} FitsElsewhere(store: Store, json: Json, path: Path, worker: bool, answer: Option<Json>, gets: nat, fuel: nat)
    requires Fits(store, json, path, true, answer, gets, fuel)
    ensures Fits(store, json, path, worker, answer, gets, fuel)
  {
    forall i | 0 <= i < |path| ensures Sound(store, json, PropertyOf(path[i]), worker || FiltersOnTheWay(path)) {
      SoundElsewhere(store, json, PropertyOf(path[i]), worker || FiltersOnTheWay(path));
    }
  }

  /** A document fits on the worker. */
  lemma {:induction false} DocumentFits(store: Store, uri: string, path: Path, worker: bool, answer: Option<Json>, gets: nat, fuel: nat)
    requires uri in store && Fits(store, store[uri], path, worker, answer, gets, fuel)
    ensures Fits(store, store[uri], path, true, answer, gets, fuel)
  {
  }
}
