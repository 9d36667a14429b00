/** Where the two evaluators part: the conditions under which the callback-driven walk refines
    the blocking one cannot be dropped. Each is given as the whole family of payloads it
    shuts out. */
module WalkConditions {
  import opened Wrappers
  import opened Json
  import opened DottedLookup
  import opened RedPath
  import opened Evaluate
  import opened AsyncEvaluate
  import opened AsyncRefinesSync
  import opened FilterFate
  import CNumbers

  // ------------------------------------------------------ members that are a link

  /** Off the worker the index step agrees with the blocking one on every payload: it fetches
      linked members and goes on in them. */
  lemma {:induction false} OffWorkerAgrees(store: Store, json: Option<Json>, index: nat, depth: nat, fuel: nat)
    requires fuel <= depth && ByIndex(store, json, index, fuel).Value?
    ensures var r := ByIndex(store, json, index, fuel);
            StartsAs(store, StartIndex(store, json, index, Place(false, depth)), r.found, r.gets)
    decreases fuel
  {
    if json.Some? {
      if IsCollection(json.value) {
        var (members, gets) := FetchMembers(store, json.value, Place(false, depth));
        assert ByIndex(store, members, index, fuel - 1).Value? by {
          IndexInMembers(store, json.value, index, Place(false, depth), fuel);
        }
        OffWorkerAgrees(store, members, index, depth - 1, fuel - 1);
        MembersAgree(store, json.value, index, depth, fuel, ByIndex(store, members, index, fuel - 1),
                     StartIndex(store, members, index, Place(false, depth - 1)), gets);
      } else {
        EntryStarts(store, json.value, index, fuel);
      }
    }
  }

  lemma {:induction false} MembersAgree(store: Store, json: Json, index: nat, depth: nat, fuel: nat, r: Eval, started: Started, gets: nat)
    requires IsCollection(json) && 0 < fuel <= depth && gets == ByNodeName(store, Some(json), MEMBERS).1
    requires r == ByIndex(store, ByNodeName(store, Some(json), MEMBERS).0, index, fuel - 1) && r.Value?
    requires started == StartIndex(store, ByNodeName(store, Some(json), MEMBERS).0, index, Place(false, depth - 1))
    requires StartsAs(store, started, r.found, r.gets)
    ensures StartsAs(store, StartIndex(store, Some(json), index, Place(false, depth)),
                     ByIndex(store, Some(json), index, fuel).found, ByIndex(store, Some(json), index, fuel).gets)
  {
    IndexInMembers(store, json, index, Place(false, depth), fuel);
    StartsAfter(store, started, r.found, r.gets, gets);
  }

  /** The members of the collection, or of a collection that they are, are only a link. */
  predicate LinkedOnTheWay(json: Json)
    decreases json
  {
    IsCollection(json) && Get(Some(json), MEMBERS).Some? &&
    var members := Get(Some(json), MEMBERS).value;
    GetIsSmaller(json, MEMBERS);
    LinkOf(members).Some? || LinkedOnTheWay(members)
  }

  /** The index step refuses what the blocking one finds exactly when it runs on the worker,
      which may not block, and meets linked members; otherwise the two agree. */
  lemma {:induction false} RefusedExactlyWhenLinked(store: Store, json: Json, index: nat, at: Place, fuel: nat)
    requires fuel <= at.depth && ByIndex(store, Some(json), index, fuel).Value? && ByIndex(store, Some(json), index, fuel).found.Some?
    ensures var r, started := ByIndex(store, Some(json), index, fuel), StartIndex(store, Some(json), index, at);
            && (started.Refused? <==> at.onWorker && LinkedOnTheWay(json))
            && (!started.Refused? ==> StartsAs(store, started, r.found, r.gets))
  {
    if at.onWorker {
      OnWorkerRefuses(store, json, index, at.depth, fuel);
    } else {
      OffWorkerAgrees(store, Some(json), index, at.depth, fuel);
    }
  }

  /** What the step comes to on the worker. */
  ghost predicate WorkerOutcome(store: Store, json: Json, started: Started, r: Eval) {
    if LinkedOnTheWay(json) then started.Refused? else r.Value? && StartsAs(store, started, r.found, r.gets)
  }

  lemma {:induction false} OnWorkerRefuses(store: Store, json: Json, index: nat, depth: nat, fuel: nat)
    requires fuel <= depth && ByIndex(store, Some(json), index, fuel).Value? && ByIndex(store, Some(json), index, fuel).found.Some?
    ensures WorkerOutcome(store, json, StartIndex(store, Some(json), index, Place(true, depth)), ByIndex(store, Some(json), index, fuel))
    decreases fuel
  {
    if IsCollection(json) {
      OnWorkerUnfolds(store, json, index, depth, fuel);
      var members := Get(Some(json), MEMBERS).value;
      if LinkOf(members).None? {
        OnWorkerRefuses(store, Wrap(MEMBERS, members), index, depth - 1, fuel - 1);
      }
      OutcomeInMembers(store, json, StartIndex(store, Some(json), index, Place(true, depth)), ByIndex(store, Some(json), index, fuel));
    } else {
      EntryStarts(store, json, index, fuel);
    }
  }

  lemma {:induction false} OutcomeInMembers(store: Store, json: Json, started: Started, r: Eval)
    requires IsCollection(json) && Get(Some(json), MEMBERS).Some?
    requires var members := Get(Some(json), MEMBERS).value;
             if LinkOf(members).Some? then started.Refused? else WorkerOutcome(store, Wrap(MEMBERS, members), started, r)
    ensures WorkerOutcome(store, json, started, r)
  {
    WrapIsNoCollection(Get(Some(json), MEMBERS).value);
  }

  lemma {:induction false} OnWorkerUnfolds(store: Store, json: Json, index: nat, depth: nat, fuel: nat)
    requires IsCollection(json) && 0 < fuel <= depth
    requires ByIndex(store, Some(json), index, fuel).Value? && ByIndex(store, Some(json), index, fuel).found.Some?
    ensures Get(Some(json), MEMBERS).Some?
    ensures var members, started := Get(Some(json), MEMBERS).value, StartIndex(store, Some(json), index, Place(true, depth));
            if LinkOf(members).Some? then started.Refused?
            else
              && ByIndex(store, Some(json), index, fuel) == ByIndex(store, Some(Wrap(MEMBERS, members)), index, fuel - 1)
              && started == StartIndex(store, Some(Wrap(MEMBERS, members)), index, Place(true, depth - 1))
  {
    NoDotOneSegment(MEMBERS);
    IndexInMembers(store, json, index, Place(true, depth), fuel);
    assert StartIndex(store, None, index, Place(true, depth - 1)) == Refused(0);
  }

  lemma {:induction false} WrapIsNoCollection(json: Json)
    ensures LinkedOnTheWay(Wrap(MEMBERS, json)) == LinkedOnTheWay(json)
  {
    if json.Str? {
      var wrapped := Wrap(MEMBERS, json);
      assert wrapped.members == [Member(MEMBERS, json)];
      assert Find(wrapped.members, COUNT) == Find(wrapped.members[1..], COUNT);
    }
  }

  /** A path that starts with such a step: refused on the worker, and off it evaluated in the
      document the link names, after one request. */
  lemma {:induction false} LinkedMembersNeedAnotherThread(store: Store, json: Json, uri: string, index: nat, rest: Path, depth: nat)
    requires IsCollection(json) && Get(Some(json), MEMBERS).Some?
    requires LinkOf(Get(Some(json), MEMBERS).value) == Some(uri) && uri in store && !store[uri].Str?
    requires IsQueryPath([Index(index)] + rest)
    ensures StartPath(store, Some(json), [Index(index)] + rest, Place(true, depth + 1)) == Rejected(0)
    ensures StartIndex(store, Some(json), index, Place(false, depth + 1)) ==
            More(1, StartIndex(store, Some(store[uri]), index, Place(false, depth)))
  {
    NoDotOneSegment(MEMBERS);
    var path := [Index(index)] + rest;
    assert path[0] == Index(index);
    assert StartIndex(store, None, index, Place(true, depth)) == Refused(0);
    assert StartIndex(store, Some(json), index, Place(true, depth + 1)) == Refused(0);
  }

  // --------------------------------------------------- a count beyond the members

  /** A collection of some members, with a count of its own. */
  function Counting(count: nat, members: seq<Json>): Json {
    Obj([Member(COUNT, Int(count)), Member(MEMBERS, Arr(members))])
  }

  lemma {:induction false} CountingCollection(store: Store, count: nat, members: seq<Json>, worker: bool, fuel: nat)
    requires fuel > 0
    ensures var json := Counting(count, members);
            && IsCollection(json) && CollectionSize(json) == SizeOf(json) == count
            && ByNodeName(store, Some(json), MEMBERS) == (Some(Arr(members)), 0)
            && Scanned(store, json, worker, fuel) == members
  {
    CountingParts(count, members);
    MembersOfParts(store, Counting(count, members), members, worker);
  }

  lemma {:induction false} CountingParts(count: nat, members: seq<Json>)
    ensures var json := Counting(count, members);
            Get(Some(json), COUNT) == Some(Int(count)) && Get(Some(json), MEMBERS) == Some(Arr(members))
  {
    var parts := Counting(count, members).members;
    assert COUNT != MEMBERS by { assert |COUNT| != |MEMBERS|; }
    assert parts[1..][0] == parts[1];
    assert Find(parts, MEMBERS) == Find(parts[1..], MEMBERS);
  }

  lemma {:induction false} MembersOfParts(store: Store, json: Json, members: seq<Json>, worker: bool)
    requires IsCollection(json) && Get(Some(json), MEMBERS) == Some(Arr(members))
    ensures ByNodeName(store, Some(json), MEMBERS) == (Some(Arr(members)), 0)
    ensures Members(store, json, worker) == Some(Arr(members))
  {
    NoDotOneSegment(MEMBERS);
  }

  /** The blocking filter over a collection of one, by itself or counted as two. */
  lemma {:induction false} BlockingFindsIt(store: Store, json: Json, member: Json, found: Json, filter: Filter, gets: nat, fuel: nat)
    requires IsCollection(json) && 1 <= CollectionSize(json) <= 2 && ByNodeName(store, Some(json), MEMBERS) == (Some(Arr([member])), 0)
    requires fuel > 1 && Slot(store, Some(Arr([member])), 0, filter, fuel - 1) == Value(Some(found), gets)
    ensures OpResult(store, Some(json), filter, fuel) == Value(Some(found), gets)
  {
    var size := CollectionSize(json);
    TwoSlots(store, member, found, filter, size, gets, fuel - 1);
    assert OpResult(store, Some(json), filter, fuel) == Add(0, Collected(Kept([found], gets))) by {
      CollectionOp(store, json, filter, fuel, size, (Some(Arr([member])), 0));
    }
  }

  lemma {:induction false} TwoSlots(store: Store, member: Json, found: Json, filter: Filter, size: nat, gets: nat, fuel: nat)
    requires fuel > 0 && Slot(store, Some(Arr([member])), 0, filter, fuel) == Value(Some(found), gets) && 1 <= size <= 2
    ensures Slots(store, Some(Arr([member])), 0, size, filter, fuel) == Kept([found], gets)
  {
    var source := Some(Arr([member]));
    PastTheEnd(store, source, filter, size, fuel);
    assert Slots(store, source, 0, size, filter, fuel) == Keep(Slot(store, source, 0, filter, fuel), Slots(store, source, 1, size, filter, fuel));
    assert [found] + [] == [found];
  }

  lemma {:induction false} PastTheEnd(store: Store, source: Option<Json>, filter: Filter, size: nat, fuel: nat)
    requires source.Some? && source.value.Arr? && |source.value.items| == 1 && size <= 2 && fuel > 0
    ensures Slots(store, source, 1, size, filter, fuel) == Kept([], 0)
  {
    if size == 2 {
      NoEntry(store, source.value, filter, 1, fuel);
      assert Slots(store, source, 1, 2, filter, fuel) == Keep(Value(None, 0), Slots(store, source, 2, 2, filter, fuel));
    }
  }

  lemma {:induction false} NoEntry(store: Store, json: Json, filter: Filter, index: nat, fuel: nat)
    requires json.Arr? && index >= |json.items| && fuel > 0
    ensures Slot(store, Some(json), index, filter, fuel) == Value(None, 0)
  {
    assert !IsCollection(json);
    assert ByIndex(store, Some(json), index, fuel) == Value(None, 0);
  }

  /** A member at hand that the filter keeps, counted twice: accepted, answered by the blocking
      walk, and silent in every run, on every thread. */
  lemma {:induction false} OvercountedNeverCallsBack(store: Store, member: Json, step: Step, at: Place, fuel: nat)
    requires IsFilter(step) && 1 < fuel <= at.depth && LinkOf(member).None?
    requires AtHand(store, member, FilterOf(step).prop, at.onWorker, fuel - 1)
    requires OpResult(store, Some(member), FilterOf(step), fuel - 1) == Value(Some(member), 0)
    ensures var json := Counting(2, [member]);
            && EvalPath(store, Some(json), [step], fuel) == Value(Some(member), 0)
            && Silent(store, json, FilterOf(step).prop, at.onWorker, fuel)
            && !StartPath(store, Some(json), [step], at).Rejected?
            && NeverCallsBack(store, StartPath(store, Some(json), [step], at), at.depth)
  {
    var json, filter := Counting(2, [member]), FilterOf(step);
    CountingCollection(store, 2, [member], at.onWorker, fuel);
    assert Slot(store, Some(Arr([member])), 0, filter, fuel - 1) == Value(Some(member), 0);
    BlockingFindsIt(store, json, member, member, filter, 0, fuel);
    FilterPathIs(store, json, step, fuel);
    assert Silent(store, json, filter.prop, at.onWorker, fuel) by {
      assert EntryAtHand(store, member, filter.prop, at.onWorker, fuel - 1);
      assert FilterFate.Overcounted(store, [member], 2, filter.prop, at.onWorker, fuel - 1);
      SilentIff(store, json, filter.prop, at.onWorker, fuel);
    }
    NeverCallsBackExactlyWhenSilent(store, json, step, at, fuel);
  }

  /** Silence spreads: a collection with the right count, whose only member is silent, inline
      or behind a link, starts its last element and never calls back. */
  lemma {:induction false} SilenceSpreads(store: Store, member: Json, found: Json, step: Step, gets: nat, at: Place, fuel: nat)
    requires IsFilter(step) && 1 < fuel <= at.depth
    requires EntrySilent(store, member, FilterOf(step).prop, at.onWorker, fuel - 1)
    requires Slot(store, Some(Arr([member])), 0, FilterOf(step), fuel - 1) == Value(Some(found), gets)
    ensures var json := Counting(1, [member]);
            && EvalPath(store, Some(json), [step], fuel) == Value(Some(found), gets)
            && Silent(store, json, FilterOf(step).prop, at.onWorker, fuel)
            && !StartPath(store, Some(json), [step], at).Rejected?
            && NeverCallsBack(store, StartPath(store, Some(json), [step], at), at.depth)
  {
    var json, filter := Counting(1, [member]), FilterOf(step);
    CountingCollection(store, 1, [member], at.onWorker, fuel);
    BlockingFindsIt(store, json, member, found, filter, gets, fuel);
    FilterPathIs(store, json, step, fuel);
    assert Silent(store, json, filter.prop, at.onWorker, fuel) by {
      assert [member][0] == member;
      assert SomeSilent(store, [member], 1, filter.prop, at.onWorker, fuel - 1);
      SilentIff(store, json, filter.prop, at.onWorker, fuel);
    }
    NeverCallsBackExactlyWhenSilent(store, json, step, at, fuel);
  }

  /** A path that is one filter. */
  lemma FilterPathIs(store: Store, json: Json, step: Step, fuel: nat)
    requires IsFilter(step)
    ensures EvalPath(store, Some(json), [step], fuel) == OpResult(store, Some(json), FilterOf(step), fuel)
  {
    assert [step][0] == step;
  }

  // -------------------------------------------------------- names of the members

  /** On arrays and collections the name step with callbacks gathers the property of the
      members, where the blocking one finds nothing; so they agree on a missing name exactly
      when no member has it, and always where there is no array of members. */
  lemma {:induction false} MissingNameAgreesIff(store: Store, json: Json, name: string)
    requires '.' !in name && Get(Some(json), name).None?
    ensures ByNodeName(store, Some(json), name) == (None, 0)
    ensures json.Arr? ==> (StartName(json, name).Refused? <==> NobodyHas(json.items, name))
    ensures IsCollection(json) ==>
              var members := Get(Some(json), MEMBERS);
              if members.Some? && members.value.Arr?
              then StartName(json, name).Refused? <==> NobodyHas(members.value.items, name)
              else StartName(json, name).Refused?
    ensures !json.Arr? && !IsCollection(json) ==> StartName(json, name).Refused?
  {
    if json.Arr? {
      assert Get(Some(json), COUNT).None?;
      NothingToMap(json.items, name);
    } else if IsCollection(json) {
      var members := Get(Some(json), MEMBERS);
      if members.Some? && members.value.Arr? {
        NothingToMap(members.value.items, name);
      }
    }
  }

  /** An array of one object that has the name: nothing for the blocking step, and a reply with
      the value gathered for the other. */
  lemma {:induction false} MissingNameIsGathered(store: Store, name: string, value: Json)
    requires '.' !in name
    ensures var json := Arr([Obj([Member(name, value)])]);
            && ByNodeName(store, Some(json), name) == (None, 0)
            && StartName(json, name) == Replied(0, Reply(true, 200, Some(Arr([Wrap(name, value)]))))
  {
    var json := Arr([Obj([Member(name, value)])]);
    assert Get(Some(json.items[0]), name) == Some(value);
    assert MapMembers(json.items[1..], name) == [];
    assert MapMembers(json.items, name) == [Wrap(name, value)] + [] == [Wrap(name, value)];
    assert NamedValue(json, name) == Some(Arr([Wrap(name, value)])) by {
      assert Get(Some(json), COUNT).None?;
    }
  }

  predicate NobodyHas(items: seq<Json>, name: string) {
    forall i :: 0 <= i < |items| ==> Get(Some(items[i]), name).None?
  }

  lemma {:induction false} NothingToMap(items: seq<Json>, name: string)
    ensures MapMembers(items, name) == [] <==> NobodyHas(items, name)
    decreases |items|
  {
    if items != [] {
      NothingToMap(items[1..], name);
      assert forall i :: 0 < i < |items| ==> items[i] == items[1..][i - 1];
    }
  }

  // ----------------------------------------------- a dotted name that is also a key

  /** On a payload that is no collection, a dotted property names the same value for both
      evaluators exactly when it is no literal key, or one holding the value on its path. */
  lemma {:induction false} DottedPropertyAgreesIff(json: Json, prop: string)
    requires '.' in prop && !HasEmptySegment(prop)
    requires !IsCollection(json) && !json.Arr?
    ensures NamedValue(json, prop) == ByPath(Some(json), prop)
       <==> Get(Some(json), prop).None? || Get(Some(json), prop) == Fold(Some(json), Segments(prop))
  {
    EmbeddedIsFold(Some(json), prop);
    DropEmptyIsIdentity(Segments(prop));
  }

  // ------------------------------------------------------- a filter on the way

  function Link(uri: string): Json {
    Obj([Member(ODATA_ID, Str(uri))])
  }

  /** Both filters keep `json` without a request. */
  predicate KeptAtOnce(store: Store, json: Json, filter: Filter, at: Place, fuel: nat) {
    && LinkOf(json).None?
    && StartOp(store, json, filter, at) == Replied(0, Reply(true, 200, Some(json)))
    && OpResult(store, Some(json), filter, fuel) == Value(Some(json), 0)
  }

  /** The blocking filter over two links that it keeps. */
  lemma {:induction false} BothKept(store: Store, u: string, v: string, filter: Filter, fuel: nat)
    requires u in store && v in store && fuel > 1
    requires OpResult(store, Some(store[u]), filter, fuel - 1) == Value(Some(store[u]), 0)
    requires OpResult(store, Some(store[v]), filter, fuel - 1) == Value(Some(store[v]), 0)
    ensures OpResult(store, Some(Arr([Link(u), Link(v)])), filter, fuel) == Value(Some(Counting(2, [store[u], store[v]])), 2)
  {
    var source := Some(Arr([Link(u), Link(v)]));
    LinkKept(store, source.value, 0, u, filter, fuel - 1);
    LinkKept(store, source.value, 1, v, filter, fuel - 1);
    assert Slots(store, source, 2, 2, filter, fuel - 1) == Kept([], 0);
    assert Slots(store, source, 1, 2, filter, fuel - 1) == Keep(Value(Some(store[v]), 1), Kept([], 0)) == Kept([store[v]] + [], 1);
    assert [store[v]] + [] == [store[v]];
    assert Slots(store, source, 0, 2, filter, fuel - 1) == Keep(Value(Some(store[u]), 1), Kept([store[v]], 1)) == Kept([store[u]] + [store[v]], 2);
    assert [store[u]] + [store[v]] == [store[u], store[v]];
    assert OpResult(store, source, filter, fuel) == Collected(Slots(store, source, 0, 2, filter, fuel - 1));
  }

  lemma {:induction false} LinkKept(store: Store, json: Json, index: nat, uri: string, filter: Filter, fuel: nat)
    requires json.Arr? && index < |json.items| && json.items[index] == Link(uri) && uri in store && fuel > 0
    requires OpResult(store, Some(store[uri]), filter, fuel) == Value(Some(store[uri]), 0)
    ensures Slot(store, Some(json), index, filter, fuel) == Value(Some(store[uri]), 1)
  {
    assert !IsCollection(json);
    assert ByIndex(store, Some(json), index, fuel) == Value(Some(store[uri]), 1);
  }

  /** The first entry of a made collection. */
  lemma {:induction false} FirstOfMade(store: Store, first: Json, second: Json, at: Place, fuel: nat)
    requires LinkOf(first).None? && fuel > 1 && at.depth > 0
    ensures ByIndex(store, Some(Counting(2, [first, second])), 0, fuel) == Value(Some(first), 0)
    ensures StartIndex(store, Some(Counting(2, [first, second])), 0, at) == Replied(0, Reply(true, 200, Some(first)))
  {
    var made, members := Counting(2, [first, second]), Arr([first, second]);
    CountingCollection(store, 2, [first, second], at.onWorker, fuel);
    CountingParts(2, [first, second]);
    IndexInMembers(store, made, 0, at, fuel);
    assert !IsCollection(members);
    assert FetchMembers(store, made, at) == (Some(members), 0);
    assert ByIndex(store, Some(members), 0, fuel - 1) == Value(Some(first), 0);
    assert StartIndex(store, Some(members), 0, Deeper(at)) == StartEntry(members, 0);
  }

  /** Two links wait for their elements. */
  function TwoWaiting(filter: Filter, u: string, v: string): Stage {
    AwaitAll(filter, Context(2, 2, []), [AwaitIndex(u), AwaitIndex(v)])
  }

  lemma {:induction false} TwoStart(store: Store, u: string, v: string, filter: Filter, at: Place)
    requires at.depth > 0
    ensures StartOp(store, Arr([Link(u), Link(v)]), filter, at) == Accepted(0, TwoWaiting(filter, u, v))
  {
    var json := Arr([Link(u), Link(v)]);
    var starts := StartSlots(store, Some(json), filter, 0, 2, Deeper(at));
    assert !IsCollection(json);
    StartSlotsAt(store, Some(json), filter, 0, 2, Deeper(at), 0);
    StartSlotsAt(store, Some(json), filter, 0, 2, Deeper(at), 1);
    assert StartIndex(store, Some(json), 0, Deeper(at)) == StartEntry(json, 0);
    assert StartIndex(store, Some(json), 1, Deeper(at)) == StartEntry(json, 1);
    assert starts == [Waiting(0, AwaitIndex(u)), Waiting(0, AwaitIndex(v))];
    TwoLaunched(filter, starts, u, v);
  }

  lemma {:induction false} TwoLaunched(filter: Filter, starts: seq<SlotStart>, u: string, v: string)
    requires starts == [Waiting(0, AwaitIndex(u)), Waiting(0, AwaitIndex(v))]
    ensures Launch(filter, starts) == Accepted(0, TwoWaiting(filter, u, v))
  {
    assert starts[1..] == [starts[1]] && starts[1..][1..] == [];
    assert AfterLoop(Context(2, 2, []), starts[1..]) == Context(2, 2, []);
    assert GetsOf(starts[1..]) == 0;
    assert SlotsOf(starts) == [AwaitIndex(u), AwaitIndex(v)];
    assert starts[0].Waiting?;
  }

  /** What the walk comes to when slot `i` is answered before slot `1 - i`. */
  lemma {:induction false} TwoReplies(store: Store, u: string, v: string, filter: Filter, i: nat, depth: nat, fuel: nat)
    requires u in store && v in store && i < 2
    requires KeptAtOnce(store, store[u], filter, Place(true, depth), fuel) && KeptAtOnce(store, store[v], filter, Place(true, depth), fuel)
    ensures var stage, first, second := TwoWaiting(filter, u, v), store[if i == 0 then u else v], store[if i == 0 then v else u];
            && Outstanding(stage, [i]) && Answer(store, stage, [i], depth).Working?
            && var after := Answer(store, stage, [i], depth).stage;
               && Outstanding(after, [1 - i])
               && Answer(store, after, [1 - i], depth) == Finished(Reply(true, 200, Some(Counting(2, [first, second]))))
  {
    var stage := TwoWaiting(filter, u, v);
    var first, second := store[if i == 0 then u else v], store[if i == 0 then v else u];
    assert SlotAfter(store, Some(first), filter, depth) == Done(0, Some(first));
    assert SlotAfter(store, Some(second), filter, depth) == Done(0, Some(second));
    var slots := [AwaitIndex(u), AwaitIndex(v)];
    var after := AwaitAll(filter, Context(2, 1, [first]), slots[i := Counted]);
    assert [] + [first] == [first];
    assert Answer(store, stage, [i], depth) == CountSlot(filter, Context(2, 2, []), slots, i, Some(first)) == Working(after);
    assert [first] + [second] == [first, second];
    assert Count(Context(2, 1, [first]), Some(second)) == Context(2, 0, [first, second]);
    assert Combine([first, second]) == Some(Counting(2, [first, second]));
  }

  /** With a filter on the way that keeps two, the order of replies shows: the first element
      behind the filter is the one whose reply came first, whatever the blocking walk says. */
  lemma {:induction false} OrderOfRepliesShows(store: Store, u: string, v: string, step: Step, i: nat, depth: nat, fuel: nat)
    requires u in store && v in store && i < 2 && IsFilter(step) && fuel > 1 && depth > 0
    requires KeptAtOnce(store, store[u], FilterOf(step), Place(true, depth), fuel - 1)
    requires KeptAtOnce(store, store[v], FilterOf(step), Place(true, depth), fuel - 1)
    ensures var json, path := Arr([Link(u), Link(v)]), [step, Index(0)];
            && EvalPath(store, Some(json), path, fuel) == Value(Some(store[u]), 2)
            && var start := StartPath(store, Some(json), path, Place(true, depth));
               && IsRun(store, start, [[i], [1 - i]], depth)
               && AfterRun(store, start, [[i], [1 - i]], depth) == Delivered(0, Reply(true, 200, Some(store[if i == 0 then u else v])))
  {
    BlockingTakesTheFirst(store, u, v, step, fuel);
    var filter, at := FilterOf(step), Place(true, depth);
    var first, second := store[if i == 0 then u else v], store[if i == 0 then v else u];
    var start := Walking(0, TwoWaiting(filter, u, v), [Index(0)]);
    assert StartPath(store, Some(Arr([Link(u), Link(v)])), [step, Index(0)], at) == start by {
      TwoStart(store, u, v, filter, at);
      assert [step, Index(0)][0] == step && [step, Index(0)][1..] == [Index(0)];
    }
    TwoReplies(store, u, v, filter, i, depth, fuel - 1);
    FirstOfMade(store, first, second, at, fuel);
    IndexBehind(store, Counting(2, [first, second]), first, at);
    TwoSteps(store, start, [i], AnswerWalk(store, start, [i], depth), [1 - i], Delivered(0, Reply(true, 200, Some(first))), depth);
  }

  lemma {:induction false} BlockingTakesTheFirst(store: Store, u: string, v: string, step: Step, fuel: nat)
    requires u in store && v in store && IsFilter(step) && fuel > 1 && LinkOf(store[u]).None?
    requires OpResult(store, Some(store[u]), FilterOf(step), fuel - 1) == Value(Some(store[u]), 0)
    requires OpResult(store, Some(store[v]), FilterOf(step), fuel - 1) == Value(Some(store[v]), 0)
    ensures EvalPath(store, Some(Arr([Link(u), Link(v)])), [step, Index(0)], fuel) == Value(Some(store[u]), 2)
  {
    var path := [step, Index(0)];
    assert path[0] == step && path[1..] == [Index(0)];
    BothKept(store, u, v, FilterOf(step), fuel);
    FirstOfMade(store, store[u], store[v], Place(true, 1), fuel);
    assert EvalPath(store, Some(Counting(2, [store[u], store[v]])), [Index(0)], fuel) == Value(Some(store[u]), 0);
  }

  lemma {:induction false} IndexBehind(store: Store, json: Json, first: Json, at: Place)
    requires StartIndex(store, Some(json), 0, at) == Replied(0, Reply(true, 200, Some(first)))
    ensures GotNext(store, Reply(true, 200, Some(json)), [Index(0)], at) == Delivered(0, Reply(true, 200, Some(first)))
  {
    assert [Index(0)][1..] == [];
  }

  lemma {:induction false} TwoSteps(store: Store, start: Walk, p: seq<nat>, after: Walk, q: seq<nat>, end: Walk, depth: nat)
    requires CanAnswer(start, p) && after == AnswerWalk(store, start, p, depth)
    requires CanAnswer(after, q) && end == AnswerWalk(store, after, q, depth)
    ensures IsRun(store, start, [p, q], depth) && AfterRun(store, start, [p, q], depth) == end
  {
    assert [p, q][1..] == [q] && [q][1..] == [];
    assert IsRun(store, after, [q], depth) && AfterRun(store, after, [q], depth) == end;
  }
}
