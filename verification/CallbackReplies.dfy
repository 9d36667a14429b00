/** The arguments with which the user callback is called, on payloads written out: what is
    reported as a success, what as a failure, and with which code. */
module CallbackReplies {
  import opened Wrappers
  import opened Json
  import opened RedPath
  import opened Evaluate
  import opened AsyncEvaluate
  import opened StepMeaning

  /** The walk of one step waits for one request; whatever the worker reports ends it. */
  predicate Asks(store: Store, walk: Walk, depth: nat, reply: Reply) {
    walk.Walking? && CanAnswer(walk, []) && AnswerWalk(store, walk, [], depth) == Delivered(walk.gets, reply)
  }

  lemma {:induction false} WaitsForDocument(store: Store, stage: Stage, depth: nat)
    requires stage.AwaitDocument? || stage.AwaitProperty?
    ensures Asks(store, Walking(0, stage, []), depth, AsyncEvaluate.Answer(store, stage, [], depth).reply)
  {
  }

  // ------------------------------------------------------------------- name steps

  lemma {:induction false} StartOfOne(store: Store, payload: Json, step: Step, at: Place)
    requires IsQuery(step)
    ensures StartPath(store, Some(payload), [step], at) == Handed(store, StartStep(store, payload, step, at), [], at)
  {
    assert [step][0] == step && [step][1..] == [];
  }

  /** A name that is there is reported with success and 200, a text as an object of one entry;
      behind a link it is the document, or a failure without a payload. */
  lemma {:induction false} NameReplies(store: Store, members: seq<Member>, name: string, k: nat, uri: string, at: Place)
    requires '.' !in name && FirstAt(members, name, k)
    ensures var walk, value := StartPath(store, Some(Obj(members)), [Name(name)], at), members[k].value;
            && (!IsLink(value) ==>
                  walk == Delivered(0, Reply(true, 200, Some(Shown(name, value)))))
            && (value == LinkTo(uri) ==>
                  Asks(store, walk, at.depth, if uri in store then Reply(true, 200, Some(store[uri])) else Reply(false, 404, None)))
  {
    FindFirst(members, name, k);
    LinkIff(members[k].value);
    LinkIs(members[k].value, uri);
    StartOfOne(store, Obj(members), Name(name), at);
    WaitsForDocument(store, AwaitDocument(uri), at.depth);
  }

  /** On an object that is no collection a name that is not there is refused. */
  lemma {:induction false} MissingNameIsRefused(store: Store, members: seq<Member>, name: string, at: Place)
    requires '.' !in name
    requires forall i :: 0 <= i < |members| ==> members[i].key != name && members[i].key != "Members@odata.count"
    ensures StartPath(store, Some(Obj(members)), [Name(name)], at) == Rejected(0)
  {
    FindMissing(members, name);
    FindMissing(members, "Members@odata.count");
    StartOfOne(store, Obj(members), Name(name), at);
  }

  function Shown(name: string, value: Json): Json {
    if value.Str? then Obj([Member(name, value)]) else value
  }

  /** The value an item has under a name, if it has one. */
  function NamedIn(item: Json, name: string): seq<Json> {
    match Get(Some(item), name)
    case Some(value) => [Shown(name, value)]
    case None => []
  }

  function Gathered(values: seq<Json>): Walk {
    if values == [] then Rejected(0) else Delivered(0, Reply(true, 200, Some(Arr(values))))
  }

  lemma {:induction false} MapMembersCons(items: seq<Json>, name: string)
    requires items != []
    ensures MapMembers(items, name) == NamedIn(items[0], name) + MapMembers(items[1..], name)
  {
  }

  lemma {:induction false} ConsAppend(items: seq<Json>, item: Json)
    requires items != []
    ensures (items + [item])[0] == items[0] && (items + [item])[1..] == items[1..] + [item]
  {
  }

  lemma {:induction false} Regroup(first: seq<Json>, later: seq<Json>, last: seq<Json>)
    ensures first + (later + last) == (first + later) + last
  {
  }

  lemma {:induction false} MapMembersAppend(items: seq<Json>, item: Json, name: string)
    ensures MapMembers(items + [item], name) == MapMembers(items, name) + NamedIn(item, name)
    decreases |items|
  {
    if items == [] {
      MapMembersCons([item], name);
      assert [] + [item] == [item] && [item][1..] == [] && MapMembers([], name) == [];
    } else {
      ConsAppend(items, item);
      MapMembersCons(items, name);
      MapMembersCons(items + [item], name);
      MapMembersAppend(items[1..], item, name);
      Regroup(NamedIn(items[0], name), MapMembers(items[1..], name), NamedIn(item, name));
    }
  }

  /** Asked of an array, a name is refused when there are no items; every further item adds the
      value it has under that name behind the others, or nothing. */
  lemma {:induction false} ArrayNameReplies(store: Store, items: seq<Json>, item: Json, name: string, at: Place) returns (values: seq<Json>)
    ensures StartPath(store, Some(Arr(items)), [Name(name)], at) == Gathered(values)
    ensures StartPath(store, Some(Arr(items + [item])), [Name(name)], at) == Gathered(values + NamedIn(item, name))
    ensures items == [] ==> values == []
  {
    values := MapMembers(items, name);
    MapMembersAppend(items, item, name);
    NameOfArray(store, items, name, at);
    NameOfArray(store, items + [item], name, at);
  }

  lemma {:induction false} NameOfArray(store: Store, items: seq<Json>, name: string, at: Place)
    ensures StartPath(store, Some(Arr(items)), [Name(name)], at) == Gathered(MapMembers(items, name))
  {
    StartOfOne(store, Arr(items), Name(name), at);
  }

  // ------------------------------------------------------------------ index steps

  /** An entry is reported as it is, or the document it links to; past the end an index is
      refused. */
  lemma {:induction false} IndexReplies(store: Store, items: seq<Json>, index: nat, uri: string, at: Place)
    ensures var walk := StartPath(store, Some(Arr(items)), [Index(index)], at);
            && (index >= |items| ==> walk == Rejected(0))
            && (index < |items| && !IsLink(items[index]) ==> walk == Delivered(0, Reply(true, 200, Some(items[index]))))
            && (index < |items| && items[index] == LinkTo(uri) ==>
                  Asks(store, walk, at.depth, if uri in store then Reply(true, 200, Some(store[uri])) else Reply(false, 404, None)))
  {
    StartOfOne(store, Arr(items), Index(index), at);
    if index < |items| {
      LinkIff(items[index]);
      LinkIs(items[index], uri);
      WaitsForDocument(store, AwaitDocument(uri), at.depth);
    }
  }

  // ---------------------------------------------------------------------- filters

  /** A payload that is kept is reported with success and 200; one that is not, as a failure
      with 0xFFFF, but it comes along. */
  function Verdict(payload: Json, kept: bool): Reply {
    if kept then Reply(true, 200, Some(payload)) else Reply(false, 0xFFFF, Some(payload))
  }

  predicate IsPlainObject(members: seq<Member>) {
    forall i :: 0 <= i < |members| ==> members[i].key != "Members@odata.count"
  }

  lemma {:induction false} PropertyReplies(store: Store, payload: Json, prop: string, op: Op, text: string, value: Json)
    requires !IsCollection(payload) && !payload.Arr?
    requires ByNodeName(store, Some(payload), prop).0 == Some(Wrap(prop, value))
    ensures var answer := StepMeaning.Answer(store, payload, Compare(prop, op, text), 1);
            && answer.Value?
            && GotProperty(payload, FilterOf(Compare(prop, op, text)), Reply(true, 200, Some(value))) == Verdict(payload, answer.found.Some?)
            && GotProperty(payload, FilterOf(Compare(prop, op, text)), Reply(true, 200, Some(Wrap(prop, value)))) == Verdict(payload, answer.found.Some?)
  {
    var filter := FilterOf(Compare(prop, op, text));
    assert [Compare(prop, op, text)][0] == Compare(prop, op, text);
    WrapComparesAlike(value, prop, op, text);
    assert SimpleOp(Wrap(prop, value), filter).Some?;
  }

  lemma {:induction false} WrapComparesAlike(value: Json, prop: string, op: Op, text: string)
    ensures SimpleOp(Wrap(prop, value), FilterOf(Compare(prop, op, text))) == SimpleOp(value, FilterOf(Compare(prop, op, text)))
    ensures SimpleOp(value, FilterOf(Compare(prop, op, text))).Some?
  {
    if value.Str? {
      assert Get(Some(Wrap(prop, value)), prop) == Some(value);
    }
  }

  /** A comparison on a plain object calls back with the verdict the blocking filter gives; a
      property behind a link takes a request, which may fail; one that is not there is refused. */
  lemma {:induction false} FilterReplies(store: Store, members: seq<Member>, prop: string, k: nat, uri: string, op: Op, text: string, at: Place)
    requires '.' !in prop && IsPlainObject(members) && FirstAt(members, prop, k)
    ensures var payload, step := Obj(members), Compare(prop, op, text);
            var walk, answer := StartPath(store, Some(payload), [step], at), StepMeaning.Answer(store, payload, step, 1);
            && answer.Value?
            && (!IsLink(members[k].value) ==> walk == Delivered(0, Verdict(payload, answer.found.Some?)))
            && (members[k].value == LinkTo(uri) ==>
                  Asks(store, walk, at.depth, if uri in store then Verdict(payload, answer.found.Some?) else Reply(false, 404, None)))
  {
    var payload, step, value := Obj(members), Compare(prop, op, text), members[k].value;
    FindMissing(members, "Members@odata.count");
    FindFirst(members, prop, k);
    LinkIff(value);
    LinkIs(value, uri);
    StartOfOne(store, payload, step, at);
    if !IsLink(value) {
      PropertyReplies(store, payload, prop, op, text, value);
    } else {
      WaitsForDocument(store, AwaitProperty(payload, FilterOf(step), LinkOf(value).value), at.depth);
      if LinkOf(value).value in store {
        PropertyReplies(store, payload, prop, op, text, store[LinkOf(value).value]);
      } else {
        assert [step][0] == step;
      }
    }
  }

  /** The existence test keeps objects and texts, also where the property is behind a link; its
      outcome on integers is left open. */
  lemma {:induction false} ExistenceReplies(store: Store, members: seq<Member>, prop: string, k: nat, uri: string, at: Place)
    requires '.' !in prop && IsPlainObject(members) && FirstAt(members, prop, k)
    ensures var payload, value := Obj(members), members[k].value;
            var walk := StartPath(store, Some(payload), [Exists(prop)], at);
            && (!IsLink(value) && !value.Int? ==> walk == Delivered(0, Verdict(payload, value.Obj? || value.Str?)))
            && (value == LinkTo(uri) && uri in store && !store[uri].Int? ==>
                  Asks(store, walk, at.depth, Verdict(payload, store[uri].Obj? || store[uri].Str?)))
            && (value == LinkTo(uri) && uri !in store ==> Asks(store, walk, at.depth, Reply(false, 404, None)))
  {
    var payload, value, filter := Obj(members), members[k].value, FilterOf(Exists(prop));
    FindMissing(members, "Members@odata.count");
    FindFirst(members, prop, k);
    LinkIff(value);
    LinkIs(value, uri);
    StartOfOne(store, payload, Exists(prop), at);
    if IsLink(value) {
      WaitsForDocument(store, AwaitProperty(payload, filter, LinkOf(value).value), at.depth);
      if LinkOf(value).value in store {
        PresentPasses(store[LinkOf(value).value], prop);
      }
    } else {
      PresentPasses(value, prop);
      PresentPasses(Wrap(prop, value), prop);
    }
  }

  lemma {:induction false} PresentPasses(value: Json, prop: string)
    ensures !value.Int? ==> (Passes(value, FilterOf(Exists(prop))) <==> value.Obj? || value.Str?)
  {
  }

  /** A filter over many payloads, once it calls back, reports success and 200, also when it
      has kept none and there is no payload to report. */
  lemma {:induction false} FanOutReplies(store: Store, payload: Json, step: Step, at: Place, order: seq<seq<nat>>)
    requires IsFilter(step) && (IsCollection(payload) || payload.Arr?)
    requires IsRun(store, StartPath(store, Some(payload), [step], at), order, at.depth)
    ensures var walk := AfterRun(store, StartPath(store, Some(payload), [step], at), order, at.depth);
            walk.Delivered? ==> walk.reply.success && walk.reply.code == 200
  {
    StartOfOne(store, payload, step, at);
    FanOutStarts(store, payload, FilterOf(step), at);
    HandedFanOut(store, StartOp(store, payload, FilterOf(step), at), at);
    FanOutEnds(store, StartPath(store, Some(payload), [step], at), order, at.depth);
  }

  predicate StartsFanOut(started: Started) {
    && (started.Replied? ==> started.reply.success && started.reply.code == 200)
    && (started.Accepted? ==> started.stage.AwaitAll?)
  }

  lemma {:induction false} FanOutStarts(store: Store, payload: Json, filter: Filter, at: Place)
    requires IsCollection(payload) || payload.Arr?
    ensures StartsFanOut(StartOp(store, payload, filter, at))
  {
  }

  lemma {:induction false} HandedFanOut(store: Store, started: Started, at: Place)
    requires StartsFanOut(started)
    ensures FanOut(Handed(store, started, [], at))
  {
  }

  predicate FanOut(walk: Walk) {
    match walk
    case Rejected(_) => true
    case Walking(_, stage, rest) => stage.AwaitAll? && rest == []
    case Delivered(_, reply) => reply.success && reply.code == 200
    case Vanished(_) => true
  }

  lemma {:induction false} FanOutEnds(store: Store, walk: Walk, order: seq<seq<nat>>, depth: nat)
    requires FanOut(walk) && IsRun(store, walk, order, depth)
    ensures FanOut(AfterRun(store, walk, order, depth))
    decreases |order|
  {
    if order != [] {
      FanOutAnswers(store, walk, order[0], depth);
      FanOutEnds(store, AnswerWalk(store, walk, order[0], depth), order[1..], depth);
    }
  }

  lemma {:induction false} FanOutAnswers(store: Store, walk: Walk, position: seq<nat>, depth: nat)
    requires FanOut(walk) && CanAnswer(walk, position)
    ensures FanOut(AnswerWalk(store, walk, position, depth))
  {
  }

  // -------------------------------------------------------------------- later stages

  /** The first failure, by flag or by code, goes to the user as it is; when a step behind a
      good reply is refused, the user gets a failure with 0xFFFF and no payload. */
  lemma {:induction false} FailuresEndTheWalk(store: Store, reply: Reply, rest: Path, at: Place)
    requires IsQueryPath(rest) && rest != []
    ensures !reply.success || reply.code >= 400 ==> GotNext(store, reply, rest, at) == Delivered(0, reply)
    ensures reply.success && reply.code < 400 ==>
              var next := StartPath(store, reply.payload, rest, at);
              GotNext(store, reply, rest, at) == if next.Rejected? then Delivered(next.gets, Reply(false, 0xFFFF, None)) else next
  {
  }
}
