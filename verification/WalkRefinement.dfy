/** The main theorem about the two evaluators, for whole paths: in every order of replies the
    callback-driven walk makes exactly the requests of the blocking walk, never gets stuck
    before that, and then delivers the same answer, or none where the other finds none. */
module WalkRefinement {
  import opened Wrappers
  import opened Json
  import opened RedPath
  import opened Evaluate
  import opened AsyncEvaluate
  import opened AsyncRefinesSync
  import opened WalkData

  // --------------------------------------------------------------------- on track

  /** The reply carries the answer, if there is one. */
  ghost predicate Gives(reply: Reply, last: Step, answer: Option<Json>) {
    && CanonOf(Keeps(reply)) == CanonOf(answer)
    && (answer.Some? && !IsFilter(last) ==> reply == Reply(true, 200, answer))
  }

  /** The rest of a path is for a payload that is as good as found. */
  ghost predicate RestOnTrack(store: Store, json: Json, rest: Path, last: Step, answer: Option<Json>, gets: nat, fuel: nat) {
    rest != [] && LastStep(rest) == last && Fits(store, json, rest, true, answer, gets, fuel)
  }

  /** The document at `uri` has been asked for. */
  ghost predicate DocumentOnTrack(store: Store, uri: string, rest: Path, last: Step, answer: Option<Json>, gets: nat, fuel: nat) {
    if uri !in store then answer.None? && gets == 0
    else if rest == [] then answer == Some(store[uri]) && gets == 0 && !IsFilter(last)
    else RestOnTrack(store, store[uri], rest, last, answer, gets, fuel)
  }

  /** A filter owes `found`; what is found is the answer, or what the rest of the path is for. */
  ghost predicate FoundOnTrack(store: Store, found: Option<Bag>, rest: Path, last: Step, answer: Option<Json>, gets: nat, fuel: nat) {
    if rest == [] then found == CanonOf(answer) && gets == 0 && IsFilter(last)
    else
      match found
      case None => answer.None? && gets == 0
      case Some(One(json)) => RestOnTrack(store, json, rest, last, answer, gets, fuel)
      case Some(Many(_)) => false
  }

  function FilterIn(stage: Stage): Filter
    requires !stage.AwaitDocument?
  {
    stage.filter
  }

  /** A waiting filter that the theorem about filters speaks of. */
  ghost predicate GoodStage(store: Store, stage: Stage, fuel: nat) {
    && !stage.AwaitDocument? && Latched(stage, FilterIn(stage)) && Owed(store, stage, fuel).Due?
    && SoundStore(store, Some(FilterIn(stage).prop)) && GoodProperty(FilterIn(stage).prop) && !FilterIn(stage).check.Unnamed?
  }

  /** Where a walk stands that will end with `answer` after `left` more replies. */
  ghost predicate OnTrack(store: Store, walk: Walk, last: Step, answer: Option<Json>, left: nat, fuel: nat) {
    match walk
    case Delivered(_, reply) => left == 0 && Gives(reply, last, answer)
    case Rejected(_) => answer.None? && left == 0
    case Vanished(_) => false
    case Walking(_, stage, rest) => IsQueryPath(rest) && StageOnTrack(store, stage, rest, last, answer, left, fuel)
  }

  ghost predicate StageOnTrack(store: Store, stage: Stage, rest: Path, last: Step, answer: Option<Json>, left: nat, fuel: nat) {
    if stage.AwaitDocument? then left > 0 && DocumentOnTrack(store, stage.uri, rest, last, answer, left - 1, fuel)
    else
      && GoodStage(store, stage, fuel)
      && var owed := Owed(store, stage, fuel);
         owed.gets <= left && FoundOnTrack(store, owed.answer, rest, last, answer, left - owed.gets, fuel)
  }

  /** A walk as it was started, all requests counted. */
  ghost predicate Began(store: Store, walk: Walk, last: Step, answer: Option<Json>, gets: nat, fuel: nat) {
    walk.gets <= gets && OnTrack(store, walk, last, answer, gets - walk.gets, fuel)
  }

  // -------------------------------------------------------------------- starting

  /** A plain step starts as the blocking evaluator finds, on a sound payload. */
  lemma {:induction false} PlainStepStarts(store: Store, payload: Json, step: Step, at: Place, fuel: nat)
    requires PlainStep(step) && SoundStore(store, None) && Sound(store, payload, None, at.onWorker)
    requires fuel <= at.depth && EvalStep(store, payload, step, fuel).Value?
    requires EvalStep(store, payload, step, fuel).found.Some? || (step.Name? ==> Unmapped(payload, step.name))
    ensures var r := EvalStep(store, payload, step, fuel);
            StartsAs(store, StartStep(store, payload, step, at), r.found, r.gets)
  {
    match step {
      case Name(name) =>
        if Get(Some(payload), name).Some? {
          NameStarts(store, None, payload, name);
        }
      case Index(index) => IndexStarts(store, Some(payload), None, index, at, fuel);
    }
  }

  /** At the end of a path what comes of a step is the reply to the user. */
  lemma {:induction false} PlainEnds(store: Store, started: Started, at: Place, last: Step, answer: Option<Json>, gets: nat, fuel: nat)
    requires !IsFilter(last) && StartsAs(store, started, answer, gets)
    ensures Began(store, Handed(store, started, [], at), last, answer, gets, fuel)
  {
  }

  lemma {:induction false} FilterEnds(store: Store, started: Started, at: Place, last: Step, answer: Option<Json>, gets: nat, fuel: nat)
    requires GoodFilter(last) && SoundStore(store, PropertyOf(last)) && OpAs(store, FilterOf(last), started, answer, gets, fuel)
    ensures Began(store, Handed(store, started, [], at), last, answer, gets, fuel)
  {
  }

  // The replies a filter hands on say 200 or are failures, so that a walk goes on exactly with
  // a payload that was kept.

  predicate Clean(reply: Reply) {
    reply.success ==> reply.code == 200
  }

  predicate CleanStart(started: Started) {
    started.Replied? ==> Clean(started.reply)
  }

  lemma {:induction false} PropertyReplyIsClean(payload: Json, filter: Filter, reply: Reply)
    requires Clean(reply)
    ensures Clean(GotProperty(payload, filter, reply))
  {
  }

  lemma {:induction false} PlainStartIsClean(json: Json, filter: Filter)
    ensures CleanStart(StartPlainOp(json, filter))
  {
    if StartName(json, filter.prop).Replied? {
      PropertyReplyIsClean(json, filter, StartName(json, filter.prop).reply);
    }
  }

  lemma {:induction false} LaunchIsClean(filter: Filter, starts: seq<SlotStart>)
    ensures CleanStart(Launch(filter, starts))
  {
  }

  lemma {:induction false} StartIsClean(store: Store, json: Json, filter: Filter, at: Place)
    ensures CleanStart(StartOp(store, json, filter, at))
  {
    if !IsCollection(json) && !json.Arr? {
      PlainStartIsClean(json, filter);
    } else if at.depth > 0 {
      if IsCollection(json) {
        LaunchIsClean(filter, StartSlots(store, FetchMembers(store, json, at).0, filter, 0, CollectionSize(json), Deeper(at)));
      } else {
        LaunchIsClean(filter, StartSlots(store, Some(json), filter, 0, |json.items|, Deeper(at)));
      }
    }
  }

  lemma {:induction false} AnswerIsClean(store: Store, stage: Stage, position: seq<nat>, depth: nat)
    requires Outstanding(stage, position) && Answer(store, stage, position, depth).Finished?
    ensures Clean(Answer(store, stage, position, depth).reply)
  {
  }

  lemma KeptReply(reply: Reply, found: Json)
    requires Clean(reply) && Keeps(reply) == Some(found)
    ensures reply == Reply(true, 200, Some(found))
  {
  }

  lemma OneIsItself(kept: Option<Json>, found: Option<Json>)
    requires CanonOf(kept) == CanonOf(found) && (found.Some? ==> !IsMade(found.value))
    ensures kept == found
  {
  }

  /** A walk that goes on with a good reply. */
  function Continued(next: Walk): Walk {
    if next.Rejected? then Delivered(next.gets, Reply(false, NO_CODE, None)) else next
  }

  lemma {:induction false} NextIs(store: Store, reply: Reply, rest: Path, at: Place)
    requires IsQueryPath(rest) && rest != [] && reply.success && reply.code == 200
    ensures GotNext(store, reply, rest, at) == Continued(StartPath(store, reply.payload, rest, at))
  {
  }

  lemma {:induction false} ContinuedOnTrack(store: Store, next: Walk, made: nat, last: Step, answer: Option<Json>, gets: nat, fuel: nat)
    requires Began(store, next, last, answer, gets, fuel)
    ensures Began(store, MoreWalk(made, Continued(next)), last, answer, made + gets, fuel)
  {
    var walk := MoreWalk(made, Continued(next));
    assert made + gets - walk.gets == gets - next.gets;
    match next {
      case Rejected(before) => assert walk == Delivered(made + before, Reply(false, NO_CODE, None));
      case Delivered(before, reply) => assert walk == Delivered(made + before, reply);
      case Walking(before, stage, rest) => assert walk == Walking(made + before, stage, rest);
    }
  }

  /** A walk that goes on with a clean reply that keeps nothing delivers nothing. */
  lemma {:induction false} WithoutPayload(store: Store, reply: Reply, rest: Path, at: Place, last: Step, fuel: nat)
    requires IsQueryPath(rest) && rest != [] && Clean(reply) && Keeps(reply).None?
    ensures OnTrack(store, GotNext(store, reply, rest, at), last, None, 0, fuel) && GotNext(store, reply, rest, at).gets == 0
  {
    assert StartPath(store, None, rest, at) == Rejected(0);
  }

  /** The first step has replied what the blocking one finds: the walk goes on inside the
      starting call. */
  lemma {:induction false} RepliedFound(store: Store, made: nat, found: Json, rest: Path, at: Place, last: Step, answer: Option<Json>, left: nat, fuel: nat)
    requires rest != [] && IsQueryPath(rest) && LastStep(rest) == last && fuel <= at.depth
    requires Fits(store, found, rest, at.onWorker, answer, left, fuel)
    ensures Began(store, Handed(store, Replied(made, Reply(true, 200, Some(found))), rest, at), last, answer, made + left, fuel)
    decreases |rest|, 2
  {
    StartsOnTrack(store, found, rest, at, fuel, answer, left);
    NextIs(store, Reply(true, 200, Some(found)), rest, at);
    ContinuedOnTrack(store, StartPath(store, Some(found), rest, at), made, last, answer, left, fuel);
  }

  lemma {:induction false} RefusedEnds(store: Store, made: nat, rest: Path, at: Place, last: Step, fuel: nat)
    requires IsQueryPath(rest)
    ensures Began(store, Handed(store, Refused(made), rest, at), last, None, made, fuel)
  {
  }

  /** A document that a plain step waits for. */
  lemma {:induction false} DocumentComes(store: Store, made: nat, uri: string, rest: Path, at: Place, last: Step, answer: Option<Json>, left: nat, fuel: nat)
    requires rest != [] && IsQueryPath(rest) && LastStep(rest) == last
    requires RestFits(store, Lookup(store, uri), rest, at.onWorker, answer, left, fuel)
    ensures Began(store, Handed(store, Accepted(made, AwaitDocument(uri)), rest, at), last, answer, made + 1 + left, fuel)
  {
    if uri in store {
      DocumentFits(store, uri, rest, at.onWorker, answer, left, fuel);
    }
  }

  /** What a waiting filter will find. */
  lemma {:induction false} FilterComes(store: Store, made: nat, stage: Stage, filter: Filter, found: Option<Json>, due: nat, rest: Path, at: Place,
                                       last: Step, answer: Option<Json>, left: nat, fuel: nat)
    requires rest != [] && IsQueryPath(rest) && LastStep(rest) == last
    requires Latched(stage, filter) && Owed(store, stage, fuel) == Due(CanonOf(found), due)
    requires SoundStore(store, Some(filter.prop)) && GoodProperty(filter.prop) && !filter.check.Unnamed?
    requires (found.Some? ==> !IsMade(found.value)) && RestFits(store, found, rest, true, answer, left, fuel)
    ensures Began(store, Handed(store, Accepted(made, stage), rest, at), last, answer, made + due + left, fuel)
  {
  }

  lemma {:induction false} PlainGoesOn(store: Store, started: Started, found: Option<Json>, gets: nat, rest: Path, at: Place, last: Step,
                                       answer: Option<Json>, left: nat, fuel: nat)
    requires rest != [] && IsQueryPath(rest) && LastStep(rest) == last && fuel <= at.depth
    requires StartsAs(store, started, found, gets) && RestFits(store, found, rest, at.onWorker, answer, left, fuel)
    ensures Began(store, Handed(store, started, rest, at), last, answer, gets + left, fuel)
    decreases |rest|, 3
  {
    match started {
      case Refused(made) => RefusedEnds(store, made, rest, at, last, fuel);
      case Replied(made, reply) =>
        assert started == Replied(made, Reply(true, 200, Some(found.value)));
        RepliedFound(store, made, found.value, rest, at, last, answer, left, fuel);
      case Accepted(made, stage) => DocumentComes(store, made, stage.uri, rest, at, last, answer, left, fuel);
    }
  }

  lemma {:induction false} FilterReplied(store: Store, made: nat, reply: Reply, rest: Path, at: Place, last: Step, answer: Option<Json>, left: nat, fuel: nat)
    requires rest != [] && IsQueryPath(rest) && LastStep(rest) == last && fuel <= at.depth && Clean(reply)
    requires RestFits(store, Keeps(reply), rest, true, answer, left, fuel)
    ensures Began(store, Handed(store, Replied(made, reply), rest, at), last, answer, made + left, fuel)
    decreases |rest|, 3
  {
    if Keeps(reply).Some? {
      KeptReply(reply, Keeps(reply).value);
      FitsElsewhere(store, Keeps(reply).value, rest, at.onWorker, answer, left, fuel);
      RepliedFound(store, made, Keeps(reply).value, rest, at, last, answer, left, fuel);
    } else {
      WithoutPayload(store, reply, rest, at, last, fuel);
    }
  }

  lemma {:induction false} FilterGoesOn(store: Store, started: Started, filter: Filter, found: Option<Json>, gets: nat, rest: Path, at: Place, last: Step,
                                        answer: Option<Json>, left: nat, fuel: nat)
    requires rest != [] && IsQueryPath(rest) && LastStep(rest) == last && fuel <= at.depth
    requires OpAs(store, filter, started, found, gets, fuel) && CleanStart(started)
    requires SoundStore(store, Some(filter.prop)) && GoodProperty(filter.prop) && !filter.check.Unnamed?
    requires (found.Some? ==> !IsMade(found.value)) && RestFits(store, found, rest, true, answer, left, fuel)
    ensures Began(store, Handed(store, started, rest, at), last, answer, gets + left, fuel)
    decreases |rest|, 4
  {
    match started {
      case Refused(made) => RefusedEnds(store, made, rest, at, last, fuel);
      case Replied(made, reply) =>
        OneIsItself(Keeps(reply), found);
        FilterReplied(store, made, reply, rest, at, last, answer, left, fuel);
      case Accepted(made, stage) =>
        var due: nat := gets - made;
        assert Owed(store, stage, fuel) == Due(CanonOf(found), due);
        FilterComes(store, made, stage, filter, found, due, rest, at, last, answer, left, fuel);
    }
  }

  lemma {:induction false} SoundHere(store: Store, payload: Json, path: Path, worker: bool)
    requires path != [] && StoreFits(store, path) && JsonFits(store, payload, path, worker || FiltersOnTheWay(path))
    ensures SoundStore(store, PropertyOf(path[0])) && Sound(store, payload, PropertyOf(path[0]), worker)
  {
    assert Sound(store, payload, PropertyOf(path[0]), worker || FiltersOnTheWay(path));
    if !worker && FiltersOnTheWay(path) {
      SoundElsewhere(store, payload, PropertyOf(path[0]), worker);
    }
  }

  /** What the theorem about single steps asks of the first one. */
  ghost predicate StepReady(store: Store, payload: Json, step: Step, at: Place, fuel: nat) {
    && (PlainStep(step) || GoodFilter(step)) && fuel <= at.depth
    && SoundStore(store, PropertyOf(step)) && Sound(store, payload, PropertyOf(step), at.onWorker)
    && EvalStep(store, payload, step, fuel).Value?
    && (EvalStep(store, payload, step, fuel).found.None? && step.Name? ==> Unmapped(payload, step.name))
  }

  /** The first step comes out as the blocking one. */
  ghost predicate StepAs(store: Store, step: Step, started: Started, found: Option<Json>, gets: nat, fuel: nat) {
    if IsFilter(step) then
      && OpAs(store, FilterOf(step), started, found, gets, fuel) && CleanStart(started)
      && GoodFilter(step) && SoundStore(store, PropertyOf(step))
    else StartsAs(store, started, found, gets)
  }

  lemma {:induction false} StepStarts(store: Store, payload: Json, step: Step, at: Place, fuel: nat)
    requires StepReady(store, payload, step, at, fuel)
    ensures var r := EvalStep(store, payload, step, fuel);
            StepAs(store, step, StartStep(store, payload, step, at), r.found, r.gets, fuel)
  {
    if IsFilter(step) {
      OpStarts(store, payload, FilterOf(step), at, fuel, fuel);
      StartIsClean(store, payload, FilterOf(step), at);
    } else {
      PlainStepStarts(store, payload, step, at, fuel);
    }
  }

  /** What the first step finds is the answer, or fits the rest. */
  ghost predicate Leaves(store: Store, step: Step, r: Eval, rest: Path, worker: bool, answer: Option<Json>, gets: nat, fuel: nat) {
    r.Value? &&
    if rest == [] then r == Value(answer, gets)
    else
      && IsQueryPath(rest) && r.gets <= gets
      && RestFits(store, r.found, rest, worker || IsFilter(step), answer, gets - r.gets, fuel)
      && (IsFilter(step) && r.found.Some? ==> !IsMade(r.found.value))
  }

  lemma {:induction false} FitsReady(store: Store, payload: Json, path: Path, at: Place, answer: Option<Json>, gets: nat, fuel: nat)
    requires Fits(store, payload, path, at.onWorker, answer, gets, fuel) && fuel <= at.depth
    ensures StepReady(store, payload, path[0], at, fuel)
    ensures Leaves(store, path[0], EvalStep(store, payload, path[0], fuel), path[1..], at.onWorker, answer, gets, fuel)
  {
    SoundHere(store, payload, path, at.onWorker);
    if |path| > 1 {
      StepFits(store, payload, path, at.onWorker, answer, gets, fuel);
    }
  }

  lemma {:induction false} StepEnds(store: Store, step: Step, started: Started, at: Place, answer: Option<Json>, gets: nat, fuel: nat)
    requires StepAs(store, step, started, answer, gets, fuel)
    ensures Began(store, Handed(store, started, [], at), step, answer, gets, fuel)
  {
    if IsFilter(step) {
      FilterEnds(store, started, at, step, answer, gets, fuel);
    } else {
      PlainEnds(store, started, at, step, answer, gets, fuel);
    }
  }

  lemma {:induction false} StepGoesOn(store: Store, step: Step, started: Started, found: Option<Json>, gets: nat, rest: Path, at: Place, last: Step,
                                      answer: Option<Json>, left: nat, fuel: nat)
    requires rest != [] && IsQueryPath(rest) && LastStep(rest) == last && fuel <= at.depth
    requires StepAs(store, step, started, found, gets, fuel)
    requires RestFits(store, found, rest, at.onWorker || IsFilter(step), answer, left, fuel)
    requires IsFilter(step) && found.Some? ==> !IsMade(found.value)
    ensures Began(store, Handed(store, started, rest, at), last, answer, gets + left, fuel)
    decreases |rest|, 5
  {
    if IsFilter(step) {
      FilterGoesOn(store, started, FilterOf(step), found, gets, rest, at, last, answer, left, fuel);
    } else {
      PlainGoesOn(store, started, found, gets, rest, at, last, answer, left, fuel);
    }
  }

  /** A walk starts on track for whatever the blocking evaluator finds. */
  lemma {:induction false} StartsOnTrack(store: Store, payload: Json, path: Path, at: Place, fuel: nat, answer: Option<Json>, gets: nat)
    requires Fits(store, payload, path, at.onWorker, answer, gets, fuel) && fuel <= at.depth
    ensures Began(store, StartPath(store, Some(payload), path, at), LastStep(path), answer, gets, fuel)
    decreases |path|, 1
  {
    FitsReady(store, payload, path, at, answer, gets, fuel);
    StepStarts(store, payload, path[0], at, fuel);
    GoodPathIsQuery(path);
    assert path[1..] != [] ==> LastStep(path[1..]) == LastStep(path);
    StepOnTrack(store, path[0], StartStep(store, payload, path[0], at), EvalStep(store, payload, path[0], fuel), path[1..], at, LastStep(path), fuel, answer, gets);
    assert StartPath(store, Some(payload), path, at) == Handed(store, StartStep(store, payload, path[0], at), path[1..], at);
  }

  lemma {:induction false} StepOnTrack(store: Store, step: Step, started: Started, r: Eval, rest: Path, at: Place, last: Step, fuel: nat, answer: Option<Json>, gets: nat)
    requires IsQueryPath(rest) && last == (if rest == [] then step else LastStep(rest)) && fuel <= at.depth
    requires r.Value? && StepAs(store, step, started, r.found, r.gets, fuel)
    requires Leaves(store, step, r, rest, at.onWorker, answer, gets, fuel)
    ensures Began(store, Handed(store, started, rest, at), last, answer, gets, fuel)
    decreases |rest|, 6
  {
    if rest == [] {
      StepEnds(store, step, started, at, answer, gets, fuel);
    } else {
      StepGoesOn(store, step, started, r.found, r.gets, rest, at, last, answer, gets - r.gets, fuel);
    }
  }

  // --------------------------------------------------------------------- replies

  /** Each reply, in whatever order, keeps the walk on track with one request less to go. */
  lemma {:induction false} StaysOnTrack(store: Store, walk: Walk, position: seq<nat>, depth: nat, last: Step, answer: Option<Json>, left: nat, fuel: nat)
    requires OnTrack(store, walk, last, answer, left, fuel) && CanAnswer(walk, position) && fuel <= depth
    ensures left > 0 && OnTrack(store, AnswerWalk(store, walk, position, depth), last, answer, left - 1, fuel)
    ensures AnswerWalk(store, walk, position, depth).gets == walk.gets
  {
    if walk.stage.AwaitDocument? {
      DocumentAnswered(store, walk, position, depth, last, answer, left, fuel);
    } else {
      FilterAnswered(store, walk, position, depth, last, answer, left, fuel);
    }
  }

  lemma {:induction false} DocumentAnswered(store: Store, walk: Walk, position: seq<nat>, depth: nat, last: Step, answer: Option<Json>, left: nat, fuel: nat)
    requires walk.Walking? && walk.stage.AwaitDocument? && fuel <= depth
    requires OnTrack(store, walk, last, answer, left, fuel) && CanAnswer(walk, position)
    ensures left > 0 && OnTrack(store, AnswerWalk(store, walk, position, depth), last, answer, left - 1, fuel)
    ensures AnswerWalk(store, walk, position, depth).gets == walk.gets
  {
    DocumentArrives(store, walk.stage.uri, walk.rest, depth, last, answer, left - 1, fuel);
    assert AnswerWalk(store, walk, position, depth) ==
           MoreWalk(walk.gets, GotNext(store, Response(store, walk.stage.uri), walk.rest, Place(true, depth)));
  }

  lemma {:induction false} DocumentArrives(store: Store, uri: string, rest: Path, depth: nat, last: Step, answer: Option<Json>, gets: nat, fuel: nat)
    requires IsQueryPath(rest) && fuel <= depth && DocumentOnTrack(store, uri, rest, last, answer, gets, fuel)
    ensures OnTrack(store, GotNext(store, Response(store, uri), rest, Place(true, depth)), last, answer, gets, fuel)
  {
    if uri in store && rest != [] {
      GoesOn(store, Response(store, uri), store[uri], rest, depth, last, answer, gets, fuel);
    }
  }

  /** The worker goes on with a payload. */
  lemma {:induction false} GoesOn(store: Store, reply: Reply, json: Json, rest: Path, depth: nat, last: Step, answer: Option<Json>, gets: nat, fuel: nat)
    requires reply == Reply(true, 200, Some(json)) && fuel <= depth && IsQueryPath(rest)
    requires RestOnTrack(store, json, rest, last, answer, gets, fuel)
    ensures OnTrack(store, GotNext(store, reply, rest, Place(true, depth)), last, answer, gets, fuel)
  {
    var at := Place(true, depth);
    StartsOnTrack(store, json, rest, at, fuel, answer, gets);
    NextIs(store, reply, rest, at);
    ContinuedOnTrack(store, StartPath(store, Some(json), rest, at), 0, last, answer, gets, fuel);
  }

  lemma {:induction false} FilterAnswered(store: Store, walk: Walk, position: seq<nat>, depth: nat, last: Step, answer: Option<Json>, left: nat, fuel: nat)
    requires walk.Walking? && !walk.stage.AwaitDocument? && fuel <= depth
    requires OnTrack(store, walk, last, answer, left, fuel) && CanAnswer(walk, position)
    ensures left > 0 && OnTrack(store, AnswerWalk(store, walk, position, depth), last, answer, left - 1, fuel)
    ensures AnswerWalk(store, walk, position, depth).gets == walk.gets
  {
    var stage, rest := walk.stage, walk.rest;
    var progress := Answer(store, stage, position, depth);
    StageAnswered(store, stage, position, depth, fuel);
    ProgressOnTrack(store, walk.gets, stage, rest, progress, Owed(store, stage, fuel), depth, last, answer, left, fuel);
  }

  lemma {:induction false} StageAnswered(store: Store, stage: Stage, position: seq<nat>, depth: nat, fuel: nat)
    requires GoodStage(store, stage, fuel) && Outstanding(stage, position) && fuel <= depth
    ensures var owed, progress := Owed(store, stage, fuel), Answer(store, stage, position, depth);
            && owed.gets > 0 && MovedOn(store, FilterIn(stage), progress, owed.answer, owed.gets - 1, fuel)
            && (progress.Finished? ==> Clean(progress.reply))
  {
    AnswerMovesOn(store, FilterIn(stage), stage, position, depth, fuel);
    if Answer(store, stage, position, depth).Finished? {
      AnswerIsClean(store, stage, position, depth);
    }
  }

  lemma {:induction false} ProgressOnTrack(store: Store, made: nat, stage: Stage, rest: Path, progress: Progress, owed: Due, depth: nat,
                                           last: Step, answer: Option<Json>, left: nat, fuel: nat)
    requires IsQueryPath(rest) && fuel <= depth
    requires GoodStage(store, stage, fuel) && owed == Owed(store, stage, fuel) && 0 < owed.gets <= left
    requires FoundOnTrack(store, owed.answer, rest, last, answer, left - owed.gets, fuel)
    requires MovedOn(store, FilterIn(stage), progress, owed.answer, owed.gets - 1, fuel) && (progress.Finished? ==> Clean(progress.reply))
    ensures var walk := Progressed(store, Walking(made, stage, rest), progress, depth);
            OnTrack(store, walk, last, answer, left - 1, fuel) && walk.gets == made
  {
    var walk := Progressed(store, Walking(made, stage, rest), progress, depth);
    if progress.Working? {
      assert walk == Walking(made, progress.stage, rest);
      StillWaits(store, made, stage, progress.stage, owed, rest, last, answer, left, fuel);
    } else {
      assert walk == MoreWalk(made, GotNext(store, progress.reply, rest, Place(true, depth)));
      Finishes(store, made, progress.reply, owed.answer, rest, depth, last, answer, left - 1, fuel);
    }
  }

  lemma {:induction false} Finishes(store: Store, made: nat, reply: Reply, found: Option<Bag>, rest: Path, depth: nat, last: Step,
                                    answer: Option<Json>, left: nat, fuel: nat)
    requires IsQueryPath(rest) && fuel <= depth && Clean(reply) && CanonOf(Keeps(reply)) == found
    requires FoundOnTrack(store, found, rest, last, answer, left, fuel)
    ensures OnTrack(store, MoreWalk(made, GotNext(store, reply, rest, Place(true, depth))), last, answer, left, fuel)
    ensures MoreWalk(made, GotNext(store, reply, rest, Place(true, depth))).gets == made
  {
    FoundArrives(store, reply, found, rest, depth, last, answer, left, fuel);
    AnyGets(store, GotNext(store, reply, rest, Place(true, depth)), made, last, answer, left, fuel);
  }

  /** The requests made at the start make no difference to the track. */
  lemma {:induction false} AnyGets(store: Store, walk: Walk, made: nat, last: Step, answer: Option<Json>, left: nat, fuel: nat)
    requires OnTrack(store, walk, last, answer, left, fuel)
    ensures OnTrack(store, MoreWalk(made, walk), last, answer, left, fuel)
  {
  }

  lemma {:induction false} StillWaits(store: Store, made: nat, stage: Stage, after: Stage, owed: Due, rest: Path, last: Step, answer: Option<Json>, left: nat, fuel: nat)
    requires GoodStage(store, stage, fuel) && owed == Owed(store, stage, fuel) && 0 < owed.gets <= left
    requires FoundOnTrack(store, owed.answer, rest, last, answer, left - owed.gets, fuel)
    requires Latched(after, FilterIn(stage)) && Owed(store, after, fuel) == Due(owed.answer, owed.gets - 1) && IsQueryPath(rest)
    ensures OnTrack(store, Walking(made, after, rest), last, answer, left - 1, fuel)
  {
    assert FilterIn(after) == FilterIn(stage);
  }

  lemma {:induction false} FoundArrives(store: Store, reply: Reply, found: Option<Bag>, rest: Path, depth: nat, last: Step, answer: Option<Json>, gets: nat, fuel: nat)
    requires IsQueryPath(rest) && fuel <= depth && Clean(reply) && CanonOf(Keeps(reply)) == found
    requires FoundOnTrack(store, found, rest, last, answer, gets, fuel)
    ensures OnTrack(store, GotNext(store, reply, rest, Place(true, depth)), last, answer, gets, fuel)
  {
    if rest != [] {
      if found.None? {
        WithoutPayload(store, reply, rest, Place(true, depth), last, fuel);
      } else {
        GoesOn(store, reply, found.value.json, rest, depth, last, answer, gets, fuel);
      }
    }
  }

  /** A filter that still owes its answer always has a request in the queue. */
  lemma {:induction false} SomethingOutstanding(store: Store, filter: Filter, stage: Stage, fuel: nat) returns (position: seq<nat>)
    requires Latched(stage, filter) && Owed(store, stage, fuel).Due?
    ensures Outstanding(stage, position)
    decreases stage
  {
    position := [];
    if stage.AwaitAll? {
      var i := OpenSlot(stage.slots);
      OwedSlotsSplit(store, filter, stage.slots, i, fuel);
      if stage.slots[i].AwaitResult? {
        var inner := SomethingOutstanding(store, filter, stage.slots[i].stage, fuel);
        position := [i] + inner;
        assert position[1..] == inner;
      } else {
        position := [i];
      }
    }
  }

  lemma {:induction false} NeverStuck(store: Store, walk: Walk, last: Step, answer: Option<Json>, left: nat, fuel: nat) returns (position: seq<nat>)
    requires OnTrack(store, walk, last, answer, left, fuel) && left > 0
    ensures CanAnswer(walk, position)
  {
    position := [];
    if !walk.stage.AwaitDocument? {
      position := SomethingOutstanding(store, FilterIn(walk.stage), walk.stage, fuel);
    }
  }

  lemma {:induction false} DeliveredAtTheEnd(store: Store, walk: Walk, last: Step, answer: Option<Json>, fuel: nat)
    requires OnTrack(store, walk, last, answer, 0, fuel)
    ensures Ends(walk, last, answer)
  {
    if walk.Walking? {
      var position := SomethingOutstanding(store, FilterIn(walk.stage), walk.stage, fuel);
      StaysOnTrack(store, walk, position, fuel, last, answer, 0, fuel);
    }
  }

  /** The walk is over as the blocking one is: the user callback has run with the same answer,
      or there is none and the walk was refused or has called back without a good payload. */
  predicate Ends(walk: Walk, last: Step, answer: Option<Json>) {
    match answer
    case None => walk.Rejected? || (walk.Delivered? && Keeps(walk.reply).None?)
    case Some(found) =>
      && walk.Delivered? && walk.reply.success && walk.reply.code < 300 && walk.reply.payload.Some?
      && SameAnswer(walk.reply.payload.value, found)
      && (!IsFilter(last) ==> walk.reply.payload.value == found)
  }

  /** One reply answered, as a property of the number of replies to come. */
  ghost predicate EveryReplyKeeps(store: Store, depth: nat, track: (Walk, nat) -> bool) {
    forall w: Walk, p: seq<nat>, n: nat :: track(w, n) && CanAnswer(w, p) ==>
      n > 0 && track(AnswerWalk(store, w, p, depth), n - 1)
  }

  /** What every reply keeps, a run of replies keeps. */
  lemma {:induction false} RunKeeps(store: Store, walk: Walk, order: seq<seq<nat>>, depth: nat, left: nat, track: (Walk, nat) -> bool)
    requires EveryReplyKeeps(store, depth, track) && track(walk, left) && IsRun(store, walk, order, depth)
    ensures |order| <= left && track(AfterRun(store, walk, order, depth), left - |order|)
    decreases |order|
  {
    if order != [] {
      RunKeeps(store, AnswerWalk(store, walk, order[0], depth), order[1..], depth, left - 1, track);
    }
  }

  /** On track, with so many blocking requests made at the start. */
  ghost function Track(store: Store, last: Step, answer: Option<Json>, made: nat, fuel: nat): (Walk, nat) -> bool {
    (walk: Walk, left: nat) => walk.gets == made && OnTrack(store, walk, last, answer, left, fuel)
  }

  lemma {:induction false} ReplyKeepsTrack(store: Store, walk: Walk, position: seq<nat>, left: nat, depth: nat, last: Step, answer: Option<Json>, made: nat, fuel: nat)
    requires fuel <= depth && CanAnswer(walk, position) && Track(store, last, answer, made, fuel)(walk, left)
    ensures left > 0 && Track(store, last, answer, made, fuel)(AnswerWalk(store, walk, position, depth), left - 1)
  {
    StaysOnTrack(store, walk, position, depth, last, answer, left, fuel);
  }

  lemma {:induction false} EveryReplyKeepsTrack(store: Store, depth: nat, last: Step, answer: Option<Json>, made: nat, fuel: nat)
    requires fuel <= depth
    ensures EveryReplyKeeps(store, depth, Track(store, last, answer, made, fuel))
  {
    var track := Track(store, last, answer, made, fuel);
    forall w: Walk, p: seq<nat>, n: nat | track(w, n) && CanAnswer(w, p)
      ensures n > 0 && track(AnswerWalk(store, w, p, depth), n - 1)
    {
      ReplyKeepsTrack(store, w, p, n, depth, last, answer, made, fuel);
    }
  }

  /** On track means: something can be answered while replies are due, and the answer has
      been delivered once none is. */
  lemma {:induction false} OnTrackMeans(store: Store, walk: Walk, last: Step, answer: Option<Json>, left: nat, fuel: nat)
    requires OnTrack(store, walk, last, answer, left, fuel)
    ensures if left > 0 then CanMoveOn(walk) else Ends(walk, last, answer)
  {
    if left > 0 {
      var position := NeverStuck(store, walk, last, answer, left, fuel);
      assert CanAnswer(walk, position);
    } else {
      DeliveredAtTheEnd(store, walk, last, answer, fuel);
    }
  }

  /** What a track says about a walk on it: something can be answered while replies are due,
      and the walk has ended once none is. */
  ghost predicate Leads(last: Step, answer: Option<Json>, made: nat, track: (Walk, nat) -> bool) {
    forall w: Walk, n: nat :: track(w, n) ==> w.gets == made && if n > 0 then CanMoveOn(w) else Ends(w, last, answer)
  }

  lemma {:induction false} TrackLeads(store: Store, last: Step, answer: Option<Json>, made: nat, fuel: nat)
    ensures Leads(last, answer, made, Track(store, last, answer, made, fuel))
  {
    var track := Track(store, last, answer, made, fuel);
    forall w: Walk, n: nat | track(w, n)
      ensures w.gets == made && if n > 0 then CanMoveOn(w) else Ends(w, last, answer)
    {
      OnTrackMeans(store, w, last, answer, n, fuel);
    }
  }

  /** What a walk on a track comes to. */
  lemma {:induction false} RunEnds(store: Store, start: Walk, order: seq<seq<nat>>, depth: nat, last: Step, answer: Option<Json>, left: nat,
                                   track: (Walk, nat) -> bool)
    requires EveryReplyKeeps(store, depth, track) && Leads(last, answer, start.gets, track)
    requires track(start, left) && IsRun(store, start, order, depth)
    ensures var walk := AfterRun(store, start, order, depth);
            && walk.gets == start.gets && |order| <= left
            && if |order| < left then CanMoveOn(walk) else Ends(walk, last, answer)
  {
    RunKeeps(store, start, order, depth, left, track);
    assert track(AfterRun(store, start, order, depth), left - |order|);
  }

  lemma {:induction false} BegunRun(store: Store, start: Walk, order: seq<seq<nat>>, depth: nat, last: Step, answer: Option<Json>, gets: nat, fuel: nat)
    requires Began(store, start, last, answer, gets, fuel) && IsRun(store, start, order, depth) && fuel <= depth
    ensures var walk := AfterRun(store, start, order, depth);
            && walk.gets + |order| <= gets
            && if walk.gets + |order| < gets then CanMoveOn(walk) else Ends(walk, last, answer)
  {
    EveryReplyKeepsTrack(store, depth, last, answer, start.gets, fuel);
    TrackLeads(store, last, answer, start.gets, fuel);
    TrackedRun(store, start, order, depth, last, answer, gets, Track(store, last, answer, start.gets, fuel));
  }

  lemma {:induction false} TrackedRun(store: Store, start: Walk, order: seq<seq<nat>>, depth: nat, last: Step, answer: Option<Json>, gets: nat,
                                      track: (Walk, nat) -> bool)
    requires EveryReplyKeeps(store, depth, track) && Leads(last, answer, start.gets, track)
    requires start.gets <= gets && track(start, gets - start.gets) && IsRun(store, start, order, depth)
    ensures var walk := AfterRun(store, start, order, depth);
            && walk.gets + |order| <= gets
            && if walk.gets + |order| < gets then CanMoveOn(walk) else Ends(walk, last, answer)
  {
    RunEnds(store, start, order, depth, last, answer, gets - start.gets, track);
  }

  /** Whatever the blocking walk answers, with whatever number of requests, the callback-driven
      walk ends with the same after exactly as many, in every order of replies: it neither
      finishes early nor runs out of outstanding requests. This holds for a walk started on
      the worker and for one started on another thread, whose first steps may make blocking
      requests, and for filters anywhere in the path. Without a filter at the end the payload
      is identical; a filtered collection has the same members. Only where the blocking walk
      finds nothing does the data have to be free of mapped names. */
  lemma {:induction false} AsyncWalkRefinesBlockingWalk(
      store: Store, payload: Json, path: Path, at: Place, fuel: nat, answer: Option<Json>, gets: nat, order: seq<seq<nat>>)
    requires Fits(store, payload, path, at.onWorker, answer, gets, fuel) && fuel <= at.depth
    requires IsRun(store, StartPath(store, Some(payload), path, at), order, at.depth)
    ensures var walk := AfterRun(store, StartPath(store, Some(payload), path, at), order, at.depth);
            && walk.gets + |order| <= gets
            && if walk.gets + |order| < gets then CanMoveOn(walk) else Ends(walk, LastStep(path), answer)
  {
    StartsOnTrack(store, payload, path, at, fuel, answer, gets);
    BegunRun(store, StartPath(store, Some(payload), path, at), order, at.depth, LastStep(path), answer, gets, fuel);
  }
}
