/** The callback-driven RedPath evaluator. A started call either refuses (returns false),
    has called back already, or has been accepted and waits for requests in the worker's
    queue. What waits is kept as a tree: every outstanding request is a leaf, and the chain of
    C contexts its callback would walk through is the path from the leaf to the root.

    A call runs on the worker thread or on another one; callbacks of replies run on the
    worker. Off the worker a starting call may make blocking requests of its own, which
    `gets` counts. As in the blocking evaluator, `depth` is the C call depth allowed. */
module AsyncEvaluate {
  import opened Wrappers
  import opened Json
  import opened DottedLookup
  import opened RedPath
  import opened Evaluate

  /** The arguments of a `redfishAsyncCallback`. */
  datatype Reply = Reply(success: bool, code: nat, payload: Option<Json>)

  /** Where a call runs, and how deep calls may nest below it. */
  datatype Place = Place(onWorker: bool, depth: nat)

  function Deeper(at: Place): Place
    requires at.depth > 0
  {
    at.(depth := at.depth - 1)
  }

  /** `redpathAsyncOpContext`; `validCount` is the number of payloads. */
  datatype Context = Context(count: nat, left: nat, payloads: seq<Json>)

  datatype Stage =
    | AwaitDocument(uri: string)                                // the reply is handed on as it is
    | AwaitProperty(payload: Json, filter: Filter, uri: string)  // opGotPayloadByNodeNameAsync
    | AwaitAll(filter: Filter, context: Context, slots: seq<SlotState>)

  datatype SlotState =
    | Counted
    | AwaitIndex(uri: string)          // opGotPayloadByIndexAsync
    | AwaitResult(stage: Stage)        // opGotResultAsync
    | Dead                             // accepted, but its callback will never run

  /** How a starting call comes out, with the blocking requests made by it. Lost: accepted,
      but the callback will never run. */
  datatype Started =
    | Refused(gets: nat)
    | Replied(gets: nat, reply: Reply)
    | Accepted(gets: nat, stage: Stage)
    | Lost(gets: nat)
    | OutOfDepth(gets: nat)

  function More(gets: nat, started: Started): Started {
    started.(gets := gets + started.gets)
  }

  const NO_CODE: nat := 0xFFFF

  // ----------------------------------------------------------------- name steps

  /** The named property of every member; strings are wrapped, members without it skipped. */
  function MapMembers(items: seq<Json>, name: string): seq<Json> {
    if items == [] then []
    else
      (match Get(Some(items[0]), name)
       case Some(value) => [Wrap(name, value)]
       case None => []) + MapMembers(items[1..], name)
  }

  function Gathered(json: Option<Json>, name: string): Option<Json> {
    if json.Some? && json.value.Arr? && MapMembers(json.value.items, name) != []
    then Some(Arr(MapMembers(json.value.items, name))) else None
  }

  /** The value `getPayloadByNodeNameAsync` settles on. */
  function NamedValue(json: Json, name: string): Option<Json> {
    match Get(Some(json), name)
    case Some(value) => Some(value)
    case None =>
      if IsCollection(json) then Gathered(Get(Some(json), MEMBERS), name)
      else if json.Arr? then Gathered(Some(json), name)
      else if '.' in name then Embedded(Some(json), name)
      else None
  }

  function StartName(json: Json, name: string): (r: Started)
    ensures r.gets == 0
  {
    match NamedValue(json, name)
    case None => Refused(0)
    case Some(value) =>
      match LinkOf(value)
      case Some(uri) => Accepted(0, AwaitDocument(uri))
      case None => Replied(0, Reply(true, 200, Some(Wrap(name, value))))
  }

  // ---------------------------------------------------------------- index steps

  function StartEntry(json: Json, index: nat): (r: Started)
    ensures r.gets == 0
  {
    match Entry(json, index)
    case None => Refused(0)
    case Some(value) =>
      match LinkOf(value)
      case Some(uri) => Accepted(0, AwaitDocument(uri))
      case None => Replied(0, Reply(true, 200, Some(value)))
  }

  predicate HasLinkedMembers(json: Json) {
    Get(Some(json), MEMBERS).Some? && LinkOf(Get(Some(json), MEMBERS).value).Some?
  }

  /** The blocking fetch of the members of a collection. It answers NULL instead of making a
      request when it is the worker that asks. */
  function FetchMembers(store: Store, json: Json, at: Place): (r: (Option<Json>, nat))
    ensures at.onWorker ==> r.1 == 0
  {
    NoDotOneSegment(MEMBERS);
    if at.onWorker && HasLinkedMembers(json) then (None, 0) else ByNodeName(store, Some(json), MEMBERS)
  }

  /** `getPayloadByIndexAsync`. */
  function StartIndex(store: Store, json: Option<Json>, index: nat, at: Place): (r: Started)
    ensures !r.Lost? && (r.Accepted? ==> r.stage.AwaitDocument?)
    ensures r.Replied? ==> r.reply.payload.Some? && r.reply == Reply(true, 200, r.reply.payload)
    ensures at.onWorker ==> r.gets == 0
    decreases at.depth
  {
    if json.None? then Refused(0)
    else if !IsCollection(json.value) then StartEntry(json.value, index)
    else if at.depth == 0 then OutOfDepth(0)
    else
      var (members, gets) := FetchMembers(store, json.value, at);
      More(gets, StartIndex(store, members, index, Deeper(at)))
  }

  // -------------------------------------------------------------------- filters

  /** `opGotPayloadByNodeNameAsync`. */
  function GotProperty(payload: Json, filter: Filter, reply: Reply): Reply {
    if !reply.success || reply.code >= 400 || reply.payload.None? then reply
    else if Passes(reply.payload.value, filter)
    then Reply(true, 200, Some(payload))
    else Reply(false, NO_CODE, Some(payload))
  }

  /** The payload `opGotResultAsync` stores for a reply, if any. */
  function Keeps(reply: Reply): Option<Json> {
    if reply.success && reply.code < 300 then reply.payload else None
  }

  /** How one slot of a fan-out comes out of the starting loop. */
  datatype SlotStart =
    | NotStarted(gets: nat)                       // the index step returned false
    | Done(gets: nat, kept: Option<Json>)         // its callbacks ran inside the call
    | Waiting(gets: nat, slot: SlotState)

  /** Count slot results into the context, as the loop and the callbacks do. */
  function Count(context: Context, kept: Option<Json>): Context {
    context.(left := if context.left == 0 then 0 else context.left - 1,
             payloads := context.payloads + if kept.Some? then [kept.value] else [])
  }

  function AfterLoop(context: Context, starts: seq<SlotStart>): Context
    decreases |starts|
  {
    if starts == [] then context
    else
      AfterLoop(match starts[0]
                case NotStarted(_) => Count(context, None)
                case Done(_, kept) => Count(context, kept)
                case Waiting(_, _) => context, starts[1..])
  }

  function SlotOf(start: SlotStart): SlotState {
    if start.Waiting? then start.slot else Counted
  }

  function SlotsOf(starts: seq<SlotStart>): seq<SlotState> {
    seq(|starts|, i requires 0 <= i < |starts| => SlotOf(starts[i]))
  }

  function GetsOf(starts: seq<SlotStart>): nat {
    if starts == [] then 0 else starts[0].gets + GetsOf(starts[1..])
  }

  function Finish(context: Context): Reply {
    Reply(true, 200, Combine(context.payloads))
  }

  /** The end of `collectionEvalOpAsync` and `arrayEvalOpAsync`. The callback runs inside the
      loop only when the last count comes from a callback: a last slot that does not start
      lowers `left` to zero without anybody finishing. */
  function Launch(filter: Filter, starts: seq<SlotStart>): (r: Started)
    ensures r.gets == GetsOf(starts)
  {
    var context, gets := AfterLoop(Context(|starts|, |starts|, []), starts), GetsOf(starts);
    if forall i :: 0 <= i < |starts| ==> starts[i].NotStarted? then Refused(gets)
    else if context.left > 0 then Accepted(gets, AwaitAll(filter, context, SlotsOf(starts)))
    else if starts[|starts| - 1].NotStarted? then Lost(gets)
    else Replied(gets, Finish(context))
  }

  /** A filter on a payload that is neither a collection nor an array. */
  function StartPlainOp(json: Json, filter: Filter): (r: Started)
    ensures r.gets == 0
  {
    match StartName(json, filter.prop)
    case Refused(_) => Refused(0)
    case Replied(_, reply) => Replied(0, GotProperty(json, filter, reply))
    case Accepted(_, stage) => if stage.AwaitDocument? then Accepted(0, AwaitProperty(json, filter, stage.uri)) else Lost(0)
    case Lost(_) => Lost(0)
    case OutOfDepth(_) => OutOfDepth(0)
  }

  /** `getOpResultAsync`. */
  function StartOp(store: Store, json: Json, filter: Filter, at: Place): (r: Started)
    ensures at.onWorker ==> r.gets == 0
    decreases at.depth, 0
  {
    if !IsCollection(json) && !json.Arr? then StartPlainOp(json, filter)
    else if at.depth == 0 then OutOfDepth(0)
    else if IsCollection(json) then
      var size := CollectionSize(json);
      if size == 0 then Refused(0)
      else
        var (members, gets) := FetchMembers(store, json, at);
        More(gets, Launch(filter, StartSlots(store, members, filter, 0, size, Deeper(at))))
    else Launch(filter, StartSlots(store, Some(json), filter, 0, |json.items|, Deeper(at)))
  }

  /** `opGotPayloadByIndexAsync` after a good reply: filter the element. */
  function SlotFrom(started: Started): (r: SlotStart)
    ensures r.gets == started.gets
  {
    match started
    case Refused(gets) => Done(gets, None)
    case Replied(gets, reply) => Done(gets, Keeps(reply))
    case Accepted(gets, stage) => Waiting(gets, AwaitResult(stage))
    case Lost(gets) => Waiting(gets, Dead)
    case OutOfDepth(gets) => Waiting(gets, Dead)
  }

  /** One turn of the starting loop, over the entries of `source`. */
  function StartSlot(store: Store, source: Option<Json>, filter: Filter, index: nat, at: Place): (r: SlotStart)
    ensures at.onWorker ==> r.gets == 0
    decreases at.depth, 1
  {
    match StartIndex(store, source, index, at)
    case Replied(gets, reply) => SlotFrom(More(gets, StartOp(store, reply.payload.value, filter, at)))
    case Accepted(gets, stage) => Waiting(gets, AwaitIndex(stage.uri))
    case Refused(gets) => NotStarted(gets)
    case Lost(gets) => Waiting(gets, Dead)
    case OutOfDepth(gets) => Waiting(gets, Dead)
  }

  function StartSlots(store: Store, source: Option<Json>, filter: Filter, from: nat, size: nat, at: Place): (starts: seq<SlotStart>)
    ensures |starts| == if from < size then size - from else 0
    ensures at.onWorker ==> GetsOf(starts) == 0
    decreases at.depth, 2, size - from
  {
    if from >= size then []
    else [StartSlot(store, source, filter, from, at)] + StartSlots(store, source, filter, from + 1, size, at)
  }

  // -------------------------------------------------------------------- replies

  /** What the worker reports for a GET: the document, or a failure without a payload. */
  function Response(store: Store, uri: string): Reply {
    if uri in store then Reply(true, 200, Some(store[uri])) else Reply(false, 404, None)
  }

  datatype Progress = Working(stage: Stage) | Finished(reply: Reply)

  /** `position` picks one outstanding request: the slot numbers on the way to its leaf. */
  predicate Outstanding(stage: Stage, position: seq<nat>)
    decreases stage
  {
    match stage
    case AwaitDocument(_) => position == []
    case AwaitProperty(_, _, _) => position == []
    case AwaitAll(_, _, slots) =>
      && position != [] && position[0] < |slots|
      && match slots[position[0]]
         case AwaitIndex(_) => |position| == 1
         case AwaitResult(inner) => Outstanding(inner, position[1..])
         case _ => false
  }

  /** A slot has been counted by its callback. */
  function CountSlot(filter: Filter, context: Context, slots: seq<SlotState>, i: nat, kept: Option<Json>): Progress
    requires i < |slots|
  {
    var context' := Count(context, kept);
    if context'.left == 0 then Finished(Finish(context'))
    else Working(AwaitAll(filter, context', slots[i := Counted]))
  }

  function PutSlot(filter: Filter, context: Context, slots: seq<SlotState>, i: nat, start: SlotStart): Progress
    requires i < |slots|
  {
    match start
    case Waiting(_, slot) => Working(AwaitAll(filter, context, slots[i := slot]))
    case Done(_, kept) => CountSlot(filter, context, slots, i, kept)
    case NotStarted(_) => CountSlot(filter, context, slots, i, None)
  }

  /** What the worker starts for an element that has arrived, or not. */
  function SlotAfter(store: Store, element: Option<Json>, filter: Filter, depth: nat): (r: SlotStart)
    ensures r.gets == 0
  {
    if element.Some? then SlotFrom(StartOp(store, element.value, filter, Place(true, depth))) else Done(0, None)
  }

  /** The worker answers the request at `position`; everything up to the next wait runs. */
  function Answer(store: Store, stage: Stage, position: seq<nat>, depth: nat): Progress
    requires Outstanding(stage, position)
    decreases stage
  {
    match stage
    case AwaitDocument(uri) => Finished(Response(store, uri))
    case AwaitProperty(payload, filter, uri) => Finished(GotProperty(payload, filter, Response(store, uri)))
    case AwaitAll(filter, context, slots) =>
      var i := position[0];
      match slots[i]
      case AwaitIndex(uri) =>
        var element := Keeps(Response(store, uri));
        PutSlot(filter, context, slots, i, SlotAfter(store, element, filter, depth))
      case AwaitResult(inner) =>
        (match Answer(store, inner, position[1..], depth)
         case Working(inner') => Working(AwaitAll(filter, context, slots[i := AwaitResult(inner')]))
         case Finished(reply) => CountSlot(filter, context, slots, i, Keeps(reply)))
  }

  // ---------------------------------------------------------------------- paths

  /** A walk, with the blocking requests its starting calls have made. */
  datatype Walk =
    | Rejected(gets: nat)                              // getPayloadForPathAsync returned false
    | Walking(gets: nat, stage: Stage, rest: Path)     // one accepted stage, the steps behind it
    | Delivered(gets: nat, reply: Reply)               // the user callback has run
    | Vanished(gets: nat)                              // accepted, but the user callback never runs

  function MoreWalk(gets: nat, walk: Walk): Walk {
    walk.(gets := gets + walk.gets)
  }

  /** The steps whose evaluation with callbacks is modelled. */
  predicate IsQuery(step: Step) {
    step.Name? || step.Index? || IsFilter(step)
  }

  /** A filter by a property. */
  predicate IsFilter(step: Step) {
    step.Compare? || step.Exists? || step.Malformed?
  }

  predicate IsQueryPath(path: Path) {
    forall i :: 0 <= i < |path| ==> IsQuery(path[i])
  }

  function StartStep(store: Store, json: Json, step: Step, at: Place): (r: Started)
    requires IsQuery(step)
    ensures at.onWorker ==> r.gets == 0
  {
    match step
    case Name(name) => StartName(json, name)
    case Index(index) => StartIndex(store, Some(json), index, at)
    case _ => StartOp(store, json, FilterOf(step), at)
  }

  /** `getPayloadForPathAsync`. */
  function StartPath(store: Store, payload: Option<Json>, path: Path, at: Place): (walk: Walk)
    requires IsQueryPath(path)
    ensures at.onWorker ==> walk.gets == 0
    decreases |path|, 0
  {
    if payload.None? || path == [] then Rejected(0)
    else Handed(store, StartStep(store, payload.value, path[0], at), path[1..], at)
  }

  /** What comes of a started step is handed to `gotNextRedPath`. */
  function Handed(store: Store, started: Started, rest: Path, at: Place): (walk: Walk)
    requires IsQueryPath(rest)
    ensures at.onWorker && started.gets == 0 ==> walk.gets == 0
    decreases |rest|, 2
  {
    match started
    case Refused(gets) => Rejected(gets)
    case Replied(gets, reply) => MoreWalk(gets, GotNext(store, reply, rest, at))
    case Accepted(gets, stage) => Walking(gets, stage, rest)
    case Lost(gets) => Vanished(gets)
    case OutOfDepth(gets) => Vanished(gets)
  }

  /** `gotNextRedPath`, on the thread that calls it back. */
  function GotNext(store: Store, reply: Reply, rest: Path, at: Place): (walk: Walk)
    requires IsQueryPath(rest)
    ensures at.onWorker ==> walk.gets == 0
    decreases |rest|, 1
  {
    if !reply.success || reply.code >= 400 || rest == [] then Delivered(0, reply)
    else
      var next := StartPath(store, reply.payload, rest, at);
      if next.Rejected? then Delivered(next.gets, Reply(false, NO_CODE, None)) else next
  }

  predicate CanAnswer(walk: Walk, position: seq<nat>) {
    walk.Walking? && IsQueryPath(walk.rest) && Outstanding(walk.stage, position)
  }

  /** A request of the walk is still in the worker's queue. */
  ghost predicate CanMoveOn(walk: Walk) {
    exists position :: CanAnswer(walk, position)
  }

  /** What a walk makes of the progress of its stage; the callback runs on the worker. */
  function Progressed(store: Store, walk: Walk, progress: Progress, depth: nat): Walk
    requires walk.Walking? && IsQueryPath(walk.rest)
  {
    match progress
    case Working(stage) => Walking(walk.gets, stage, walk.rest)
    case Finished(reply) => MoreWalk(walk.gets, GotNext(store, reply, walk.rest, Place(true, depth)))
  }

  /** The worker answers one request of the walk. */
  function AnswerWalk(store: Store, walk: Walk, position: seq<nat>, depth: nat): Walk
    requires CanAnswer(walk, position)
  {
    Progressed(store, walk, Answer(store, walk.stage, position, depth), depth)
  }

  /** `order` answers one outstanding request after another. */
  ghost predicate IsRun(store: Store, walk: Walk, order: seq<seq<nat>>, depth: nat)
    decreases |order|
  {
    order == [] || (CanAnswer(walk, order[0]) && IsRun(store, AnswerWalk(store, walk, order[0], depth), order[1..], depth))
  }

  ghost function AfterRun(store: Store, walk: Walk, order: seq<seq<nat>>, depth: nat): Walk
    requires IsRun(store, walk, order, depth)
    decreases |order|
  {
    if order == [] then walk else AfterRun(store, AnswerWalk(store, walk, order[0], depth), order[1..], depth)
  }
}
