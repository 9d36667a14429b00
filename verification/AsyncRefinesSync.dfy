/** The callback-driven evaluator against the blocking one: every order of replies leads to
    the answer of the blocking walk, after exactly as many requests as that walk makes. */
module AsyncRefinesSync {
  import opened Wrappers
  import opened Json
  import opened DottedLookup
  import opened RedPath
  import opened Evaluate
  import opened AsyncEvaluate

  // --------------------------------------------------- results up to member order

  /** A result with the order of filter results forgotten, at every nesting. */
  datatype Bag = One(json: Json) | Many(parts: multiset<Bag>)

  predicate IsMade(json: Json) {
    && json.Obj? && |json.members| == 2
    && json.members[0].key == COUNT && json.members[1].key == MEMBERS
    && json.members[1].value.Arr? && |json.members[1].value.items| >= 2
    && json.members[0].value == Int(|json.members[1].value.items|)
  }

  function Canon(json: Json): Bag
    decreases json
  {
    if IsMade(json) then Many(CanonAll(json.members[1].value.items)) else One(json)
  }

  function CanonAll(items: seq<Json>): multiset<Bag>
    decreases items
  {
    if items == [] then multiset{} else multiset{Canon(items[0])} + CanonAll(items[1..])
  }

  function CanonOf(found: Option<Json>): Option<Bag> {
    if found.Some? then Some(Canon(found.value)) else None
  }

  /** Same answer, members of a made collection in any order. */
  predicate SameAnswer(a: Json, b: Json) {
    Canon(a) == Canon(b)
  }

  function BagOf(kept: Option<Json>): multiset<Bag> {
    if kept.Some? then multiset{Canon(kept.value)} else multiset{}
  }

  ghost function TheOne(parts: multiset<Bag>): (part: Bag)
    requires |parts| == 1
    ensures part in parts
  {
    var part :| part in parts;
    part
  }

  /** What a filter answers for a bag of kept payloads. */
  ghost function CombineBag(parts: multiset<Bag>): Option<Bag> {
    if |parts| == 0 then None
    else if |parts| == 1 then Some(TheOne(parts))
    else Some(Many(parts))
  }

  lemma CanonAllSize(items: seq<Json>)
    ensures |CanonAll(items)| == |items|
  {
  }

  lemma {:induction false} CanonAllAppend(items: seq<Json>, more: seq<Json>)
    ensures CanonAll(items + more) == CanonAll(items) + CanonAll(more)
  {
    if items == [] {
      assert items + more == more;
    } else {
      assert (items + more)[1..] == items[1..] + more;
      CanonAllAppend(items[1..], more);
    }
  }

  lemma {:induction false} CanonAllOne(json: Json)
    ensures CanonAll([json]) == multiset{Canon(json)}
  {
    assert CanonAll([json]) == multiset{Canon(json)} + CanonAll([json][1..]);
  }

  lemma {:induction false} CanonAllCons(json: Json, items: seq<Json>)
    ensures CanonAll([json] + items) == multiset{Canon(json)} + CanonAll(items)
  {
    assert ([json] + items)[1..] == items;
  }

  lemma {:induction false} SingletonBag(part: Bag)
    ensures CombineBag(multiset{part}) == Some(part)
  {
    assert TheOne(multiset{part}) in multiset{part};
  }

  /** Combining payloads and combining their bags agree. */
  lemma {:induction false} CombineCanon(valid: seq<Json>)
    ensures CanonOf(Combine(valid)) == CombineBag(CanonAll(valid))
  {
    CanonAllSize(valid);
    if |valid| == 1 {
      assert valid == [valid[0]];
      CanonAllOne(valid[0]);
      SingletonBag(Canon(valid[0]));
    } else if |valid| >= 2 {
      var made := MakeCollection(valid);
      assert made.members[0] == Member(COUNT, Int(|valid|)) && made.members[1] == Member(MEMBERS, Arr(valid));
    }
  }

  // ------------------------------------------------------------------- conditions

  /** A filter property both evaluators resolve alike: without dots, or with dots but no
      empty segment. */
  predicate GoodProperty(prop: string) {
    '.' in prop ==> !HasEmptySegment(prop)
  }

  /** What is asked of one object where a call runs on the worker or, with less, where it does
      not: on the worker the members of a collection are at hand; and for a filter by a
      property the last member counted is there, and a dotted property name is not also a
      literal key. */
  ghost predicate SoundObject(store: Store, json: Json, prop: Option<string>, worker: bool)
    requires json.Obj?
  {
    && (worker && IsCollection(json) ==> !HasLinkedMembers(json))
    && (prop.Some? && IsCollection(json) && CollectionSize(json) > 0 ==> IsThere(store, json, CollectionSize(json) - 1))
    && (prop.Some? && '.' in prop.value ==> Get(Some(json), prop.value).None?)
  }

  /** An index step that may fetch linked members does not come back empty-handed. */
  ghost predicate IsThere(store: Store, json: Json, index: nat) {
    forall depth: nat :: !StartIndex(store, Some(json), index, Place(false, depth)).Refused?
  }

  ghost predicate Sound(store: Store, json: Json, prop: Option<string>, worker: bool)
    decreases json
  {
    match json
    case Arr(items) => forall i :: 0 <= i < |items| ==> Sound(store, items[i], prop, worker)
    case Obj(members) =>
      SoundObject(store, json, prop, worker) && forall i :: 0 <= i < |members| ==> Sound(store, members[i].value, prop, worker)
    case _ => true
  }

  /** Every document is an array or an object, which is all `json_loads` accepts, and sound for
      the worker, which may be the one to get it. */
  ghost predicate SoundStore(store: Store, prop: Option<string>) {
    forall uri :: uri in store ==> (store[uri].Arr? || store[uri].Obj?) && Sound(store, store[uri], prop, true)
  }

  /** What is sound for the worker is sound for every thread. */
  lemma {:induction false} SoundElsewhere(store: Store, json: Json, prop: Option<string>, worker: bool)
    requires Sound(store, json, prop, true)
    ensures Sound(store, json, prop, worker)
    decreases json
  {
    match json {
      case Arr(items) =>
        forall i | 0 <= i < |items| ensures Sound(store, items[i], prop, worker) {
          SoundElsewhere(store, items[i], prop, worker);
        }
      case Obj(members) =>
        forall i | 0 <= i < |members| ensures Sound(store, members[i].value, prop, worker) {
          SoundElsewhere(store, members[i].value, prop, worker);
        }
      case _ =>
    }
  }

  lemma {:induction false} SoundMember(store: Store, json: Json, prop: Option<string>, worker: bool, key: string)
    requires Sound(store, json, prop, worker) && Get(Some(json), key).Some?
    ensures Sound(store, Get(Some(json), key).value, prop, worker)
  {
    FindIsPart(json.members, key);
  }

  lemma {:induction false} SoundWrap(store: Store, json: Json, name: string, prop: Option<string>, worker: bool)
    requires Sound(store, json, prop, worker) && '.' !in name
    ensures Sound(store, Wrap(name, json), prop, worker)
  {
    if json.Str? {
      var wrapped := Wrap(name, json);
      assert wrapped.members == [Member(name, json)];
      assert Find(wrapped.members, COUNT) == Find(wrapped.members[1..], COUNT);
      assert '.' in COUNT by { assert COUNT[13] == '.'; }
      if prop.Some? && '.' in prop.value {
        assert Find(wrapped.members, prop.value) == Find(wrapped.members[1..], prop.value);
      }
    }
  }

  /** The members a thread fetches for a sound collection are those of the blocking
      evaluator, and sound. */
  lemma {:induction false} MembersFetched(store: Store, json: Json, prop: Option<string>, at: Place)
    requires SoundStore(store, prop) && Sound(store, json, prop, at.onWorker) && IsCollection(json)
    ensures var (members, gets) := FetchMembers(store, json, at);
            && (members, gets) == ByNodeName(store, Some(json), MEMBERS)
            && (members.Some? ==> Sound(store, members.value, prop, at.onWorker))
  {
    NoDotOneSegment(MEMBERS);
    var raw := Get(Some(json), MEMBERS);
    if raw.Some? {
      SoundMember(store, json, prop, at.onWorker, MEMBERS);
      match LinkOf(raw.value) {
        case Some(uri) =>
          if uri in store {
            SoundElsewhere(store, store[uri], prop, at.onWorker);
          }
        case None => SoundWrap(store, raw.value, MEMBERS, prop, at.onWorker);
      }
    }
  }

  // ---------------------------------------------------------------- starting calls

  /** A started document step agrees with what the blocking step found, and so do the
      requests, whoever makes them. */
  ghost predicate StartsAs(store: Store, started: Started, found: Option<Json>, gets: nat) {
    match started
    case Refused(made) => found.None? && gets == made
    case Replied(made, reply) => reply == Reply(true, 200, found) && found.Some? && gets == made
    case Accepted(made, stage) => stage.AwaitDocument? && found == Lookup(store, stage.uri) && gets == made + 1
    case Lost(_) => false
    case OutOfDepth(_) => false
  }

  lemma EntryStarts(store: Store, json: Json, index: nat, fuel: nat)
    requires !IsCollection(json) && fuel > 0
    ensures var r := ByIndex(store, Some(json), index, fuel);
            r.Value? && StartsAs(store, StartEntry(json, index), r.found, r.gets)
  {
  }

  /** Both index steps go on in the members. */
  lemma {:induction false} IndexInMembers(store: Store, json: Json, index: nat, at: Place, fuel: nat)
    requires IsCollection(json) && fuel > 0 && at.depth > 0
    ensures var (members, gets) := ByNodeName(store, Some(json), MEMBERS);
            ByIndex(store, Some(json), index, fuel) == Add(gets, ByIndex(store, members, index, fuel - 1))
    ensures var (members, gets) := FetchMembers(store, json, at);
            StartIndex(store, Some(json), index, at) == More(gets, StartIndex(store, members, index, Deeper(at)))
  {
  }

  /** More requests before the same outcome. */
  lemma StartsAfter(store: Store, started: Started, found: Option<Json>, gets: nat, more: nat)
    requires StartsAs(store, started, found, gets)
    ensures StartsAs(store, More(more, started), found, more + gets)
  {
  }

  /** An index step starts, refuses or asks for what the blocking step finds, on every
      thread, for a payload that is sound there. */
  lemma {:induction false} IndexStarts(store: Store, json: Option<Json>, prop: Option<string>, index: nat, at: Place, fuel: nat)
    requires SoundStore(store, prop) && (json.Some? ==> Sound(store, json.value, prop, at.onWorker))
    requires fuel <= at.depth && ByIndex(store, json, index, fuel).Value?
    ensures var r := ByIndex(store, json, index, fuel);
            StartsAs(store, StartIndex(store, json, index, at), r.found, r.gets)
    ensures var started := StartIndex(store, json, index, at);
            started.Replied? ==> Sound(store, started.reply.payload.value, prop, at.onWorker)
    decreases fuel
  {
    if json.Some? {
      if IsCollection(json.value) {
        MembersFetched(store, json.value, prop, at);
        var (members, gets) := FetchMembers(store, json.value, at);
        IndexInMembers(store, json.value, index, at, fuel);
        IndexStarts(store, members, prop, index, Deeper(at), fuel - 1);
      } else {
        EntryStarts(store, json.value, index, fuel);
      }
    }
  }

  /** Where nothing is linked it makes no difference which thread asks. */
  lemma {:induction false} SamePlace(store: Store, json: Option<Json>, prop: Option<string>, index: nat, depth: nat)
    requires SoundStore(store, prop) && (json.Some? ==> Sound(store, json.value, prop, true))
    ensures StartIndex(store, json, index, Place(true, depth)) == StartIndex(store, json, index, Place(false, depth))
    decreases depth
  {
    if json.Some? && IsCollection(json.value) && depth > 0 {
      MembersFetched(store, json.value, prop, Place(true, depth));
      var members := FetchMembers(store, json.value, Place(true, depth)).0;
      SamePlace(store, members, prop, index, depth - 1);
    }
  }

  /** A name without a dot that the blocking step resolves is resolved alike. */
  lemma NameStarts(store: Store, prop: Option<string>, json: Json, name: string)
    requires SoundStore(store, prop) && '.' !in name
    requires Get(Some(json), name).Some?
    ensures var (found, gets) := ByNodeName(store, Some(json), name);
            StartsAs(store, StartName(json, name), found, gets)
  {
  }

  /** The property of a plain payload: both evaluators look at the same value. */
  lemma {:induction false} PropertyStarts(store: Store, json: Json, prop: string, worker: bool)
    requires SoundStore(store, Some(prop)) && GoodProperty(prop) && Sound(store, json, Some(prop), worker)
    requires !IsCollection(json) && !json.Arr?
    ensures var (found, gets) := ByNodeName(store, Some(json), prop);
            StartsAs(store, StartName(json, prop), found, gets)
  {
    assert NamedValue(json, prop) == ByPath(Some(json), prop) by {
      PropertyAlike(store, json, prop, worker);
    }
  }

  lemma {:induction false} PropertyAlike(store: Store, json: Json, prop: string, worker: bool)
    requires GoodProperty(prop) && Sound(store, json, Some(prop), worker) && !IsCollection(json) && !json.Arr?
    ensures NamedValue(json, prop) == ByPath(Some(json), prop)
  {
    if '.' in prop {
      assert ByPath(Some(json), prop) == Embedded(Some(json), prop) by {
        LookupsAgreeIff(prop);
      }
    }
  }

  // ------------------------------------------------------- what a stage still owes

  /** The answer an accepted call will give, and the requests still to be made for it. */
  datatype Due = Unknown | Due(answer: Option<Bag>, gets: nat)

  datatype DueSum = UnknownSum | DueSum(parts: multiset<Bag>, gets: nat)

  ghost function Owed(store: Store, stage: Stage, fuel: nat): Due
    decreases stage
  {
    match stage
    case AwaitDocument(uri) => Due(CanonOf(Lookup(store, uri)), 1)
    case AwaitProperty(payload, filter, uri) =>
      Due(CanonOf(Keeps(GotProperty(payload, filter, Response(store, uri)))), 1)
    case AwaitAll(filter, context, slots) =>
      match OwedSlots(store, filter, slots, fuel)
      case UnknownSum => Unknown
      case DueSum(parts, gets) => Due(CombineBag(CanonAll(context.payloads) + parts), gets)
  }

  ghost function OwedSlot(store: Store, filter: Filter, slot: SlotState, fuel: nat): DueSum
    decreases slot
  {
    match slot
    case Counted => DueSum(multiset{}, 0)
    case AwaitIndex(uri) =>
      (match OpResult(store, Lookup(store, uri), filter, fuel)
       case Diverges => UnknownSum
       case Value(found, gets) => DueSum(BagOf(found), 1 + gets))
    case AwaitResult(inner) => AsSum(Owed(store, inner, fuel))
    case Dead => UnknownSum
  }

  ghost function AsSum(due: Due): DueSum {
    match due
    case Unknown => UnknownSum
    case Due(answer, gets) => DueSum(if answer.Some? then multiset{answer.value} else multiset{}, gets)
  }

  ghost function Plus(a: DueSum, b: DueSum): DueSum {
    if a.UnknownSum? || b.UnknownSum? then UnknownSum else DueSum(a.parts + b.parts, a.gets + b.gets)
  }

  const NOTHING := DueSum(multiset{}, 0)

  ghost function SumUp(sums: seq<DueSum>): DueSum {
    if sums == [] then NOTHING else Plus(sums[0], SumUp(sums[1..]))
  }

  ghost function OwedEach(store: Store, filter: Filter, slots: seq<SlotState>, fuel: nat): seq<DueSum>
    decreases slots, 0
  {
    seq(|slots|, i requires 0 <= i < |slots| => OwedSlot(store, filter, slots[i], fuel))
  }

  ghost function OwedSlots(store: Store, filter: Filter, slots: seq<SlotState>, fuel: nat): DueSum
    decreases slots, 1
  {
    SumUp(OwedEach(store, filter, slots, fuel))
  }

  lemma {:induction false} OwedUnfold(store: Store, filter: Filter, slots: seq<SlotState>, fuel: nat)
    ensures OwedSlots(store, filter, slots, fuel) ==
            if slots == [] then NOTHING
            else Plus(OwedSlot(store, filter, slots[0], fuel), OwedSlots(store, filter, slots[1..], fuel))
  {
    if slots != [] {
      assert OwedEach(store, filter, slots, fuel)[1..] == OwedEach(store, filter, slots[1..], fuel);
    }
  }

  lemma {:induction false} SumSplit(sums: seq<DueSum>, i: nat)
    requires i < |sums|
    ensures SumUp(sums) == Plus(sums[i], SumUp(sums[i := NOTHING]))
    decreases |sums|
  {
    var rest := sums[i := NOTHING];
    if i == 0 {
      assert rest[1..] == sums[1..];
      PlusNothing(SumUp(sums[1..]));
    } else {
      SumSplit(sums[1..], i - 1);
      assert rest[1..] == sums[1..][i - 1 := NOTHING];
      PlusSwap(sums[0], sums[i], SumUp(rest[1..]));
    }
  }

  function Open(slots: seq<SlotState>): nat {
    if slots == [] then 0 else (if slots[0].Counted? then 0 else 1) + Open(slots[1..])
  }

  lemma {:induction false} OpenSlot(slots: seq<SlotState>) returns (i: nat)
    requires Open(slots) > 0
    ensures i < |slots| && !slots[i].Counted?
  {
    if !slots[0].Counted? {
      i := 0;
    } else {
      i := OpenSlot(slots[1..]);
      i := i + 1;
    }
  }

  /** The latch invariant of an accepted filter: `left` is the number of open slots, and
      every store into `payloads` stays within `count`. */
  predicate Latched(stage: Stage, filter: Filter)
    decreases stage
  {
    match stage
    case AwaitDocument(_) => false
    case AwaitProperty(_, f, _) => f == filter
    case AwaitAll(f, context, slots) =>
      && f == filter
      && context.left == Open(slots) > 0
      && context.count == |slots|
      && |context.payloads| + context.left <= context.count
      && forall i :: 0 <= i < |slots| && slots[i].AwaitResult? ==> Latched(slots[i].stage, filter)
  }

  // ------------------------------------------------------------- starting a fan-out

  /** What a slot is worth as it comes out of the loop, blocking requests included. */
  ghost function StartSum(store: Store, filter: Filter, start: SlotStart, fuel: nat): DueSum {
    match start
    case NotStarted(gets) => DueSum(multiset{}, gets)
    case Done(gets, kept) => DueSum(BagOf(kept), gets)
    case Waiting(gets, slot) => Plus(DueSum(multiset{}, gets), OwedSlot(store, filter, slot, fuel))
  }

  ghost function StartsSum(store: Store, filter: Filter, starts: seq<SlotStart>, fuel: nat): DueSum {
    SumUp(StartEach(store, filter, starts, fuel))
  }

  ghost function StartEach(store: Store, filter: Filter, starts: seq<SlotStart>, fuel: nat): seq<DueSum> {
    seq(|starts|, i requires 0 <= i < |starts| => StartSum(store, filter, starts[i], fuel))
  }

  predicate GoodSlot(slot: SlotState, filter: Filter) {
    slot.AwaitIndex? || (slot.AwaitResult? && Latched(slot.stage, filter))
  }

  predicate GoodStart(start: SlotStart, filter: Filter) {
    start.Waiting? ==> GoodSlot(start.slot, filter)
  }

  predicate AllGood(starts: seq<SlotStart>, filter: Filter) {
    forall i :: 0 <= i < |starts| ==> GoodStart(starts[i], filter)
  }

  /** A started filter agrees with the answer and the requests of the blocking one. */
  ghost predicate OpAs(store: Store, filter: Filter, started: Started, found: Option<Json>, gets: nat, fuel: nat) {
    match started
    case Refused(made) => found.None? && gets == made
    case Replied(made, reply) => CanonOf(Keeps(reply)) == CanonOf(found) && gets == made
    case Accepted(made, stage) => Latched(stage, filter) && made <= gets && Owed(store, stage, fuel) == Due(CanonOf(found), gets - made)
    case Lost(_) => false
    case OutOfDepth(_) => false
  }

  function KeptOf(starts: seq<SlotStart>): seq<Json> {
    if starts == [] then []
    else KeptByStart(starts[0]) + KeptOf(starts[1..])
  }

  function Quiet(starts: seq<SlotStart>): nat {
    if starts == [] then 0 else (if starts[0].Waiting? then 0 else 1) + Quiet(starts[1..])
  }

  lemma QuietBound(starts: seq<SlotStart>)
    ensures Quiet(starts) + |KeptOf(starts)| <= 2 * |starts| && |KeptOf(starts)| <= Quiet(starts) <= |starts|
  {
  }

  lemma {:induction false} AfterLoopIs(context: Context, starts: seq<SlotStart>)
    requires context.left >= |starts|
    ensures Quiet(starts) <= |starts|
    ensures AfterLoop(context, starts) ==
            Context(context.count, context.left - Quiet(starts), context.payloads + KeptOf(starts))
    decreases |starts|
  {
    QuietBound(starts);
    if starts == [] {
      assert context.payloads + [] == context.payloads;
    } else {
      QuietBound(starts[1..]);
      var next := match starts[0]
                  case NotStarted(_) => Count(context, None)
                  case Done(_, kept) => Count(context, kept)
                  case Waiting(_, _) => context;
      AfterLoopIs(next, starts[1..]);
      assert next.payloads + KeptOf(starts[1..]) == context.payloads + KeptOf(starts);
    }
  }

  lemma SlotsOfTail(starts: seq<SlotStart>)
    requires starts != []
    ensures SlotsOf(starts)[0] == SlotOf(starts[0]) && SlotsOf(starts)[1..] == SlotsOf(starts[1..])
  {
  }

  function KeptByStart(start: SlotStart): seq<Json> {
    if start.Done? && start.kept.Some? then [start.kept.value] else []
  }

  lemma {:induction false} KeptBag(kept: Option<Json>)
    ensures CanonAll(if kept.Some? then [kept.value] else []) == BagOf(kept)
  {
    if kept.Some? {
      CanonAllOne(kept.value);
    }
  }

  lemma {:induction false} CountedOwesNothing(store: Store, filter: Filter, fuel: nat)
    ensures OwedSlot(store, filter, Counted, fuel) == NOTHING
  {
  }

  function KeptIn(start: SlotStart): Option<Json> {
    if start.Done? then start.kept else None
  }

  /** What a slot is worth is what it has stored and asked for already and what it owes. */
  lemma {:induction false} StartSplits(store: Store, filter: Filter, start: SlotStart, fuel: nat)
    ensures StartSum(store, filter, start, fuel) ==
            Plus(DueSum(BagOf(KeptIn(start)), start.gets), OwedSlot(store, filter, SlotOf(start), fuel))
  {
    if !start.Waiting? {
      assert OwedSlot(store, filter, SlotOf(start), fuel) == NOTHING by {
        CountedOwesNothing(store, filter, fuel);
      }
      PlusNothing(DueSum(BagOf(KeptIn(start)), start.gets));
    }
  }

  function StoredBy(starts: seq<SlotStart>): multiset<Bag> {
    if starts == [] then multiset{} else BagOf(KeptIn(starts[0])) + StoredBy(starts[1..])
  }

  lemma {:induction false} StoredIsKept(starts: seq<SlotStart>)
    ensures CanonAll(KeptOf(starts)) == StoredBy(starts)
    decreases |starts|
  {
    if starts != [] {
      StoredIsKept(starts[1..]);
      KeptBag(KeptIn(starts[0]));
      CanonAllAppend(KeptByStart(starts[0]), KeptOf(starts[1..]));
    }
  }

  lemma PlusNothing(a: DueSum)
    ensures Plus(a, DueSum(multiset{}, 0)) == a && Plus(DueSum(multiset{}, 0), a) == a
  {
  }

  lemma PlusRegroups(a: DueSum, b: DueSum, c: DueSum, d: DueSum)
    ensures Plus(Plus(a, b), Plus(c, d)) == Plus(Plus(a, c), Plus(b, d))
  {
  }

  /** Sums add up entry by entry. */
  lemma {:induction false} SumOfSums(sums: seq<DueSum>, a: seq<DueSum>, b: seq<DueSum>)
    requires |a| == |b| == |sums| && forall i :: 0 <= i < |sums| ==> sums[i] == Plus(a[i], b[i])
    ensures SumUp(sums) == Plus(SumUp(a), SumUp(b))
    decreases |sums|
  {
    if sums == [] {
      PlusNothing(NOTHING);
    } else {
      SumOfSums(sums[1..], a[1..], b[1..]);
      PlusRegroups(a[0], b[0], SumUp(a[1..]), SumUp(b[1..]));
    }
  }

  /** What the loop has stored and asked for, slot by slot. */
  function StoredEach(starts: seq<SlotStart>): seq<DueSum> {
    seq(|starts|, i requires 0 <= i < |starts| => DueSum(BagOf(KeptIn(starts[i])), starts[i].gets))
  }

  lemma {:induction false} StoredTail(starts: seq<SlotStart>)
    requires starts != []
    ensures var each := StoredEach(starts);
            each != [] && each[0] == DueSum(BagOf(KeptIn(starts[0])), starts[0].gets) && each[1..] == StoredEach(starts[1..])
  {
  }

  lemma {:induction false} SumUnfold(sums: seq<DueSum>, first: DueSum, later: DueSum)
    requires sums != [] && sums[0] == first && SumUp(sums[1..]) == later
    ensures SumUp(sums) == Plus(first, later)
  {
  }

  lemma {:induction false} StoredSum(starts: seq<SlotStart>)
    ensures SumUp(StoredEach(starts)) == DueSum(StoredBy(starts), GetsOf(starts))
    decreases |starts|
  {
    if starts != [] {
      StoredTail(starts);
      StoredSum(starts[1..]);
      SumUnfold(StoredEach(starts), DueSum(BagOf(KeptIn(starts[0])), starts[0].gets), DueSum(StoredBy(starts[1..]), GetsOf(starts[1..])));
    }
  }

  /** The loop loses nothing: what is stored and what is still owed make up the whole. */
  lemma {:induction false} LoopConserves(store: Store, filter: Filter, starts: seq<SlotStart>, fuel: nat)
    ensures StartsSum(store, filter, starts, fuel) ==
            Plus(DueSum(CanonAll(KeptOf(starts)), GetsOf(starts)), OwedSlots(store, filter, SlotsOf(starts), fuel))
  {
    StoredIsKept(starts);
    StoredSum(starts);
    var sums, stored, owed := StartEach(store, filter, starts, fuel), StoredEach(starts), OwedEach(store, filter, SlotsOf(starts), fuel);
    forall i | 0 <= i < |sums| ensures sums[i] == Plus(stored[i], owed[i]) {
      StartSplits(store, filter, starts[i], fuel);
    }
    SumOfSums(sums, stored, owed);
  }

  lemma {:induction false} OpenAfterLoop(filter: Filter, starts: seq<SlotStart>)
    requires AllGood(starts, filter)
    ensures Open(SlotsOf(starts)) == |starts| - Quiet(starts)
    decreases |starts|
  {
    if starts != [] {
      SlotsOfTail(starts);
      OpenAfterLoop(filter, starts[1..]);
    }
  }

  lemma {:induction false} AllCountedOwesNothing(store: Store, filter: Filter, slots: seq<SlotState>, fuel: nat)
    requires Open(slots) == 0
    ensures OwedSlots(store, filter, slots, fuel) == NOTHING
    decreases |slots|
  {
    OwedUnfold(store, filter, slots, fuel);
    if slots != [] {
      AllCountedOwesNothing(store, filter, slots[1..], fuel);
      PlusNothing(NOTHING);
    }
  }

  lemma {:induction false} NothingStarted(store: Store, filter: Filter, starts: seq<SlotStart>, fuel: nat)
    requires forall i :: 0 <= i < |starts| ==> starts[i].NotStarted?
    ensures StartsSum(store, filter, starts, fuel) == DueSum(multiset{}, GetsOf(starts))
    decreases |starts|
  {
    if starts != [] {
      assert StartEach(store, filter, starts, fuel)[1..] == StartEach(store, filter, starts[1..], fuel);
      NothingStarted(store, filter, starts[1..], fuel);
    }
  }

  lemma SlotsOfGood(filter: Filter, starts: seq<SlotStart>)
    requires AllGood(starts, filter)
    ensures var slots := SlotsOf(starts);
            forall i :: 0 <= i < |slots| && slots[i].AwaitResult? ==> Latched(slots[i].stage, filter)
  {
  }

  lemma {:induction false} LaunchWaits(store: Store, filter: Filter, starts: seq<SlotStart>, valid: seq<Json>, gets: nat, fuel: nat)
    requires AllGood(starts, filter)
    requires StartsSum(store, filter, starts, fuel) == DueSum(CanonAll(valid), gets)
    requires Quiet(starts) < |starts|
    ensures var stage := AwaitAll(filter, Context(|starts|, |starts| - Quiet(starts), KeptOf(starts)), SlotsOf(starts));
            Latched(stage, filter) && GetsOf(starts) <= gets && Owed(store, stage, fuel) == Due(CanonOf(Combine(valid)), gets - GetsOf(starts))
  {
    QuietBound(starts);
    OpenAfterLoop(filter, starts);
    SlotsOfGood(filter, starts);
    LoopConserves(store, filter, starts, fuel);
    CombineCanon(valid);
  }

  lemma NothingOwed(kept: multiset<Bag>, made: nat)
    ensures Plus(DueSum(kept, made), DueSum(multiset{}, 0)) == DueSum(kept, made)
  {
  }

  lemma {:induction false} LaunchAnswers(store: Store, filter: Filter, starts: seq<SlotStart>, valid: seq<Json>, gets: nat, fuel: nat)
    requires AllGood(starts, filter)
    requires StartsSum(store, filter, starts, fuel) == DueSum(CanonAll(valid), gets)
    requires Quiet(starts) == |starts|
    ensures CanonOf(Combine(KeptOf(starts))) == CanonOf(Combine(valid)) && gets == GetsOf(starts)
  {
    assert StartsSum(store, filter, starts, fuel) == DueSum(CanonAll(KeptOf(starts)), GetsOf(starts)) by {
      OpenAfterLoop(filter, starts);
      AllCountedOwesNothing(store, filter, SlotsOf(starts), fuel);
      LoopConserves(store, filter, starts, fuel);
      NothingOwed(CanonAll(KeptOf(starts)), GetsOf(starts));
    }
    CombineCanon(valid);
    CombineCanon(KeptOf(starts));
  }

  lemma {:induction false} LaunchRefuses(store: Store, filter: Filter, starts: seq<SlotStart>, valid: seq<Json>, gets: nat, fuel: nat)
    requires StartsSum(store, filter, starts, fuel) == DueSum(CanonAll(valid), gets)
    requires forall i :: 0 <= i < |starts| ==> starts[i].NotStarted?
    ensures valid == [] && gets == GetsOf(starts)
  {
    NothingStarted(store, filter, starts, fuel);
    CanonAllSize(valid);
  }

  /** A launched fan-out owes exactly the answer the blocking filter combines. */
  lemma {:induction false} LaunchOwes(store: Store, filter: Filter, starts: seq<SlotStart>, valid: seq<Json>, gets: nat, fuel: nat)
    requires AllGood(starts, filter)
    requires StartsSum(store, filter, starts, fuel) == DueSum(CanonAll(valid), gets)
    requires starts != [] ==> !starts[|starts| - 1].NotStarted?
    ensures OpAs(store, filter, Launch(filter, starts), Combine(valid), gets, fuel)
  {
    AfterLoopIs(Context(|starts|, |starts|, []), starts);
    assert [] + KeptOf(starts) == KeptOf(starts);
    if forall i :: 0 <= i < |starts| ==> starts[i].NotStarted? {
      LaunchRefuses(store, filter, starts, valid, gets, fuel);
    } else if Quiet(starts) < |starts| {
      LaunchWaits(store, filter, starts, valid, gets, fuel);
    } else {
      LaunchAnswers(store, filter, starts, valid, gets, fuel);
    }
  }

  /** The filter applied to an element that came with the starting loop. */
  lemma {:induction false} ElementStarts(store: Store, filter: Filter, started: Started, found: Option<Json>, gets: nat, deep: nat)
    requires OpAs(store, filter, started, found, gets, deep)
    ensures var start := SlotFrom(started);
            GoodStart(start, filter) && StartSum(store, filter, start, deep) == DueSum(BagOf(found), gets)
  {
  }

  /** More requests before the same outcome. */
  lemma {:induction false} OpAfter(store: Store, filter: Filter, started: Started, found: Option<Json>, gets: nat, more: nat, deep: nat)
    requires OpAs(store, filter, started, found, gets, deep)
    ensures OpAs(store, filter, More(more, started), found, more + gets, deep)
  {
  }

  /** A slot comes out of the loop worth what the blocking evaluator makes of it. */
  ghost predicate SlotAs(store: Store, filter: Filter, start: SlotStart, r: Eval, deep: nat) {
    r.Value? && GoodStart(start, filter) && StartSum(store, filter, start, deep) == DueSum(BagOf(r.found), r.gets)
  }

  lemma {:induction false} SlotStarts(store: Store, source: Option<Json>, filter: Filter, index: nat, at: Place, fuel: nat, deep: nat)
    requires SoundStore(store, Some(filter.prop)) && GoodProperty(filter.prop) && (source.Some? ==> Sound(store, source.value, Some(filter.prop), at.onWorker))
    requires fuel <= deep && fuel <= at.depth && Slot(store, source, index, filter, fuel).Value? && !filter.check.Unnamed?
    ensures SlotAs(store, filter, StartSlot(store, source, filter, index, at), Slot(store, source, index, filter, fuel), deep)
    decreases fuel, 2
  {
    IndexStarts(store, source, Some(filter.prop), index, at, fuel);
    var started := StartIndex(store, source, index, at);
    if started.Replied? {
      OpStarts(store, started.reply.payload.value, filter, at, fuel, deep);
      RepliedSlot(store, source, filter, index, at, fuel, deep);
    } else {
      OtherSlot(store, source, filter, index, at, fuel, deep);
    }
  }

  lemma {:induction false} RepliedSlot(store: Store, source: Option<Json>, filter: Filter, index: nat, at: Place, fuel: nat, deep: nat)
    requires var started, element := StartIndex(store, source, index, at), ByIndex(store, source, index, fuel);
             && started.Replied? && element == Value(started.reply.payload, started.gets)
             && var r := OpResult(store, element.found, filter, fuel);
                r.Value? && OpAs(store, filter, StartOp(store, started.reply.payload.value, filter, at), r.found, r.gets, deep)
    ensures SlotAs(store, filter, StartSlot(store, source, filter, index, at), Slot(store, source, index, filter, fuel), deep)
  {
    var started := StartIndex(store, source, index, at);
    var r := OpResult(store, started.reply.payload, filter, fuel);
    ElementSlot(store, filter, started.gets, StartOp(store, started.reply.payload.value, filter, at), r.found, r.gets, deep);
  }

  /** The element has been asked for, or there is none. */
  lemma {:induction false} OtherSlot(store: Store, source: Option<Json>, filter: Filter, index: nat, at: Place, fuel: nat, deep: nat)
    requires fuel <= deep && Slot(store, source, index, filter, fuel).Value? && !StartIndex(store, source, index, at).Replied?
    requires var element := ByIndex(store, source, index, fuel);
             element.Value? && StartsAs(store, StartIndex(store, source, index, at), element.found, element.gets)
    ensures SlotAs(store, filter, StartSlot(store, source, filter, index, at), Slot(store, source, index, filter, fuel), deep)
  {
    var started, element := StartIndex(store, source, index, at), ByIndex(store, source, index, fuel);
    if started.Accepted? {
      OpResultDeeper(store, element.found, filter, fuel, deep);
      AwaitedIsWorth(store, filter, started.stage.uri, started.gets, deep);
    } else {
      assert element.found.None?;
    }
  }

  lemma {:induction false} ElementSlot(store: Store, filter: Filter, made: nat, started: Started, found: Option<Json>, gets: nat, deep: nat)
    requires OpAs(store, filter, started, found, gets, deep)
    ensures var start := SlotFrom(More(made, started));
            GoodStart(start, filter) && StartSum(store, filter, start, deep) == DueSum(BagOf(found), made + gets)
  {
    OpAfter(store, filter, started, found, gets, made, deep);
    ElementStarts(store, filter, More(made, started), found, made + gets, deep);
  }

  lemma {:induction false} AwaitedIsWorth(store: Store, filter: Filter, uri: string, made: nat, deep: nat)
    requires OpResult(store, Lookup(store, uri), filter, deep).Value?
    ensures var r := OpResult(store, Lookup(store, uri), filter, deep);
            StartSum(store, filter, Waiting(made, AwaitIndex(uri)), deep) == DueSum(BagOf(r.found), made + 1 + r.gets)
  {
  }

  lemma {:induction false} KeepSum(slot: Eval, later: Kept)
    requires slot.Value? && later.Kept?
    ensures Plus(DueSum(BagOf(slot.found), slot.gets), DueSum(CanonAll(later.valid), later.gets)) ==
            DueSum(CanonAll(Keep(slot, later).valid), Keep(slot, later).gets)
  {
    if slot.found.Some? {
      CanonAllCons(slot.found.value, later.valid);
    } else {
      assert [] + later.valid == later.valid;
    }
  }

  lemma {:induction false} ConsStarts(store: Store, filter: Filter, start: SlotStart, later: seq<SlotStart>, deep: nat)
    ensures StartsSum(store, filter, [start] + later, deep) ==
            Plus(StartSum(store, filter, start, deep), StartsSum(store, filter, later, deep))
  {
    assert StartEach(store, filter, [start] + later, deep) == [StartSum(store, filter, start, deep)] + StartEach(store, filter, later, deep);
  }

  lemma {:induction false} SlotsStart(store: Store, source: Option<Json>, filter: Filter, from: nat, size: nat, at: Place, fuel: nat, deep: nat)
    requires SoundStore(store, Some(filter.prop)) && GoodProperty(filter.prop) && (source.Some? ==> Sound(store, source.value, Some(filter.prop), at.onWorker))
    requires fuel <= deep && fuel <= at.depth && Slots(store, source, from, size, filter, fuel).Kept? && !filter.check.Unnamed?
    ensures var r := Slots(store, source, from, size, filter, fuel);
            StartsSum(store, filter, StartSlots(store, source, filter, from, size, at), deep) == DueSum(CanonAll(r.valid), r.gets)
    ensures AllGood(StartSlots(store, source, filter, from, size, at), filter)
    decreases fuel, 3, size - from
  {
    if from < size {
      var first, later := StartSlot(store, source, filter, from, at), StartSlots(store, source, filter, from + 1, size, at);
      SlotStarts(store, source, filter, from, at, fuel, deep);
      SlotsStart(store, source, filter, from + 1, size, at, fuel, deep);
      AllGoodCons(filter, first, later);
      SlotsStartCons(store, filter, first, later, Slot(store, source, from, filter, fuel),
                     Slots(store, source, from + 1, size, filter, fuel), deep);
    }
  }

  lemma AllGoodCons(filter: Filter, first: SlotStart, later: seq<SlotStart>)
    requires GoodStart(first, filter) && AllGood(later, filter)
    ensures AllGood([first] + later, filter)
  {
  }

  lemma {:induction false} SlotsStartCons(store: Store, filter: Filter, first: SlotStart, later: seq<SlotStart>, slot: Eval, kept: Kept, deep: nat)
    requires slot.Value? && kept.Kept?
    requires StartSum(store, filter, first, deep) == DueSum(BagOf(slot.found), slot.gets)
    requires StartsSum(store, filter, later, deep) == DueSum(CanonAll(kept.valid), kept.gets)
    ensures StartsSum(store, filter, [first] + later, deep) == DueSum(CanonAll(Keep(slot, kept).valid), Keep(slot, kept).gets)
  {
    ConsStarts(store, filter, first, later, deep);
    KeepSum(slot, kept);
  }

  /** The entry at `index` of what a filter walks over is there, for every thread. */
  ghost predicate SourceHas(store: Store, source: Option<Json>, index: nat, at: Place) {
    !StartIndex(store, source, index, at).Refused?
  }

  /** What an index step finds in a sound collection, it finds in the members fetched. */
  lemma {:induction false} MemberStarts(store: Store, json: Json, index: nat, prop: Option<string>, at: Place)
    requires SoundStore(store, prop) && Sound(store, json, prop, at.onWorker) && IsCollection(json)
    requires IsThere(store, json, index) && at.depth > 0
    ensures SourceHas(store, FetchMembers(store, json, at).0, index, Deeper(at))
  {
    var members := ByNodeName(store, Some(json), MEMBERS).0;
    assert SourceHas(store, members, index, Place(false, at.depth - 1)) by {
      ThereInMembers(store, json, index, at.depth);
    }
    MembersSound(store, json, prop, at);
    AnyPlaceHas(store, members, prop, index, Deeper(at));
  }

  lemma MembersSound(store: Store, json: Json, prop: Option<string>, at: Place)
    requires SoundStore(store, prop) && Sound(store, json, prop, at.onWorker) && IsCollection(json)
    ensures var members := ByNodeName(store, Some(json), MEMBERS).0;
            FetchMembers(store, json, at) == ByNodeName(store, Some(json), MEMBERS) && SoundFound(store, members, prop, at.onWorker)
  {
    MembersFetched(store, json, prop, at);
  }

  ghost predicate SoundFound(store: Store, found: Option<Json>, prop: Option<string>, worker: bool) {
    found.Some? ==> Sound(store, found.value, prop, worker)
  }

  lemma {:induction false} AnyPlaceHas(store: Store, source: Option<Json>, prop: Option<string>, index: nat, at: Place)
    requires SoundStore(store, prop) && SoundFound(store, source, prop, at.onWorker)
    requires SourceHas(store, source, index, Place(false, at.depth))
    ensures SourceHas(store, source, index, at)
  {
    if at.onWorker {
      SamePlace(store, source, prop, index, at.depth);
    }
  }

  lemma LastIsThere(store: Store, json: Json, prop: Option<string>, worker: bool)
    requires Sound(store, json, prop, worker) && IsCollection(json) && CollectionSize(json) > 0 && prop.Some?
    ensures IsThere(store, json, CollectionSize(json) - 1)
  {
  }

  lemma {:induction false} ThereInMembers(store: Store, json: Json, index: nat, depth: nat)
    requires IsCollection(json) && IsThere(store, json, index) && depth > 0
    ensures !StartIndex(store, ByNodeName(store, Some(json), MEMBERS).0, index, Place(false, depth - 1)).Refused?
  {
    var elsewhere := Place(false, depth);
    assert !StartIndex(store, Some(json), index, elsewhere).Refused?;
    var (members, gets) := FetchMembers(store, json, elsewhere);
    assert StartIndex(store, Some(json), index, elsewhere) == More(gets, StartIndex(store, members, index, Deeper(elsewhere)));
  }

  lemma {:induction false} LastItemStarts(store: Store, json: Json, at: Place)
    requires json.Arr? && json.items != []
    ensures SourceHas(store, Some(json), |json.items| - 1, at)
  {
    assert StartIndex(store, Some(json), |json.items| - 1, at) == StartEntry(json, |json.items| - 1);
  }

  lemma {:induction false} StartSlotsAt(store: Store, source: Option<Json>, filter: Filter, from: nat, size: nat, at: Place, i: nat)
    requires from + i < size
    ensures StartSlots(store, source, filter, from, size, at)[i] == StartSlot(store, source, filter, from + i, at)
    decreases i
  {
    if i > 0 {
      StartSlotsAt(store, source, filter, from + 1, size, at, i - 1);
    }
  }

  lemma {:induction false} FanOutStarts(store: Store, source: Option<Json>, filter: Filter, size: nat, at: Place, fuel: nat, deep: nat)
    requires SoundStore(store, Some(filter.prop)) && GoodProperty(filter.prop) && (source.Some? ==> Sound(store, source.value, Some(filter.prop), at.onWorker))
    requires size > 0 ==> SourceHas(store, source, size - 1, at)
    requires fuel <= deep && fuel <= at.depth && Slots(store, source, 0, size, filter, fuel).Kept? && !filter.check.Unnamed?
    ensures var r := Collected(Slots(store, source, 0, size, filter, fuel));
            OpAs(store, filter, Launch(filter, StartSlots(store, source, filter, 0, size, at)), r.found, r.gets, deep)
    decreases fuel, 4
  {
    var starts := StartSlots(store, source, filter, 0, size, at);
    var kept := Slots(store, source, 0, size, filter, fuel);
    SlotsStart(store, source, filter, 0, size, at, fuel, deep);
    LastOfTheSlotsStarts(store, source, filter, size, at);
    FanOutOwes(store, filter, starts, kept, deep);
  }

  lemma {:induction false} LastOfTheSlotsStarts(store: Store, source: Option<Json>, filter: Filter, size: nat, at: Place)
    requires size > 0 ==> SourceHas(store, source, size - 1, at)
    ensures var starts := StartSlots(store, source, filter, 0, size, at);
            starts != [] ==> !starts[|starts| - 1].NotStarted?
  {
    if size > 0 {
      StartSlotsAt(store, source, filter, 0, size, at, size - 1);
    }
  }

  lemma {:induction false} FanOutOwes(store: Store, filter: Filter, starts: seq<SlotStart>, kept: Kept, deep: nat)
    requires kept.Kept? && AllGood(starts, filter)
    requires StartsSum(store, filter, starts, deep) == DueSum(CanonAll(kept.valid), kept.gets)
    requires starts != [] ==> !starts[|starts| - 1].NotStarted?
    ensures OpAs(store, filter, Launch(filter, starts), Collected(kept).found, Collected(kept).gets, deep)
  {
    LaunchOwes(store, filter, starts, kept.valid, kept.gets, deep);
  }

  lemma {:induction false} SimpleStarts(store: Store, json: Json, filter: Filter, worker: bool, fuel: nat, deep: nat)
    requires SoundStore(store, Some(filter.prop)) && GoodProperty(filter.prop) && Sound(store, json, Some(filter.prop), worker)
    requires !IsCollection(json) && !json.Arr? && fuel > 0 && !filter.check.Unnamed? && OpResult(store, Some(json), filter, fuel).Value?
    ensures var r := OpResult(store, Some(json), filter, fuel);
            OpAs(store, filter, StartPlainOp(json, filter), r.found, r.gets, deep)
  {
    PropertyStarts(store, json, filter.prop, worker);
    var (found, gets) := ByNodeName(store, Some(json), filter.prop);
    PropertyOwes(store, json, filter, StartName(json, filter.prop), found, gets, deep);
  }

  /** A filter on a plain payload, given how its property starts. */
  lemma {:induction false} PropertyOwes(store: Store, json: Json, filter: Filter, started: Started, found: Option<Json>, gets: nat, deep: nat)
    requires started == StartName(json, filter.prop) && StartsAs(store, started, found, gets)
    ensures OpAs(store, filter, StartPlainOp(json, filter),
                 if found.Some? && Passes(found.value, filter) then Some(json) else None, gets, deep)
  {
  }

  /** Starting a filter commits it to the answer of the blocking filter, on every thread. */
  lemma {:induction false} OpStarts(store: Store, json: Json, filter: Filter, at: Place, fuel: nat, deep: nat)
    requires SoundStore(store, Some(filter.prop)) && GoodProperty(filter.prop) && Sound(store, json, Some(filter.prop), at.onWorker)
    requires fuel <= deep && fuel <= at.depth && OpResult(store, Some(json), filter, fuel).Value? && !filter.check.Unnamed?
    ensures var r := OpResult(store, Some(json), filter, fuel);
            OpAs(store, filter, StartOp(store, json, filter, at), r.found, r.gets, deep)
    decreases fuel, 1
  {
    if IsCollection(json) {
      if CollectionSize(json) > 0 {
        CollectionOpStarts(store, json, filter, at, fuel, deep);
      }
    } else if json.Arr? {
      ArrayOpStarts(store, json, filter, at, fuel, deep);
    } else {
      SimpleStarts(store, json, filter, at.onWorker, fuel, deep);
    }
  }

  lemma {:induction false} CollectionOpStarts(store: Store, json: Json, filter: Filter, at: Place, fuel: nat, deep: nat)
    requires SoundStore(store, Some(filter.prop)) && GoodProperty(filter.prop) && Sound(store, json, Some(filter.prop), at.onWorker)
    requires fuel <= deep && fuel <= at.depth && OpResult(store, Some(json), filter, fuel).Value? && !filter.check.Unnamed?
    requires IsCollection(json) && CollectionSize(json) > 0
    ensures var r := OpResult(store, Some(json), filter, fuel);
            OpAs(store, filter, StartOp(store, json, filter, at), r.found, r.gets, deep)
    decreases fuel, 0, 1
  {
    var size, fetched := CollectionSize(json), FetchMembers(store, json, at);
    var r := Collected(Slots(store, fetched.0, 0, size, filter, fuel - 1));
    var launched := Launch(filter, StartSlots(store, fetched.0, filter, 0, size, Deeper(at)));
    MembersSound(store, json, Some(filter.prop), at);
    assert OpResult(store, Some(json), filter, fuel) == Add(fetched.1, r) && StartOp(store, json, filter, at) == More(fetched.1, launched) by {
      CollectionUnfolds(store, json, filter, at, fuel);
    }
    assert SourceHas(store, fetched.0, size - 1, Deeper(at)) by {
      LastIsThere(store, json, Some(filter.prop), at.onWorker);
      MemberStarts(store, json, size - 1, Some(filter.prop), at);
    }
    assert OpAs(store, filter, More(fetched.1, launched), r.found, fetched.1 + r.gets, deep) by {
      MembersStart(store, fetched.0, fetched.1, filter, size, at, fuel, deep);
    }
  }

  /** Both filters of a collection go through its members. */
  lemma {:induction false} CollectionUnfolds(store: Store, json: Json, filter: Filter, at: Place, fuel: nat)
    requires IsCollection(json) && CollectionSize(json) > 0 && fuel > 0 && at.depth > 0
    requires FetchMembers(store, json, at) == ByNodeName(store, Some(json), MEMBERS)
    ensures var size := CollectionSize(json);
            var (members, gets) := FetchMembers(store, json, at);
            && OpResult(store, Some(json), filter, fuel) == Add(gets, Collected(Slots(store, members, 0, size, filter, fuel - 1)))
            && StartOp(store, json, filter, at) == More(gets, Launch(filter, StartSlots(store, members, filter, 0, size, Deeper(at))))
  {
  }

  lemma {:induction false} MembersStart(store: Store, members: Option<Json>, made: nat, filter: Filter, size: nat, at: Place, fuel: nat, deep: nat)
    requires SoundStore(store, Some(filter.prop)) && GoodProperty(filter.prop) && SoundFound(store, members, Some(filter.prop), at.onWorker)
    requires size > 0 && at.depth > 0 && SourceHas(store, members, size - 1, Deeper(at)) && !filter.check.Unnamed?
    requires 0 < fuel <= deep && fuel <= at.depth && Slots(store, members, 0, size, filter, fuel - 1).Kept?
    ensures var r := Collected(Slots(store, members, 0, size, filter, fuel - 1));
            OpAs(store, filter, More(made, Launch(filter, StartSlots(store, members, filter, 0, size, Deeper(at)))), r.found, made + r.gets, deep)
    decreases fuel, 0, 0
  {
    var r := Collected(Slots(store, members, 0, size, filter, fuel - 1));
    var launched := Launch(filter, StartSlots(store, members, filter, 0, size, Deeper(at)));
    assert OpAs(store, filter, launched, r.found, r.gets, deep) by {
      FanOutStarts(store, members, filter, size, Deeper(at), fuel - 1, deep);
    }
    OpAfter(store, filter, launched, r.found, r.gets, made, deep);
  }

  lemma {:induction false} ArrayOpStarts(store: Store, json: Json, filter: Filter, at: Place, fuel: nat, deep: nat)
    requires SoundStore(store, Some(filter.prop)) && GoodProperty(filter.prop) && Sound(store, json, Some(filter.prop), at.onWorker)
    requires fuel <= deep && fuel <= at.depth && OpResult(store, Some(json), filter, fuel).Value? && !filter.check.Unnamed?
    requires !IsCollection(json) && json.Arr?
    ensures var r := OpResult(store, Some(json), filter, fuel);
            OpAs(store, filter, StartOp(store, json, filter, at), r.found, r.gets, deep)
    decreases fuel, 0
  {
    if json.items != [] {
      LastItemStarts(store, json, Deeper(at));
    }
    FanOutStarts(store, Some(json), filter, |json.items|, Deeper(at), fuel - 1, deep);
  }

  // ---------------------------------------------------------------------- replies

  lemma PlusSwap(a: DueSum, b: DueSum, c: DueSum)
    ensures Plus(a, Plus(b, c)) == Plus(b, Plus(a, c))
  {
  }

  lemma {:induction false} OwedSlotsSplit(store: Store, filter: Filter, slots: seq<SlotState>, i: nat, fuel: nat)
    requires i < |slots|
    ensures OwedSlots(store, filter, slots, fuel) ==
            Plus(OwedSlot(store, filter, slots[i], fuel), OwedSlots(store, filter, slots[i := Counted], fuel))
  {
    SumSplit(OwedEach(store, filter, slots, fuel), i);
    assert OwedEach(store, filter, slots, fuel)[i := NOTHING] == OwedEach(store, filter, slots[i := Counted], fuel);
  }

  lemma {:induction false} OpenSplit(slots: seq<SlotState>, i: nat)
    requires i < |slots|
    ensures Open(slots) == Open(slots[i := Counted]) + if slots[i].Counted? then 0 else 1
  {
    if i == 0 {
      assert slots[0 := Counted][1..] == slots[1..];
    } else {
      OpenSplit(slots[1..], i - 1);
      assert slots[i := Counted][1..] == slots[1..][i - 1 := Counted];
    }
  }

  lemma {:induction false} OpenPut(slots: seq<SlotState>, i: nat, slot: SlotState)
    requires i < |slots| && !slots[i].Counted? && !slot.Counted?
    ensures Open(slots[i := slot]) == Open(slots)
  {
    OpenSplit(slots, i);
    OpenSplit(slots[i := slot], i);
    assert slots[i := slot][i := Counted] == slots[i := Counted];
  }

  /** A reply has moved a stage on: one request fewer, the same answer. */
  ghost predicate MovedOn(store: Store, filter: Filter, progress: Progress, answer: Option<Bag>, gets: nat, fuel: nat) {
    match progress
    case Working(stage) => Latched(stage, filter) && Owed(store, stage, fuel) == Due(answer, gets)
    case Finished(reply) => CanonOf(Keeps(reply)) == answer && gets == 0
  }

  lemma {:induction false} CountedBag(context: Context, kept: Option<Json>)
    ensures CanonAll(Count(context, kept).payloads) == CanonAll(context.payloads) + BagOf(kept)
  {
    if kept.Some? {
      CanonAllAppend(context.payloads, [kept.value]);
      CanonAllOne(kept.value);
    } else {
      assert context.payloads + [] == context.payloads;
    }
  }

  /** Counting a slot keeps the sum of what is stored and what is owed. */
  lemma {:induction false} CountKeepsSum(store: Store, filter: Filter, context: Context, slots: seq<SlotState>, i: nat,
                                         kept: Option<Json>, rest: DueSum, answer: Option<Bag>, gets: nat, fuel: nat)
    requires i < |slots| && !slots[i].Counted? && Latched(AwaitAll(filter, context, slots), filter)
    requires rest == OwedSlots(store, filter, slots[i := Counted], fuel)
    requires rest.DueSum? && rest.gets == gets
    requires answer == CombineBag(CanonAll(context.payloads) + BagOf(kept) + rest.parts)
    ensures MovedOn(store, filter, CountSlot(filter, context, slots, i, kept), answer, gets, fuel)
  {
    OpenSplit(slots, i);
    CountedBag(context, kept);
    var context' := Count(context, kept);
    if context'.left == 0 {
      LastCountAnswers(store, filter, context', slots[i := Counted], rest, fuel);
    } else {
      var stage := AwaitAll(filter, context', slots[i := Counted]);
      assert Latched(stage, filter);
      assert Owed(store, stage, fuel) == Due(answer, gets);
    }
  }

  lemma {:induction false} LastCountAnswers(store: Store, filter: Filter, context: Context, slots: seq<SlotState>, rest: DueSum, fuel: nat)
    requires Open(slots) == 0 && rest == OwedSlots(store, filter, slots, fuel)
    ensures rest == DueSum(multiset{}, 0)
    ensures CanonOf(Keeps(Finish(context))) == CombineBag(CanonAll(context.payloads) + rest.parts)
  {
    AllCountedOwesNothing(store, filter, slots, fuel);
    assert CanonAll(context.payloads) + multiset{} == CanonAll(context.payloads);
    CombineCanon(context.payloads);
  }

  lemma {:induction false} PutKeepsSum(store: Store, filter: Filter, context: Context, slots: seq<SlotState>, i: nat,
                    slot: SlotState, rest: DueSum, answer: Option<Bag>, gets: nat, fuel: nat)
    requires i < |slots| && !slots[i].Counted? && Latched(AwaitAll(filter, context, slots), filter) && GoodSlot(slot, filter)
    requires rest == OwedSlots(store, filter, slots[i := Counted], fuel)
    requires var sum := Plus(OwedSlot(store, filter, slot, fuel), rest);
             sum.DueSum? && sum.gets == gets && answer == CombineBag(CanonAll(context.payloads) + sum.parts)
    ensures MovedOn(store, filter, Working(AwaitAll(filter, context, slots[i := slot])), answer, gets, fuel)
  {
    var slots' := slots[i := slot];
    assert OwedSlots(store, filter, slots', fuel) == Plus(OwedSlot(store, filter, slot, fuel), rest) by {
      PutOwes(store, filter, slots, i, slot, fuel);
    }
    assert Latched(AwaitAll(filter, context, slots'), filter) by {
      PutLatched(filter, context, slots, i, slot);
    }
  }

  lemma {:induction false} PutOwes(store: Store, filter: Filter, slots: seq<SlotState>, i: nat, slot: SlotState, fuel: nat)
    requires i < |slots|
    ensures OwedSlots(store, filter, slots[i := slot], fuel) ==
            Plus(OwedSlot(store, filter, slot, fuel), OwedSlots(store, filter, slots[i := Counted], fuel))
  {
    var slots' := slots[i := slot];
    assert slots'[i] == slot && slots'[i := Counted] == slots[i := Counted];
    OwedSlotsSplit(store, filter, slots', i, fuel);
  }

  lemma {:induction false} PutLatched(filter: Filter, context: Context, slots: seq<SlotState>, i: nat, slot: SlotState)
    requires i < |slots| && !slots[i].Counted? && Latched(AwaitAll(filter, context, slots), filter) && GoodSlot(slot, filter)
    ensures Latched(AwaitAll(filter, context, slots[i := slot]), filter)
  {
    OpenPut(slots, i, slot);
  }

  /** One outstanding request of a fan-out is answered. */
  lemma {:induction false} StartKeepsSum(store: Store, filter: Filter, context: Context, slots: seq<SlotState>, i: nat,
                      start: SlotStart, rest: DueSum, answer: Option<Bag>, gets: nat, fuel: nat)
    requires i < |slots| && !slots[i].Counted? && Latched(AwaitAll(filter, context, slots), filter)
    requires GoodStart(start, filter) && start.gets == 0
    requires rest == OwedSlots(store, filter, slots[i := Counted], fuel)
    requires var sum := Plus(StartSum(store, filter, start, fuel), rest);
             sum.DueSum? && sum.gets == gets && answer == CombineBag(CanonAll(context.payloads) + sum.parts)
    ensures MovedOn(store, filter, PutSlot(filter, context, slots, i, start), answer, gets, fuel)
  {
    match start {
      case Waiting(_, slot) =>
        PlusNothing(OwedSlot(store, filter, slot, fuel));
        PutKeepsSum(store, filter, context, slots, i, slot, rest, answer, gets, fuel);
      case Done(_, kept) => DoneKeepsSum(store, filter, context, slots, i, kept, rest, answer, gets, fuel);
      case NotStarted(_) => DoneKeepsSum(store, filter, context, slots, i, None, rest, answer, gets, fuel);
    }
  }

  lemma PartsAssociate(a: multiset<Bag>, b: multiset<Bag>, c: multiset<Bag>)
    ensures a + b + c == a + (b + c)
  {
  }

  lemma {:induction false} DoneKeepsSum(store: Store, filter: Filter, context: Context, slots: seq<SlotState>, i: nat,
                      kept: Option<Json>, rest: DueSum, answer: Option<Bag>, gets: nat, fuel: nat)
    requires i < |slots| && !slots[i].Counted? && Latched(AwaitAll(filter, context, slots), filter)
    requires rest == OwedSlots(store, filter, slots[i := Counted], fuel) && rest.DueSum? && rest.gets == gets
    requires answer == CombineBag(CanonAll(context.payloads) + (BagOf(kept) + rest.parts))
    ensures MovedOn(store, filter, CountSlot(filter, context, slots, i, kept), answer, gets, fuel)
  {
    PartsAssociate(CanonAll(context.payloads), BagOf(kept), rest.parts);
    CountKeepsSum(store, filter, context, slots, i, kept, rest, answer, gets, fuel);
  }

  lemma {:induction false} IndexReply(store: Store, filter: Filter, uri: string, depth: nat, fuel: nat)
    requires SoundStore(store, Some(filter.prop)) && GoodProperty(filter.prop) && fuel <= depth && !filter.check.Unnamed?
    requires OwedSlot(store, filter, AwaitIndex(uri), fuel).DueSum?
    ensures var start := SlotAfter(store, Keeps(Response(store, uri)), filter, depth);
            var owed := OwedSlot(store, filter, AwaitIndex(uri), fuel);
            GoodStart(start, filter) && owed.gets > 0 &&
            StartSum(store, filter, start, fuel) == DueSum(owed.parts, owed.gets - 1)
  {
    if uri in store {
      var r := OpResult(store, Some(store[uri]), filter, fuel);
      var started := StartOp(store, store[uri], filter, Place(true, depth));
      OpStarts(store, store[uri], filter, Place(true, depth), fuel, fuel);
      ElementStarts(store, filter, started, r.found, r.gets, fuel);
    }
  }

  /** What has to hold of a fan-out, seen from its slot `i`, before that slot is answered. */
  ghost predicate OwesAt(store: Store, filter: Filter, context: Context, slots: seq<SlotState>, i: nat,
                         answer: Option<Bag>, gets: nat, fuel: nat)
    requires i < |slots|
  {
    && Latched(AwaitAll(filter, context, slots), filter)
    && var sum := Plus(OwedSlot(store, filter, slots[i], fuel), OwedSlots(store, filter, slots[i := Counted], fuel));
       sum.DueSum? && sum.gets == gets && answer == CombineBag(CanonAll(context.payloads) + sum.parts)
  }

  /** Putting what a reply started into the slot, one request having been spent. */
  lemma {:induction false} SlotMovesOn(store: Store, filter: Filter, context: Context, slots: seq<SlotState>, i: nat,
                                       start: SlotStart, answer: Option<Bag>, gets: nat, fuel: nat)
    requires i < |slots| && !slots[i].Counted? && OwesAt(store, filter, context, slots, i, answer, gets, fuel)
    requires GoodStart(start, filter) && start.gets == 0
    requires var owed := OwedSlot(store, filter, slots[i], fuel);
             owed.gets > 0 && StartSum(store, filter, start, fuel) == DueSum(owed.parts, owed.gets - 1)
    ensures gets > 0 && MovedOn(store, filter, PutSlot(filter, context, slots, i, start), answer, gets - 1, fuel)
  {
    StartKeepsSum(store, filter, context, slots, i, start, OwedSlots(store, filter, slots[i := Counted], fuel), answer, gets - 1, fuel);
  }

  lemma {:induction false} IndexSlotMovesOn(store: Store, filter: Filter, context: Context, slots: seq<SlotState>, i: nat,
                                            answer: Option<Bag>, gets: nat, depth: nat, fuel: nat)
    requires SoundStore(store, Some(filter.prop)) && GoodProperty(filter.prop) && fuel <= depth && !filter.check.Unnamed?
    requires i < |slots| && slots[i].AwaitIndex? && OwesAt(store, filter, context, slots, i, answer, gets, fuel)
    ensures gets > 0
    ensures MovedOn(store, filter, Answer(store, AwaitAll(filter, context, slots), [i], depth), answer, gets - 1, fuel)
  {
    var start := SlotAfter(store, Keeps(Response(store, slots[i].uri)), filter, depth);
    IndexReply(store, filter, slots[i].uri, depth, fuel);
    SlotMovesOn(store, filter, context, slots, i, start, answer, gets, fuel);
    assert Answer(store, AwaitAll(filter, context, slots), [i], depth) == PutSlot(filter, context, slots, i, start);
  }

  function Resumed(progress: Progress): (r: SlotStart)
    ensures r.gets == 0
  {
    match progress
    case Working(inner) => Waiting(0, AwaitResult(inner))
    case Finished(reply) => Done(0, Keeps(reply))
  }

  lemma {:induction false} ResultSlotMovesOn(store: Store, filter: Filter, context: Context, slots: seq<SlotState>, i: nat,
                                             progress: Progress, inner: Due, answer: Option<Bag>, gets: nat, fuel: nat)
    requires i < |slots| && !slots[i].Counted? && OwesAt(store, filter, context, slots, i, answer, gets, fuel)
    requires inner.Due? && inner.gets > 0 && OwedSlot(store, filter, slots[i], fuel) == AsSum(inner)
    requires MovedOn(store, filter, progress, inner.answer, inner.gets - 1, fuel)
    ensures gets > 0
    ensures MovedOn(store, filter, PutSlot(filter, context, slots, i, Resumed(progress)), answer, gets - 1, fuel)
  {
    ResumedOwes(store, filter, progress, inner.answer, inner.gets - 1, fuel);
    SlotMovesOn(store, filter, context, slots, i, Resumed(progress), answer, gets, fuel);
  }

  lemma {:induction false} WaitingOwes(store: Store, filter: Filter, stage: Stage, due: Due, fuel: nat)
    requires due.Due? && Owed(store, stage, fuel) == due && Latched(stage, filter)
    ensures var start := Waiting(0, AwaitResult(stage));
            GoodStart(start, filter) && StartSum(store, filter, start, fuel) == AsSum(due)
  {
    var sum := OwedSlot(store, filter, AwaitResult(stage), fuel);
    assert sum == AsSum(due);
    PlusNothing(sum);
  }

  lemma {:induction false} FinishedOwes(store: Store, filter: Filter, kept: Option<Json>, fuel: nat)
    ensures var start := Done(0, kept);
            GoodStart(start, filter) && StartSum(store, filter, start, fuel) == AsSum(Due(CanonOf(kept), 0))
  {
  }

  lemma {:induction false} ResumedOwes(store: Store, filter: Filter, progress: Progress, answer: Option<Bag>, gets: nat, fuel: nat)
    requires MovedOn(store, filter, progress, answer, gets, fuel)
    ensures GoodStart(Resumed(progress), filter)
    ensures StartSum(store, filter, Resumed(progress), fuel) == AsSum(Due(answer, gets))
  {
    if progress.Working? {
      WaitingOwes(store, filter, progress.stage, Due(answer, gets), fuel);
    } else {
      FinishedOwes(store, filter, Keeps(progress.reply), fuel);
    }
  }

  lemma {:induction false} AnswerUnfolds(store: Store, filter: Filter, context: Context, slots: seq<SlotState>, position: seq<nat>, depth: nat)
    requires position != [] && position[0] < |slots| && slots[position[0]].AwaitResult?
    requires Outstanding(slots[position[0]].stage, position[1..])
    ensures Answer(store, AwaitAll(filter, context, slots), position, depth) ==
            PutSlot(filter, context, slots, position[0], Resumed(Answer(store, slots[position[0]].stage, position[1..], depth)))
  {
  }

  lemma {:induction false} OwesAtEverySlot(store: Store, filter: Filter, context: Context, slots: seq<SlotState>, i: nat, fuel: nat)
    requires i < |slots| && Latched(AwaitAll(filter, context, slots), filter)
    requires Owed(store, AwaitAll(filter, context, slots), fuel).Due?
    ensures var due := Owed(store, AwaitAll(filter, context, slots), fuel);
            OwesAt(store, filter, context, slots, i, due.answer, due.gets, fuel)
  {
    OwedSlotsSplit(store, filter, slots, i, fuel);
  }

  /** Every reply, whichever request it answers, moves a filter one request closer to the
      same answer. */
  lemma {:induction false} AnswerMovesOn(store: Store, filter: Filter, stage: Stage, position: seq<nat>, depth: nat, fuel: nat)
    requires SoundStore(store, Some(filter.prop)) && GoodProperty(filter.prop) && fuel <= depth && !filter.check.Unnamed?
    requires Latched(stage, filter) && Owed(store, stage, fuel).Due? && Outstanding(stage, position)
    ensures var due := Owed(store, stage, fuel);
            due.gets > 0 && MovedOn(store, filter, Answer(store, stage, position, depth), due.answer, due.gets - 1, fuel)
    decreases stage, 1
  {
    match stage {
      case AwaitProperty(payload, f, uri) =>
      case AwaitAll(f, context, slots) =>
        if slots[position[0]].AwaitIndex? {
          IndexAnswered(store, filter, context, slots, position, depth, fuel);
        } else {
          ResultAnswered(store, filter, context, slots, position, depth, fuel);
        }
    }
  }

  lemma {:induction false} IndexAnswered(store: Store, filter: Filter, context: Context, slots: seq<SlotState>, position: seq<nat>, depth: nat, fuel: nat)
    requires SoundStore(store, Some(filter.prop)) && GoodProperty(filter.prop) && fuel <= depth && !filter.check.Unnamed?
    requires Latched(AwaitAll(filter, context, slots), filter) && Owed(store, AwaitAll(filter, context, slots), fuel).Due?
    requires |position| == 1 && position[0] < |slots| && slots[position[0]].AwaitIndex?
    ensures var due := Owed(store, AwaitAll(filter, context, slots), fuel);
            due.gets > 0 && MovedOn(store, filter, Answer(store, AwaitAll(filter, context, slots), position, depth), due.answer, due.gets - 1, fuel)
  {
    var due := Owed(store, AwaitAll(filter, context, slots), fuel);
    OwesAtEverySlot(store, filter, context, slots, position[0], fuel);
    assert position == [position[0]];
    IndexSlotMovesOn(store, filter, context, slots, position[0], due.answer, due.gets, depth, fuel);
  }

  lemma {:induction false} ResultAnswered(store: Store, filter: Filter, context: Context, slots: seq<SlotState>, position: seq<nat>, depth: nat, fuel: nat)
    requires SoundStore(store, Some(filter.prop)) && GoodProperty(filter.prop) && fuel <= depth && !filter.check.Unnamed?
    requires Latched(AwaitAll(filter, context, slots), filter) && Owed(store, AwaitAll(filter, context, slots), fuel).Due?
    requires position != [] && position[0] < |slots| && slots[position[0]].AwaitResult?
    requires Outstanding(slots[position[0]].stage, position[1..])
    ensures var due := Owed(store, AwaitAll(filter, context, slots), fuel);
            due.gets > 0 && MovedOn(store, filter, Answer(store, AwaitAll(filter, context, slots), position, depth), due.answer, due.gets - 1, fuel)
    decreases slots, 0
  {
    var i, rest := position[0], position[1..];
    var inner := slots[i].stage;
    var due := Owed(store, AwaitAll(filter, context, slots), fuel);
    assert due.gets > 0 && MovedOn(store, filter, PutSlot(filter, context, slots, i, Resumed(Answer(store, inner, rest, depth))), due.answer, due.gets - 1, fuel) by {
      OwedInside(store, filter, context, slots, i, fuel);
      AnswerMovesOn(store, filter, inner, rest, depth, fuel);
      OwesAtEverySlot(store, filter, context, slots, i, fuel);
      ResultSlotMovesOn(store, filter, context, slots, i, Answer(store, inner, rest, depth), Owed(store, inner, fuel), due.answer, due.gets, fuel);
    }
    AnswerUnfolds(store, filter, context, slots, position, depth);
  }

  lemma {:induction false} OwedInside(store: Store, filter: Filter, context: Context, slots: seq<SlotState>, i: nat, fuel: nat)
    requires i < |slots| && slots[i].AwaitResult? && Latched(AwaitAll(filter, context, slots), filter)
    requires Owed(store, AwaitAll(filter, context, slots), fuel).Due?
    ensures Latched(slots[i].stage, filter) && Owed(store, slots[i].stage, fuel).Due?
    ensures OwedSlot(store, filter, slots[i], fuel) == AsSum(Owed(store, slots[i].stage, fuel))
  {
    assert OwedSlot(store, filter, slots[i], fuel).DueSum? by {
      OwedSlotsSplit(store, filter, slots, i, fuel);
    }
  }
}
