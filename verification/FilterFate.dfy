/** Whether a filter started with callbacks ever calls back, read off the data. A filter over
    an array or collection that has been accepted may stay silent for ever: a count beyond the
    members lets the starting loop count the last slot down without anybody finishing, and a
    silent entry, at any depth and behind any link, keeps its slot open. */
module FilterFate {
  import opened Wrappers
  import opened Json
  import opened RedPath
  import opened Evaluate
  import opened AsyncEvaluate
  import opened AsyncRefinesSync

  /** What becomes of an accepted call: it calls back after so many replies, or never. */
  datatype Fate = Never | After(replies: nat)

  predicate AtOnce(fate: Fate) {
    fate.After? && fate.replies == 0
  }

  function Both(a: Fate, b: Fate): Fate {
    if a.Never? || b.Never? then Never else After(a.replies + b.replies)
  }

  function All(fates: seq<Fate>): Fate {
    if fates == [] then After(0) else Both(fates[0], All(fates[1..]))
  }

  lemma {:induction false} NoneNever(fates: seq<Fate>)
    ensures All(fates).Never? <==> exists i :: 0 <= i < |fates| && fates[i].Never?
    decreases |fates|
  {
    if fates != [] {
      NoneNever(fates[1..]);
      assert forall i :: 0 < i < |fates| ==> fates[i] == fates[1..][i - 1];
    }
  }

  predicate EveryAtOnce(fates: seq<Fate>) {
    forall i :: 0 <= i < |fates| ==> AtOnce(fates[i])
  }

  lemma {:induction false} EveryCons(first: Fate, later: seq<Fate>, fates: seq<Fate>)
    requires fates == [first] + later
    ensures EveryAtOnce(fates) <==> AtOnce(first) && EveryAtOnce(later)
  {
    if EveryAtOnce(fates) {
      assert fates[0] == first;
      forall i | 0 <= i < |later| ensures AtOnce(later[i]) {
        assert fates[i + 1] == later[i];
      }
    }
  }

  lemma BothAtOnce(a: Fate, b: Fate)
    ensures AtOnce(Both(a, b)) <==> AtOnce(a) && AtOnce(b)
  {
  }

  lemma {:induction false} AllAtOnce(fates: seq<Fate>)
    ensures AtOnce(All(fates)) <==> EveryAtOnce(fates)
    decreases |fates|
  {
    if fates != [] {
      AllAtOnce(fates[1..]);
      BothAtOnce(fates[0], All(fates[1..]));
      assert fates == [fates[0]] + fates[1..];
      EveryCons(fates[0], fates[1..], fates);
    }
  }

  // ------------------------------------------------------------------ on the data

  /** What the index step of a collection goes on in, whatever the depth. */
  function Members(store: Store, json: Json, worker: bool): Option<Json> {
    FetchMembers(store, json, Place(worker, 0)).0
  }

  /** The entries an index step on `source` can reach, through the members of collections,
      which the worker does not fetch. */
  function Entries(store: Store, source: Option<Json>, worker: bool, fuel: nat): seq<Json>
    decreases fuel
  {
    if source.None? then []
    else if IsCollection(source.value) then
      if fuel == 0 then [] else Entries(store, Members(store, source.value, worker), worker, fuel - 1)
    else
      match source.value
      case Arr(items) => items
      case Obj(members) => seq(|members|, i requires 0 <= i < |members| => members[i].value)
      case _ => []
  }

  /** What a filter on an array or collection goes through. */
  function SourceOf(store: Store, json: Json, worker: bool): Option<Json> {
    if IsCollection(json) then Members(store, json, worker) else Some(json)
  }

  /** The number of slots it makes. */
  function SizeOf(json: Json): nat {
    if IsCollection(json) then CollectionSize(json) else if json.Arr? then |json.items| else 0
  }

  function Scanned(store: Store, json: Json, worker: bool, fuel: nat): seq<Json>
    requires fuel > 0
  {
    Entries(store, SourceOf(store, json, worker), worker, fuel - 1)
  }

  predicate IsPlain(json: Json) {
    !IsCollection(json) && !json.Arr?
  }

  /** The entries that get a slot. */
  function Slotted(entries: seq<Json>, size: nat): seq<Json> {
    if size < |entries| then entries[..size] else entries
  }

  /** A fan-out waits for all its slots. When none waits, the last one has to start, or nobody
      finishes. */
  function FanFate(entries: seq<Json>, size: nat, all: Fate): Fate {
    if 0 < |entries| < size && AtOnce(all) then Never else all
  }

  function FateOf(store: Store, json: Json, prop: string, worker: bool, fuel: nat): Fate
    decreases fuel, 0
  {
    if IsPlain(json) then
      var property := NamedValue(json, prop);
      if property.Some? && LinkOf(property.value).Some? then After(1) else After(0)
    else if fuel == 0 then Never
    else
      var entries, size := Scanned(store, json, worker, fuel), SizeOf(json);
      FanFate(entries, size, All(FatesOf(store, Slotted(entries, size), prop, worker, fuel - 1)))
  }

  /** The element behind a link is filtered by the worker. */
  function FateOfLink(store: Store, uri: string, prop: string, fuel: nat): Fate
    decreases fuel, 1
  {
    if uri in store then Both(After(1), FateOf(store, store[uri], prop, true, fuel)) else After(1)
  }

  function FateOfEntry(store: Store, entry: Json, prop: string, worker: bool, fuel: nat): Fate
    decreases fuel, 2
  {
    match LinkOf(entry)
    case Some(uri) => FateOfLink(store, uri, prop, fuel)
    case None => FateOf(store, entry, prop, worker, fuel)
  }

  function FatesOf(store: Store, entries: seq<Json>, prop: string, worker: bool, fuel: nat): seq<Fate>
    decreases fuel, 3
  {
    seq(|entries|, i requires 0 <= i < |entries| => FateOfEntry(store, entries[i], prop, worker, fuel))
  }

  predicate Silent(store: Store, json: Json, prop: string, worker: bool, fuel: nat) {
    FateOf(store, json, prop, worker, fuel).Never?
  }

  /** The filter comes out within the starting call. */
  predicate AtHand(store: Store, json: Json, prop: string, worker: bool, fuel: nat) {
    AtOnce(FateOf(store, json, prop, worker, fuel))
  }

  predicate EntrySilent(store: Store, entry: Json, prop: string, worker: bool, fuel: nat) {
    match LinkOf(entry)
    case Some(uri) => uri in store && Silent(store, store[uri], prop, true, fuel)
    case None => Silent(store, entry, prop, worker, fuel)
  }

  predicate EntryAtHand(store: Store, entry: Json, prop: string, worker: bool, fuel: nat) {
    LinkOf(entry).None? && AtHand(store, entry, prop, worker, fuel)
  }

  lemma {:induction false} EntryFateIs(store: Store, entry: Json, prop: string, worker: bool, fuel: nat)
    ensures FateOfEntry(store, entry, prop, worker, fuel).Never? <==> EntrySilent(store, entry, prop, worker, fuel)
    ensures AtOnce(FateOfEntry(store, entry, prop, worker, fuel)) <==> EntryAtHand(store, entry, prop, worker, fuel)
  {
  }

  lemma {:induction false} FateUnfolds(store: Store, json: Json, prop: string, worker: bool, fuel: nat)
    requires fuel > 0
    ensures var entries, size := Scanned(store, json, worker, fuel), SizeOf(json);
            var all := All(FatesOf(store, Slotted(entries, size), prop, worker, fuel - 1));
            if IsPlain(json) then !FateOf(store, json, prop, worker, fuel).Never?
            else FateOf(store, json, prop, worker, fuel) == FanFate(entries, size, all)
  {
  }

  /** An entry that has a slot is silent. */
  predicate SomeSilent(store: Store, entries: seq<Json>, size: nat, prop: string, worker: bool, fuel: nat) {
    exists i :: 0 <= i < |entries| && i < size && EntrySilent(store, entries[i], prop, worker, fuel)
  }

  /** The count exceeds the entries, of which there is at least one, and all of them come out
      within the starting call. */
  predicate Overcounted(store: Store, entries: seq<Json>, size: nat, prop: string, worker: bool, fuel: nat) {
    0 < |entries| < size && forall i :: 0 <= i < |entries| ==> EntryAtHand(store, entries[i], prop, worker, fuel)
  }

  lemma {:induction false} SlottedFate(store: Store, entries: seq<Json>, size: nat, prop: string, worker: bool, fuel: nat, i: nat)
    requires i < |Slotted(entries, size)|
    ensures var fate := FatesOf(store, Slotted(entries, size), prop, worker, fuel)[i];
            && fate.Never? == EntrySilent(store, entries[i], prop, worker, fuel)
            && AtOnce(fate) == EntryAtHand(store, entries[i], prop, worker, fuel)
  {
    EntryFateIs(store, entries[i], prop, worker, fuel);
    assert Slotted(entries, size)[i] == entries[i];
  }

  lemma {:induction false} NeverIff(store: Store, entries: seq<Json>, size: nat, prop: string, worker: bool, fuel: nat)
    ensures All(FatesOf(store, Slotted(entries, size), prop, worker, fuel)).Never? <==> SomeSilent(store, entries, size, prop, worker, fuel)
  {
    var fates := FatesOf(store, Slotted(entries, size), prop, worker, fuel);
    NoneNever(fates);
    if SomeSilent(store, entries, size, prop, worker, fuel) {
      var i :| 0 <= i < |entries| && i < size && EntrySilent(store, entries[i], prop, worker, fuel);
      SlottedFate(store, entries, size, prop, worker, fuel, i);
      assert fates[i].Never?;
    } else if i :| 0 <= i < |fates| && fates[i].Never? {
      SlottedFate(store, entries, size, prop, worker, fuel, i);
    }
  }

  lemma {:induction false} AtOnceIff(store: Store, entries: seq<Json>, size: nat, prop: string, worker: bool, fuel: nat)
    requires 0 < |entries| < size
    ensures AtOnce(All(FatesOf(store, Slotted(entries, size), prop, worker, fuel))) <==> Overcounted(store, entries, size, prop, worker, fuel)
  {
    var fates := FatesOf(store, Slotted(entries, size), prop, worker, fuel);
    AllAtOnce(fates);
    EveryAtHand(store, entries, prop, worker, fuel, fates);
  }

  lemma {:induction false} EveryAtHand(store: Store, entries: seq<Json>, prop: string, worker: bool, fuel: nat, fates: seq<Fate>)
    requires fates == FatesOf(store, entries, prop, worker, fuel)
    ensures EveryAtOnce(fates) <==> forall i :: 0 <= i < |entries| ==> EntryAtHand(store, entries[i], prop, worker, fuel)
  {
    forall i | 0 <= i < |entries| ensures AtOnce(fates[i]) <==> EntryAtHand(store, entries[i], prop, worker, fuel) {
      EntryFateIs(store, entries[i], prop, worker, fuel);
    }
  }

  /** The two ways to be silent, and no other. */
  lemma {:induction false} SilentIff(store: Store, json: Json, prop: string, worker: bool, fuel: nat)
    requires fuel > 0
    ensures var entries, size := Scanned(store, json, worker, fuel), SizeOf(json);
            Silent(store, json, prop, worker, fuel) <==>
            !IsPlain(json) && (SomeSilent(store, entries, size, prop, worker, fuel - 1) || Overcounted(store, entries, size, prop, worker, fuel - 1))
  {
    FateUnfolds(store, json, prop, worker, fuel);
    FanSilentIff(store, Scanned(store, json, worker, fuel), SizeOf(json), prop, worker, fuel - 1);
  }

  lemma {:induction false} FanSilentIff(store: Store, entries: seq<Json>, size: nat, prop: string, worker: bool, fuel: nat)
    ensures FanFate(entries, size, All(FatesOf(store, Slotted(entries, size), prop, worker, fuel))).Never? <==>
            SomeSilent(store, entries, size, prop, worker, fuel) || Overcounted(store, entries, size, prop, worker, fuel)
  {
    NeverIff(store, entries, size, prop, worker, fuel);
    if 0 < |entries| < size {
      AtOnceIff(store, entries, size, prop, worker, fuel);
    }
  }

  // ------------------------------------------------------------------- any depth

  /** The blocking filter has an answer. */
  predicate Answers(store: Store, json: Json, filter: Filter, fuel: nat) {
    OpResult(store, Some(json), filter, fuel).Value?
  }

  predicate EntryAnswers(store: Store, entry: Json, filter: Filter, fuel: nat) {
    match LinkOf(entry)
    case Some(uri) => uri in store ==> Answers(store, store[uri], filter, fuel)
    case None => Answers(store, entry, filter, fuel)
  }

  lemma {:induction false} MembersAre(store: Store, json: Json, at: Place)
    ensures FetchMembers(store, json, at).0 == Members(store, json, at.onWorker)
    ensures Members(store, json, at.onWorker).None? || Members(store, json, at.onWorker) == ByNodeName(store, Some(json), MEMBERS).0
  {
  }

  lemma {:induction false} EntriesInMembers(store: Store, json: Json, worker: bool, fuel: nat)
    requires IsCollection(json) && fuel > 0
    ensures Entries(store, Some(json), worker, fuel) == Entries(store, Members(store, json, worker), worker, fuel - 1)
  {
  }

  /** An index step of the blocking walk that has an answer has one in the members. */
  lemma {:induction false} MembersAnswer(store: Store, json: Json, index: nat, worker: bool, fuel: nat)
    requires IsCollection(json) && ByIndex(store, Some(json), index, fuel).Value?
    ensures fuel > 0
    ensures var members := Members(store, json, worker);
            members.Some? ==>
              && ByIndex(store, members, index, fuel - 1).Value?
              && ByIndex(store, members, index, fuel - 1).found == ByIndex(store, Some(json), index, fuel).found
  {
    MembersAre(store, json, Place(worker, 0));
    IndexInMembers(store, json, index, Place(false, 1), fuel);
  }

  lemma {:induction false} PlainEntryFound(store: Store, json: Json, index: nat, worker: bool, fuel: nat, more: nat)
    requires !IsCollection(json) && fuel > 0
    ensures Entries(store, Some(json), worker, fuel) == Entries(store, Some(json), worker, more)
    ensures var entries := Entries(store, Some(json), worker, fuel);
            index < |entries| ==> ByIndex(store, Some(json), index, fuel).found == Follow(store, entries[index]).0
  {
  }

  /** Both index steps look at the same entry; the blocking one follows it. */
  lemma {:induction false} EntryFound(store: Store, source: Option<Json>, index: nat, worker: bool, fuel: nat, more: nat)
    requires fuel <= more && ByIndex(store, source, index, fuel).Value?
    ensures Entries(store, source, worker, fuel) == Entries(store, source, worker, more)
    ensures var entries := Entries(store, source, worker, fuel);
            index < |entries| ==> ByIndex(store, source, index, fuel).found == Follow(store, entries[index]).0
    decreases fuel
  {
    if source.Some? && IsCollection(source.value) {
      var members := Members(store, source.value, worker);
      MembersAnswer(store, source.value, index, worker, fuel);
      EntriesInMembers(store, source.value, worker, fuel);
      EntriesInMembers(store, source.value, worker, more);
      if members.Some? {
        EntryFound(store, members, index, worker, fuel - 1, more - 1);
      }
    } else if source.Some? {
      PlainEntryFound(store, source.value, index, worker, fuel, more);
    }
  }

  /** How an index step starts is decided by the entry. */
  predicate StartsAtEntry(started: Started, entries: seq<Json>, index: nat) {
    if index >= |entries| then started.Refused?
    else
      match LinkOf(entries[index])
      case Some(uri) => started.Accepted? && started.stage == AwaitDocument(uri)
      case None => started.Replied? && started.reply == Reply(true, 200, Some(entries[index]))
  }

  lemma {:induction false} StartInMembers(store: Store, json: Json, index: nat, at: Place, entries: seq<Json>)
    requires IsCollection(json) && at.depth > 0
    requires StartsAtEntry(StartIndex(store, Members(store, json, at.onWorker), index, Deeper(at)), entries, index)
    ensures StartsAtEntry(StartIndex(store, Some(json), index, at), entries, index)
  {
    MembersAre(store, json, at);
  }

  lemma {:induction false} NoEntryStarted(store: Store, index: nat, at: Place, fuel: nat)
    ensures StartsAtEntry(StartIndex(store, None, index, at), Entries(store, None, at.onWorker, fuel), index)
  {
  }

  lemma {:induction false} PlainEntryStarted(store: Store, json: Json, index: nat, at: Place, fuel: nat)
    requires !IsCollection(json)
    ensures StartsAtEntry(StartIndex(store, Some(json), index, at), Entries(store, Some(json), at.onWorker, fuel), index)
  {
    assert StartIndex(store, Some(json), index, at) == StartEntry(json, index);
  }

  lemma {:induction false} EntryStarted(store: Store, source: Option<Json>, index: nat, at: Place, fuel: nat)
    requires fuel <= at.depth && ByIndex(store, source, index, fuel).Value?
    ensures StartsAtEntry(StartIndex(store, source, index, at), Entries(store, source, at.onWorker, fuel), index)
    decreases fuel
  {
    if source.Some? && IsCollection(source.value) {
      var members := Members(store, source.value, at.onWorker);
      MembersAnswer(store, source.value, index, at.onWorker, fuel);
      EntriesInMembers(store, source.value, at.onWorker, fuel);
      if members.Some? {
        EntryStarted(store, members, index, Deeper(at), fuel - 1);
      } else {
        NoEntryStarted(store, index, Deeper(at), fuel - 1);
      }
      StartInMembers(store, source.value, index, at, Entries(store, members, at.onWorker, fuel - 1));
    } else if source.Some? {
      PlainEntryStarted(store, source.value, index, at, fuel);
    } else {
      NoEntryStarted(store, index, at, fuel);
    }
  }

  lemma {:induction false} SlotAnswers(store: Store, source: Option<Json>, from: nat, size: nat, filter: Filter, fuel: nat, i: nat)
    requires from <= i < size && Slots(store, source, from, size, filter, fuel).Kept?
    ensures Slot(store, source, i, filter, fuel).Value?
    decreases size - from
  {
    assert Slots(store, source, from, size, filter, fuel) ==
           Keep(Slot(store, source, from, filter, fuel), Slots(store, source, from + 1, size, filter, fuel));
    if from < i {
      SlotAnswers(store, source, from + 1, size, filter, fuel, i);
    }
  }

  lemma {:induction false} SlotEntryAnswers(store: Store, source: Option<Json>, i: nat, filter: Filter, worker: bool, fuel: nat)
    requires Slot(store, source, i, filter, fuel).Value?
    ensures ByIndex(store, source, i, fuel).Value?
    ensures var entries := Entries(store, source, worker, fuel);
            i < |entries| ==> EntryAnswers(store, entries[i], filter, fuel)
  {
    EntryFound(store, source, i, worker, fuel, fuel);
  }

  /** What is asked of a slot: the blocking filter answers its entry, if it has one. */
  lemma {:induction false} ScannedAnswer(store: Store, json: Json, filter: Filter, worker: bool, fuel: nat, i: nat)
    requires Answers(store, json, filter, fuel) && !IsPlain(json) && i < SizeOf(json)
    ensures fuel > 0
    ensures SourceOf(store, json, worker).Some? ==> ByIndex(store, SourceOf(store, json, worker), i, fuel - 1).Value?
    ensures i < |Scanned(store, json, worker, fuel)| ==> EntryAnswers(store, Scanned(store, json, worker, fuel)[i], filter, fuel - 1)
  {
    var source := SourceOf(store, json, worker);
    if IsCollection(json) {
      MembersAre(store, json, Place(worker, 0));
    }
    if source.Some? {
      assert Slots(store, source, 0, SizeOf(json), filter, fuel - 1).Kept? by {
        OpUnfolds(store, json, filter, fuel);
      }
      SlotAnswers(store, source, 0, SizeOf(json), filter, fuel - 1, i);
      SlotEntryAnswers(store, source, i, filter, worker, fuel - 1);
    }
  }

  /** The blocking filter goes through the same slots. */
  lemma {:induction false} OpUnfolds(store: Store, json: Json, filter: Filter, fuel: nat)
    requires Answers(store, json, filter, fuel) && !IsPlain(json) && SizeOf(json) > 0
    ensures fuel > 0
    ensures Slots(store, if IsCollection(json) then ByNodeName(store, Some(json), MEMBERS).0 else Some(json), 0, SizeOf(json), filter, fuel - 1).Kept?
  {
  }

  lemma {:induction false} ScannedDeeper(store: Store, json: Json, filter: Filter, worker: bool, fuel: nat, more: nat)
    requires fuel <= more && Answers(store, json, filter, fuel) && !IsPlain(json) && SizeOf(json) > 0
    ensures fuel > 0 && Scanned(store, json, worker, fuel) == Scanned(store, json, worker, more)
  {
    ScannedAnswer(store, json, filter, worker, fuel, 0);
    var source := SourceOf(store, json, worker);
    if source.Some? {
      EntryFound(store, source, 0, worker, fuel - 1, more - 1);
    }
  }

  /** The depth allowed makes no difference to what becomes of a filter. */
  lemma {:induction false} FateDeeper(store: Store, json: Json, filter: Filter, worker: bool, fuel: nat, more: nat)
    requires fuel <= more && Answers(store, json, filter, fuel)
    ensures FateOf(store, json, filter.prop, worker, fuel) == FateOf(store, json, filter.prop, worker, more)
    decreases fuel, 0
  {
    if !IsPlain(json) {
      if SizeOf(json) > 0 {
        ScannedDeeper(store, json, filter, worker, fuel, more);
        var slotted := Slotted(Scanned(store, json, worker, fuel), SizeOf(json));
        forall i | 0 <= i < |slotted| 
          ensures FateOfEntry(store, slotted[i], filter.prop, worker, fuel - 1) == FateOfEntry(store, slotted[i], filter.prop, worker, more - 1)
        {
          ScannedAnswer(store, json, filter, worker, fuel, i);
          EntryFateDeeper(store, slotted[i], filter, worker, fuel - 1, more - 1);
        }
        assert FatesOf(store, slotted, filter.prop, worker, fuel - 1) == FatesOf(store, slotted, filter.prop, worker, more - 1);
      }
      FateUnfolds(store, json, filter.prop, worker, fuel);
      FateUnfolds(store, json, filter.prop, worker, more);
    }
  }

  lemma {:induction false} EntryFateDeeper(store: Store, entry: Json, filter: Filter, worker: bool, fuel: nat, more: nat)
    requires fuel <= more && EntryAnswers(store, entry, filter, fuel)
    ensures FateOfEntry(store, entry, filter.prop, worker, fuel) == FateOfEntry(store, entry, filter.prop, worker, more)
    decreases fuel, 1
  {
    match LinkOf(entry) {
      case Some(uri) =>
        if uri in store {
          FateDeeper(store, store[uri], filter, true, fuel, more);
        }
      case None => FateDeeper(store, entry, filter, worker, fuel, more);
    }
  }

  // ---------------------------------------------------------------- on the stages

  ghost function StageFate(store: Store, stage: Stage, fuel: nat): Fate
    decreases stage
  {
    match stage
    case AwaitDocument(_) => After(1)
    case AwaitProperty(_, _, _) => After(1)
    case AwaitAll(filter, _, slots) => All(SlotFates(store, filter.prop, slots, fuel))
  }

  ghost function SlotFate(store: Store, prop: string, slot: SlotState, fuel: nat): Fate
    decreases slot
  {
    match slot
    case Counted => After(0)
    case AwaitIndex(uri) => FateOfLink(store, uri, prop, fuel)
    case AwaitResult(inner) => StageFate(store, inner, fuel)
    case Dead => Never
  }

  ghost function SlotFates(store: Store, prop: string, slots: seq<SlotState>, fuel: nat): seq<Fate>
    decreases slots
  {
    seq(|slots|, i requires 0 <= i < |slots| => SlotFate(store, prop, slots[i], fuel))
  }

  /** An accepted filter: `left` is the number of open slots, and the blocking filter answers
      whatever it still waits for. */
  ghost predicate Ready(store: Store, stage: Stage, filter: Filter, fuel: nat)
    decreases stage
  {
    match stage
    case AwaitDocument(_) => false
    case AwaitProperty(_, f, _) => f == filter
    case AwaitAll(f, context, slots) =>
      && f == filter
      && context.left == Open(slots) > 0
      && forall i :: 0 <= i < |slots| ==> ReadySlot(store, slots[i], filter, fuel)
  }

  ghost predicate ReadySlot(store: Store, slot: SlotState, filter: Filter, fuel: nat)
    decreases slot
  {
    match slot
    case Counted => true
    case AwaitIndex(uri) => uri in store ==> Answers(store, store[uri], filter, fuel)
    case AwaitResult(inner) => Ready(store, inner, filter, fuel)
    case Dead => true
  }

  /** Whoever waits, waits for something. */
  lemma {:induction false} OpenIsNotAtOnce(store: Store, stage: Stage, filter: Filter, fuel: nat)
    requires Ready(store, stage, filter, fuel)
    ensures !AtOnce(StageFate(store, stage, fuel))
    decreases stage
  {
    if stage.AwaitAll? {
      var i := OpenSlot(stage.slots);
      if stage.slots[i].AwaitResult? {
        OpenIsNotAtOnce(store, stage.slots[i].stage, filter, fuel);
      }
      var fates := SlotFates(store, filter.prop, stage.slots, fuel);
      AllAtOnce(fates);
      assert ReadySlot(store, stage.slots[i], filter, fuel);
      assert fates[i] == SlotFate(store, filter.prop, stage.slots[i], fuel) && !AtOnce(fates[i]);
    }
  }

  // --------------------------------------------------------------------- starting

  /** A started filter comes out as the data say. */
  ghost predicate Fated(store: Store, filter: Filter, started: Started, fate: Fate, fuel: nat) {
    match started
    case Refused(_) => AtOnce(fate)
    case Replied(_, _) => AtOnce(fate)
    case Accepted(_, stage) => Ready(store, stage, filter, fuel) && StageFate(store, stage, fuel) == fate
    case Lost(_) => fate.Never?
    case OutOfDepth(_) => false
  }

  ghost predicate FatedSlot(store: Store, filter: Filter, start: SlotStart, fate: Fate, fuel: nat) {
    match start
    case NotStarted(_) => AtOnce(fate)
    case Done(_, _) => AtOnce(fate)
    case Waiting(_, slot) => !slot.Counted? && ReadySlot(store, slot, filter, fuel) && SlotFate(store, filter.prop, slot, fuel) == fate
  }

  lemma {:induction false} FilterStarted(store: Store, filter: Filter, started: Started, made: nat, fate: Fate, fuel: nat)
    requires Fated(store, filter, started, fate, fuel)
    ensures FatedSlot(store, filter, SlotFrom(More(made, started)), fate, fuel)
    ensures !SlotFrom(More(made, started)).NotStarted?
  {
  }

  lemma {:induction false} FatedSlotState(store: Store, filter: Filter, start: SlotStart, fate: Fate, fuel: nat)
    requires FatedSlot(store, filter, start, fate, fuel)
    ensures SlotFate(store, filter.prop, SlotOf(start), fuel) == fate
  {
  }

  /** The starting loop has come out slot by slot as the entries say. */
  ghost predicate LoopFated(store: Store, filter: Filter, starts: seq<SlotStart>, entries: seq<Json>, worker: bool, fuel: nat, deep: nat) {
    forall i :: 0 <= i < |starts| ==>
      if i < |entries| then !starts[i].NotStarted? && FatedSlot(store, filter, starts[i], FateOfEntry(store, entries[i], filter.prop, worker, fuel), deep)
      else starts[i].NotStarted?
  }

  lemma {:induction false} PlainFated(store: Store, json: Json, filter: Filter, worker: bool, fuel: nat, deep: nat)
    requires IsPlain(json)
    ensures Fated(store, filter, StartPlainOp(json, filter), FateOf(store, json, filter.prop, worker, fuel), deep)
  {
  }

  lemma {:induction false} AllPadded(fates: seq<Fate>, more: nat)
    ensures All(fates + seq(more, _ => After(0))) == All(fates)
    decreases |fates|, more
  {
    var rest := seq(more, _ => After(0));
    if fates == [] {
      assert fates + rest == rest;
      if more > 0 {
        AllPadded([], more - 1);
        assert rest[1..] == [] + seq(more - 1, _ => After(0));
      }
    } else {
      AllPadded(fates[1..], more);
      assert (fates + rest)[1..] == fates[1..] + rest;
    }
  }

  /** What the slots wait for after the loop is what the entries make them wait for. */
  lemma {:induction false} LoopFates(store: Store, filter: Filter, starts: seq<SlotStart>, entries: seq<Json>, worker: bool, fuel: nat, deep: nat)
    requires LoopFated(store, filter, starts, entries, worker, fuel, deep)
    ensures All(SlotFates(store, filter.prop, SlotsOf(starts), deep)) == All(FatesOf(store, Slotted(entries, |starts|), filter.prop, worker, fuel))
  {
    var slotted := Slotted(entries, |starts|);
    var fates := FatesOf(store, slotted, filter.prop, worker, fuel);
    var slots := SlotFates(store, filter.prop, SlotsOf(starts), deep);
    var padding := seq(|starts| - |slotted|, _ => After(0));
    forall i | 0 <= i < |starts| ensures slots[i] == (fates + padding)[i] {
      if i < |entries| {
        assert fates[i] == FateOfEntry(store, entries[i], filter.prop, worker, fuel);
        FatedSlotState(store, filter, starts[i], fates[i], deep);
      } else {
        assert SlotOf(starts[i]) == Counted && padding[i - |slotted|] == After(0);
      }
      assert slots[i] == SlotFate(store, filter.prop, SlotOf(starts[i]), deep);
    }
    assert slots == fates + padding;
    AllPadded(fates, |starts| - |slotted|);
  }

  /** `left` after the loop is the number of open slots. */
  lemma {:induction false} QuietAreCounted(starts: seq<SlotStart>)
    requires forall i :: 0 <= i < |starts| && starts[i].Waiting? ==> !starts[i].slot.Counted?
    ensures Open(SlotsOf(starts)) + Quiet(starts) == |starts|
    decreases |starts|
  {
    if starts != [] {
      SlotsOfTail(starts);
      QuietAreCounted(starts[1..]);
    }
  }

  lemma {:induction false} NothingOpen(store: Store, prop: string, slots: seq<SlotState>, fuel: nat)
    requires Open(slots) == 0
    ensures All(SlotFates(store, prop, slots, fuel)) == After(0)
    decreases |slots|
  {
    if slots != [] {
      NothingOpen(store, prop, slots[1..], fuel);
      assert SlotFates(store, prop, slots, fuel)[1..] == SlotFates(store, prop, slots[1..], fuel);
      assert SlotFate(store, prop, slots[0], fuel) == After(0);
    }
  }

  /** The end of the starting loop. */
  lemma {:induction false} LaunchFated(store: Store, filter: Filter, starts: seq<SlotStart>, entries: seq<Json>, worker: bool, fuel: nat, deep: nat)
    requires LoopFated(store, filter, starts, entries, worker, fuel, deep)
    ensures var all := All(FatesOf(store, Slotted(entries, |starts|), filter.prop, worker, fuel));
            Fated(store, filter, Launch(filter, starts), FanFate(entries, |starts|, all), deep)
  {
    var all := All(FatesOf(store, Slotted(entries, |starts|), filter.prop, worker, fuel));
    LoopFates(store, filter, starts, entries, worker, fuel, deep);
    QuietAreCounted(starts);
    AfterLoopIs(Context(|starts|, |starts|, []), starts);
    if Open(SlotsOf(starts)) > 0 {
      var stage := AwaitAll(filter, AfterLoop(Context(|starts|, |starts|, []), starts), SlotsOf(starts));
      WaitsReady(store, filter, starts, entries, worker, fuel, deep);
      OpenIsNotAtOnce(store, stage, filter, deep);
    } else {
      NothingOpen(store, filter.prop, SlotsOf(starts), deep);
      assert AtOnce(all);
      assert starts != [] ==> (starts[|starts| - 1].NotStarted? <==> |entries| < |starts|);
    }
  }

  lemma {:induction false} WaitsReady(store: Store, filter: Filter, starts: seq<SlotStart>, entries: seq<Json>, worker: bool, fuel: nat, deep: nat)
    requires LoopFated(store, filter, starts, entries, worker, fuel, deep) && Open(SlotsOf(starts)) > 0
    requires Open(SlotsOf(starts)) == |starts| - Quiet(starts)
    ensures Ready(store, AwaitAll(filter, Context(|starts|, |starts| - Quiet(starts), KeptOf(starts)), SlotsOf(starts)), filter, deep)
    ensures exists i :: 0 <= i < |starts| && starts[i].Waiting?
  {
    var slots := SlotsOf(starts);
    forall i | 0 <= i < |slots| ensures ReadySlot(store, slots[i], filter, deep) {
      assert slots[i] == SlotOf(starts[i]);
    }
    var i := OpenSlot(slots);
    assert slots[i] == SlotOf(starts[i]);
  }

  /** Starting a filter comes out as the data say, on every thread. */
  lemma {:induction false} StartFated(store: Store, json: Json, filter: Filter, at: Place, fuel: nat, deep: nat)
    requires Answers(store, json, filter, fuel) && fuel <= at.depth && fuel <= deep
    ensures Fated(store, filter, StartOp(store, json, filter, at), FateOf(store, json, filter.prop, at.onWorker, fuel), deep)
    decreases fuel, 1
  {
    if IsPlain(json) {
      PlainFated(store, json, filter, at.onWorker, fuel, deep);
    } else {
      var starts := StartSlots(store, SourceOf(store, json, at.onWorker), filter, 0, SizeOf(json), Deeper(at));
      LoopIsFated(store, json, filter, at, fuel, deep, starts);
      LoopEnds(store, json, filter, at, fuel, deep, starts);
    }
  }

  lemma {:induction false} LaunchMeetsFate(store: Store, json: Json, filter: Filter, worker: bool, fuel: nat, deep: nat, starts: seq<SlotStart>)
    requires !IsPlain(json) && fuel > 0 && |starts| == SizeOf(json)
    requires LoopFated(store, filter, starts, Scanned(store, json, worker, fuel), worker, fuel - 1, deep)
    ensures Fated(store, filter, Launch(filter, starts), FateOf(store, json, filter.prop, worker, fuel), deep)
  {
    LaunchFated(store, filter, starts, Scanned(store, json, worker, fuel), worker, fuel - 1, deep);
    FateUnfolds(store, json, filter.prop, worker, fuel);
  }

  lemma {:induction false} LoopEnds(store: Store, json: Json, filter: Filter, at: Place, fuel: nat, deep: nat, starts: seq<SlotStart>)
    requires !IsPlain(json) && at.depth > 0 && fuel > 0
    requires starts == StartSlots(store, SourceOf(store, json, at.onWorker), filter, 0, SizeOf(json), Deeper(at))
    requires LoopFated(store, filter, starts, Scanned(store, json, at.onWorker, fuel), at.onWorker, fuel - 1, deep)
    ensures Fated(store, filter, StartOp(store, json, filter, at), FateOf(store, json, filter.prop, at.onWorker, fuel), deep)
  {
    var fate := FateOf(store, json, filter.prop, at.onWorker, fuel);
    LaunchMeetsFate(store, json, filter, at.onWorker, fuel, deep, starts);
    StartUnfolds(store, json, filter, at, starts);
    var made :| StartOp(store, json, filter, at) == More(made, Launch(filter, starts));
    FatedMore(store, filter, Launch(filter, starts), made, fate, deep);
  }

  lemma FatedMore(store: Store, filter: Filter, started: Started, made: nat, fate: Fate, fuel: nat)
    requires Fated(store, filter, started, fate, fuel)
    ensures Fated(store, filter, More(made, started), fate, fuel)
  {
  }

  /** Starting a filter on an array or collection is launching the loop over its entries. */
  lemma {:induction false} StartUnfolds(store: Store, json: Json, filter: Filter, at: Place, starts: seq<SlotStart>)
    requires !IsPlain(json) && at.depth > 0
    requires starts == StartSlots(store, SourceOf(store, json, at.onWorker), filter, 0, SizeOf(json), Deeper(at))
    ensures exists made :: StartOp(store, json, filter, at) == More(made, Launch(filter, starts))
  {
    if IsCollection(json) {
      MembersAre(store, json, at);
      if SizeOf(json) == 0 {
        assert StartOp(store, json, filter, at) == More(0, Launch(filter, starts));
      } else {
        assert StartOp(store, json, filter, at) == More(FetchMembers(store, json, at).1, Launch(filter, starts));
      }
    } else {
      assert StartOp(store, json, filter, at) == More(0, Launch(filter, starts));
    }
  }

  lemma {:induction false} LoopIsFated(store: Store, json: Json, filter: Filter, at: Place, fuel: nat, deep: nat, starts: seq<SlotStart>)
    requires Answers(store, json, filter, fuel) && fuel <= at.depth && fuel <= deep && !IsPlain(json)
    requires starts == StartSlots(store, SourceOf(store, json, at.onWorker), filter, 0, SizeOf(json), Deeper(at))
    ensures fuel > 0 && LoopFated(store, filter, starts, Scanned(store, json, at.onWorker, fuel), at.onWorker, fuel - 1, deep)
    decreases fuel, 0, 1
  {
    var source, entries := SourceOf(store, json, at.onWorker), Scanned(store, json, at.onWorker, fuel);
    forall i | 0 <= i < |starts|
      ensures if i < |entries| then !starts[i].NotStarted? && FatedSlot(store, filter, starts[i], FateOfEntry(store, entries[i], filter.prop, at.onWorker, fuel - 1), deep)
              else starts[i].NotStarted?
    {
      StartSlotsAt(store, source, filter, 0, SizeOf(json), Deeper(at), i);
      ScannedAnswer(store, json, filter, at.onWorker, fuel, i);
      if source.Some? {
        EntryStarted(store, source, i, Deeper(at), fuel - 1);
        SlotIsFated(store, source, entries, filter, i, Deeper(at), fuel - 1, deep);
      }
    }
  }

  lemma {:induction false} SlotIsFated(store: Store, source: Option<Json>, entries: seq<Json>, filter: Filter, i: nat, at: Place, fuel: nat, deep: nat)
    requires fuel <= at.depth && fuel <= deep && StartsAtEntry(StartIndex(store, source, i, at), entries, i)
    requires i < |entries| ==> EntryAnswers(store, entries[i], filter, fuel)
    ensures var start := StartSlot(store, source, filter, i, at);
            if i < |entries| then !start.NotStarted? && FatedSlot(store, filter, start, FateOfEntry(store, entries[i], filter.prop, at.onWorker, fuel), deep)
            else start.NotStarted?
    decreases fuel, 2
  {
    if i < |entries| {
      match LinkOf(entries[i]) {
        case Some(uri) => LinkedSlot(store, filter, uri, fuel, deep);
        case None =>
          StartFated(store, entries[i], filter, at, fuel, deep);
          FilterStarted(store, filter, StartOp(store, entries[i], filter, at), StartIndex(store, source, i, at).gets,
                        FateOf(store, entries[i], filter.prop, at.onWorker, fuel), deep);
      }
    }
  }

  lemma {:induction false} LinkedSlot(store: Store, filter: Filter, uri: string, fuel: nat, deep: nat)
    requires fuel <= deep && (uri in store ==> Answers(store, store[uri], filter, fuel))
    ensures ReadySlot(store, AwaitIndex(uri), filter, deep)
    ensures SlotFate(store, filter.prop, AwaitIndex(uri), deep) == FateOfLink(store, uri, filter.prop, fuel)
  {
    if uri in store {
      FateDeeper(store, store[uri], filter, true, fuel, deep);
      OpResultDeeper(store, Some(store[uri]), filter, fuel, deep);
    }
  }

  // --------------------------------------------------------------------- replies

  function OneLess(fate: Fate): Fate {
    if fate.Never? || fate.replies == 0 then fate else After(fate.replies - 1)
  }

  lemma BothAfterNone(fate: Fate)
    ensures Both(After(0), fate) == fate
  {
  }

  lemma BothSwap(a: Fate, b: Fate, c: Fate)
    ensures Both(a, Both(b, c)) == Both(b, Both(a, c))
  {
  }

  lemma {:induction false} AllSplit(fates: seq<Fate>, i: nat)
    requires i < |fates|
    ensures All(fates) == Both(fates[i], All(fates[i := After(0)]))
    decreases |fates|
  {
    var rest := fates[i := After(0)];
    if i == 0 {
      assert rest[1..] == fates[1..];
      BothAfterNone(All(fates[1..]));
    } else {
      AllSplit(fates[1..], i - 1);
      assert rest[1..] == fates[1..][i - 1 := After(0)];
      BothSwap(fates[0], fates[i], All(rest[1..]));
    }
  }

  /** Putting something else into one slot. */
  lemma {:induction false} FatesPut(store: Store, prop: string, slots: seq<SlotState>, i: nat, slot: SlotState, fuel: nat)
    requires i < |slots|
    ensures All(SlotFates(store, prop, slots[i := slot], fuel)) ==
            Both(SlotFate(store, prop, slot, fuel), All(SlotFates(store, prop, slots[i := Counted], fuel)))
  {
    var fates, others := SlotFates(store, prop, slots[i := slot], fuel), SlotFates(store, prop, slots[i := Counted], fuel);
    assert fates[i := After(0)] == others by {
      forall k | 0 <= k < |fates| && k != i ensures fates[k] == others[k] {
        assert slots[i := slot][k] == slots[i := Counted][k];
      }
      assert others[i] == SlotFate(store, prop, Counted, fuel);
    }
    AllSplit(fates, i);
  }

  ghost predicate ProgressFated(store: Store, filter: Filter, progress: Progress, fate: Fate, fuel: nat) {
    match progress
    case Working(stage) => Ready(store, stage, filter, fuel) && StageFate(store, stage, fuel) == fate
    case Finished(_) => AtOnce(fate)
  }

  /** What becomes of a fan-out apart from slot `i`. */
  ghost function Others(store: Store, prop: string, slots: seq<SlotState>, i: nat, fuel: nat): Fate
    requires i < |slots|
  {
    All(SlotFates(store, prop, slots[i := Counted], fuel))
  }

  lemma {:induction false} ReadyPut(store: Store, filter: Filter, context: Context, slots: seq<SlotState>, i: nat, slot: SlotState, fuel: nat)
    requires i < |slots| && !slots[i].Counted? && Ready(store, AwaitAll(filter, context, slots), filter, fuel)
    requires !slot.Counted? && ReadySlot(store, slot, filter, fuel)
    ensures Ready(store, AwaitAll(filter, context, slots[i := slot]), filter, fuel)
  {
    OpenPut(slots, i, slot);
    var after := slots[i := slot];
    forall k | 0 <= k < |after| ensures ReadySlot(store, after[k], filter, fuel) {
      assert k != i ==> after[k] == slots[k];
    }
  }

  lemma {:induction false} ReadyCounted(store: Store, filter: Filter, context: Context, slots: seq<SlotState>, i: nat, context': Context, fuel: nat)
    requires i < |slots| && !slots[i].Counted? && Ready(store, AwaitAll(filter, context, slots), filter, fuel)
    requires context'.left == context.left - 1
    ensures context'.left == Open(slots[i := Counted])
    ensures context'.left > 0 ==> Ready(store, AwaitAll(filter, context', slots[i := Counted]), filter, fuel)
  {
    OpenSplit(slots, i);
    var after := slots[i := Counted];
    forall k | 0 <= k < |after| ensures ReadySlot(store, after[k], filter, fuel) {
      assert k != i ==> after[k] == slots[k];
    }
  }

  lemma {:induction false} CountFated(store: Store, filter: Filter, context: Context, slots: seq<SlotState>, i: nat, kept: Option<Json>, fuel: nat)
    requires i < |slots| && !slots[i].Counted? && Ready(store, AwaitAll(filter, context, slots), filter, fuel)
    ensures ProgressFated(store, filter, CountSlot(filter, context, slots, i, kept), Others(store, filter.prop, slots, i, fuel), fuel)
  {
    ReadyCounted(store, filter, context, slots, i, Count(context, kept), fuel);
    if Open(slots[i := Counted]) == 0 {
      NothingOpen(store, filter.prop, slots[i := Counted], fuel);
    }
  }

  /** What a reply makes of a slot goes into the fan-out. */
  lemma {:induction false} PutFated(store: Store, filter: Filter, context: Context, slots: seq<SlotState>, i: nat, start: SlotStart, fate: Fate, fuel: nat)
    requires i < |slots| && !slots[i].Counted? && Ready(store, AwaitAll(filter, context, slots), filter, fuel)
    requires FatedSlot(store, filter, start, fate, fuel)
    ensures ProgressFated(store, filter, PutSlot(filter, context, slots, i, start), Both(fate, Others(store, filter.prop, slots, i, fuel)), fuel)
  {
    match start {
      case Waiting(_, slot) =>
        FatesPut(store, filter.prop, slots, i, slot, fuel);
        ReadyPut(store, filter, context, slots, i, slot, fuel);
      case Done(_, kept) =>
        CountFated(store, filter, context, slots, i, kept, fuel);
        BothAfterNone(Others(store, filter.prop, slots, i, fuel));
      case NotStarted(_) =>
        CountFated(store, filter, context, slots, i, None, fuel);
        BothAfterNone(Others(store, filter.prop, slots, i, fuel));
    }
  }

  lemma OneLessOfBoth(a: Fate, b: Fate)
    requires !AtOnce(a)
    ensures OneLess(Both(a, b)) == Both(OneLess(a), b)
  {
  }

  /** A reply has been spent on slot `i`. */
  lemma {:induction false} SlotAnswered(store: Store, filter: Filter, context: Context, slots: seq<SlotState>, i: nat, start: SlotStart, fate: Fate, fuel: nat)
    requires i < |slots| && !slots[i].Counted? && Ready(store, AwaitAll(filter, context, slots), filter, fuel)
    requires fate == SlotFate(store, filter.prop, slots[i], fuel) && !AtOnce(fate) && FatedSlot(store, filter, start, OneLess(fate), fuel)
    ensures ProgressFated(store, filter, PutSlot(filter, context, slots, i, start),
                          OneLess(StageFate(store, AwaitAll(filter, context, slots), fuel)), fuel)
  {
    PutFated(store, filter, context, slots, i, start, OneLess(fate), fuel);
    assert StageFate(store, AwaitAll(filter, context, slots), fuel) == Both(fate, Others(store, filter.prop, slots, i, fuel)) by {
      FatesPut(store, filter.prop, slots, i, slots[i], fuel);
      assert slots[i := slots[i]] == slots;
    }
    OneLessOfBoth(fate, Others(store, filter.prop, slots, i, fuel));
  }

  lemma {:induction false} ElementArrived(store: Store, filter: Filter, uri: string, depth: nat, fuel: nat)
    requires ReadySlot(store, AwaitIndex(uri), filter, fuel) && fuel <= depth
    ensures var fate := SlotFate(store, filter.prop, AwaitIndex(uri), fuel);
            !AtOnce(fate) && FatedSlot(store, filter, SlotAfter(store, Keeps(Response(store, uri)), filter, depth), OneLess(fate), fuel)
  {
    if uri in store {
      StartFated(store, store[uri], filter, Place(true, depth), fuel, fuel);
      FilterStarted(store, filter, StartOp(store, store[uri], filter, Place(true, depth)), 0, FateOf(store, store[uri], filter.prop, true, fuel), fuel);
    }
  }

  /** Every reply, whichever request it answers, brings a filter one reply closer to its
      fate. */
  lemma {:induction false} AnswerFated(store: Store, filter: Filter, stage: Stage, position: seq<nat>, depth: nat, fuel: nat)
    requires Ready(store, stage, filter, fuel) && Outstanding(stage, position) && fuel <= depth
    ensures !AtOnce(StageFate(store, stage, fuel))
    ensures ProgressFated(store, filter, Answer(store, stage, position, depth), OneLess(StageFate(store, stage, fuel)), fuel)
    decreases stage
  {
    OpenIsNotAtOnce(store, stage, filter, fuel);
    if stage.AwaitAll? {
      var i, context, slots := position[0], stage.context, stage.slots;
      assert ReadySlot(store, slots[i], filter, fuel);
      if slots[i].AwaitIndex? {
        ElementArrived(store, filter, slots[i].uri, depth, fuel);
        SlotAnswered(store, filter, context, slots, i, SlotAfter(store, Keeps(Response(store, slots[i].uri)), filter, depth),
                     SlotFate(store, filter.prop, slots[i], fuel), fuel);
      } else {
        AnswerFated(store, filter, slots[i].stage, position[1..], depth, fuel);
        var progress := Answer(store, slots[i].stage, position[1..], depth);
        SlotAnswered(store, filter, context, slots, i, Resumed(progress), StageFate(store, slots[i].stage, fuel), fuel);
        AnswerUnfolds(store, filter, context, slots, position, depth);
      }
    }
  }

  /** A filter that will call back has a request in the queue. */
  lemma {:induction false} SomethingToAnswer(store: Store, filter: Filter, stage: Stage, fuel: nat) returns (position: seq<nat>)
    requires Ready(store, stage, filter, fuel) && StageFate(store, stage, fuel).After?
    ensures Outstanding(stage, position)
    decreases stage
  {
    position := [];
    if stage.AwaitAll? {
      var i := OpenSlot(stage.slots);
      var fates := SlotFates(store, filter.prop, stage.slots, fuel);
      NoneNever(fates);
      assert !fates[i].Never?;
      assert fates[i] == SlotFate(store, filter.prop, stage.slots[i], fuel) && ReadySlot(store, stage.slots[i], filter, fuel);
      if stage.slots[i].AwaitResult? {
        var inner := SomethingToAnswer(store, filter, stage.slots[i].stage, fuel);
        position := [i] + inner;
        assert position[1..] == inner;
      } else {
        position := [i];
      }
    }
  }

  // ------------------------------------------------------------------------ runs

  function Minus(fate: Fate, replies: nat): Fate {
    if fate.Never? || fate.replies < replies then fate else After(fate.replies - replies)
  }

  /** A walk that is one filter, with its fate. */
  ghost predicate WalkFated(store: Store, filter: Filter, walk: Walk, fate: Fate, fuel: nat) {
    match walk
    case Rejected(_) => AtOnce(fate)
    case Delivered(_, _) => AtOnce(fate)
    case Vanished(_) => fate.Never?
    case Walking(_, stage, rest) => rest == [] && Ready(store, stage, filter, fuel) && StageFate(store, stage, fuel) == fate
  }

  lemma {:induction false} FilterWalkStarts(store: Store, json: Json, step: Step, at: Place, fuel: nat)
    requires IsFilter(step) && fuel <= at.depth && Answers(store, json, FilterOf(step), fuel)
    ensures WalkFated(store, FilterOf(step), StartPath(store, Some(json), [step], at), FateOf(store, json, FilterOf(step).prop, at.onWorker, fuel), fuel)
  {
    StartFated(store, json, FilterOf(step), at, fuel, fuel);
    WalkOfStep(store, json, step, at, FilterOf(step), StartOp(store, json, FilterOf(step), at),
               FateOf(store, json, FilterOf(step).prop, at.onWorker, fuel), fuel);
  }

  lemma {:induction false} WalkOfStep(store: Store, json: Json, step: Step, at: Place, filter: Filter, started: Started, fate: Fate, fuel: nat)
    requires IsFilter(step) && filter == FilterOf(step) && started == StartOp(store, json, filter, at)
    requires Fated(store, filter, started, fate, fuel)
    ensures WalkFated(store, filter, StartPath(store, Some(json), [step], at), fate, fuel)
  {
    StepIsPath(store, json, step, at, started);
  }

  /** A one-step path starts its filter and hands on what comes of it. */
  lemma {:induction false} StepIsPath(store: Store, json: Json, step: Step, at: Place, started: Started)
    requires IsFilter(step) && started == StartOp(store, json, FilterOf(step), at)
    ensures StartPath(store, Some(json), [step], at) == match started
                                                        case Refused(gets) => Rejected(gets)
                                                        case Replied(gets, reply) => Delivered(gets, reply)
                                                        case Accepted(gets, stage) => Walking(gets, stage, [])
                                                        case Lost(gets) => Vanished(gets)
                                                        case OutOfDepth(gets) => Vanished(gets)
  {
    assert [step][0] == step && [step][1..] == [];
    assert StartPath(store, Some(json), [step], at) == Handed(store, started, [], at);
    HandedAtTheEnd(store, started, at);
  }

  lemma {:induction false} HandedAtTheEnd(store: Store, started: Started, at: Place)
    ensures Handed(store, started, [], at) == match started
                                              case Refused(gets) => Rejected(gets)
                                              case Replied(gets, reply) => Delivered(gets, reply)
                                              case Accepted(gets, stage) => Walking(gets, stage, [])
                                              case Lost(gets) => Vanished(gets)
                                              case OutOfDepth(gets) => Vanished(gets)
  {
    if started.Replied? {
      assert GotNext(store, started.reply, [], at) == Delivered(0, started.reply);
    }
  }

  lemma {:induction false} RunFated(store: Store, filter: Filter, walk: Walk, order: seq<seq<nat>>, depth: nat, fate: Fate, fuel: nat)
    requires WalkFated(store, filter, walk, fate, fuel) && fuel <= depth && IsRun(store, walk, order, depth)
    ensures fate.After? ==> |order| <= fate.replies
    ensures WalkFated(store, filter, AfterRun(store, walk, order, depth), Minus(fate, |order|), fuel)
    decreases |order|
  {
    if order != [] {
      AnswerFated(store, filter, walk.stage, order[0], depth, fuel);
      RunFated(store, filter, AnswerWalk(store, walk, order[0], depth), order[1..], depth, OneLess(fate), fuel);
    }
  }

  /** The user callback runs in no run. */
  ghost predicate NeverCallsBack(store: Store, walk: Walk, depth: nat) {
    forall order: seq<seq<nat>> :: IsRun(store, walk, order, depth) ==> !AfterRun(store, walk, order, depth).Delivered?
  }

  /** Where a fated walk stands. */
  lemma {:induction false} FatedMeans(store: Store, filter: Filter, walk: Walk, fate: Fate, fuel: nat)
    requires WalkFated(store, filter, walk, fate, fuel)
    ensures fate.Never? ==> !walk.Delivered? && !walk.Rejected?
    ensures fate.After? && fate.replies > 0 ==> CanMoveOn(walk)
    ensures AtOnce(fate) ==> walk.Delivered? || walk.Rejected?
  {
    if walk.Walking? {
      OpenIsNotAtOnce(store, walk.stage, filter, fuel);
      if fate.After? {
        var position := SomethingToAnswer(store, filter, walk.stage, fuel);
        assert CanAnswer(walk, position);
      }
    }
  }

  /** A filter the blocking walk answers, started on any thread, in every order of replies: if
      it is not silent, somebody can be answered until the number of replies its data call for
      have come, and then it has called back, or was refused and none were due; if it is
      silent, it has been accepted and has not called back. */
  lemma {:induction false} EveryRunMeetsItsFate(store: Store, json: Json, step: Step, at: Place, fuel: nat, order: seq<seq<nat>>)
    requires IsFilter(step) && fuel <= at.depth && Answers(store, json, FilterOf(step), fuel)
    requires IsRun(store, StartPath(store, Some(json), [step], at), order, at.depth)
    ensures var walk := AfterRun(store, StartPath(store, Some(json), [step], at), order, at.depth);
            match FateOf(store, json, FilterOf(step).prop, at.onWorker, fuel)
            case Never => !walk.Delivered? && !walk.Rejected?
            case After(replies) =>
              && |order| <= replies
              && if |order| < replies then CanMoveOn(walk) else walk.Delivered? || walk.Rejected?
  {
    var fate := FateOf(store, json, FilterOf(step).prop, at.onWorker, fuel);
    var start := StartPath(store, Some(json), [step], at);
    FilterWalkStarts(store, json, step, at, fuel);
    RunFated(store, FilterOf(step), start, order, at.depth, fate, fuel);
    FatedMeans(store, FilterOf(step), AfterRun(store, start, order, at.depth), Minus(fate, |order|), fuel);
  }

  /** A run that answers all there is to answer. */
  lemma {:induction false} RunToTheEnd(store: Store, filter: Filter, walk: Walk, depth: nat, fate: Fate, fuel: nat) returns (order: seq<seq<nat>>)
    requires WalkFated(store, filter, walk, fate, fuel) && fate.After? && fuel <= depth
    ensures IsRun(store, walk, order, depth) && |order| == fate.replies
    decreases fate.replies
  {
    order := [];
    if fate.replies > 0 {
      FatedMeans(store, filter, walk, fate, fuel);
      var position :| CanAnswer(walk, position);
      AnswerFated(store, filter, walk.stage, position, depth, fuel);
      var rest := RunToTheEnd(store, filter, AnswerWalk(store, walk, position, depth), depth, OneLess(fate), fuel);
      order := [position] + rest;
      assert order[1..] == rest;
    }
  }

  /** The exact condition: a filter is accepted and then calls back in no run if and only if
      its data are silent. */
  lemma {:induction false} NeverCallsBackExactlyWhenSilent(store: Store, json: Json, step: Step, at: Place, fuel: nat)
    requires IsFilter(step) && fuel <= at.depth && Answers(store, json, FilterOf(step), fuel)
    ensures var start := StartPath(store, Some(json), [step], at);
            !start.Rejected? && NeverCallsBack(store, start, at.depth) <==> Silent(store, json, FilterOf(step).prop, at.onWorker, fuel)
  {
    var fate := FateOf(store, json, FilterOf(step).prop, at.onWorker, fuel);
    var start := StartPath(store, Some(json), [step], at);
    FilterWalkStarts(store, json, step, at, fuel);
    if fate.Never? {
      forall order: seq<seq<nat>> | IsRun(store, start, order, at.depth) ensures !AfterRun(store, start, order, at.depth).Delivered? {
        EveryRunMeetsItsFate(store, json, step, at, fuel, order);
      }
      FatedMeans(store, FilterOf(step), start, fate, fuel);
    } else if !start.Rejected? {
      var order := RunToTheEnd(store, FilterOf(step), start, at.depth, fate, fuel);
      EveryRunMeetsItsFate(store, json, step, at, fuel, order);
      OnceAccepted(store, start, order, at.depth);
      assert AfterRun(store, start, order, at.depth).Delivered?;
    }
  }

  /** A walk that was accepted is not refused later on. */
  lemma {:induction false} OnceAccepted(store: Store, walk: Walk, order: seq<seq<nat>>, depth: nat)
    requires !walk.Rejected? && IsRun(store, walk, order, depth)
    ensures !AfterRun(store, walk, order, depth).Rejected?
    decreases |order|
  {
    if order != [] {
      OnceAccepted(store, AnswerWalk(store, walk, order[0], depth), order[1..], depth);
    }
  }
}
