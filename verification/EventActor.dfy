/** The event thread: it takes work items off its queue, keeps a linked list of callback
    registrations, and hands every event to the registrations that want it. */
module EventActor {
  import opened Wrappers

  /** `EventCallbackRegister`; the callback is known by its address. */
  datatype Registration = Registration(callback: nat, eventTypes: bv32, context: Option<string>)

  datatype Event = Event(id: nat, eventType: bv32)

  datatype WorkItem =
    | Register(registration: Registration)
    | Unregister(registration: Registration)
    | NewEvent(event: Event)
    | Termination
    | Unknown(kind: nat)    // reported, and then treated as a termination

  datatype Call = Call(callback: nat, event: Event)

  // --------------------------------------------------------------- specification

  /** NULL on either side stands for any context. */
  predicate Matches(entry: Registration, asked: Registration) {
    && entry.callback == asked.callback
    && (asked.context.None? || entry.context.None? || asked.context == entry.context)
  }

  predicate Wants(entry: Registration, event: Event) {
    event.eventType & entry.eventTypes != 0
  }

  /** A mask of exactly one bit. */
  predicate IsSingle(bit: bv32) {
    bit != 0 && bit & (bit - 1) == 0
  }

  predicate HasBit(mask: bv32, bit: bv32) {
    mask & bit == bit
  }

  /** Some bit is set in both masks. */
  ghost predicate ShareABit(a: bv32, b: bv32) {
    exists bit: bv32 :: IsSingle(bit) && HasBit(a, bit) && HasBit(b, bit)
  }

  predicate Ends(item: WorkItem) {
    item.Termination? || item.Unknown?
  }

  function RemoveFirst(entries: seq<Registration>, asked: Registration): seq<Registration> {
    if entries == [] then []
    else if Matches(entries[0], asked) then entries[1..]
    else [entries[0]] + RemoveFirst(entries[1..], asked)
  }

  function Receivers(entries: seq<Registration>, event: Event): seq<Call> {
    if entries == [] then []
    else (if Wants(entries[0], event) then [Call(entries[0].callback, event)] else []) + Receivers(entries[1..], event)
  }

  function Handle(entries: seq<Registration>, item: WorkItem): seq<Registration> {
    match item
    case Register(registration) => entries + [registration]
    case Unregister(asked) => RemoveFirst(entries, asked)
    case _ => entries
  }

  /** The calls one work item makes. */
  function Made(entries: seq<Registration>, item: WorkItem): seq<Call> {
    if item.NewEvent? then Receivers(entries, item.event) else []
  }

  /** The calls for a sequence of work items, up to the first that ends the thread. */
  function Calls(entries: seq<Registration>, items: seq<WorkItem>): seq<Call>
    decreases |items|
  {
    if items == [] || Ends(items[0]) then []
    else
      Made(entries, items[0]) + Calls(Handle(entries, items[0]), items[1..])
  }

  function Present(entries: seq<Registration>, items: seq<WorkItem>): seq<Registration>
    decreases |items|
  {
    if items == [] then entries else Present(Handle(entries, items[0]), items[1..])
  }

  // ------------------------------------------------------- laws of the specification

  /** `s` without its element `k`. */
  function Without<T>(s: seq<T>, k: nat): (r: seq<T>)
    requires k < |s|
    ensures |r| == |s| - 1 && forall i :: 0 <= i < |r| ==> r[i] == if i < k then s[i] else s[i + 1]
  {
    s[..k] + s[k + 1..]
  }

  /** Unregistering takes away the first match and nothing else. */
  lemma {:induction false} RemovesOnlyTheFirst(entries: seq<Registration>, asked: Registration, k: nat)
    requires k < |entries| && Matches(entries[k], asked)
    requires forall i :: 0 <= i < k ==> !Matches(entries[i], asked)
    ensures RemoveFirst(entries, asked) == Without(entries, k)
    decreases k
  {
    if k > 0 {
      RemovesOnlyTheFirst(entries[1..], asked, k - 1);
    }
  }

  lemma {:induction false} RemovesNothing(entries: seq<Registration>, asked: Registration)
    requires forall i :: 0 <= i < |entries| ==> !Matches(entries[i], asked)
    ensures RemoveFirst(entries, asked) == entries
    decreases |entries|
  {
    if entries != [] {
      RemovesNothing(entries[1..], asked);
    }
  }

  /** Unregistering a callback without a context takes away its first registration, whatever
      the context and the mask that one was made with. */
  lemma {:induction false} UnregisterCallback(entries: seq<Registration>, callback: nat, eventTypes: bv32, k: nat)
    requires k < |entries| && entries[k].callback == callback
    requires forall i :: 0 <= i < k ==> entries[i].callback != callback
    ensures Present(entries, [Unregister(Registration(callback, eventTypes, None))]) == Without(entries, k)
  {
    UnregisterOne(entries, Registration(callback, eventTypes, None), k);
  }

  /** With a context it is the first registration of the callback with that context or none;
      those with another context stay. */
  lemma {:induction false} UnregisterContext(entries: seq<Registration>, callback: nat, eventTypes: bv32, context: string, k: nat)
    requires k < |entries| && entries[k].callback == callback
    requires entries[k].context == None || entries[k].context == Some(context)
    requires forall i :: 0 <= i < k ==>
               entries[i].callback != callback || (entries[i].context != None && entries[i].context != Some(context))
    ensures Present(entries, [Unregister(Registration(callback, eventTypes, Some(context)))]) == Without(entries, k)
  {
    UnregisterOne(entries, Registration(callback, eventTypes, Some(context)), k);
  }

  lemma {:induction false} UnregisterOne(entries: seq<Registration>, asked: Registration, k: nat)
    requires k < |entries| && Matches(entries[k], asked)
    requires forall i :: 0 <= i < k ==> !Matches(entries[i], asked)
    ensures Present(entries, [Unregister(asked)]) == Without(entries, k)
  {
    RemovesOnlyTheFirst(entries, asked, k);
    assert [Unregister(asked)][1..] == [];
    assert Present(entries, [Unregister(asked)]) == Present(Handle(entries, Unregister(asked)), []);
  }

  /** Unregistering what was registered last restores the list, unless it matches earlier. */
  lemma {:induction false} UnregisterUndoesRegister(entries: seq<Registration>, added: Registration)
    requires forall i :: 0 <= i < |entries| ==> !Matches(entries[i], added)
    ensures Present(entries, [Register(added), Unregister(added)]) == entries
  {
    var more := entries + [added];
    RemovesOnlyTheFirst(more, added, |entries|);
    assert Without(more, |entries|) == entries;
    assert Present(more, [Unregister(added)]) == Present(RemoveFirst(more, added), []);
    assert [Register(added), Unregister(added)][1..] == [Unregister(added)];
  }

  lemma {:induction false} ReceiversSplit(entries: seq<Registration>, more: seq<Registration>, event: Event)
    ensures Receivers(entries + more, event) == Receivers(entries, event) + Receivers(more, event)
    decreases |entries|
  {
    if entries == [] {
      assert entries + more == more;
    } else {
      assert (entries + more)[1..] == entries[1..] + more;
      ReceiversSplit(entries[1..], more, event);
    }
  }

  lemma {:induction false} LowestBit(mask: bv32)
    requires mask != 0
    ensures IsSingle(mask & (0 - mask)) && HasBit(mask, mask & (0 - mask))
  {
  }

  lemma {:induction false} BitOfBoth(a: bv32, b: bv32, both: bv32, bit: bv32)
    requires both == a & b && HasBit(both, bit)
    ensures HasBit(a, bit) && HasBit(b, bit)
  {
  }

  lemma {:induction false} BothMeet(a: bv32, b: bv32, bit: bv32)
    requires IsSingle(bit) && HasBit(a, bit) && HasBit(b, bit)
    ensures a & b != 0
  {
  }

  lemma {:induction false} SharedBy(a: bv32, b: bv32, bit: bv32)
    requires IsSingle(bit) && HasBit(a, bit) && HasBit(b, bit)
    ensures ShareABit(a, b)
  {
  }

  lemma {:induction false} MeetingShare(a: bv32, b: bv32, both: bv32, bit: bv32)
    requires both == a & b && both != 0 && bit == both & (0 - both)
    ensures ShareABit(a, b)
  {
    LowestBit(both);
    BitOfBoth(a, b, both, bit);
    SharedBy(a, b, bit);
  }

  lemma {:induction false} SharingMeet(a: bv32, b: bv32)
    requires ShareABit(a, b)
    ensures a & b != 0
  {
    var bit :| IsSingle(bit) && HasBit(a, bit) && HasBit(b, bit);
    BothMeet(a, b, bit);
  }

  lemma {:induction false} WantedShares(entry: Registration, event: Event)
    requires Wants(entry, event)
    ensures ShareABit(event.eventType, entry.eventTypes)
  {
    var both := event.eventType & entry.eventTypes;
    MeetingShare(event.eventType, entry.eventTypes, both, both & (0 - both));
  }

  lemma {:induction false} SharingWanted(entry: Registration, event: Event)
    requires ShareABit(event.eventType, entry.eventTypes)
    ensures Wants(entry, event)
  {
    SharingMeet(event.eventType, entry.eventTypes);
  }

  lemma {:induction false} SingleMeets(bit: bv32, mask: bv32)
    requires IsSingle(bit)
    ensures bit & mask != 0 <==> HasBit(mask, bit)
  {
  }

  /** An event of a single type is served exactly to the registrations that have its bit; a
      mask of 0 receives nothing. */
  lemma {:induction false} SingleTypeServed(entry: Registration, event: Event)
    ensures IsSingle(event.eventType) ==>
              Receivers([entry], event) == if HasBit(entry.eventTypes, event.eventType) then [Call(entry.callback, event)] else []
    ensures entry.eventTypes == 0 ==> Receivers([entry], event) == []
  {
    assert [entry][1..] == [];
    if IsSingle(event.eventType) {
      SingleMeets(event.eventType, entry.eventTypes);
    }
  }

  lemma {:induction false} ReceiversAround(entries: seq<Registration>, event: Event, k: nat)
    requires k < |entries|
    ensures Receivers(entries, event) ==
            Receivers(entries[..k], event)
            + (if Wants(entries[k], event) then [Call(entries[k].callback, event)] else [])
            + Receivers(entries[k + 1..], event)
  {
    assert entries == entries[..k] + ([entries[k]] + entries[k + 1..]);
    ReceiversSplit(entries[..k], [entries[k]] + entries[k + 1..], event);
    ReceiversSplit([entries[k]], entries[k + 1..], event);
    assert [entries[k]][1..] == [];
    assert Receivers([entries[k]], event) ==
           (if Wants(entries[k], event) then [Call(entries[k].callback, event)] else []) + Receivers([], event);
  }

  /** Every registration present gets an event exactly once if some bit is set in its mask and
      in the type of the event, and not at all otherwise; registrations before it are served
      before it. */
  lemma {:induction false} ServedOnceInOrder(entries: seq<Registration>, event: Event, k: nat)
    requires k < |entries|
    ensures Receivers(entries, event) ==
            Receivers(entries[..k], event)
            + (if ShareABit(event.eventType, entries[k].eventTypes) then [Call(entries[k].callback, event)] else [])
            + Receivers(entries[k + 1..], event)
  {
    ReceiversAround(entries, event, k);
    if Wants(entries[k], event) {
      WantedShares(entries[k], event);
    } else if ShareABit(event.eventType, entries[k].eventTypes) {
      SharingWanted(entries[k], event);
    }
  }

  predicate GoesOn(items: seq<WorkItem>) {
    forall i :: 0 <= i < |items| ==> !Ends(items[i])
  }

  lemma {:induction false} CallsCons(entries: seq<Registration>, items: seq<WorkItem>, item: WorkItem, rest: seq<WorkItem>)
    requires items == [item] + rest && !Ends(item)
    ensures Calls(entries, items) == Made(entries, item) + Calls(Handle(entries, item), rest)
  {
    assert items[0] == item && items[1..] == rest;
  }

  lemma {:induction false} GoesOnRest(items: seq<WorkItem>, rest: seq<WorkItem>)
    requires GoesOn(items) && items != [] && rest == items[1..]
    ensures GoesOn(rest) && !Ends(items[0])
  {
    assert forall i :: 0 <= i < |rest| ==> rest[i] == items[i + 1];
  }

  lemma {:induction false} ConsAppend(items: seq<WorkItem>, item: WorkItem, rest: seq<WorkItem>, more: seq<WorkItem>)
    requires items == [item] + rest
    ensures items + more == [item] + (rest + more)
  {
  }

  lemma {:induction false} Glue<T>(a: seq<T>, b: seq<T>, c: seq<T>)
    ensures a + (b + c) == a + b + c
  {
  }

  lemma {:induction false} CallsSplit(entries: seq<Registration>, items: seq<WorkItem>, more: seq<WorkItem>)
    requires GoesOn(items)
    ensures Calls(entries, items + more) == Calls(entries, items) + Calls(Present(entries, items), more)
    decreases |items|
  {
    if items == [] {
      assert items + more == more;
    } else {
      var item, rest := items[0], items[1..];
      GoesOnRest(items, rest);
      ConsAppend(items, item, rest, more);
      CallsCons(entries, items, item, rest);
      CallsCons(entries, items + more, item, rest + more);
      CallsSplit(Handle(entries, item), rest, more);
      Glue(Made(entries, item), Calls(Handle(entries, item), rest), Calls(Present(Handle(entries, item), rest), more));
    }
  }

  lemma {:induction false} PresentSplit(entries: seq<Registration>, items: seq<WorkItem>, more: seq<WorkItem>)
    ensures Present(entries, items + more) == Present(Present(entries, items), more)
    decreases |items|
  {
    if items == [] {
      assert items + more == more;
    } else {
      assert (items + more)[0] == items[0] && (items + more)[1..] == items[1..] + more;
      PresentSplit(Handle(entries, items[0]), items[1..], more);
    }
  }

  lemma {:induction false} OneMoreItem(items: seq<WorkItem>, k: nat)
    requires k < |items| && GoesOn(items[..k]) && !Ends(items[k])
    ensures GoesOn(items[..k + 1])
    ensures var present := Present([], items[..k]);
            && Present([], items[..k + 1]) == Handle(present, items[k])
            && Calls([], items[..k + 1]) == Calls([], items[..k]) + Made(present, items[k])
  {
    var present, one := Present([], items[..k]), [items[k]];
    assert items[..k + 1] == items[..k] + one && one[1..] == [];
    PresentSplit([], items[..k], one);
    CallsSplit([], items[..k], one);
    assert Present(present, one) == Present(Handle(present, items[k]), []);
    assert Calls(Handle(present, items[k]), []) == [];
  }

  /** An event is handed out once, to the registrations present when its turn comes. */
  lemma {:induction false} EventGoesToThosePresent(items: seq<WorkItem>, i: nat)
    requires i < |items| && GoesOn(items[..i + 1]) && items[i].NewEvent?
    ensures Calls([], items) ==
            Calls([], items[..i]) + Receivers(Present([], items[..i]), items[i].event)
            + Calls(Present([], items[..i]), items[i + 1..])
  {
    var present := Present([], items[..i]);
    assert items == items[..i] + items[i..];
    assert forall j :: 0 <= j < i ==> items[..i][j] == items[..i + 1][j];
    CallsSplit([], items[..i], items[i..]);
    assert items[i..][1..] == items[i + 1..];
    assert items[..i + 1][i] == items[i];
    assert Calls(present, items[i..]) == Receivers(present, items[i].event) + Calls(present, items[i + 1..]);
  }

  /** Whatever is queued behind a terminator makes no difference. */
  lemma {:induction false} NothingAfterTheEnd(items: seq<WorkItem>, end: WorkItem, more: seq<WorkItem>)
    requires GoesOn(items) && Ends(end)
    ensures Calls([], items + [end] + more) == Calls([], items)
  {
    assert items + [end] + more == items + ([end] + more);
    CallsSplit([], items, [end] + more);
  }

  // -------------------------------------------------------------------- the actor

  class Node {
    var value: Registration
    var next: Node?

    constructor (value: Registration)
      ensures this.value == value && next == null
    {
      this.value := value;
      next := null;
    }
  }

  /** Node `i` of the list points to the next one, the last to nothing. */
  ghost predicate Linked(nodes: seq<Node>, i: nat)
    reads nodes
  {
    i < |nodes| && nodes[i].next == if i + 1 < |nodes| then nodes[i + 1] else null
  }

  class Actor {
    var registrations: Node?
    ghost var nodes: seq<Node>
    ghost var Repr: set<Node>

    ghost predicate Valid()
      reads this, Repr
    {
      && (forall i :: 0 <= i < |nodes| ==> nodes[i] in Repr)
      && (forall i, j :: 0 <= i < j < |nodes| ==> nodes[i] != nodes[j])
      && (forall i :: 0 <= i < |nodes| ==> Linked(nodes, i))
      && registrations == NodeAt(0)
    }

    ghost function NodeAt(i: nat): Node?
      reads this
    {
      if i < |nodes| then nodes[i] else null
    }

    ghost function Entries(): (entries: seq<Registration>)
      reads this, Repr
      requires Valid()
      ensures |entries| == |nodes| && forall i :: 0 <= i < |nodes| ==> entries[i] == nodes[i].value
    {
      seq(|nodes|, i requires 0 <= i < |nodes| && nodes[i] in Repr reads this, Repr => nodes[i].value)
    }

    constructor ()
      ensures Valid() && Entries() == [] && Repr == {}
    {
      registrations, nodes, Repr := null, [], {};
    }

    /** Lead the list past `current`, through the list's head or the node before it. */
    method Bypass(current: Node, prev: Node?, ghost k: nat)
      requires Valid() && k < |nodes| && current == nodes[k] && (k > 0 ==> prev == nodes[k - 1])
      modifies this`registrations, Repr
      ensures registrations == if k == 0 then old(current.next) else old(registrations)
      ensures forall i :: 0 <= i < |nodes| ==> nodes[i].value == old(nodes[i].value)
      ensures forall i :: 0 <= i < |nodes| ==> nodes[i].next == if i + 1 == k then old(current.next) else old(nodes[i].next)
    {
      if current == registrations {
        registrations := current.next;
      } else {
        prev.next := current.next;
      }
    }

    /** Take `current` out of the list. */
    method Unlink(current: Node, prev: Node?, ghost k: nat)
      requires Valid() && k < |nodes| && current == nodes[k] && (k > 0 ==> prev == nodes[k - 1])
      modifies this, Repr
      ensures Valid() && Repr == old(Repr) && nodes == Without(old(nodes), k)
      ensures Entries() == Without(old(Entries()), k)
    {
      assert Linked(nodes, k);
      Bypass(current, prev, k);
      nodes := Without(nodes, k);
      forall i | 0 <= i < |nodes| ensures Linked(nodes, i) {
        assert old(Linked(nodes, if i < k then i else i + 1));
      }
      assert Valid();
      assert forall i :: 0 <= i < |nodes| ==> nodes[i].value == old(nodes[if i < k then i else i + 1].value);
    }

    /** `processNewRegistrations` for a request to unregister. */
    method RemoveRegistration(asked: Registration)
      requires Valid()
      modifies this, Repr
      ensures Valid() && Entries() == RemoveFirst(old(Entries()), asked)
      ensures Repr == old(Repr)
    {
      var current, prev := registrations, null;
      ghost var k: nat := 0;
      while current != null
        invariant k <= |nodes| && current == NodeAt(k) && (k > 0 ==> prev == nodes[k - 1])
        invariant forall i :: 0 <= i < k ==> !Matches(nodes[i].value, asked)
        decreases |nodes| - k
      {
        if Matches(current.value, asked) {
          RemovesOnlyTheFirst(Entries(), asked, k);
          Unlink(current, prev, k);
          return;
        }
        assert Linked(nodes, k);
        prev, current, k := current, current.next, k + 1;
      }
      RemovesNothing(Entries(), asked);
    }

    /** `processNewRegistrations` for a new registration: it goes to the end of the list. */
    method AddRegistration(added: Registration)
      requires Valid()
      modifies this, Repr
      ensures Valid() && Entries() == old(Entries()) + [added]
      ensures fresh(Repr - old(Repr))
    {
      var node := new Node(added);
      if registrations == null {
        registrations := node;
      } else {
        var current := registrations;
        ghost var k: nat := 0;
        assert Linked(nodes, 0);
        while current.next != null
          invariant k < |nodes| && current == nodes[k] && Linked(nodes, k)
          decreases |nodes| - k
        {
          assert Linked(nodes, k + 1);
          current, k := current.next, k + 1;
        }
        current.next := node;
      }
      nodes, Repr := nodes + [node], Repr + {node};
      forall i | 0 <= i < |nodes| ensures Linked(nodes, i) {
        assert i < |old(nodes)| ==> old(Linked(nodes, i));
      }
    }

    /** The inner loop of `eventActorTask` for one event. */
    method Deliver(event: Event) returns (calls: seq<Call>)
      requires Valid()
      ensures calls == Receivers(Entries(), event)
    {
      calls := [];
      var current := registrations;
      ghost var k: nat := 0;
      while current != null
        invariant k <= |nodes| && current == NodeAt(k)
        invariant calls + Receivers(Entries()[k..], event) == Receivers(Entries(), event)
        decreases |nodes| - k
      {
        assert Linked(nodes, k);
        assert Entries()[k..][1..] == Entries()[k + 1..];
        if Wants(current.value, event) {
          calls := calls + [Call(current.value.callback, event)];
        }
        current, k := current.next, k + 1;
      }
    }

    /** The end of `eventActorTask`: every node of the list is freed, each once. */
    method FreeRegistrations() returns (freed: seq<Node>)
      requires Valid()
      ensures freed == nodes
    {
      freed := [];
      var current := registrations;
      while current != null
        invariant |freed| <= |nodes| && freed == nodes[..|freed|] && current == NodeAt(|freed|)
        decreases |nodes| - |freed|
      {
        assert Linked(nodes, |freed|);
        freed := freed + [current];
        current := current.next;
      }
    }

    method ProcessItem(item: WorkItem) returns (calls: seq<Call>)
      requires Valid() && !Ends(item)
      modifies this, Repr
      ensures Valid() && Entries() == Handle(old(Entries()), item)
      ensures calls == Made(old(Entries()), item)
      ensures fresh(Repr - old(Repr))
    {
      calls := [];
      match item {
        case Register(registration) => AddRegistration(registration);
        case Unregister(asked) => RemoveRegistration(asked);
        case NewEvent(event) => calls := Deliver(event);
        case _ =>
      }
    }
  }

  /** `eventActorTask` on the items in its queue: the calls made, and how many items were
      taken. It stops with the first that ends it, or waits when there are no more. */
  method EventActorTask(items: seq<WorkItem>) returns (calls: seq<Call>, taken: nat, ghost left: seq<Registration>)
    ensures calls == Calls([], items)
    ensures taken <= |items|
    ensures taken < |items| ==> taken > 0 && (items[taken - 1].Termination? || items[taken - 1].Unknown?)
    ensures forall i :: 0 <= i < taken - 1 ==> items[i].Register? || items[i].Unregister? || items[i].NewEvent?
    ensures left == Present([], if taken > 0 && Ends(items[taken - 1]) then items[..taken - 1] else items[..taken])
  {
    var actor := new Actor();
    calls, taken := [], 0;
    var term := false;
    while taken < |items| && !term
      invariant actor.Valid() && fresh(actor) && fresh(actor.Repr)
      invariant taken <= |items| && (term ==> taken > 0)
      invariant var handled := if term then taken - 1 else taken;
                && GoesOn(items[..handled]) && actor.Entries() == Present([], items[..handled])
                && calls == Calls([], items[..handled])
      invariant term ==> Ends(items[taken - 1])
      decreases |items| - taken, !term
    {
      var item := items[taken];
      if Ends(item) {
        term := true;
      } else {
        OneMoreItem(items, taken);
        var made := actor.ProcessItem(item);
        calls := calls + made;
      }
      taken := taken + 1;
    }
    if term {
      assert items == items[..taken - 1] + [items[taken - 1]] + items[taken..];
      NothingAfterTheEnd(items[..taken - 1], items[taken - 1], items[taken..]);
    } else {
      assert items[..taken] == items;
    }
    left := actor.Entries();
    var _ := actor.FreeRegistrations();
  }
}
