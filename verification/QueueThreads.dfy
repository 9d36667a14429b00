/** The three-pointer queue under any number of producers and consumers. A step of a thread
    touches at most one location that another thread may be changing at that point; the steps
    of all threads interleave freely. A log records each operation when it takes effect. */
module QueueThreads {
  import opened Wrappers

  type Value = int

  type Address = nat

  datatype Node = Node(value: Value, next: Option<Address>, freed: bool)

  /** What an operation did, with the thread that did it. */
  datatype Entry = Pushed(thread: nat, value: Value) | Popped(thread: nat, value: Value) | Empty(thread: nat)

  /** Where a thread is. `tries` counts failed compare-and-swaps. */
  datatype Pc =
    | Idle
    | PushLock(node: Address)
    | PushLink(node: Address)
    | PushArgs(node: Address, tries: nat)
    | PushCas(node: Address, tries: nat, comp: Option<Address>, replace: Option<Address>)
    | PushBroken(node: Address)
    | ReclaimTest(value: Value)
    | ReclaimTake(value: Value)
    | ReclaimFree(value: Value, unused: Address)
    | PushUnlock(value: Value)
    | PopLock(wait: bool)
    | PopTest(wait: bool)
    | PopRead
    | PopArgs(value: Value, tries: nat)
    | PopCas(value: Value, tries: nat, was: Address, replace: Option<Address>)
    | PopBroken
    | PopUnlock(result: Option<Value>)
    | FreeTest
    | FreeTake
    | FreeNode(unused: Address)
    | FreeDone

  datatype Queue = Queue(
    heap: seq<Node>, first: Option<Address>, divider: Address, last: Option<Address>,
    pushOwner: Option<nat>, popOwner: Option<nat>, threads: seq<Pc>, closing: bool,
    log: seq<Entry>, returned: seq<Entry>, fault: bool)

  datatype Event = Push(thread: nat, value: Value) | Pop(thread: nat, wait: bool) | Free(thread: nat) | Run(thread: nat)

  /** `newQueue`: one node without a value. */
  function NewQueue(threads: nat): Queue {
    Queue([Node(0, None, false)], Some(0), 0, Some(0), None, None, seq(threads, _ => Idle), false, [], [], false)
  }

  // ---------------------------------------------------------------------- steps

  predicate Enabled(q: Queue, e: Event) {
    && e.thread < |q.threads|
    && match e
       case Push(t, _) => q.threads[t].Idle? && !q.closing
       case Pop(t, _) => q.threads[t].Idle? && !q.closing
       case Free(_) => !q.closing && forall t :: 0 <= t < |q.threads| ==> q.threads[t].Idle?
       case Run(t) =>
         match q.threads[t]
         case Idle => false
         case FreeDone => false
         case PushLock(_) => q.pushOwner.None?
         case PopLock(_) => q.popOwner.None?
         case _ => true
  }

  function At(q: Queue, t: nat, pc: Pc): Queue
    requires t < |q.threads|
  {
    q.(threads := q.threads[t := pc])
  }

  predicate Live(q: Queue, a: Address) {
    a < |q.heap| && !q.heap[a].freed
  }

  /** Reading `a->next`; a dead address is a fault. */
  function NextOf(q: Queue, a: Address): Option<Address> {
    if a < |q.heap| then q.heap[a].next else None
  }

  function ValueAt(q: Queue, a: Option<Address>): Value {
    if a.Some? && a.value < |q.heap| then q.heap[a.value].value else 0
  }

  function Access(q: Queue, a: Option<Address>): Queue {
    q.(fault := q.fault || a.None? || !Live(q, a.value))
  }

  function WriteNext(q: Queue, a: Option<Address>, next: Option<Address>): Queue {
    var q' := Access(q, a);
    if a.Some? && a.value < |q.heap| then q'.(heap := q.heap[a.value := q.heap[a.value].(next := next)]) else q'
  }

  function FreeAt(q: Queue, a: Address): Queue {
    var q' := Access(q, Some(a));
    if a < |q.heap| then q'.(heap := q.heap[a := q.heap[a].(freed := true)]) else q'
  }

  function Return(q: Queue, t: nat, entry: Entry): Queue
    requires t < |q.threads|
  {
    At(q, t, Idle).(returned := q.returned + [entry])
  }

  function StepPush(q: Queue, t: nat): Queue
    requires t < |q.threads|
  {
    match q.threads[t]
    case PushLock(node) => At(q, t, PushLink(node)).(pushOwner := Some(t))
    case PushLink(node) => At(WriteNext(q, q.last, Some(node)), t, PushArgs(node, 0))
    case PushArgs(node, tries) =>
      At(Access(q, q.last), t, PushCas(node, tries, q.last, if q.last.Some? then NextOf(q, q.last.value) else None))
    case PushCas(node, tries, comp, replace) =>
      if q.last == comp then
        At(q, t, ReclaimTest(ValueAt(q, Some(node)))).(last := replace, log := q.log + [Pushed(t, ValueAt(q, Some(node)))])
      else if tries == 0 then At(q, t, PushArgs(node, 1))
      else At(q, t, PushBroken(node))
    case PushBroken(node) => At(FreeAt(q.(last := None), node), t, Idle).(pushOwner := None)
    case ReclaimTest(v) => At(q, t, if q.first != Some(q.divider) then ReclaimTake(v) else PushUnlock(v))
    case ReclaimTake(v) =>
      var node := if q.first.Some? then q.first.value else 0;
      At(Access(q, q.first).(first := NextOf(q, node)), t, ReclaimFree(v, node))
    case ReclaimFree(v, node) => At(FreeAt(q, node), t, ReclaimTest(v))
    case PushUnlock(v) => Return(q, t, Pushed(t, v)).(pushOwner := None)
    case _ => q
  }

  function StepPop(q: Queue, t: nat): Queue
    requires t < |q.threads|
  {
    match q.threads[t]
    case PopLock(wait) => At(q, t, PopTest(wait)).(popOwner := Some(t))
    case PopTest(wait) =>
      if Some(q.divider) != q.last then At(q, t, PopRead)
      else if wait then At(q, t, PopLock(true)).(popOwner := None)    // cond_wait, which may time out
      else At(q, t, PopUnlock(None)).(log := q.log + [Empty(t)])
    case PopRead =>
      var next := NextOf(q, q.divider);
      At(Access(Access(q, Some(q.divider)), next), t, PopArgs(ValueAt(q, next), 0))
    case PopArgs(v, tries) =>
      At(Access(q, Some(q.divider)), t, PopCas(v, tries, q.divider, NextOf(q, q.divider)))
    case PopCas(v, tries, was, replace) =>
      if q.divider == was then
        At(q, t, PopUnlock(Some(v))).(divider := if replace.Some? then replace.value else 0, log := q.log + [Popped(t, v)])
      else if tries == 0 then At(q, t, PopArgs(v, 1))
      else At(q, t, PopBroken)
    case PopBroken => At(q, t, Idle).(popOwner := None)
    case PopUnlock(result) =>
      Return(q, t, if result.Some? then Popped(t, result.value) else Empty(t)).(popOwner := None)
    case _ => q
  }

  function StepFree(q: Queue, t: nat): Queue
    requires t < |q.threads|
  {
    match q.threads[t]
    case FreeTest => At(q, t, if q.first.Some? then FreeTake else FreeDone)
    case FreeTake =>
      var node := if q.first.Some? then q.first.value else 0;
      At(Access(q, q.first).(first := NextOf(q, node)), t, FreeNode(node))
    case FreeNode(node) => At(FreeAt(q, node), t, FreeTest)
    case _ => q
  }

  function Step(q: Queue, e: Event): Queue
    requires Enabled(q, e)
  {
    match e
    case Push(t, value) => At(q, t, PushLock(|q.heap|)).(heap := q.heap + [Node(value, None, false)])
    case Pop(t, wait) => At(q, t, PopLock(wait))
    case Free(t) => At(q, t, FreeTest).(pushOwner := Some(t), popOwner := Some(t), closing := true)
    case Run(t) =>
      if OnPush(q.threads[t]) then StepPush(q, t)
      else if OnPop(q.threads[t]) then StepPop(q, t)
      else StepFree(q, t)
  }

  predicate OnPush(pc: Pc) {
    pc.PushLock? || InPush(pc)
  }

  predicate OnPop(pc: Pc) {
    pc.PopLock? || InPop(pc)
  }

  /** Between taking and giving back `pushLock`. */
  predicate InPush(pc: Pc) {
    || pc.PushLink? || pc.PushArgs? || pc.PushCas? || pc.PushBroken?
    || pc.ReclaimTest? || pc.ReclaimTake? || pc.ReclaimFree? || pc.PushUnlock?
  }

  predicate InPop(pc: Pc) {
    pc.PopTest? || pc.PopRead? || pc.PopArgs? || pc.PopCas? || pc.PopBroken? || pc.PopUnlock?
  }

  predicate InFree(pc: Pc) {
    pc.FreeTest? || pc.FreeTake? || pc.FreeNode? || pc.FreeDone?
  }

  ghost predicate IsRun(q: Queue, run: seq<Event>)
    decreases |run|
  {
    run == [] || (Enabled(q, run[0]) && IsRun(Step(q, run[0]), run[1..]))
  }

  function After(q: Queue, run: seq<Event>): Queue
    requires IsRun(q, run)
    decreases |run|
  {
    if run == [] then q else After(Step(q, run[0]), run[1..])
  }

  // ------------------------------------------------------------- what a queue is

  /** One operation on a sequential queue; None when no such operation is possible. */
  function Apply(pending: seq<Value>, entry: Entry): Option<seq<Value>> {
    match entry
    case Pushed(_, v) => Some(pending + [v])
    case Popped(_, v) => if pending != [] && pending[0] == v then Some(pending[1..]) else None
    case Empty(_) => if pending == [] then Some([]) else None
  }

  /** The pending values after the operations of a log, one after another. */
  function Replay(log: seq<Entry>): Option<seq<Value>>
    decreases |log|
  {
    if log == [] then Some([])
    else
      match Replay(log[..|log| - 1])
      case None => None
      case Some(pending) => Apply(pending, log[|log| - 1])
  }

  function PushedValues(log: seq<Entry>): seq<Value>
    decreases |log|
  {
    if log == [] then []
    else PushedValues(log[..|log| - 1]) + if log[|log| - 1].Pushed? then [log[|log| - 1].value] else []
  }

  function PoppedValues(log: seq<Entry>): seq<Value>
    decreases |log|
  {
    if log == [] then []
    else PoppedValues(log[..|log| - 1]) + if log[|log| - 1].Popped? then [log[|log| - 1].value] else []
  }

  /** In a log that replays, what was pushed is what was popped and then what is pending. */
  lemma {:induction false} PushedIsPoppedAndPending(log: seq<Entry>)
    requires Replay(log).Some?
    ensures PushedValues(log) == PoppedValues(log) + Replay(log).value
    decreases |log|
  {
    if log != [] {
      var front, entry := log[..|log| - 1], log[|log| - 1];
      PushedIsPoppedAndPending(front);
      var pending := Replay(front).value;
      match entry {
        case Popped(_, v) => assert pending == [v] + pending[1..];
        case Pushed(_, v) =>
        case Empty(_) =>
      }
    }
  }

  /** A log that replays finds the queue empty only where all that was pushed has been popped,
      and pops at any time the oldest value that was pushed and not popped yet. */
  lemma {:induction false} EntriesAreTimely(log: seq<Entry>, k: nat)
    requires Replay(log).Some? && k < |log|
    ensures log[k].Empty? ==> PushedValues(log[..k]) == PoppedValues(log[..k])
    ensures log[k].Popped? ==> PoppedValues(log[..k]) + [log[k].value] <= PushedValues(log[..k])
    decreases |log|
  {
    var front := log[..|log| - 1];
    assert Replay(front).Some?;
    if k < |front| {
      EntriesAreTimely(front, k);
      assert front[..k] == log[..k];
    } else {
      PushedIsPoppedAndPending(front);
    }
  }

  // ------------------------------------------------------------------- invariant

  /** The list as it grew: the addresses in linking order, and how far the freed nodes,
      `first`, `divider` and `last` have come. `holder[a]` is the thread that allocated `a`. */
  datatype View = View(order: seq<Address>, gi: nat, fi: nat, di: nat, li: nat, holder: seq<nat>)

  function PcOf(threads: seq<Pc>, owner: Option<nat>): Pc {
    if owner.Some? && owner.value < |threads| then threads[owner.value] else Idle
  }

  predicate Distinct(order: seq<Address>) {
    forall i, j :: 0 <= i < j < |order| ==> order[i] != order[j]
  }

  predicate InHeap(heap: seq<Node>, order: seq<Address>) {
    forall i :: 0 <= i < |order| ==> order[i] < |heap|
  }

  predicate NextIs(heap: seq<Node>, order: seq<Address>, i: nat)
    requires i < |order| && InHeap(heap, order)
  {
    heap[order[i]].next == if i + 1 < |order| then Some(order[i + 1]) else None
  }

  predicate Freed(heap: seq<Node>, order: seq<Address>, i: nat)
    requires i < |order| && InHeap(heap, order)
  {
    heap[order[i]].freed
  }

  /** `order` is the linked list in the heap, its first `gi` nodes freed. */
  ghost predicate Linked(heap: seq<Node>, order: seq<Address>, gi: nat) {
    && Distinct(order) && InHeap(heap, order)
    && (forall i :: 0 <= i < |order| ==> NextIs(heap, order, i))
    && (forall i :: 0 <= i < |order| ==> (Freed(heap, order, i) <==> i < gi))
  }

  function Held(pc: Pc): Option<Address> {
    if pc.PushLock? || pc.PushLink? then Some(pc.node) else None
  }

  predicate HeldBy(threads: seq<Pc>, t: nat, a: Address) {
    t < |threads| && Held(threads[t]) == Some(a)
  }

  /** A node outside the list is held by the one thread that will link it. */
  ghost predicate Loose(heap: seq<Node>, threads: seq<Pc>, order: seq<Address>, holder: seq<nat>) {
    && |holder| == |heap|
    && (forall a :: 0 <= a < |heap| && a !in order ==> HeldBy(threads, holder[a], a) && heap[a].next == None && !heap[a].freed)
    && (forall t: nat, a: Address :: HeldBy(threads, t, a) ==> a < |heap| && a !in order && holder[a] == t)
  }

  ghost predicate Locks(pushOwner: Option<nat>, popOwner: Option<nat>, threads: seq<Pc>) {
    && (pushOwner.Some? ==> pushOwner.value < |threads|)
    && (popOwner.Some? ==> popOwner.value < |threads|)
    && (forall t :: 0 <= t < |threads| ==>
          (InPush(threads[t]) <==> pushOwner == Some(t)) && (InPop(threads[t]) <==> popOwner == Some(t)) && !InFree(threads[t]))
  }

  /** The view while the holder of `pushLock` is at `pc` (Idle when nobody holds it). */
  predicate PushOk(last: Option<Address>, w: View, pc: Pc) {
    && w.gi <= w.fi <= w.di <= w.li < |w.order|
    && |w.order| == w.li + (if pc.PushArgs? || pc.PushCas? then 2 else 1)
    && w.fi == w.gi + (if pc.ReclaimFree? then 1 else 0)
    && match pc
       case PushArgs(node, tries) => tries == 0 && node == w.order[w.li + 1]
       case PushCas(node, tries, comp, replace) =>
         tries == 0 && node == w.order[w.li + 1] && comp == last && replace == Some(node)
       case PushBroken(_) => false
       case ReclaimTake(_) => w.fi < w.di
       case ReclaimFree(_, unused) => unused == w.order[w.gi]
       case _ => true
  }

  /** The view while the holder of `popLock` is at `pc`. */
  predicate PopOk(heap: seq<Node>, divider: Address, w: View, pc: Pc) {
    && w.di <= w.li < |w.order| && InHeap(heap, w.order)
    && match pc
       case PopRead => w.di < w.li
       case PopArgs(v, tries) => tries == 0 && w.di < w.li && v == heap[w.order[w.di + 1]].value
       case PopCas(v, tries, was, replace) =>
         tries == 0 && w.di < w.li && v == heap[w.order[w.di + 1]].value && was == divider && replace == Some(w.order[w.di + 1])
       case PopBroken => false
       case _ => true
  }

  function Values(heap: seq<Node>, order: seq<Address>): seq<Value> {
    seq(|order|, i requires 0 <= i < |order| => ValueOf(heap, order[i]))
  }

  function ValueOf(heap: seq<Node>, a: Address): Value {
    if a < |heap| then heap[a].value else 0
  }

  /** The log replays to the values between `divider` and `last`. */
  predicate Replays(log: seq<Entry>, heap: seq<Node>, order: seq<Address>, di: nat, li: nat) {
    di <= li < |order| && Replay(log) == Some(Values(heap, order[di + 1..li + 1]))
  }

  predicate Ends(q: Queue, w: View) {
    && w.gi <= w.fi <= w.di <= w.li < |w.order|
    && q.first == Some(w.order[w.fi]) && q.divider == w.order[w.di] && q.last == Some(w.order[w.li])
  }

  /** The memory: pointers, list, loose nodes, locks and where their holders are. */
  ghost predicate Memory(q: Queue, w: View) {
    && !q.closing && !q.fault
    && Ends(q, w)
    && Linked(q.heap, w.order, w.gi)
    && Loose(q.heap, q.threads, w.order, w.holder)
    && Locks(q.pushOwner, q.popOwner, q.threads)
    && PushOk(q.last, w, PcOf(q.threads, q.pushOwner))
    && PopOk(q.heap, q.divider, w, PcOf(q.threads, q.popOwner))
  }

  ghost predicate Inv(q: Queue, w: View) {
    Memory(q, w) && Replays(q.log, q.heap, w.order, w.di, w.li)
  }

  /** How a step moves the view. */
  function Follow(q: Queue, w: View, e: Event): View
    requires Enabled(q, e)
  {
    match e
    case Push(t, _) => w.(holder := w.holder + [t])
    case Pop(_, _) => w
    case Free(_) => w
    case Run(t) =>
      match q.threads[t]
      case PushLink(node) => w.(order := w.order + [node])
      case PushCas(_, _, _, _) => w.(li := w.li + 1)
      case ReclaimTake(_) => w.(fi := w.fi + 1)
      case ReclaimFree(_, _) => w.(gi := w.gi + 1)
      case PopCas(_, _, _, _) => w.(di := w.di + 1)
      case _ => w
  }

  // ------------------------------------------------------------ one thread moves

  function OwnerAfter(inside: Pc -> bool, owner: Option<nat>, t: nat, before: Pc, after: Pc): Option<nat> {
    if inside(after) then Some(t) else if inside(before) then None else owner
  }

  /** Moving one thread along keeps the locks exclusive, and says where the holders are. */
  lemma {:induction false} LocksMove(pushOwner: Option<nat>, popOwner: Option<nat>, threads: seq<Pc>, t: nat, pc: Pc)
    requires Locks(pushOwner, popOwner, threads) && t < |threads| && !InFree(pc)
    requires InPush(pc) && !InPush(threads[t]) ==> pushOwner.None?
    requires InPop(pc) && !InPop(threads[t]) ==> popOwner.None?
    ensures var pushOwner', popOwner' := OwnerAfter(InPush, pushOwner, t, threads[t], pc), OwnerAfter(InPop, popOwner, t, threads[t], pc);
            var threads' := threads[t := pc];
            && Locks(pushOwner', popOwner', threads')
            && PcOf(threads', pushOwner') == (if InPush(pc) then pc else if InPush(threads[t]) then Idle else PcOf(threads, pushOwner))
            && PcOf(threads', popOwner') == (if InPop(pc) then pc else if InPop(threads[t]) then Idle else PcOf(threads, popOwner))
    ensures InPush(threads[t]) ==> PcOf(threads, pushOwner) == threads[t]
    ensures InPop(threads[t]) ==> PcOf(threads, popOwner) == threads[t]
  {
  }

  lemma {:induction false} LooseMoves(heap: seq<Node>, threads: seq<Pc>, order: seq<Address>, holder: seq<nat>, t: nat, pc: Pc)
    requires Loose(heap, threads, order, holder) && t < |threads| && Held(pc) == Held(threads[t])
    ensures Loose(heap, threads[t := pc], order, holder)
  {
    var threads' := threads[t := pc];
    assert forall u: nat, a: Address :: HeldBy(threads', u, a) <==> HeldBy(threads, u, a);
  }

  /** A step that only moves one thread's program counter (and the locks with it). */
  ghost predicate OnlyMoves(q: Queue, q': Queue, t: nat, pc: Pc) {
    && t < |q.threads| && !InFree(pc)
    && (InPush(pc) && !InPush(q.threads[t]) ==> q.pushOwner.None?)
    && (InPop(pc) && !InPop(q.threads[t]) ==> q.popOwner.None?)
    && q'.threads == q.threads[t := pc]
    && q'.pushOwner == OwnerAfter(InPush, q.pushOwner, t, q.threads[t], pc)
    && q'.popOwner == OwnerAfter(InPop, q.popOwner, t, q.threads[t], pc)
    && q'.closing == q.closing
  }

  ghost predicate SameMemory(q: Queue, q': Queue) {
    q'.heap == q.heap && q'.first == q.first && q'.divider == q.divider && q'.last == q.last && q'.fault == q.fault
  }

  /** A step that touches no node: the pointers, the view and the log may move with it. */
  lemma {:induction false} PointersKeepMemory(q: Queue, q': Queue, w: View, w': View, t: nat, pc: Pc)
    requires Memory(q, w) && OnlyMoves(q, q', t, pc) && Held(pc) == Held(q.threads[t])
    requires q'.heap == q.heap && !q'.fault && w'.order == w.order && w'.gi == w.gi && w'.holder == w.holder
    requires Ends(q', w')
    requires PushOk(q'.last, w', MovedTo(InPush, q.threads, q.pushOwner, t, pc))
    requires PopOk(q.heap, q'.divider, w', MovedTo(InPop, q.threads, q.popOwner, t, pc))
    ensures Memory(q', w')
  {
    LocksMove(q.pushOwner, q.popOwner, q.threads, t, pc);
    LooseMoves(q.heap, q.threads, w.order, w.holder, t, pc);
  }

  /** A step that writes a node: the list, the loose nodes and the log are for the caller. */
  lemma {:induction false} NodesKeepMemory(q: Queue, q': Queue, w': View, t: nat, pc: Pc)
    requires Locks(q.pushOwner, q.popOwner, q.threads) && OnlyMoves(q, q', t, pc)
    requires !q.closing && !q'.fault && Ends(q', w')
    requires Linked(q'.heap, w'.order, w'.gi) && Loose(q'.heap, q'.threads, w'.order, w'.holder)
    requires PushOk(q'.last, w', MovedTo(InPush, q.threads, q.pushOwner, t, pc))
    requires PopOk(q'.heap, q'.divider, w', MovedTo(InPop, q.threads, q.popOwner, t, pc))
    ensures Memory(q', w')
  {
    LocksMove(q.pushOwner, q.popOwner, q.threads, t, pc);
  }

  /** Where the holder of a lock is once thread `t` is at `pc`. */
  function MovedTo(inside: Pc -> bool, threads: seq<Pc>, owner: Option<nat>, t: nat, pc: Pc): Pc
    requires t < |threads|
  {
    if inside(pc) then pc else if inside(threads[t]) then Idle else PcOf(threads, owner)
  }

  lemma {:induction false} MoveKeepsMemory(q: Queue, q': Queue, w: View, t: nat, pc: Pc)
    requires Memory(q, w) && OnlyMoves(q, q', t, pc) && SameMemory(q, q')
    requires Held(pc) == Held(q.threads[t])
    requires if InPush(pc) then PushOk(q.last, w, pc) else InPush(q.threads[t]) ==> PushOk(q.last, w, Idle)
    requires if InPop(pc) then PopOk(q.heap, q.divider, w, pc) else InPop(q.threads[t]) ==> PopOk(q.heap, q.divider, w, Idle)
    ensures Memory(q', w)
  {
    PointersKeepMemory(q, q', w, w, t, pc);
  }

  /** What the holders' positions say, read off the invariant. */
  lemma {:induction false} HoldersOk(q: Queue, w: View, t: nat)
    requires Memory(q, w) && t < |q.threads|
    ensures InPush(q.threads[t]) ==> q.pushOwner == Some(t) && PushOk(q.last, w, q.threads[t])
    ensures InPop(q.threads[t]) ==> q.popOwner == Some(t) && PopOk(q.heap, q.divider, w, q.threads[t])
    ensures !InPush(q.threads[t]) ==> q.pushOwner != Some(t)
    ensures !InPop(q.threads[t]) ==> q.popOwner != Some(t)
    ensures !InFree(q.threads[t])
  {
  }

  /** The nodes a thread may touch are live. */
  lemma {:induction false} LiveNode(q: Queue, w: View, i: nat)
    requires Memory(q, w) && w.gi <= i < |w.order|
    ensures Live(q, w.order[i]) && q.heap[w.order[i]].next == if i + 1 < |w.order| then Some(w.order[i + 1]) else None
  {
    assert NextIs(q.heap, w.order, i) && (Freed(q.heap, w.order, i) <==> i < w.gi);
  }

  // --------------------------------------------------------------- one per step

  lemma {:induction false} PushBegins(q: Queue, w: View, t: nat, value: Value)
    requires Memory(q, w) && Enabled(q, Push(t, value))
    ensures Memory(Step(q, Push(t, value)), Follow(q, w, Push(t, value)))
  {
    var node, pc := Node(value, None, false), PushLock(|q.heap|);
    var q', w' := Step(q, Push(t, value)), w.(holder := w.holder + [t]);
    HoldersOk(q, w, t);
    assert OnlyMoves(q, q', t, pc) && !q'.fault && Ends(q', w') && q'.heap == q.heap + [node];
    assert Loose(q'.heap, q'.threads, w'.order, w'.holder) by {
      NewNodeIsLoose(q.heap, q.threads, w.order, w.holder, t, node);
    }
    assert Linked(q'.heap, w.order, w.gi) by {
      AllocationKeepsLinked(q.heap, w.order, w.gi, node);
    }
    SameValuesPopOk(q.heap, q'.heap, q.divider, w, w', PcOf(q.threads, q.popOwner));
    NodesKeepMemory(q, q', w', t, pc);
  }

  lemma {:induction false} NewNodeIsLoose(heap: seq<Node>, threads: seq<Pc>, order: seq<Address>, holder: seq<nat>, t: nat, node: Node)
    requires Loose(heap, threads, order, holder) && InHeap(heap, order)
    requires t < |threads| && Held(threads[t]) == None && node.next == None && !node.freed
    ensures Loose(heap + [node], threads[t := PushLock(|heap|)], order, holder + [t])
  {
    var threads' := threads[t := PushLock(|heap|)];
    assert |heap| !in order;
    assert forall u: nat, a: Address :: HeldBy(threads', u, a) <==> if u == t then a == |heap| else HeldBy(threads, u, a);
  }

  lemma {:induction false} PopBegins(q: Queue, w: View, t: nat, wait: bool)
    requires Memory(q, w) && Enabled(q, Pop(t, wait))
    ensures Memory(Step(q, Pop(t, wait)), w)
  {
    HoldersOk(q, w, t);
    MoveKeepsMemory(q, Step(q, Pop(t, wait)), w, t, PopLock(wait));
  }

  lemma {:induction false} PushLocks(q: Queue, w: View, t: nat)
    requires Memory(q, w) && Enabled(q, Run(t)) && q.threads[t].PushLock?
    ensures Memory(Step(q, Run(t)), w)
  {
    HoldersOk(q, w, t);
    MoveKeepsMemory(q, Step(q, Run(t)), w, t, PushLink(q.threads[t].node));
  }

  lemma {:induction false} LinksNode(q: Queue, w: View, t: nat, node: Address)
    requires Memory(q, w) && Enabled(q, Run(t)) && q.threads[t] == PushLink(node)
    ensures node < |q.heap| && node !in w.order && q.heap[node].next == None && !q.heap[node].freed
    ensures |w.order| == w.li + 1 && w.order[w.li] < |q.heap|
    ensures var q', w', last := Step(q, Run(t)), w.(order := w.order + [node]), w.order[w.li];
            && OnlyMoves(q, q', t, PushArgs(node, 0)) && !q'.fault && Ends(q', w')
            && q'.heap == q.heap[last := q.heap[last].(next := Some(node))]
            && PushOk(q'.last, w', PushArgs(node, 0))
  {
    HoldersOk(q, w, t);
    assert HeldBy(q.threads, t, node);
    LiveNode(q, w, w.li);
  }

  lemma {:induction false} PushLinks(q: Queue, w: View, t: nat)
    requires Memory(q, w) && Enabled(q, Run(t)) && q.threads[t].PushLink?
    ensures Memory(Step(q, Run(t)), Follow(q, w, Run(t)))
  {
    var node := q.threads[t].node;
    var pc, last := PushArgs(node, 0), w.order[w.li];
    var q', w' := Step(q, Run(t)), w.(order := w.order + [node]);
    LinksNode(q, w, t, node);
    assert Linked(q'.heap, w'.order, w'.gi) by {
      LinkAppends(q.heap, w.order, w.gi, node);
    }
    assert Loose(q'.heap, q'.threads, w'.order, w'.holder) by {
      assert HeldBy(q.threads, t, node);
      LinkedIsNotLoose(q.heap, q.threads, w.order, w.holder, t, node, last);
    }
    LinkKeepsPopOk(q.heap, q.divider, w, node, PcOf(q.threads, q.popOwner));
    NodesKeepMemory(q, q', w', t, pc);
  }

  lemma {:induction false} LinkKeepsPopOk(heap: seq<Node>, divider: Address, w: View, node: Address, pc: Pc)
    requires PopOk(heap, divider, w, pc) && node < |heap|
    ensures var last := w.order[w.li];
            PopOk(heap[last := heap[last].(next := Some(node))], divider, w.(order := w.order + [node]), pc)
  {
  }

  lemma {:induction false} SameValuesPopOk(heap: seq<Node>, heap': seq<Node>, divider: Address, w: View, w': View, pc: Pc)
    requires PopOk(heap, divider, w, pc) && |heap'| >= |heap|
    requires forall a :: 0 <= a < |heap| ==> heap'[a].value == heap[a].value
    requires w'.order == w.order && w'.di == w.di && w'.li == w.li
    ensures PopOk(heap', divider, w', pc)
  {
  }

  lemma {:induction false} LinkKeepsReplay(log: seq<Entry>, heap: seq<Node>, order: seq<Address>, di: nat, li: nat, node: Address)
    requires Replays(log, heap, order, di, li) && InHeap(heap, order)
    ensures var last := order[li];
            Replays(log, heap[last := heap[last].(next := Some(node))], order + [node], di, li)
  {
    var last := order[li];
    var heap' := heap[last := heap[last].(next := Some(node))];
    assert (order + [node])[di + 1..li + 1] == order[di + 1..li + 1];
    SameValues(heap, heap', order[di + 1..li + 1]);
  }

  lemma {:induction false} SameValues(heap: seq<Node>, heap': seq<Node>, order: seq<Address>)
    requires forall i :: 0 <= i < |order| ==> ValueOf(heap', order[i]) == ValueOf(heap, order[i])
    ensures Values(heap', order) == Values(heap, order)
  {
  }

  lemma {:induction false} FreeKeepsReplay(log: seq<Entry>, heap: seq<Node>, order: seq<Address>, di: nat, li: nat, a: Address)
    requires Replays(log, heap, order, di, li) && a < |heap|
    ensures Replays(log, heap[a := heap[a].(freed := true)], order, di, li)
  {
    SameValues(heap, heap[a := heap[a].(freed := true)], order[di + 1..li + 1]);
  }

  lemma {:induction false} AllocationKeepsLinked(heap: seq<Node>, order: seq<Address>, gi: nat, node: Node)
    requires Linked(heap, order, gi)
    ensures Linked(heap + [node], order, gi)
  {
    forall i | 0 <= i < |order| ensures NextIs(heap + [node], order, i) && (Freed(heap + [node], order, i) <==> i < gi) {
      assert NextIs(heap, order, i) && (Freed(heap, order, i) <==> i < gi);
    }
  }

  lemma {:induction false} AllocationKeepsReplay(log: seq<Entry>, heap: seq<Node>, order: seq<Address>, di: nat, li: nat, node: Node)
    requires Replays(log, heap, order, di, li) && InHeap(heap, order)
    ensures Replays(log, heap + [node], order, di, li)
  {
    SameValues(heap, heap + [node], order[di + 1..li + 1]);
  }

  lemma {:induction false} LinkAppends(heap: seq<Node>, order: seq<Address>, gi: nat, node: Address)
    requires Linked(heap, order, gi) && gi < |order| && node < |heap| && node !in order
    requires heap[node].next == None && !heap[node].freed
    ensures var last := order[|order| - 1];
            Linked(heap[last := heap[last].(next := Some(node))], order + [node], gi)
  {
    var last := order[|order| - 1];
    var heap', order' := heap[last := heap[last].(next := Some(node))], order + [node];
    forall i | 0 <= i < |order'| ensures NextIs(heap', order', i) && (Freed(heap', order', i) <==> i < gi) {
      if i < |order| {
        assert NextIs(heap, order, i) && (Freed(heap, order, i) <==> i < gi);
      }
    }
  }

  lemma {:induction false} LinkedIsNotLoose(heap: seq<Node>, threads: seq<Pc>, order: seq<Address>, holder: seq<nat>, t: nat, node: Address, last: Address)
    requires Loose(heap, threads, order, holder) && HeldBy(threads, t, node) && last in order && last < |heap|
    ensures Loose(heap[last := heap[last].(next := Some(node))], threads[t := PushArgs(node, 0)], order + [node], holder)
  {
    var threads' := threads[t := PushArgs(node, 0)];
    assert forall u: nat, a: Address :: HeldBy(threads', u, a) <==> u != t && HeldBy(threads, u, a);
    assert forall a: Address :: a in order + [node] <==> a in order || a == node;
  }

  lemma {:induction false} PushReads(q: Queue, w: View, t: nat)
    requires Memory(q, w) && Enabled(q, Run(t)) && q.threads[t].PushArgs?
    ensures Memory(Step(q, Run(t)), w)
  {
    HoldersOk(q, w, t);
    LiveNode(q, w, w.li);
    MoveKeepsMemory(q, Step(q, Run(t)), w, t, PushCas(q.threads[t].node, 0, q.last, Some(w.order[w.li + 1])));
  }

  lemma {:induction false} SwapPublishes(q: Queue, w: View, t: nat, value: Value)
    requires Memory(q, w) && Enabled(q, Run(t)) && q.threads[t].PushCas? && value == q.heap[w.order[w.li + 1]].value
    ensures var q', w' := Step(q, Run(t)), w.(li := w.li + 1);
            && OnlyMoves(q, q', t, ReclaimTest(value)) && q'.heap == q.heap && !q'.fault
            && Ends(q', w') && PushOk(q'.last, w', ReclaimTest(value)) && InPush(q.threads[t])
  {
    HoldersOk(q, w, t);
  }

  lemma {:induction false} PushSwaps(q: Queue, w: View, t: nat)
    requires Memory(q, w) && Enabled(q, Run(t)) && q.threads[t].PushCas?
    ensures Memory(Step(q, Run(t)), Follow(q, w, Run(t)))
  {
    HoldersOk(q, w, t);
    var value := q.heap[w.order[w.li + 1]].value;
    SwapPublishes(q, w, t, value);
    PointersKeepMemory(q, Step(q, Run(t)), w, w.(li := w.li + 1), t, ReclaimTest(value));
  }

  lemma {:induction false} ReplayOne(log: seq<Entry>, entry: Entry)
    requires Replay(log).Some?
    ensures Replay(log + [entry]) == Apply(Replay(log).value, entry)
  {
    assert (log + [entry])[..|log|] == log;
  }

  lemma {:induction false} PushReplays(log: seq<Entry>, heap: seq<Node>, order: seq<Address>, di: nat, li: nat, entry: Entry)
    requires Replays(log, heap, order, di, li) && li + 1 < |order|
    requires entry.Pushed? && entry.value == ValueOf(heap, order[li + 1])
    ensures Replays(log + [entry], heap, order, di, li + 1)
  {
    assert Replay(log + [entry]) == Apply(Replay(log).value, entry) by {
      ReplayOne(log, entry);
    }
    OneMoreValue(heap, order, di, li);
  }

  lemma {:induction false} OneMoreValue(heap: seq<Node>, order: seq<Address>, di: nat, li: nat)
    requires di <= li && li + 1 < |order|
    ensures Values(heap, order[di + 1..li + 2]) == Values(heap, order[di + 1..li + 1]) + [ValueOf(heap, order[li + 1])]
  {
    var before, after := order[di + 1..li + 1], order[di + 1..li + 2];
    assert after == before + [order[li + 1]];
  }

  lemma {:induction false} PopReplays(log: seq<Entry>, heap: seq<Node>, order: seq<Address>, di: nat, li: nat, entry: Entry)
    requires Replays(log, heap, order, di, li) && di < li
    requires entry.Popped? && entry.value == ValueOf(heap, order[di + 1])
    ensures Replays(log + [entry], heap, order, di + 1, li)
  {
    ReplayOne(log, entry);
    var pending := order[di + 1..li + 1];
    assert pending[0] == order[di + 1] && pending[1..] == order[di + 2..li + 1];
    assert Values(heap, pending)[1..] == Values(heap, pending[1..]);
  }

  lemma {:induction false} EmptyReplays(log: seq<Entry>, heap: seq<Node>, order: seq<Address>, di: nat, entry: Entry)
    requires Replays(log, heap, order, di, di) && entry.Empty?
    ensures Replays(log + [entry], heap, order, di, di)
  {
    ReplayOne(log, entry);
    assert order[di + 1..di + 1] == [];
  }

  lemma {:induction false} ReclaimTests(q: Queue, w: View, t: nat)
    requires Memory(q, w) && Enabled(q, Run(t)) && q.threads[t].ReclaimTest?
    ensures Memory(Step(q, Run(t)), w)
  {
    HoldersOk(q, w, t);
    MoveKeepsMemory(q, Step(q, Run(t)), w, t, Step(q, Run(t)).threads[t]);
  }

  lemma {:induction false} ReclaimTakes(q: Queue, w: View, t: nat)
    requires Memory(q, w) && Enabled(q, Run(t)) && q.threads[t].ReclaimTake?
    ensures Memory(Step(q, Run(t)), Follow(q, w, Run(t)))
  {
    HoldersOk(q, w, t);
    LiveNode(q, w, w.fi);
    PointersKeepMemory(q, Step(q, Run(t)), w, w.(fi := w.fi + 1), t, ReclaimFree(q.threads[t].value, w.order[w.fi]));
  }

  lemma {:induction false} FreesUnused(q: Queue, w: View, t: nat)
    requires Memory(q, w) && Enabled(q, Run(t)) && q.threads[t].ReclaimFree?
    ensures var q', w', node := Step(q, Run(t)), w.(gi := w.gi + 1), w.order[w.gi];
            && OnlyMoves(q, q', t, ReclaimTest(q.threads[t].value)) && !q'.fault && Ends(q', w')
            && q'.heap == q.heap[node := q.heap[node].(freed := true)]
            && PushOk(q'.last, w', ReclaimTest(q.threads[t].value))
  {
    HoldersOk(q, w, t);
    LiveNode(q, w, w.gi);
  }

  lemma {:induction false} LooseAfterFree(heap: seq<Node>, threads: seq<Pc>, order: seq<Address>, holder: seq<nat>,
                                          t: nat, pc: Pc, gi: nat)
    requires Loose(heap, threads, order, holder) && t < |threads| && Held(pc) == Held(threads[t])
    requires gi < |order| && order[gi] < |heap|
    ensures Loose(heap[order[gi] := heap[order[gi]].(freed := true)], threads[t := pc], order, holder)
  {
    LooseMoves(heap, threads, order, holder, t, pc);
  }

  lemma {:induction false} ReclaimFrees(q: Queue, w: View, t: nat)
    requires Memory(q, w) && Enabled(q, Run(t)) && q.threads[t].ReclaimFree?
    ensures Memory(Step(q, Run(t)), Follow(q, w, Run(t)))
  {
    var pc := ReclaimTest(q.threads[t].value);
    var q', w' := Step(q, Run(t)), w.(gi := w.gi + 1);
    FreesUnused(q, w, t);
    LooseAfterFree(q.heap, q.threads, w.order, w.holder, t, pc, w.gi);
    FreeFirst(q.heap, w.order, w.gi);
    SameValuesPopOk(q.heap, q'.heap, q.divider, w, w', PcOf(q.threads, q.popOwner));
    NodesKeepMemory(q, q', w', t, pc);
  }

  lemma {:induction false} FreeFirst(heap: seq<Node>, order: seq<Address>, gi: nat)
    requires Linked(heap, order, gi) && gi < |order|
    ensures Linked(heap[order[gi] := heap[order[gi]].(freed := true)], order, gi + 1)
  {
    var heap' := heap[order[gi] := heap[order[gi]].(freed := true)];
    assert InHeap(heap', order);
    forall i | 0 <= i < |order| ensures NextIs(heap', order, i) && (Freed(heap', order, i) <==> i < gi + 1) {
      assert NextIs(heap, order, i) && (Freed(heap, order, i) <==> i < gi);
      assert i != gi ==> order[i] != order[gi];
    }
  }

  lemma {:induction false} PushUnlocks(q: Queue, w: View, t: nat)
    requires Memory(q, w) && Enabled(q, Run(t)) && q.threads[t].PushUnlock?
    ensures Memory(Step(q, Run(t)), w)
  {
    HoldersOk(q, w, t);
    MoveKeepsMemory(q, Step(q, Run(t)), w, t, Idle);
  }

  lemma {:induction false} PopLocks(q: Queue, w: View, t: nat)
    requires Memory(q, w) && Enabled(q, Run(t)) && q.threads[t].PopLock?
    ensures Memory(Step(q, Run(t)), w)
  {
    HoldersOk(q, w, t);
    MoveKeepsMemory(q, Step(q, Run(t)), w, t, PopTest(q.threads[t].wait));
  }

  lemma {:induction false} PopTests(q: Queue, w: View, t: nat)
    requires Memory(q, w) && Enabled(q, Run(t)) && q.threads[t].PopTest?
    ensures Memory(Step(q, Run(t)), w)
  {
    HoldersOk(q, w, t);
    MoveKeepsMemory(q, Step(q, Run(t)), w, t, Step(q, Run(t)).threads[t]);
  }

  lemma {:induction false} PopReads(q: Queue, w: View, t: nat)
    requires Memory(q, w) && Enabled(q, Run(t)) && q.threads[t].PopRead?
    ensures Memory(Step(q, Run(t)), w)
  {
    HoldersOk(q, w, t);
    LiveNode(q, w, w.di);
    LiveNode(q, w, w.di + 1);
    MoveKeepsMemory(q, Step(q, Run(t)), w, t, PopArgs(q.heap[w.order[w.di + 1]].value, 0));
  }

  lemma {:induction false} PopReadsAgain(q: Queue, w: View, t: nat)
    requires Memory(q, w) && Enabled(q, Run(t)) && q.threads[t].PopArgs?
    ensures Memory(Step(q, Run(t)), w)
  {
    HoldersOk(q, w, t);
    LiveNode(q, w, w.di);
    MoveKeepsMemory(q, Step(q, Run(t)), w, t, PopCas(q.threads[t].value, 0, q.divider, Some(w.order[w.di + 1])));
  }

  lemma {:induction false} PopSwaps(q: Queue, w: View, t: nat)
    requires Memory(q, w) && Enabled(q, Run(t)) && q.threads[t].PopCas?
    ensures Memory(Step(q, Run(t)), Follow(q, w, Run(t)))
  {
    HoldersOk(q, w, t);
    var value := q.threads[t].value;
    PointersKeepMemory(q, Step(q, Run(t)), w, w.(di := w.di + 1), t, PopUnlock(Some(value)));
  }

  lemma {:induction false} PopUnlocks(q: Queue, w: View, t: nat)
    requires Memory(q, w) && Enabled(q, Run(t)) && q.threads[t].PopUnlock?
    ensures Memory(Step(q, Run(t)), w)
  {
    HoldersOk(q, w, t);
    MoveKeepsMemory(q, Step(q, Run(t)), w, t, Idle);
  }

  lemma {:induction false} StepKeepsMemory(q: Queue, w: View, e: Event)
    requires Memory(q, w) && Enabled(q, e) && !e.Free?
    ensures Memory(Step(q, e), Follow(q, w, e))
  {
    match e {
      case Push(t, value) => PushBegins(q, w, t, value);
      case Pop(t, wait) => PopBegins(q, w, t, wait);
      case Run(t) =>
        HoldersOk(q, w, t);
        match q.threads[t] {
          case PushLock(_) => PushLocks(q, w, t);
          case PushLink(_) => PushLinks(q, w, t);
          case PushArgs(_, _) => PushReads(q, w, t);
          case PushCas(_, _, _, _) => PushSwaps(q, w, t);
          case ReclaimTest(_) => ReclaimTests(q, w, t);
          case ReclaimTake(_) => ReclaimTakes(q, w, t);
          case ReclaimFree(_, _) => ReclaimFrees(q, w, t);
          case PushUnlock(_) => PushUnlocks(q, w, t);
          case PopLock(_) => PopLocks(q, w, t);
          case PopTest(_) => PopTests(q, w, t);
          case PopRead => PopReads(q, w, t);
          case PopArgs(_, _) => PopReadsAgain(q, w, t);
          case PopCas(_, _, _, _) => PopSwaps(q, w, t);
          case PopUnlock(_) => PopUnlocks(q, w, t);
          case _ =>
        }
    }
  }

  // ---------------------------------------------------------------- the log

  ghost predicate LogReplays(q: Queue, w: View) {
    Replays(q.log, q.heap, w.order, w.di, w.li)
  }

  lemma {:induction false} PushTakesEffect(q: Queue, w: View, t: nat)
    requires Memory(q, w) && Enabled(q, Run(t)) && q.threads[t].PushCas?
    ensures w.li + 1 < |w.order| && Step(q, Run(t)).heap == q.heap
    ensures Step(q, Run(t)).log == q.log + [Pushed(t, ValueOf(q.heap, w.order[w.li + 1]))]
  {
    HoldersOk(q, w, t);
  }

  lemma {:induction false} PushSwapsLog(q: Queue, w: View, t: nat)
    requires Memory(q, w) && LogReplays(q, w) && Enabled(q, Run(t)) && q.threads[t].PushCas?
    ensures LogReplays(Step(q, Run(t)), w.(li := w.li + 1))
  {
    PushTakesEffect(q, w, t);
    PushReplays(q.log, q.heap, w.order, w.di, w.li, Pushed(t, ValueOf(q.heap, w.order[w.li + 1])));
  }

  lemma {:induction false} PopTakesEffect(q: Queue, w: View, t: nat)
    requires Memory(q, w) && Enabled(q, Run(t)) && q.threads[t].PopCas?
    ensures w.di < w.li && Step(q, Run(t)).heap == q.heap
    ensures Step(q, Run(t)).log == q.log + [Popped(t, ValueOf(q.heap, w.order[w.di + 1]))]
  {
    HoldersOk(q, w, t);
  }

  lemma {:induction false} PopSwapsLog(q: Queue, w: View, t: nat)
    requires Memory(q, w) && LogReplays(q, w) && Enabled(q, Run(t)) && q.threads[t].PopCas?
    ensures LogReplays(Step(q, Run(t)), w.(di := w.di + 1))
  {
    PopTakesEffect(q, w, t);
    PopReplays(q.log, q.heap, w.order, w.di, w.li, Popped(t, ValueOf(q.heap, w.order[w.di + 1])));
  }

  lemma {:induction false} PopTestsLog(q: Queue, w: View, t: nat)
    requires Inv(q, w) && Enabled(q, Run(t)) && q.threads[t].PopTest?
    ensures LogReplays(Step(q, Run(t)), w)
  {
    if Some(q.divider) == q.last {
      assert w.di == w.li;
      EmptyReplays(q.log, q.heap, w.order, w.di, Empty(t));
    }
  }

  lemma {:induction false} PushLinksLog(q: Queue, w: View, t: nat)
    requires Inv(q, w) && Enabled(q, Run(t)) && q.threads[t].PushLink?
    ensures LogReplays(Step(q, Run(t)), Follow(q, w, Run(t)))
  {
    LinkKeepsReplay(q.log, q.heap, w.order, w.di, w.li, q.threads[t].node);
  }

  lemma {:induction false} ReclaimFreesLog(q: Queue, w: View, t: nat)
    requires Inv(q, w) && Enabled(q, Run(t)) && q.threads[t].ReclaimFree?
    ensures LogReplays(Step(q, Run(t)), Follow(q, w, Run(t)))
  {
    HoldersOk(q, w, t);
    FreeKeepsReplay(q.log, q.heap, w.order, w.di, w.li, w.order[w.gi]);
  }

  /** The other steps neither take effect nor write a node. */
  lemma {:induction false} OtherStepsLog(q: Queue, w: View, t: nat)
    requires Inv(q, w) && Enabled(q, Run(t))
    requires var pc := q.threads[t]; !pc.PushCas? && !pc.PopCas? && !pc.PopTest? && !pc.PushLink? && !pc.ReclaimFree?
    ensures LogReplays(Step(q, Run(t)), Follow(q, w, Run(t)))
  {
    HoldersOk(q, w, t);
    assert Step(q, Run(t)).log == q.log && Step(q, Run(t)).heap == q.heap;
  }

  lemma {:induction false} RunKeepsLog(q: Queue, w: View, t: nat)
    requires Inv(q, w) && Enabled(q, Run(t))
    ensures LogReplays(Step(q, Run(t)), Follow(q, w, Run(t)))
  {
    var pc := q.threads[t];
    if pc.PushCas? {
      PushSwapsLog(q, w, t);
    } else if pc.PopCas? {
      PopSwapsLog(q, w, t);
    } else if pc.PopTest? {
      PopTestsLog(q, w, t);
    } else if pc.PushLink? {
      PushLinksLog(q, w, t);
    } else if pc.ReclaimFree? {
      ReclaimFreesLog(q, w, t);
    } else {
      OtherStepsLog(q, w, t);
    }
  }

  lemma {:induction false} StepKeepsLog(q: Queue, w: View, e: Event)
    requires Inv(q, w) && Enabled(q, e) && !e.Free?
    ensures LogReplays(Step(q, e), Follow(q, w, e))
  {
    match e {
      case Push(t, value) => AllocationKeepsReplay(q.log, q.heap, w.order, w.di, w.li, Node(value, None, false));
      case Pop(t, wait) =>
      case Run(t) => RunKeepsLog(q, w, t);
    }
  }

  /** Every step of every thread keeps the invariant. */
  lemma {:induction false} StepKeepsInv(q: Queue, w: View, e: Event)
    requires Inv(q, w) && Enabled(q, e) && !e.Free?
    ensures Inv(Step(q, e), Follow(q, w, e))
  {
    StepKeepsMemory(q, w, e);
    StepKeepsLog(q, w, e);
  }

  // ---------------------------------------------------------------- freeing it all

  /** One thread frees the queue, all others are done with it. */
  ghost predicate Closing(q: Queue, w: View, t: nat) {
    && q.closing && !q.fault && t < |q.threads| && InFree(q.threads[t])
    && (forall u :: 0 <= u < |q.threads| && u != t ==> q.threads[u].Idle?)
    && Linked(q.heap, w.order, w.gi) && (forall a: Address :: a < |q.heap| ==> a in w.order)
    && w.gi <= w.fi <= |w.order|
    && q.first == (if w.fi < |w.order| then Some(w.order[w.fi]) else None)
    && (q.threads[t].FreeTake? ==> w.fi < |w.order|)
    && (if q.threads[t].FreeNode? then w.fi == w.gi + 1 && q.threads[t].unused == w.order[w.gi] else w.fi == w.gi)
    && (q.threads[t].FreeDone? ==> w.fi == |w.order|)
    && Replay(q.log).Some?
  }

  lemma {:induction false} FreeBegins(q: Queue, w: View, t: nat)
    requires Inv(q, w) && Enabled(q, Free(t))
    ensures Closing(Step(q, Free(t)), w, t)
  {
    assert q.pushOwner.None?;
    assert forall u: nat, a: Address :: !HeldBy(q.threads, u, a);
    forall a: Address | a < |q.heap| ensures a in w.order {
      var holder := w.holder[a];
      assert !HeldBy(q.threads, holder, a);
    }
  }

  lemma {:induction false} FreeMovesOn(q: Queue, w: View, t: nat, e: Event) returns (w': View)
    requires Closing(q, w, t) && Enabled(q, e)
    ensures Closing(Step(q, e), w', t)
  {
    assert e == Run(t);
    w' := w;
    match q.threads[t] {
      case FreeTest =>
      case FreeTake =>
        assert NextIs(q.heap, w.order, w.fi) && (Freed(q.heap, w.order, w.fi) <==> w.fi < w.gi);
        w' := w.(fi := w.fi + 1);
      case FreeNode(unused) =>
        w' := w.(gi := w.gi + 1);
        assert Freed(q.heap, w.order, w.gi) <==> w.gi < w.gi;
        FreeFirst(q.heap, w.order, w.gi);
      case _ =>
    }
  }

  // ------------------------------------------------------------------- main results

  ghost predicate Good(q: Queue) {
    (exists w :: Inv(q, w)) || (exists w, t :: Closing(q, w, t))
  }

  lemma {:induction false} NewView(threads: nat) returns (w: View)
    ensures w == View([0], 0, 0, 0, 0, [0]) && Inv(NewQueue(threads), w)
  {
    w := View([0], 0, 0, 0, 0, [0]);
    var q := NewQueue(threads);
    assert NextIs(q.heap, w.order, 0) && !Freed(q.heap, w.order, 0);
    assert w.order[1..1] == [];
    assert Linked(q.heap, w.order, 0);
    assert 0 in w.order;
    assert Values(q.heap, w.order[1..1]) == [];
    assert Replays(q.log, q.heap, w.order, 0, 0);
  }

  lemma {:induction false} NewIsGood(threads: nat)
    ensures Good(NewQueue(threads))
  {
    var w := NewView(threads);
    assert Inv(NewQueue(threads), w);
  }

  lemma {:induction false} StepIsGood(q: Queue, e: Event)
    requires Good(q) && Enabled(q, e)
    ensures Good(Step(q, e))
  {
    if w :| Inv(q, w) {
      if e.Free? {
        FreeBegins(q, w, e.thread);
      } else {
        StepKeepsInv(q, w, e);
      }
    } else {
      var w, t :| Closing(q, w, t);
      var w' := FreeMovesOn(q, w, t, e);
    }
  }

  lemma {:induction false} RunIsGood(q: Queue, run: seq<Event>)
    requires Good(q) && IsRun(q, run)
    ensures Good(After(q, run))
    decreases |run|
  {
    if run != [] {
      StepIsGood(q, run[0]);
      RunIsGood(Step(q, run[0]), run[1..]);
    }
  }

  /** In every interleaving of any number of threads: no dead node is read, written or freed
      again, both compare-and-swap failure branches are never reached, and the operations in
      the order they took effect are a run of a sequential queue, so that what was pushed is
      what was popped and then what is pending. */
  lemma {:induction false} EveryInterleavingIsSafe(threads: nat, run: seq<Event>)
    requires IsRun(NewQueue(threads), run)
    ensures var q := After(NewQueue(threads), run);
            && !q.fault
            && (forall t :: 0 <= t < |q.threads| ==> !q.threads[t].PushBroken? && !q.threads[t].PopBroken?)
            && Replay(q.log).Some?
            && PushedValues(q.log) == PoppedValues(q.log) + Replay(q.log).value
  {
    NewIsGood(threads);
    RunIsGood(NewQueue(threads), run);
    var q := After(NewQueue(threads), run);
    if w :| Inv(q, w) {
      forall t | 0 <= t < |q.threads| ensures !q.threads[t].PushBroken? && !q.threads[t].PopBroken? {
        HoldersOk(q, w, t);
      }
    } else {
      var w, t :| Closing(q, w, t);
    }
    PushedIsPoppedAndPending(q.log);
  }

  /** The nodes the next step of a thread reads, writes or frees. */
  function Uses(q: Queue, pc: Pc): seq<Option<Address>> {
    match pc
    case PushLink(_) => [q.last]
    case PushArgs(_, _) => [q.last]
    case PushBroken(node) => [Some(node)]
    case ReclaimTake(_) => [q.first]
    case ReclaimFree(_, unused) => [Some(unused)]
    case PopRead => [Some(q.divider), NextOf(q, q.divider)]
    case PopArgs(_, _) => [Some(q.divider)]
    case FreeTake => [q.first]
    case FreeNode(unused) => [Some(unused)]
    case _ => []
  }

  lemma {:induction false} PushUseFaults(q: Queue, t: nat, i: nat)
    requires t < |q.threads| && OnPush(q.threads[t]) && i < |Uses(q, q.threads[t])| && !StepPush(q, t).fault
    ensures var node := Uses(q, q.threads[t])[i]; node.Some? && Live(q, node.value)
  {
  }

  lemma {:induction false} PopUseFaults(q: Queue, t: nat, i: nat)
    requires t < |q.threads| && OnPop(q.threads[t]) && i < |Uses(q, q.threads[t])| && !StepPop(q, t).fault
    ensures var node := Uses(q, q.threads[t])[i]; node.Some? && Live(q, node.value)
  {
  }

  lemma {:induction false} FreeUseFaults(q: Queue, t: nat, i: nat)
    requires t < |q.threads| && InFree(q.threads[t]) && i < |Uses(q, q.threads[t])| && !StepFree(q, t).fault
    ensures var node := Uses(q, q.threads[t])[i]; node.Some? && Live(q, node.value)
  {
  }

  /** A step that uses a node that is not live leaves a fault. */
  lemma {:induction false} DeadUseFaults(q: Queue, t: nat, i: nat)
    requires Enabled(q, Run(t)) && i < |Uses(q, q.threads[t])| && !Step(q, Run(t)).fault
    ensures var node := Uses(q, q.threads[t])[i]; node.Some? && Live(q, node.value)
  {
    if OnPush(q.threads[t]) {
      PushUseFaults(q, t, i);
    } else if OnPop(q.threads[t]) {
      PopUseFaults(q, t, i);
    } else {
      FreeUseFaults(q, t, i);
    }
  }

  /** In every interleaving, whatever node a thread is about to use has been allocated and not
      been freed. */
  lemma {:induction false} NextUseIsLive(threads: nat, run: seq<Event>, t: nat, i: nat)
    requires IsRun(NewQueue(threads), run)
    requires var q := After(NewQueue(threads), run);
             t < |q.threads| && Enabled(q, Run(t)) && i < |Uses(q, q.threads[t])|
    ensures var q := After(NewQueue(threads), run);
            var node := Uses(q, q.threads[t])[i];
            node.Some? && node.value < |q.heap| && !q.heap[node.value].freed
  {
    NewIsGood(threads);
    RunIsGood(NewQueue(threads), run);
    var q := After(NewQueue(threads), run);
    StepIsGood(q, Run(t));
    GoodHasNoFault(Step(q, Run(t)));
    DeadUseFaults(q, t, i);
  }

  lemma {:induction false} GoodHasNoFault(q: Queue)
    requires Good(q)
    ensures !q.fault
  {
    if w :| Inv(q, w) {
    } else {
      var w, t :| Closing(q, w, t);
    }
  }

  /** While the queue is in use, `first`, `divider` and `last` lie in this order on one list
      without a cycle; the freed nodes are those before `first`, but for one that is being
      freed; and the values from `divider` to `last` are the pending ones. */
  lemma {:induction false} PointersStayInOrder(threads: nat, run: seq<Event>) returns (w: View)
    requires IsRun(NewQueue(threads), run) && !After(NewQueue(threads), run).closing
    ensures var q := After(NewQueue(threads), run);
            && Ends(q, w) && Linked(q.heap, w.order, w.gi) && w.fi <= w.gi + 1
            && Replay(q.log) == Some(Values(q.heap, w.order[w.di + 1..w.li + 1]))
  {
    NewIsGood(threads);
    RunIsGood(NewQueue(threads), run);
    w :| Inv(After(NewQueue(threads), run), w);
  }

  /** Once `freeQueue` is through, every node ever allocated has been freed (and, no fault
      having occurred, none of them twice). */
  lemma {:induction false} NothingIsLeftBehind(threads: nat, run: seq<Event>, t: nat)
    requires IsRun(NewQueue(threads), run)
    requires t < |After(NewQueue(threads), run).threads| && After(NewQueue(threads), run).threads[t].FreeDone?
    ensures var q := After(NewQueue(threads), run);
            !q.fault && forall a :: 0 <= a < |q.heap| ==> q.heap[a].freed
  {
    NewIsGood(threads);
    RunIsGood(NewQueue(threads), run);
    var q := After(NewQueue(threads), run);
    if w :| Inv(q, w) {
      HoldersOk(q, w, t);
    } else {
      var w, u :| Closing(q, w, u);
      DoneIsFreed(q, w, u, t);
    }
  }

  lemma {:induction false} DoneIsFreed(q: Queue, w: View, u: nat, t: nat)
    requires Closing(q, w, u) && t < |q.threads| && q.threads[t].FreeDone?
    ensures forall a :: 0 <= a < |q.heap| ==> q.heap[a].freed
  {
    forall a: Address | a < |q.heap| ensures q.heap[a].freed {
      assert a in w.order;
      var i: nat :| i < |w.order| && w.order[i] == a;
      assert Freed(q.heap, w.order, i);
    }
  }
}
