/** The history of the queue against what its callers did and saw: the arguments of the
    pushes, the results of all calls, and the order of calls in real time. */
module QueueHistory {
  import opened Wrappers
  import opened QueueThreads

  /** The entries of one thread. */
  function Of(log: seq<Entry>, t: nat): seq<Entry>
    decreases |log|
  {
    if log == [] then []
    else Of(log[..|log| - 1], t) + if log[|log| - 1].thread == t then [log[|log| - 1]] else []
  }

  /** An operation that has taken effect and not yet returned. */
  function InFlight(t: nat, pc: Pc): seq<Entry> {
    match pc
    case ReclaimTest(v) => [Pushed(t, v)]
    case ReclaimTake(v) => [Pushed(t, v)]
    case ReclaimFree(v, _) => [Pushed(t, v)]
    case PushUnlock(v) => [Pushed(t, v)]
    case PopUnlock(result) => [if result.Some? then Popped(t, result.value) else Empty(t)]
    case _ => []
  }

  ghost predicate Witnessed(q: Queue) {
    forall t :: 0 <= t < |q.threads| ==> Of(q.log, t) == Of(q.returned, t) + InFlight(t, q.threads[t])
  }

  lemma OfAppend(log: seq<Entry>, entry: Entry, t: nat)
    ensures Of(log + [entry], t) == Of(log, t) + if entry.thread == t then [entry] else []
  {
    assert (log + [entry])[..|log|] == log;
  }

  predicate MovesOne(q: Queue, q': Queue, t: nat) {
    t < |q.threads| == |q'.threads| && q'.threads == q.threads[t := q'.threads[t]]
  }

  /** A step either takes effect, or returns, or does neither. */
  predicate MovesEntry(q: Queue, q': Queue, t: nat, before: seq<Entry>, after: seq<Entry>) {
    || (q'.log == q.log && q'.returned == q.returned && after == before)
    || (before == [] && |after| == 1 && after[0].thread == t && q'.log == q.log + after && q'.returned == q.returned)
    || (after == [] && |before| == 1 && before[0].thread == t && q'.log == q.log && q'.returned == q.returned + before)
  }

  ghost predicate Moves(q: Queue, q': Queue, t: nat) {
    MovesOne(q, q', t) && MovesEntry(q, q', t, InFlight(t, q.threads[t]), InFlight(t, q'.threads[t]))
  }

  lemma {:induction false} StepMoves(q: Queue, e: Event)
    requires Enabled(q, e)
    ensures Moves(q, Step(q, e), e.thread)
  {
    assert MovesOne(q, Step(q, e), e.thread);
    if e.Run? {
      if OnPush(q.threads[e.thread]) {
        PushMovesEntry(q, e.thread);
      } else if OnPop(q.threads[e.thread]) {
        PopMovesEntry(q, e.thread);
      }
    }
  }

  lemma {:induction false} PushMovesEntry(q: Queue, t: nat)
    requires t < |q.threads| && OnPush(q.threads[t]) && |StepPush(q, t).threads| == |q.threads|
    ensures MovesEntry(q, StepPush(q, t), t, InFlight(t, q.threads[t]), InFlight(t, StepPush(q, t).threads[t]))
  {
    if !q.threads[t].PushCas? && !q.threads[t].PushUnlock? {
      PushIsQuiet(q, t);
    }
  }

  lemma {:induction false} PushIsQuiet(q: Queue, t: nat)
    requires t < |q.threads| && OnPush(q.threads[t]) && !q.threads[t].PushCas? && !q.threads[t].PushUnlock?
    requires |StepPush(q, t).threads| == |q.threads|
    ensures var q' := StepPush(q, t);
            q'.log == q.log && q'.returned == q.returned && InFlight(t, q'.threads[t]) == InFlight(t, q.threads[t])
  {
  }

  lemma {:induction false} PopMovesEntry(q: Queue, t: nat)
    requires t < |q.threads| && OnPop(q.threads[t]) && |StepPop(q, t).threads| == |q.threads|
    ensures MovesEntry(q, StepPop(q, t), t, InFlight(t, q.threads[t]), InFlight(t, StepPop(q, t).threads[t]))
  {
    if !q.threads[t].PopTest? && !q.threads[t].PopCas? && !q.threads[t].PopUnlock? {
      PopIsQuiet(q, t);
    }
  }

  lemma {:induction false} PopIsQuiet(q: Queue, t: nat)
    requires t < |q.threads| && OnPop(q.threads[t]) && |StepPop(q, t).threads| == |q.threads|
    requires !q.threads[t].PopTest? && !q.threads[t].PopCas? && !q.threads[t].PopUnlock?
    ensures var q' := StepPop(q, t);
            q'.log == q.log && q'.returned == q.returned && InFlight(t, q'.threads[t]) == InFlight(t, q.threads[t])
  {
  }

  lemma {:induction false} StepIsWitnessed(q: Queue, e: Event)
    requires Witnessed(q) && Enabled(q, e)
    ensures Witnessed(Step(q, e))
  {
    StepMoves(q, e);
    MoveIsWitnessed(q, Step(q, e), e.thread);
  }

  lemma {:induction false} MoveIsWitnessed(q: Queue, q': Queue, t: nat)
    requires Witnessed(q) && Moves(q, q', t)
    ensures Witnessed(q')
  {
    forall u | 0 <= u < |q'.threads|
      ensures Of(q'.log, u) == Of(q'.returned, u) + InFlight(u, q'.threads[u])
    {
      assert u != t ==> q'.threads[u] == q.threads[u];
      MoveIsWitnessedBy(q, q', t, InFlight(t, q.threads[t]), InFlight(t, q'.threads[t]), u, InFlight(u, q.threads[u]), InFlight(u, q'.threads[u]));
    }
  }

  /** One move, as one thread sees it: its own, or that of another thread. */
  lemma {:induction false} MoveIsWitnessedBy(q: Queue, q': Queue, t: nat, before: seq<Entry>, after: seq<Entry>, u: nat, mine: seq<Entry>, mine': seq<Entry>)
    requires MovesEntry(q, q', t, before, after)
    requires if u == t then mine == before && mine' == after else mine' == mine
    requires Of(q.log, u) == Of(q.returned, u) + mine
    ensures Of(q'.log, u) == Of(q'.returned, u) + mine'
  {
    if q'.log != q.log {
      assert after == [after[0]];
      OfAppend(q.log, after[0], u);
    } else if q'.returned != q.returned {
      assert before == [before[0]];
      OfAppend(q.returned, before[0], u);
    }
  }

  lemma {:induction false} RunIsWitnessed(q: Queue, run: seq<Event>)
    requires Witnessed(q) && IsRun(q, run)
    ensures Witnessed(After(q, run))
    decreases |run|
  {
    if run != [] {
      StepIsWitnessed(q, run[0]);
      RunIsWitnessed(Step(q, run[0]), run[1..]);
    }
  }

  // ------------------------------------------------------------- what was pushed

  /** The values a run asks thread `t` to push, in order. */
  function AskedOf(run: seq<Event>, t: nat): seq<Value>
    decreases |run|
  {
    if run == [] then []
    else (if run[0].Push? && run[0].thread == t then [run[0].value] else []) + AskedOf(run[1..], t)
  }

  /** The values thread `t` has pushed according to a log, in order. */
  function PushedOf(log: seq<Entry>, t: nat): seq<Value>
    decreases |log|
  {
    if log == [] then []
    else
      var last := log[|log| - 1];
      PushedOf(log[..|log| - 1], t) + if last.Pushed? && last.thread == t then [last.value] else []
  }

  /** The value of a push that has begun and not yet taken effect. */
  function Carried(q: Queue, t: nat): seq<Value>
    requires t < |q.threads|
  {
    match q.threads[t]
    case PushLock(node) => [ValueAt(q, Some(node))]
    case PushLink(node) => [ValueAt(q, Some(node))]
    case PushArgs(node, _) => [ValueAt(q, Some(node))]
    case PushCas(node, _, _, _) => [ValueAt(q, Some(node))]
    case _ => []
  }

  lemma PushedAppend(log: seq<Entry>, entry: Entry, t: nat)
    ensures PushedOf(log + [entry], t) == PushedOf(log, t) + if entry.Pushed? && entry.thread == t then [entry.value] else []
  {
    assert (log + [entry])[..|log|] == log;
  }

  /** The node a thread carries is in the heap. */
  lemma {:induction false} CarriedInHeap(q: Queue, w: View, t: nat)
    requires Inv(q, w) && t < |q.threads|
    ensures var pc := q.threads[t];
            pc.PushLock? || pc.PushLink? || pc.PushArgs? || pc.PushCas? ==> pc.node < |q.heap|
  {
    HoldersOk(q, w, t);
    var pc := q.threads[t];
    if pc.PushLock? || pc.PushLink? {
      assert HeldBy(q.threads, t, pc.node);
    }
  }

  /** No step changes the value of a node, and only a push adds one. */
  predicate KeepsValues(heap: seq<Node>, heap': seq<Node>) {
    |heap| <= |heap'| && forall a :: 0 <= a < |heap| ==> heap'[a].value == heap[a].value
  }

  lemma {:induction false} StepKeepsValues(q: Queue, e: Event)
    requires Enabled(q, e)
    ensures KeepsValues(q.heap, Step(q, e).heap)
  {
  }

  /** Another thread's step leaves alone what this one carries. */
  lemma {:induction false} OthersCarry(q: Queue, w: View, e: Event, t: nat)
    requires Inv(q, w) && Enabled(q, e) && t < |q.threads| && t != e.thread
    ensures |Step(q, e).threads| == |q.threads| && Carried(Step(q, e), t) == Carried(q, t)
  {
    CarriedInHeap(q, w, t);
    StepKeepsValues(q, e);
    StepMoves(q, e);
  }

  /** What one step adds to the log is one entry of its thread, if any. */
  lemma {:induction false} OthersPush(q: Queue, e: Event, t: nat)
    requires Enabled(q, e) && t != e.thread
    ensures PushedOf(Step(q, e).log, t) == PushedOf(q.log, t)
  {
    StepMoves(q, e);
    var log' := Step(q, e).log;
    if log' != q.log {
      var entry := log'[|q.log|];
      assert log' == q.log + [entry];
      PushedAppend(q.log, entry, t);
    }
  }

  /** Asked, pushed and carried, through one step of the thread itself. */
  ghost predicate Accounts(q: Queue, q': Queue, e: Event, t: nat)
    requires t < |q.threads| && t < |q'.threads|
  {
    PushedOf(q'.log, t) + Carried(q', t) == PushedOf(q.log, t) + Carried(q, t) + (if e.Push? && e.thread == t then [e.value] else [])
  }

  lemma {:induction false} BeginAccounts(q: Queue, w: View, e: Event)
    requires Inv(q, w) && Enabled(q, e) && !e.Run?
    ensures |Step(q, e).threads| == |q.threads| && Accounts(q, Step(q, e), e, e.thread)
  {
  }

  lemma {:induction false} SwapAccounts(q: Queue, w: View, t: nat)
    requires Inv(q, w) && Enabled(q, Run(t)) && q.threads[t].PushCas?
    ensures |Step(q, Run(t)).threads| == |q.threads| && Accounts(q, Step(q, Run(t)), Run(t), t)
  {
    HoldersOk(q, w, t);
    var value := ValueAt(q, Some(q.threads[t].node));
    PushedAppend(q.log, Pushed(t, value), t);
  }

  /** The other steps of a thread keep what it carries and push nothing. */
  lemma {:induction false} RunAccounts(q: Queue, w: View, t: nat)
    requires Inv(q, w) && Enabled(q, Run(t)) && !q.threads[t].PushCas?
    ensures |Step(q, Run(t)).threads| == |q.threads| && Accounts(q, Step(q, Run(t)), Run(t), t)
  {
    var q' := Step(q, Run(t));
    RunCarries(q, w, t);
    RunPushesNothing(q, t);
  }

  lemma {:induction false} RunCarries(q: Queue, w: View, t: nat)
    requires Inv(q, w) && Enabled(q, Run(t)) && !q.threads[t].PushCas?
    ensures |Step(q, Run(t)).threads| == |q.threads| && Carried(Step(q, Run(t)), t) == Carried(q, t)
  {
    HoldersOk(q, w, t);
    CarriedInHeap(q, w, t);
    StepKeepsValues(q, Run(t));
  }

  lemma {:induction false} RunPushesNothing(q: Queue, t: nat)
    requires Enabled(q, Run(t)) && !q.threads[t].PushCas?
    ensures PushedOf(Step(q, Run(t)).log, t) == PushedOf(q.log, t)
  {
    var log' := Step(q, Run(t)).log;
    if log' != q.log {
      var entry := log'[|q.log|];
      assert log' == q.log + [entry] && !entry.Pushed?;
      PushedAppend(q.log, entry, t);
    }
  }

  lemma {:induction false} StepAccounts(q: Queue, w: View, e: Event, t: nat)
    requires Inv(q, w) && Enabled(q, e) && t < |q.threads|
    ensures |Step(q, e).threads| == |q.threads| && Accounts(q, Step(q, e), e, t)
  {
    if t != e.thread {
      OthersCarry(q, w, e, t);
      OthersPush(q, e, t);
    } else if !e.Run? {
      BeginAccounts(q, w, e);
    } else if q.threads[t].PushCas? {
      SwapAccounts(q, w, t);
    } else {
      RunAccounts(q, w, t);
    }
  }

  /** While the queue is being freed nobody pushes. */
  lemma {:induction false} ClosingAccounts(q: Queue, w: View, u: nat, e: Event, t: nat)
    requires Closing(q, w, u) && Enabled(q, e) && t < |q.threads|
    ensures |Step(q, e).threads| == |q.threads| && Accounts(q, Step(q, e), e, t)
  {
    assert e == Run(u);
    assert q.threads[t].Idle? || t == u;
  }

  lemma {:induction false} GoodStepAccounts(q: Queue, e: Event, t: nat)
    requires Good(q) && Enabled(q, e) && t < |q.threads|
    ensures |Step(q, e).threads| == |q.threads| && Accounts(q, Step(q, e), e, t)
  {
    if w :| Inv(q, w) {
      StepAccounts(q, w, e, t);
    } else {
      var w, u :| Closing(q, w, u);
      ClosingAccounts(q, w, u, e, t);
    }
  }

  /** Every step from a state of a kind accounts for `t` and keeps to the kind. */
  ghost predicate EveryStepAccounts(kind: Queue -> bool, threads: nat, t: nat)
    requires t < threads
  {
    forall q: Queue, e: Event :: kind(q) && |q.threads| == threads && Enabled(q, e) ==>
      kind(Step(q, e)) && |Step(q, e).threads| == threads && Accounts(q, Step(q, e), e, t)
  }

  lemma {:induction false} GoodStepsAccount(threads: nat, t: nat)
    requires t < threads
    ensures EveryStepAccounts((q: Queue) => Good(q), threads, t)
  {
    forall q: Queue, e: Event | Good(q) && |q.threads| == threads && Enabled(q, e)
      ensures Good(Step(q, e)) && |Step(q, e).threads| == threads && Accounts(q, Step(q, e), e, t)
    {
      GoodStepAccounts(q, e, t);
      StepIsGood(q, e);
    }
  }

  lemma Chain(before: seq<Value>, first: seq<Value>, middle: seq<Value>, later: seq<Value>, after: seq<Value>)
    requires middle == before + first && after == middle + later
    ensures after == before + (first + later)
  {
  }

  lemma {:induction false} PushesAddUp(q: Queue, run: seq<Event>, t: nat, kind: Queue -> bool)
    requires t < |q.threads| && EveryStepAccounts(kind, |q.threads|, t) && kind(q) && IsRun(q, run)
    ensures |After(q, run).threads| == |q.threads|
    ensures PushedOf(After(q, run).log, t) + Carried(After(q, run), t) == PushedOf(q.log, t) + Carried(q, t) + AskedOf(run, t)
    decreases |run|
  {
    if run != [] {
      var e, next, end := run[0], Step(q, run[0]), After(q, run);
      assert Accounts(q, next, e, t);
      PushesAddUp(next, run[1..], t, kind);
      Chain(PushedOf(q.log, t) + Carried(q, t), if e.Push? && e.thread == t then [e.value] else [],
            PushedOf(next.log, t) + Carried(next, t), AskedOf(run[1..], t), PushedOf(end.log, t) + Carried(end, t));
    }
  }

  /** What a thread pushed, in the order in which it took effect, are the values it was asked
      to push, in the order of the calls, up to the one still on its way. */
  lemma {:induction false} PushesCarryTheirArguments(threads: nat, run: seq<Event>, t: nat)
    requires IsRun(NewQueue(threads), run) && t < threads
    ensures var q := After(NewQueue(threads), run);
            t < |q.threads| && PushedOf(q.log, t) + Carried(q, t) == AskedOf(run, t)
  {
    var start := NewQueue(threads);
    NewIsGood(threads);
    GoodStepsAccount(threads, t);
    PushesAddUp(start, run, t, (q: Queue) => Good(q));
    assert PushedOf(start.log, t) + Carried(start, t) + AskedOf(run, t) == AskedOf(run, t);
  }

  // -------------------------------------------------------------------- real time

  lemma {:induction false} LogGrows(q: Queue, e: Event)
    requires Enabled(q, e)
    ensures q.log <= Step(q, e).log && q.returned <= Step(q, e).returned
  {
    StepMoves(q, e);
  }

  /** A run in two parts: the second goes on where the first has come to, and adds to the log. */
  lemma {:induction false} RunInTwo(q: Queue, first: seq<Event>, second: seq<Event>)
    requires IsRun(q, first + second)
    ensures IsRun(q, first) && IsRun(After(q, first), second)
    ensures After(q, first + second) == After(After(q, first), second)
    ensures After(q, first).log <= After(q, first + second).log
    decreases |first|
  {
    if first == [] {
      assert first + second == second;
      LogOnlyGrows(q, second);
    } else {
      assert (first + second)[0] == first[0] && (first + second)[1..] == first[1..] + second;
      RunInTwo(Step(q, first[0]), first[1..], second);
    }
  }

  lemma {:induction false} LogOnlyGrows(q: Queue, run: seq<Event>)
    requires IsRun(q, run)
    ensures q.log <= After(q, run).log
    decreases |run|
  {
    if run != [] {
      LogGrows(q, run[0]);
      LogOnlyGrows(Step(q, run[0]), run[1..]);
    }
  }

  lemma {:induction false} OfSplit(log: seq<Entry>, more: seq<Entry>, t: nat)
    ensures Of(log + more, t) == Of(log, t) + Of(more, t)
    decreases |more|
  {
    if more == [] {
      assert log + more == log;
    } else {
      var front, last := more[..|more| - 1], more[|more| - 1];
      assert log + more == (log + front) + [last] && more == front + [last];
      OfSplit(log, front, t);
      OfAppend(log + front, last, t);
      OfAppend(front, last, t);
    }
  }

  /** The queue is linearizable. The log is a run of a sequential queue. It gives every thread
      exactly the results its calls returned, in the order it made them, besides at most one
      operation that has taken effect and is about to return. And it respects real time: cut
      the run anywhere, and what had returned by then is in the front part of the log, while
      what any thread begins afterwards, being idle at the cut, is behind it. */
  lemma {:induction false} QueueIsLinearizable(threads: nat, first: seq<Event>, second: seq<Event>, t: nat)
    requires IsRun(NewQueue(threads), first + second) && t < threads
    ensures IsRun(NewQueue(threads), first)
    ensures var cut, q := After(NewQueue(threads), first), After(NewQueue(threads), first + second);
            && |cut.threads| == |q.threads| == threads
            && Replay(q.log).Some?
            && Of(q.log, t) == Of(q.returned, t) + InFlight(t, q.threads[t])
            && cut.log <= q.log
            && Of(cut.log, t) == Of(cut.returned, t) + InFlight(t, cut.threads[t])
            && (cut.threads[t].Idle? ==> Of(q.log, t) == Of(cut.returned, t) + Of(q.log[|cut.log|..], t))
  {
    var start := NewQueue(threads);
    var all := first + second;
    RunInTwo(start, first, second);
    var cut, q := After(start, first), After(start, all);
    assert Replay(q.log).Some? by {
      EveryInterleavingIsSafe(threads, all);
    }
    ThreadsStay(start, first);
    ThreadsStay(start, all);
    Witness(threads, first, t);
    Witness(threads, all, t);
    LaterIsBehind(cut.log, q.log, t);
  }

  lemma {:induction false} ThreadsStay(q: Queue, run: seq<Event>)
    requires IsRun(q, run)
    ensures |After(q, run).threads| == |q.threads|
    decreases |run|
  {
    if run != [] {
      StepMoves(q, run[0]);
      ThreadsStay(Step(q, run[0]), run[1..]);
    }
  }

  lemma {:induction false} Witness(threads: nat, run: seq<Event>, t: nat)
    requires IsRun(NewQueue(threads), run) && t < |After(NewQueue(threads), run).threads|
    ensures var q := After(NewQueue(threads), run); Of(q.log, t) == Of(q.returned, t) + InFlight(t, q.threads[t])
  {
    RunIsWitnessed(NewQueue(threads), run);
  }

  lemma {:induction false} LaterIsBehind(front: seq<Entry>, log: seq<Entry>, t: nat)
    requires front <= log
    ensures Of(log, t) == Of(front, t) + Of(log[|front|..], t)
  {
    assert log == front + log[|front|..];
    OfSplit(front, log[|front|..], t);
  }
}
