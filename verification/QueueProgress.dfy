/** What a caller of the queue can count on: a pop that waits comes back with a value, a pop
    that does not wait comes back soon, and the nodes of popped values do not pile up. */
module QueueProgress {
  import opened Wrappers
  import opened QueueThreads

  // ------------------------------------------------------- waiting and not waiting

  /** Thread `t` has only called the pop that waits, and has never come back empty. */
  predicate Patient(q: Queue, t: nat) {
    && (t < |q.threads| ==> q.threads[t] != PopLock(false) && q.threads[t] != PopTest(false) && q.threads[t] != PopUnlock(None))
    && Empty(t) !in q.log && Empty(t) !in q.returned
  }

  /** A step that moves thread `u` to `pc` and adds at most one entry of the thread's own. */
  predicate Shows(q: Queue, q': Queue, u: nat, pc: Pc, entry: Entry) {
    && u < |q.threads| && q'.threads == q.threads[u := pc] && entry.thread == u
    && (q'.log == q.log || q'.log == q.log + [entry])
    && (q'.returned == q.returned || q'.returned == q.returned + [entry])
  }

  lemma {:induction false} ShownStaysPatient(q: Queue, q': Queue, t: nat, u: nat, pc: Pc, entry: Entry)
    requires Patient(q, t) && Shows(q, q', u, pc, entry)
    requires t == u ==> !entry.Empty? && pc != PopLock(false) && pc != PopTest(false) && pc != PopUnlock(None)
    ensures Patient(q', t)
  {
  }

  lemma {:induction false} PushStaysPatient(q: Queue, t: nat, u: nat)
    requires Patient(q, t) && u < |q.threads| && OnPush(q.threads[u])
    ensures Patient(StepPush(q, u), t)
  {
    var q' := StepPush(q, u);
    var entry := if q.threads[u].PushCas? then Pushed(u, ValueAt(q, Some(q.threads[u].node)))
                 else if q.threads[u].PushUnlock? then Pushed(u, q.threads[u].value) else Pushed(u, 0);
    ShownStaysPatient(q, q', t, u, q'.threads[u], entry);
  }

  lemma {:induction false} PopStaysPatient(q: Queue, t: nat, u: nat)
    requires Patient(q, t) && u < |q.threads| && OnPop(q.threads[u])
    ensures Patient(StepPop(q, u), t)
  {
    var q' := StepPop(q, u);
    var entry := if q.threads[u].PopCas? then Popped(u, q.threads[u].value)
                 else if q.threads[u].PopUnlock? && q.threads[u].result.Some? then Popped(u, q.threads[u].result.value) else Empty(u);
    if q'.log == q.log && q'.returned == q.returned {
      ShownStaysPatient(q, q', t, u, q'.threads[u], Popped(u, 0));
    } else {
      ShownStaysPatient(q, q', t, u, q'.threads[u], entry);
    }
  }

  lemma {:induction false} FreeStaysPatient(q: Queue, t: nat, u: nat)
    requires Patient(q, t) && u < |q.threads| && !OnPush(q.threads[u]) && !OnPop(q.threads[u])
    ensures Patient(StepFree(q, u), t)
  {
  }

  lemma {:induction false} StepStaysPatient(q: Queue, e: Event, t: nat)
    requires Patient(q, t) && Enabled(q, e) && (e.Pop? && e.thread == t ==> e.wait)
    ensures Patient(Step(q, e), t)
  {
    if e.Run? {
      if OnPush(q.threads[e.thread]) {
        PushStaysPatient(q, t, e.thread);
      } else if OnPop(q.threads[e.thread]) {
        PopStaysPatient(q, t, e.thread);
      } else {
        FreeStaysPatient(q, t, e.thread);
      }
    }
  }

  predicate OnlyWaits(run: seq<Event>, t: nat) {
    forall i :: 0 <= i < |run| && run[i].Pop? && run[i].thread == t ==> run[i].wait
  }

  lemma {:induction false} RunStaysPatient(q: Queue, run: seq<Event>, t: nat)
    requires Patient(q, t) && IsRun(q, run) && OnlyWaits(run, t)
    ensures Patient(After(q, run), t)
    decreases |run|
  {
    if run != [] {
      StepStaysPatient(q, run[0], t);
      assert forall i :: 0 <= i < |run[1..]| ==> run[1..][i] == run[i + 1];
      RunStaysPatient(Step(q, run[0]), run[1..], t);
    }
  }

  /** `queuePop` comes back with a value or not at all. */
  lemma {:induction false} WaitingPopsBringAValue(threads: nat, run: seq<Event>, t: nat)
    requires IsRun(NewQueue(threads), run) && OnlyWaits(run, t)
    ensures Empty(t) !in After(NewQueue(threads), run).log && Empty(t) !in After(NewQueue(threads), run).returned
  {
    RunStaysPatient(NewQueue(threads), run, t);
  }

  /** The steps of its own a pop has before it, once it is past waiting. */
  function PopLeft(pc: Pc): nat {
    match pc
    case PopLock(_) => 6
    case PopTest(_) => 5
    case PopRead => 4
    case PopArgs(_, _) => 3
    case PopCas(_, _, _, _) => 2
    case PopUnlock(_) => 1
    case _ => 0
  }

  /** `queuePopNoWait` is over after at most six steps of its own, and so is `queuePop` once it
      has found something; only the waiting one goes back for the lock, and only from an
      empty queue. */
  lemma {:induction false} PopMovesOn(q: Queue, w: View, t: nat)
    requires Inv(q, w) && Enabled(q, Run(t)) && OnPop(q.threads[t])
    ensures var before, after := q.threads[t], Step(q, Run(t)).threads[t];
            if before == PopTest(true) && Replay(q.log) == Some([]) then after == PopLock(true)
            else PopLeft(after) < PopLeft(before) && (OnPop(after) || after.Idle?)
  {
    HoldersOk(q, w, t);
    if q.threads[t].PopTest? {
      EmptyWhenNoneIsLinked(q, w);
    }
  }

  lemma {:induction false} EmptyWhenNoneIsLinked(q: Queue, w: View)
    requires Inv(q, w)
    ensures Replay(q.log) == Some([]) <==> Some(q.divider) == q.last
  {
    var pending := w.order[w.di + 1..w.li + 1];
    assert |Values(q.heap, pending)| == w.li - w.di;
    if w.di < w.li {
      assert q.divider != w.order[w.li];
    }
  }

  // ------------------------------------------------------------------ no pile of nodes

  /** The values popped since the last push took effect. */
  function PoppedSince(log: seq<Entry>): nat
    decreases |log|
  {
    if log == [] then 0
    else
      match log[|log| - 1]
      case Pushed(_, _) => 0
      case Popped(_, _) => 1 + PoppedSince(log[..|log| - 1])
      case Empty(_) => PoppedSince(log[..|log| - 1])
  }

  lemma {:induction false} OneMoreEntry(log: seq<Entry>, entry: Entry)
    ensures PoppedSince(log + [entry]) == if entry.Pushed? then 0 else PoppedSince(log) + if entry.Popped? then 1 else 0
  {
    assert (log + [entry])[..|log|] == log;
  }

  predicate Reclaiming(pc: Pc) {
    pc.ReclaimTest? || pc.ReclaimTake? || pc.ReclaimFree?
  }

  /** Unless a push is still reclaiming, the consumed nodes on the list are at most as many as
      the values popped since the last push. */
  predicate Tidy(q: Queue, w: View) {
    Reclaiming(PcOf(q.threads, q.pushOwner)) || w.di - w.fi <= PoppedSince(q.log)
  }

  lemma {:induction false} PushKeepsTidy(q: Queue, w: View, t: nat)
    requires Inv(q, w) && Enabled(q, Run(t)) && OnPush(q.threads[t]) && Tidy(q, w)
    ensures Tidy(Step(q, Run(t)), Follow(q, w, Run(t)))
  {
    HoldersOk(q, w, t);
    if q.threads[t].ReclaimTest? && q.first == Some(q.divider) {
      assert w.order[w.fi] == w.order[w.di];
      assert w.fi == w.di;
    }
  }

  lemma {:induction false} PopKeepsTidy(q: Queue, w: View, t: nat)
    requires Inv(q, w) && Enabled(q, Run(t)) && OnPop(q.threads[t]) && Tidy(q, w)
    ensures Tidy(Step(q, Run(t)), Follow(q, w, Run(t)))
  {
    HoldersOk(q, w, t);
    OneMoreEntry(q.log, Empty(t));
    if q.threads[t].PopCas? {
      OneMoreEntry(q.log, Popped(t, q.threads[t].value));
    }
  }

  lemma {:induction false} StepKeepsTidy(q: Queue, w: View, e: Event)
    requires Inv(q, w) && Enabled(q, e) && !e.Free? && Tidy(q, w)
    ensures Tidy(Step(q, e), Follow(q, w, e))
  {
    HoldersOk(q, w, e.thread);
    if e.Run? {
      if OnPush(q.threads[e.thread]) {
        PushKeepsTidy(q, w, e.thread);
      } else {
        PopKeepsTidy(q, w, e.thread);
      }
    }
  }

  lemma {:induction false} ClosingStays(q: Queue, run: seq<Event>)
    requires q.closing && IsRun(q, run)
    ensures After(q, run).closing
    decreases |run|
  {
    if run != [] {
      ClosingStays(Step(q, run[0]), run[1..]);
    }
  }

  lemma {:induction false} RunKeepsTidy(q: Queue, w: View, run: seq<Event>) returns (end: View)
    requires Inv(q, w) && Tidy(q, w) && IsRun(q, run) && !After(q, run).closing
    ensures Inv(After(q, run), end) && Tidy(After(q, run), end)
    decreases |run|
  {
    end := w;
    if run != [] {
      if run[0].Free? {
        ClosingStays(Step(q, run[0]), run[1..]);
      } else {
        StepKeepsInv(q, w, run[0]);
        StepKeepsTidy(q, w, run[0]);
        end := RunKeepsTidy(Step(q, run[0]), Follow(q, w, run[0]), run[1..]);
      }
    }
  }

  /** In every interleaving, when no push is under way: the nodes between `first` and `divider`
      are no more than the values popped since the last push. */
  lemma {:induction false} NodesDoNotPileUp(threads: nat, run: seq<Event>) returns (w: View)
    requires IsRun(NewQueue(threads), run)
    requires var q := After(NewQueue(threads), run); !q.closing && q.pushOwner.None?
    ensures var q := After(NewQueue(threads), run);
            Ends(q, w) && Linked(q.heap, w.order, w.gi) && w.gi == w.fi && w.di - w.fi <= PoppedSince(q.log)
  {
    w := NewView(threads);
    w := RunKeepsTidy(NewQueue(threads), w, run);
  }
}
