/** The counter of a fan-in context as it is: `left--` reads and writes, and the test for zero
    reads again. A fan-out started off the worker counts on two threads, the starting one for
    what is refused or comes out within the call, the worker for what was queued. Started on
    the worker, all counting is on one thread and each count is one step, as in `FanInLatch`. */
module FanInRace {

  /** Who counts a slot down: the loop when the index step is refused, a callback inside the
      starting call, or a callback of the worker. */
  datatype Kind = Refused | Inline | Queued

  /** Where a thread is: about to write what it has read, less one, or about to test. */
  datatype Pc = Idle | Writing(read: int) | Testing

  datatype Race = Race(
    kinds: seq<Kind>, next: nat, pending: nat, starter: Pc, worker: Pc,
    left: int, counted: nat,
    fired: nat, freed: nat, fault: bool)

  datatype Thread = Starter | Worker

  function Init(kinds: seq<Kind>): Race {
    Race(kinds, 0, 0, Idle, Idle, |kinds|, 0, 0, 0, false)
  }

  predicate Enabled(r: Race, t: Thread) {
    match t
    case Starter => r.next < |r.kinds|
    case Worker => !r.worker.Idle? || r.pending > 0
  }

  /** Any access to a context that has been freed is a fault. */
  function Touch(r: Race): Race {
    r.(fault := r.fault || r.freed > 0)
  }

  function Write(r: Race, read: int): Race {
    Touch(r).(left := read - 1, counted := r.counted + 1)
  }

  /** Whoever sees zero calls back and frees. */
  function Test(r: Race): Race {
    var m := Touch(r);
    if m.left == 0 then m.(fired := m.fired + 1, freed := m.freed + 1) else m
  }

  function Step(r: Race, t: Thread): Race
    requires Enabled(r, t)
  {
    match t
    case Starter =>
      (match r.starter
       case Idle =>
         if r.kinds[r.next].Queued? then r.(pending := r.pending + 1, next := r.next + 1)
         else Touch(r).(starter := Writing(r.left))
       case Writing(read) =>
         if r.kinds[r.next].Inline? then Write(r, read).(starter := Testing)
         else Write(r, read).(starter := Idle, next := r.next + 1)
       case Testing => Test(r).(starter := Idle, next := r.next + 1))
    case Worker =>
      match r.worker
      case Idle => Touch(r).(pending := r.pending - 1, worker := Writing(r.left))
      case Writing(read) => Write(r, read).(worker := Testing)
      case Testing => Test(r).(worker := Idle)
  }

  ghost predicate IsRun(r: Race, run: seq<Thread>)
    decreases |run|
  {
    run == [] || (Enabled(r, run[0]) && IsRun(Step(r, run[0]), run[1..]))
  }

  function After(r: Race, run: seq<Thread>): Race
    requires IsRun(r, run)
    decreases |run|
  {
    if run == [] then r else After(Step(r, run[0]), run[1..])
  }

  lemma {:induction false} RunsJoin(r: Race, first: seq<Thread>, second: seq<Thread>)
    requires IsRun(r, first) && IsRun(After(r, first), second)
    ensures IsRun(r, first + second) && After(r, first + second) == After(After(r, first), second)
    decreases |first|
  {
    if first == [] {
      assert first + second == second;
    } else {
      assert (first + second)[1..] == first[1..] + second;
      RunsJoin(Step(r, first[0]), first[1..], second);
    }
  }

  // ------------------------------------------------------------------- invariants

  /** Every slot passed is counted, waits for the worker, or is being counted by it. */
  predicate Placed(r: Race) {
    && r.next <= |r.kinds|
    && (!r.starter.Idle? ==> r.next < |r.kinds| && !r.kinds[r.next].Queued?)
    && (r.starter.Testing? ==> r.kinds[r.next].Inline?)
    && r.counted + r.pending + (if r.worker.Writing? then 1 else 0) == r.next + if r.starter.Testing? then 1 else 0
  }

  lemma {:induction false} StepPlaces(r: Race, t: Thread)
    requires Placed(r) && Enabled(r, t)
    ensures Placed(Step(r, t)) && Step(r, t).kinds == r.kinds
  {
  }

  /** The slots not counted yet. */
  function Due(r: Race): int {
    |r.kinds| - r.counted
  }

  /** Between counts `left` is what is due: no update has been lost. */
  predicate Exact(r: Race) {
    r.starter.Idle? && r.worker.Idle? ==> r.left == Due(r)
  }

  // ---------------------------------------------------------- where nothing is lost

  /** All slots the starting thread counts come before the first it queues. */
  predicate StarterFirst(kinds: seq<Kind>) {
    forall i, j :: 0 <= i < j < |kinds| && kinds[i].Queued? ==> kinds[j].Queued?
  }

  /** Nothing has been queued while the starting thread still counts. */
  predicate Apart(r: Race) {
    && (r.next < |r.kinds| && !r.kinds[r.next].Queued? ==> r.pending == 0 && r.worker.Idle? && NoneQueued(r.kinds, r.next))
    && (r.pending > 0 || !r.worker.Idle? ==> !NoneQueued(r.kinds, r.next))
  }

  predicate NoneQueued(kinds: seq<Kind>, upTo: nat) {
    forall i :: 0 <= i < upTo && i < |kinds| ==> !kinds[i].Queued?
  }

  predicate Inv(r: Race) {
    && Placed(r) && Apart(r) && StarterFirst(r.kinds)
    && r.left == Due(r)
    && (r.starter.Writing? ==> r.starter.read == r.left)
    && (r.worker.Writing? ==> r.worker.read == r.left)
    && r.fired == r.freed <= 1 && !r.fault
    && (r.fired == 1 ==> r.left == 0 && !r.starter.Testing? && !r.worker.Testing?)
    && (r.fired == 1 && |r.kinds| > 0 ==> !r.kinds[|r.kinds| - 1].Refused?)
    && (r.fired == 0 && r.left == 0 && |r.kinds| > 0 && !r.kinds[|r.kinds| - 1].Refused? ==> r.starter.Testing? || r.worker.Testing?)
  }

  lemma {:induction false} StarterKeepsInv(r: Race)
    requires Inv(r) && Enabled(r, Starter)
    ensures Inv(Step(r, Starter))
  {
    StepPlaces(r, Starter);
    var m := Step(r, Starter);
    if m.next < |m.kinds| && !m.kinds[m.next].Queued? {
      assert NoneQueued(m.kinds, m.next);
    }
  }

  lemma {:induction false} WorkerKeepsInv(r: Race)
    requires Inv(r) && Enabled(r, Worker)
    ensures Inv(Step(r, Worker))
  {
    StepPlaces(r, Worker);
  }

  lemma {:induction false} RunKeepsInv(r: Race, run: seq<Thread>)
    requires Inv(r) && IsRun(r, run)
    ensures Inv(After(r, run)) && After(r, run).kinds == r.kinds
    decreases |run|
  {
    if run != [] {
      match run[0] {
        case Starter => StarterKeepsInv(r);
        case Worker => WorkerKeepsInv(r);
      }
      StepPlaces(r, run[0]);
      RunKeepsInv(Step(r, run[0]), run[1..]);
    }
  }

  predicate Complete(r: Race) {
    r.next >= |r.kinds| && r.worker.Idle? && r.pending == 0
  }

  /** Where the starting thread counts first, two threads are as good as one: no update is
      lost, nobody goes on after the free, and in the end the callback has run exactly once if
      the last slot starts, and not at all otherwise. */
  lemma {:induction false} StarterFirstIsSafe(kinds: seq<Kind>, run: seq<Thread>)
    requires StarterFirst(kinds) && kinds != [] && IsRun(Init(kinds), run)
    ensures var r := After(Init(kinds), run);
            && Exact(r) && !r.fault && r.fired <= 1 && r.freed <= 1
            && (Complete(r) ==> (r.fired == 1 <==> !kinds[|kinds| - 1].Refused?))
            && (r.freed > 0 ==> Complete(r))
  {
    RunKeepsInv(Init(kinds), run);
  }

  // ---------------------------------------------------------- where an update is lost

  /** Whoever goes on from here never sees zero: `left` and everything read from it is more
      than what is due. */
  predicate Behind(r: Race) {
    && Placed(r)
    && r.left > Due(r)
    && (r.starter.Writing? ==> r.starter.read > Due(r))
    && (r.worker.Writing? ==> r.worker.read > Due(r))
  }

  lemma {:induction false} StaysBehind(r: Race, run: seq<Thread>)
    requires Behind(r) && IsRun(r, run)
    ensures Behind(After(r, run)) && After(r, run).fired == r.fired
    decreases |run|
  {
    if run != [] {
      StepPlaces(r, run[0]);
      StaysBehind(Step(r, run[0]), run[1..]);
    }
  }

  /** The starting thread alone, up to slot `upTo`. */
  lemma {:induction false} StarterAlone(r: Race, upTo: nat) returns (run: seq<Thread>)
    requires Placed(r) && r.starter.Idle? && r.worker.Idle? && r.left == Due(r) && r.fired == 0 && r.freed == 0
    requires r.next <= upTo < |r.kinds|
    ensures IsRun(r, run)
    ensures var m := After(r, run);
            && Placed(m) && m.kinds == r.kinds && m.next == upTo && m.starter.Idle? && m.worker.Idle?
            && m.left == Due(m) && m.fired == 0 && m.freed == 0
            && m.pending >= r.pending && (r.next < upTo && r.kinds[r.next].Queued? ==> m.pending > 0)
    decreases upTo - r.next
  {
    run := [];
    if r.next < upTo {
      var turn := Turn(r.kinds[r.next]);
      TurnAlone(r, upTo);
      var rest := StarterAlone(After(r, turn), upTo);
      RunsJoin(r, turn, rest);
      run := turn + rest;
    }
  }

  /** One turn of the loop. */
  function Turn(kind: Kind): seq<Thread> {
    match kind
    case Queued => [Starter]
    case Refused => [Starter, Starter]
    case Inline => [Starter, Starter, Starter]
  }

  lemma {:induction false} TurnAlone(r: Race, upTo: nat)
    requires Placed(r) && r.starter.Idle? && r.worker.Idle? && r.left == Due(r) && r.fired == 0 && r.freed == 0
    requires r.next < upTo < |r.kinds|
    ensures IsRun(r, Turn(r.kinds[r.next]))
    ensures var m := After(r, Turn(r.kinds[r.next]));
            && Placed(m) && m.kinds == r.kinds && m.next == r.next + 1 && m.starter.Idle? && m.worker.Idle?
            && m.left == Due(m) && m.fired == 0 && m.freed == 0
            && m.pending == r.pending + if r.kinds[r.next].Queued? then 1 else 0
  {
    assert [Starter][1..] == [] && [Starter, Starter][1..] == [Starter] && [Starter, Starter, Starter][1..] == [Starter, Starter];
    var one := Step(r, Starter);
    assert After(r, [Starter]) == one;
    if !r.kinds[r.next].Queued? {
      var two := Step(one, Starter);
      assert After(one, [Starter]) == two && After(r, [Starter, Starter]) == two;
      if r.kinds[r.next].Inline? {
        assert After(two, [Starter]) == Step(two, Starter) && After(one, [Starter, Starter]) == Step(two, Starter);
      }
    }
  }

  /** Both threads read the same value: starter, worker, the worker's write and test, and the
      starter's write, which undoes the worker's, with the test that may follow. */
  function Clash(kind: Kind): seq<Thread> {
    [Starter, Worker, Worker, Worker, Starter] + if kind.Inline? then [Starter] else []
  }

  lemma {:induction false} ClashLoses(r: Race)
    requires Placed(r) && r.starter.Idle? && r.worker.Idle? && r.left == Due(r) && r.fired == 0 && r.freed == 0
    requires r.next < |r.kinds| && !r.kinds[r.next].Queued? && r.pending > 0
    ensures IsRun(r, Clash(r.kinds[r.next]))
    ensures var m := After(r, Clash(r.kinds[r.next])); Behind(m) && m.fired == 0 && m.starter.Idle? && m.worker.Idle?
  {
    var five := [Starter, Worker, Worker, Worker, Starter];
    assert IsRun(r, five) && Behind(After(r, five)) && After(r, five).fired == 0;
    if r.kinds[r.next].Inline? {
      var m := After(r, five);
      assert [Starter][1..] == [];
      assert IsRun(m, [Starter]) && After(m, [Starter]) == Step(m, Starter);
      RunsJoin(r, five, [Starter]);
      StaysBehind(m, [Starter]);
    } else {
      assert five + [] == five;
    }
  }

  /** A slot that the starting thread counts behind a queued one: some run loses an update
      there, and then no continuation ever calls back. */
  lemma {:induction false} UpdateLost(kinds: seq<Kind>) returns (run: seq<Thread>)
    requires !StarterFirst(kinds)
    ensures IsRun(Init(kinds), run) && !Exact(After(Init(kinds), run))
    ensures forall more: seq<Thread> :: IsRun(After(Init(kinds), run), more) ==> After(After(Init(kinds), run), more).fired == 0
  {
    var i, j :| 0 <= i < j < |kinds| && kinds[i].Queued? && !kinds[j].Queued?;
    var before := StarterAlone(Init(kinds), i);
    var queued := After(Init(kinds), before);
    var until := StarterAlone(queued, j);
    RunsJoin(Init(kinds), before, until);
    ClashLoses(After(queued, until));
    RunsJoin(Init(kinds), before + until, Clash(kinds[j]));
    run := before + until + Clash(kinds[j]);
    var r := After(Init(kinds), run);
    forall more: seq<Thread> | IsRun(r, more) ensures After(r, more).fired == 0 {
      StaysBehind(r, more);
    }
  }

  ghost predicate NothingLost(kinds: seq<Kind>) {
    forall run: seq<Thread> :: IsRun(Init(kinds), run) ==> Exact(After(Init(kinds), run))
  }

  /** The counter is safe without a lock exactly when the starting thread has counted all its
      slots before it queues the first. */
  lemma {:induction false} SafeExactlyWhenStarterFirst(kinds: seq<Kind>)
    requires kinds != []
    ensures NothingLost(kinds) <==> StarterFirst(kinds)
  {
    if StarterFirst(kinds) {
      forall run: seq<Thread> | IsRun(Init(kinds), run) ensures Exact(After(Init(kinds), run)) {
        StarterFirstIsSafe(kinds, run);
      }
    } else {
      var run := UpdateLost(kinds);
      assert !Exact(After(Init(kinds), run));
    }
  }

  /** Of two counts on two threads both may see zero: the callback runs twice, and the second
      time on a context that has been freed. */
  lemma {:induction false} BothMayFinish()
    ensures var run := [Starter, Starter, Starter, Worker, Worker, Starter, Worker];
            && IsRun(Init([Queued, Inline]), run)
            && After(Init([Queued, Inline]), run).fired == 2 && After(Init([Queued, Inline]), run).fault
  {
  }
}
