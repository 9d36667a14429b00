/** The reference count of a service. Every handle, payload and request in flight carries one
    reference. Threads either take a carrier over, or use one that stays where it is, any
    number of threads the same one at the same time. Taking and dropping a reference each
    test `freeing` first and change the count in a later step. */
module RefLedger {

  datatype Kind = External | Payload | InFlight

  /** A handle, a payload or a request in flight; live until its reference is taken over. */
  datatype Carrier = Carrier(kind: Kind, live: bool)

  /** What a thread does next with references: `serviceIncRef`, `serviceDecRef`, or leave one
      with a new carrier. */
  datatype Op = Inc | Dec | Leave(kind: Kind)

  /** `borrowed` is the carrier a thread works on without owning its reference, if any; `held`
      counts the references of its own; `checked` is past the test of `freeing`. */
  datatype Thread =
    | Idle
    | Running(ops: seq<Op>, held: nat, borrowed: int, checked: bool)
    | Destroying                          // destroyServiceForSession, with the handle
    | TearingDown(marked: bool)           // freeServicePtr; marked: `freeing` is set

  datatype Service = Service(
    refCount: int, freeing: bool, carriers: seq<Carrier>, threads: seq<Thread>,
    teardowns: nat, deletes: nat, skipped: nat)

  datatype Event =
    | Use(thread: nat, carrier: nat, ops: seq<Op>)       // the carrier stays, others may use it too
    | TakeOver(thread: nat, carrier: nat, ops: seq<Op>)  // its reference is now the thread's
    | Destroy(thread: nat, carrier: nat)
    | Run(thread: nat)
    | SubmitDelete(thread: nat)
    | DeleteReply

  const NOBODY: int := -1

  function NewService(threads: nat): Service {
    Service(1, false, [Carrier(External, true)], seq(threads, _ => Idle), 0, 0, 0)
  }

  // ------------------------------------------------------------------- discipline

  /** A thread takes another reference only while it holds one or uses a carrier, drops and
      leaves only its own, and keeps none at the end. */
  predicate WellHeld(ops: seq<Op>, held: nat, using: bool)
    decreases |ops|
  {
    if ops == [] then held == 0
    else if ops[0].Inc? then (held > 0 || using) && WellHeld(ops[1..], held + 1, using)
    else held > 0 && WellHeld(ops[1..], held - 1, using)
  }

  // The operations of the service, each as the references it takes and drops. Those on a
  // handle or a payload use it; those of the worker take over the request in flight.

  function Request(firstRequest: bool): seq<Op> {
    [Inc] + (if firstRequest then [Inc, Dec] else []) + [Leave(InFlight)]
  }

  const RefusedRequest: seq<Op> := [Inc, Dec]

  const MakePayload: seq<Op> := [Inc, Leave(Payload)]

  function Reply(withPayload: bool): seq<Op> {
    (if withPayload then [Inc, Leave(Payload)] else []) + [Dec]
  }

  /** The redirected request takes its reference before the redirecting one drops its own. */
  const Redirect: seq<Op> := [Inc, Leave(InFlight), Dec]

  const Release: seq<Op> := [Dec]

  lemma {:induction false} HeldCons(op: Op, ops: seq<Op>, held: nat, using: bool)
    ensures WellHeld([op] + ops, held, using) <==>
            if op.Inc? then (held > 0 || using) && WellHeld(ops, held + 1, using) else held > 0 && WellHeld(ops, held - 1, using)
  {
    assert ([op] + ops)[1..] == ops;
  }

  lemma {:induction false} Held2(op: Op, held: nat, using: bool)
    requires !op.Inc?
    ensures WellHeld([Inc, op], held, using) <==> held == 0 && using
  {
    HeldCons(Inc, [op], held, using);
    HeldCons(op, [], held + 1, using);
    assert [Inc, op] == [Inc] + [op] && [op] == [op] + [];
  }

  lemma {:induction false} Held3(op: Op)
    requires !op.Inc?
    ensures WellHeld([Inc, op, Dec], 1, false)
  {
    HeldCons(Inc, [op, Dec], 1, false);
    HeldCons(op, [Dec], 2, false);
    HeldCons(Dec, [], 1, false);
    assert [Inc, op, Dec] == [Inc] + [op, Dec] && [op, Dec] == [op] + [Dec] && [Dec] == [Dec] + [];
  }

  /** Every operation keeps to the discipline; a redirect that dropped first would not. */
  lemma {:induction false} OperationsAreWellHeld(flag: bool)
    ensures WellHeld(Request(flag), 0, true) && WellHeld(RefusedRequest, 0, true) && WellHeld(MakePayload, 0, true)
    ensures WellHeld(Reply(flag), 1, false) && WellHeld(Redirect, 1, false) && WellHeld(Release, 1, false)
    ensures !WellHeld([Dec, Inc, Leave(InFlight)], 1, false)
  {
    Held2(Leave(InFlight), 0, true);
    Held2(Dec, 0, true);
    Held2(Leave(Payload), 0, true);
    Held3(Leave(Payload));
    Held3(Leave(InFlight));
    HeldCons(Inc, [Inc, Dec, Leave(InFlight)], 0, true);
    HeldCons(Inc, [Dec, Leave(InFlight)], 1, true);
    HeldCons(Dec, [Leave(InFlight)], 2, true);
    HeldCons(Leave(InFlight), [], 1, true);
    assert Request(true) == [Inc] + [Inc, Dec, Leave(InFlight)] && [Inc, Dec, Leave(InFlight)] == [Inc] + [Dec, Leave(InFlight)];
    assert [Dec, Leave(InFlight)] == [Dec] + [Leave(InFlight)] && [Leave(InFlight)] == [Leave(InFlight)] + [];
    assert Request(false) == [Inc, Leave(InFlight)];
    assert Reply(true) == [Inc, Leave(Payload), Dec] && Reply(false) == [Dec];
    HeldCons(Dec, [], 1, false);
    assert Release == [Dec] + [];
    HeldCons(Dec, [Inc, Leave(InFlight)], 1, false);
    HeldCons(Inc, [Leave(InFlight)], 0, false);
    assert [Dec, Inc, Leave(InFlight)] == [Dec] + [Inc, Leave(InFlight)] && [Inc, Leave(InFlight)] == [Inc] + [Leave(InFlight)];
  }

  // ------------------------------------------------------------------------ steps

  predicate IsLive(s: Service, c: int) {
    0 <= c < |s.carriers| && s.carriers[c].live
  }

  predicate Uses(thread: Thread, c: int) {
    thread.Running? && thread.borrowed == c
  }

  /** A carrier may be given up only by its owner, when nobody else is using it. */
  predicate CanTake(s: Service, t: nat, c: int) {
    && t < |s.threads| && s.threads[t].Idle? && IsLive(s, c)
    && forall u :: 0 <= u < |s.threads| ==> !Uses(s.threads[u], c)
  }

  predicate Enabled(s: Service, e: Event) {
    match e
    case Use(t, c, ops) => t < |s.threads| && s.threads[t].Idle? && IsLive(s, c) && ops != [] && WellHeld(ops, 0, true)
    case TakeOver(t, c, ops) => CanTake(s, t, c) && WellHeld(ops, 1, false)
    case Destroy(t, c) => CanTake(s, t, c) && s.carriers[c].kind.External?
    case Run(t) => t < |s.threads| && !s.threads[t].Idle? && s.threads[t] != TearingDown(true)
                   && (s.threads[t].Running? ==> s.threads[t].ops != [])
    case SubmitDelete(t) => t < |s.threads| && s.threads[t] == TearingDown(true)
    case DeleteReply => s.deletes > 0
  }

  function Put(s: Service, t: nat, thread: Thread): Service
    requires t < |s.threads|
  {
    s.(threads := s.threads[t := thread])
  }

  function Retire(s: Service, c: int): Service
    requires 0 <= c < |s.carriers|
  {
    s.(carriers := s.carriers[c := s.carriers[c].(live := false)])
  }

  function AddCarrier(s: Service, kind: Kind): Service {
    s.(carriers := s.carriers + [Carrier(kind, true)])
  }

  /** The rest of a program; a thread that is through is idle and uses nothing any more. */
  function Rest(thread: Thread, held: int): Thread
    requires thread.Running? && thread.ops != []
  {
    if thread.ops[1..] == [] then Idle else Running(thread.ops[1..], if held > 0 then held else 0, thread.borrowed, false)
  }

  function StepOp(s: Service, t: nat): Service
    requires t < |s.threads| && s.threads[t].Running? && s.threads[t].ops != []
  {
    var th := s.threads[t];
    match th.ops[0]
    case Leave(kind) => AddCarrier(Put(s, t, Rest(th, th.held - 1)), kind)
    case Inc =>
      if !th.checked then
        if s.freeing then Put(s, t, Rest(th, th.held + 1)).(skipped := s.skipped + 1)
        else Put(s, t, th.(checked := true))
      else Put(s, t, Rest(th, th.held + 1)).(refCount := s.refCount + 1)
    case Dec =>
      if !th.checked then
        if s.freeing then Put(s, t, Rest(th, th.held - 1)).(skipped := s.skipped + 1)
        else Put(s, t, th.(checked := true))
      else if s.refCount == 1 then Put(s, t, TearingDown(false)).(refCount := 0, teardowns := s.teardowns + 1)
      else Put(s, t, Rest(th, th.held - 1)).(refCount := s.refCount - 1)
  }

  function Step(s: Service, e: Event): Service
    requires Enabled(s, e)
  {
    match e
    case Use(t, c, ops) => Put(s, t, Running(ops, 0, c, false))
    case TakeOver(t, c, ops) => Put(Retire(s, c), t, Running(ops, 1, NOBODY, false))
    case Destroy(t, c) => Put(Retire(s, c), t, Destroying)
    case Run(t) =>
      (match s.threads[t]
       case Destroying =>
         if s.refCount > 1 then AddCarrier(Put(s, t, Idle), External)    // refused: the handle stays
         else Put(s, t, TearingDown(false)).(teardowns := s.teardowns + 1)
       case TearingDown(_) => Put(s, t, TearingDown(true)).(freeing := true)
       case Running(_, _, _, _) => StepOp(s, t)
       case Idle => s)
    // serviceIncRef and, for the reply, serviceDecRef see `freeing` and change nothing
    case SubmitDelete(t) => s.(deletes := s.deletes + 1)
    case DeleteReply => if s.freeing then s.(deletes := s.deletes - 1) else s.(deletes := s.deletes - 1, refCount := s.refCount - 1)
  }

  ghost predicate IsRun(s: Service, run: seq<Event>)
    decreases |run|
  {
    run == [] || (Enabled(s, run[0]) && IsRun(Step(s, run[0]), run[1..]))
  }

  function After(s: Service, run: seq<Event>): Service
    requires IsRun(s, run)
    decreases |run|
  {
    if run == [] then s else After(Step(s, run[0]), run[1..])
  }

  // -------------------------------------------------------------------- invariant

  function HeldBy(thread: Thread): nat {
    match thread
    case Running(_, held, _, _) => held
    case Destroying => 1
    case _ => 0
  }

  function HeldByAll(threads: seq<Thread>): nat {
    if threads == [] then 0 else HeldBy(threads[0]) + HeldByAll(threads[1..])
  }

  function LiveOnes(carriers: seq<Carrier>): nat {
    if carriers == [] then 0 else (if carriers[0].live then 1 else 0) + LiveOnes(carriers[1..])
  }

  /** Everything that carries a reference, also in the hands of a thread. */
  function Outstanding(s: Service): nat {
    LiveOnes(s.carriers) + HeldByAll(s.threads)
  }

  predicate ThreadOk(s: Service, thread: Thread) {
    match thread
    case Running(ops, held, borrowed, checked) =>
      && ops != [] && WellHeld(ops, held, borrowed != NOBODY) && (checked ==> !ops[0].Leave?)
      && (borrowed != NOBODY ==> IsLive(s, borrowed))
    case TearingDown(_) => false
    case _ => true
  }

  ghost predicate ThreadsOk(s: Service) {
    forall t :: 0 <= t < |s.threads| ==> ThreadOk(s, s.threads[t])
  }

  /** One thread tears the service down; there is nobody else. */
  ghost predicate Alone(s: Service, t: nat) {
    && t < |s.threads| && s.threads[t].TearingDown? && (s.threads[t].marked <==> s.freeing)
    && forall u :: 0 <= u < |s.threads| && u != t ==> s.threads[u].Idle?
  }

  ghost predicate Inv(s: Service) {
    && s.skipped == 0
    && (s.deletes > 0 ==> s.freeing)
    && if s.teardowns == 0 then !s.freeing && s.refCount == Outstanding(s) && s.refCount > 0 && ThreadsOk(s)
       else s.teardowns == 1 && Outstanding(s) == 0 && exists t :: Alone(s, t)
  }

  lemma {:induction false} HeldUpdate(threads: seq<Thread>, t: nat, thread: Thread)
    requires t < |threads|
    ensures HeldByAll(threads[t := thread]) == HeldByAll(threads) - HeldBy(threads[t]) + HeldBy(thread)
    decreases |threads|
  {
    if t == 0 {
      assert threads[0 := thread][1..] == threads[1..];
    } else {
      HeldUpdate(threads[1..], t - 1, thread);
      assert threads[t := thread][1..] == threads[1..][t - 1 := thread];
    }
  }

  lemma {:induction false} LiveUpdate(carriers: seq<Carrier>, c: nat)
    requires c < |carriers| && carriers[c].live
    ensures LiveOnes(carriers[c := carriers[c].(live := false)]) == LiveOnes(carriers) - 1
    decreases |carriers|
  {
    var retired := carriers[c].(live := false);
    if c == 0 {
      assert carriers[0 := retired][1..] == carriers[1..];
    } else {
      LiveUpdate(carriers[1..], c - 1);
      assert carriers[c := retired][1..] == carriers[1..][c - 1 := retired];
    }
  }

  lemma {:induction false} LiveAppend(carriers: seq<Carrier>, carrier: Carrier)
    requires carrier.live
    ensures LiveOnes(carriers + [carrier]) == LiveOnes(carriers) + 1
    decreases |carriers|
  {
    if carriers == [] {
      assert [carrier][1..] == [];
    } else {
      assert (carriers + [carrier])[1..] == carriers[1..] + [carrier];
      LiveAppend(carriers[1..], carrier);
    }
  }

  lemma {:induction false} NobodyHolds(threads: seq<Thread>)
    requires HeldByAll(threads) == 0
    ensures forall t :: 0 <= t < |threads| ==> HeldBy(threads[t]) == 0
    decreases |threads|
  {
    if threads != [] {
      NobodyHolds(threads[1..]);
      assert forall t :: 0 < t < |threads| ==> threads[t] == threads[1..][t - 1];
    }
  }

  lemma {:induction false} NoneLives(carriers: seq<Carrier>)
    requires LiveOnes(carriers) == 0
    ensures forall c :: 0 <= c < |carriers| ==> !carriers[c].live
    decreases |carriers|
  {
    if carriers != [] {
      NoneLives(carriers[1..]);
      assert forall c :: 0 < c < |carriers| ==> carriers[c] == carriers[1..][c - 1];
    }
  }

  lemma {:induction false} OneHolds(threads: seq<Thread>, t: nat)
    requires t < |threads|
    ensures HeldByAll(threads) >= HeldBy(threads[t])
    decreases |threads|
  {
    if t > 0 {
      OneHolds(threads[1..], t - 1);
    }
  }

  /** When the last reference is given up, no carrier is left and every other thread is idle,
      also those that used a carrier without owning its reference. */
  lemma {:induction false} LastOneOut(s: Service, t: nat)
    requires Inv(s) && s.teardowns == 0 && s.refCount == 1 && t < |s.threads| && HeldBy(s.threads[t]) >= 1
    ensures LiveOnes(s.carriers) == 0 && HeldBy(s.threads[t]) == 1
    ensures HeldByAll(s.threads[t := TearingDown(false)]) == 0
    ensures Alone(Put(s, t, TearingDown(false)), t)
  {
    OneHolds(s.threads, t);
    HeldUpdate(s.threads, t, TearingDown(false));
    var rest := s.threads[t := TearingDown(false)];
    NobodyHolds(rest);
    NoneLives(s.carriers);
    forall u | 0 <= u < |rest| && u != t ensures rest[u].Idle? {
      assert ThreadOk(s, s.threads[u]) && HeldBy(rest[u]) == 0;
    }
  }

  // --------------------------------------------------------------- one per event

  /** Only thread `t` changes, and every carrier in use by the others lives on. */
  lemma {:induction false} OthersOk(s: Service, s': Service, t: nat, thread: Thread)
    requires ThreadsOk(s) && t < |s.threads| && s'.threads == s.threads[t := thread] && ThreadOk(s', thread)
    requires forall u, c :: 0 <= u < |s.threads| && u != t && Uses(s.threads[u], c) && IsLive(s, c) ==> IsLive(s', c)
    ensures ThreadsOk(s')
  {
    forall u | 0 <= u < |s'.threads| ensures ThreadOk(s', s'.threads[u]) {
      if u != t {
        assert ThreadOk(s, s.threads[u]);
        if s.threads[u].Running? {
          assert Uses(s.threads[u], s.threads[u].borrowed);
        }
      }
    }
  }

  lemma {:induction false} UseKeepsInv(s: Service, e: Event)
    requires Inv(s) && Enabled(s, e) && e.Use?
    ensures Inv(Step(s, e))
  {
    LiveCounts(s.carriers, e.carrier);
    var thread := Running(e.ops, 0, e.carrier, false);
    HeldUpdate(s.threads, e.thread, thread);
    assert s.teardowns == 0;
    OthersOk(s, Step(s, e), e.thread, thread);
  }

  lemma {:induction false} LiveCounts(carriers: seq<Carrier>, c: nat)
    requires c < |carriers| && carriers[c].live
    ensures LiveOnes(carriers) > 0
    decreases |carriers|
  {
    if c > 0 {
      LiveCounts(carriers[1..], c - 1);
    }
  }

  lemma {:induction false} TakeKeepsInv(s: Service, e: Event)
    requires Inv(s) && Enabled(s, e) && (e.TakeOver? || e.Destroy?)
    ensures Inv(Step(s, e))
  {
    LiveCounts(s.carriers, e.carrier);
    LiveUpdate(s.carriers, e.carrier);
    var thread := if e.TakeOver? then Running(e.ops, 1, NOBODY, false) else Destroying;
    HeldUpdate(s.threads, e.thread, thread);
    assert s.teardowns == 0;
    assert e.TakeOver? ==> e.ops != [];
    OthersOk(s, Step(s, e), e.thread, thread);
  }

  /** What the discipline leaves for the rest of a program. */
  lemma {:induction false} RestOk(s: Service, thread: Thread)
    requires thread.Running? && ThreadOk(s, thread)
    ensures !thread.ops[0].Inc? ==> thread.held > 0
    ensures var now := if thread.ops[0].Inc? then thread.held + 1 else thread.held - 1;
            HeldBy(Rest(thread, now)) == now && ThreadOk(s, Rest(thread, now))
  {
    var now := if thread.ops[0].Inc? then thread.held + 1 else thread.held - 1;
    assert WellHeld(thread.ops[1..], now, thread.borrowed != NOBODY);
    assert thread.ops[1..] == [] ==> now == 0;
  }

  lemma {:induction false} LeaveKeepsInv(s: Service, t: nat)
    requires Inv(s) && Enabled(s, Run(t)) && s.threads[t].Running? && s.threads[t].ops[0].Leave?
    requires s.teardowns == 0
    ensures Inv(Step(s, Run(t)))
  {
    var th, s' := s.threads[t], Step(s, Run(t));
    var rest := Rest(th, th.held - 1);
    RestOk(s, th);
    HeldUpdate(s.threads, t, rest);
    LiveAppend(s.carriers, Carrier(th.ops[0].kind, true));
    OthersOk(s, s', t, rest);
  }

  lemma {:induction false} CountKeepsInv(s: Service, t: nat)
    requires Inv(s) && Enabled(s, Run(t)) && s.threads[t].Running? && !s.threads[t].ops[0].Leave?
    requires s.teardowns == 0 && !(s.threads[t].ops[0].Dec? && s.threads[t].checked && s.refCount == 1)
    ensures Inv(Step(s, Run(t)))
  {
    var th, s' := s.threads[t], Step(s, Run(t));
    RestOk(s, th);
    OneHolds(s.threads, t);
    HeldUpdate(s.threads, t, s'.threads[t]);
    OthersOk(s, s', t, s'.threads[t]);
  }

  lemma {:induction false} LastDropKeepsInv(s: Service, t: nat)
    requires Inv(s) && Enabled(s, Run(t)) && s.threads[t].Running? && s.threads[t].ops[0].Dec? && s.threads[t].checked
    requires s.teardowns == 0 && s.refCount == 1
    ensures Inv(Step(s, Run(t)))
  {
    RestOk(s, s.threads[t]);
    LastOneOut(s, t);
    assert Alone(Step(s, Run(t)), t);
  }

  lemma {:induction false} DestroyKeepsInv(s: Service, t: nat)
    requires Inv(s) && Enabled(s, Run(t)) && s.threads[t].Destroying?
    ensures Inv(Step(s, Run(t)))
  {
    assert s.teardowns == 0;
    var s' := Step(s, Run(t));
    if s.refCount <= 1 {
      LastOneOut(s, t);
      assert Alone(s', t);
    } else {
      HeldUpdate(s.threads, t, Idle);
      LiveAppend(s.carriers, Carrier(External, true));
      OthersOk(s, s', t, Idle);
    }
  }

  lemma {:induction false} TeardownKeepsInv(s: Service, e: Event)
    requires Inv(s) && Enabled(s, e)
    requires e.SubmitDelete? || e.DeleteReply? || (e.Run? && s.threads[e.thread].TearingDown?)
    ensures Inv(Step(s, e))
  {
    assert e.DeleteReply? || !ThreadOk(s, s.threads[e.thread]);
    if s.teardowns == 1 {
      var u :| Alone(s, u);
      if e.Run? {
        HeldUpdate(s.threads, u, TearingDown(true));
      }
      assert Alone(Step(s, e), u);
    }
  }

  lemma {:induction false} RunStepKeepsInv(s: Service, t: nat)
    requires Inv(s) && Enabled(s, Run(t))
    ensures Inv(Step(s, Run(t)))
  {
    match s.threads[t] {
      case Running(ops, _, _, checked) =>
        assert s.teardowns == 0;
        if ops[0].Leave? {
          LeaveKeepsInv(s, t);
        } else if ops[0].Dec? && checked && s.refCount == 1 {
          LastDropKeepsInv(s, t);
        } else {
          CountKeepsInv(s, t);
        }
      case Destroying => DestroyKeepsInv(s, t);
      case TearingDown(_) => TeardownKeepsInv(s, Run(t));
      case Idle =>
    }
  }

  lemma {:induction false} StepKeepsInv(s: Service, e: Event)
    requires Inv(s) && Enabled(s, e)
    ensures Inv(Step(s, e))
  {
    match e {
      case Use(_, _, _) => UseKeepsInv(s, e);
      case TakeOver(_, _, _) => TakeKeepsInv(s, e);
      case Destroy(_, _) => TakeKeepsInv(s, e);
      case Run(t) => RunStepKeepsInv(s, t);
      case _ => TeardownKeepsInv(s, e);
    }
  }

  lemma {:induction false} RunKeepsInv(s: Service, run: seq<Event>)
    requires Inv(s) && IsRun(s, run)
    ensures Inv(After(s, run))
    decreases |run|
  {
    if run != [] {
      StepKeepsInv(s, run[0]);
      RunKeepsInv(Step(s, run[0]), run[1..]);
    }
  }

  lemma {:induction false} AllIdleHoldNothing(threads: seq<Thread>)
    requires forall t :: 0 <= t < |threads| ==> threads[t].Idle?
    ensures HeldByAll(threads) == 0
    decreases |threads|
  {
    if threads != [] {
      AllIdleHoldNothing(threads[1..]);
    }
  }

  lemma {:induction false} NewInv(threads: nat)
    ensures Inv(NewService(threads))
  {
    var s := NewService(threads);
    AllIdleHoldNothing(s.threads);
    assert s.carriers[1..] == [];
  }

  // ------------------------------------------------------------------ main results

  /** Over every run of requests, redirects, replies, payloads and releases by any number of
      threads, also several on one handle or one payload at the same time: until teardown the
      count is exactly what is outstanding, and no operation has found `freeing` set; teardown
      is entered at most once, exactly when nothing is outstanding any more, and then no
      other thread is still at work. */
  lemma {:induction false} CountIsOutstanding(threads: nat, run: seq<Event>)
    requires IsRun(NewService(threads), run)
    ensures var s := After(NewService(threads), run);
            && (s.teardowns == 0 ==> !s.freeing && s.refCount == Outstanding(s))
            && s.skipped == 0 && s.teardowns <= 1
            && (s.teardowns == 1 <==> Outstanding(s) == 0)
            && (s.teardowns == 1 ==> exists t :: Alone(s, t))
  {
    NewInv(threads);
    RunKeepsInv(NewService(threads), run);
  }

  /** How many live carriers of a kind there are. */
  function CountOf(carriers: seq<Carrier>, kind: Kind): nat {
    if carriers == [] then 0
    else (if carriers[0] == Carrier(kind, true) then 1 else 0) + CountOf(carriers[1..], kind)
  }

  lemma {:induction false} KindsAddUp(carriers: seq<Carrier>)
    ensures LiveOnes(carriers) == CountOf(carriers, External) + CountOf(carriers, Payload) + CountOf(carriers, InFlight)
    decreases |carriers|
  {
    if carriers != [] {
      KindsAddUp(carriers[1..]);
      var first := carriers[0];
      assert first == Carrier(first.kind, first.live);
      assert first.kind.External? || first.kind.Payload? || first.kind.InFlight?;
    }
  }

  /** Between operations the count is handles, live payloads and requests in flight. */
  lemma {:induction false} CountAtRest(threads: nat, run: seq<Event>)
    requires IsRun(NewService(threads), run)
    requires forall t :: 0 <= t < |After(NewService(threads), run).threads| ==> After(NewService(threads), run).threads[t].Idle?
    ensures var s := After(NewService(threads), run);
            && !s.freeing && s.teardowns == 0
            && s.refCount == CountOf(s.carriers, External) + CountOf(s.carriers, Payload) + CountOf(s.carriers, InFlight)
  {
    NewInv(threads);
    RunKeepsInv(NewService(threads), run);
    var s := After(NewService(threads), run);
    AllIdleHoldNothing(s.threads);
    KindsAddUp(s.carriers);
  }

  // -------------------------------------------------- what the operations leave behind

  /** How many carriers of a kind a program leaves. */
  function Left(ops: seq<Op>, kind: Kind): nat {
    if ops == [] then 0 else (if ops[0] == Leave(kind) then 1 else 0) + Left(ops[1..], kind)
  }

  lemma {:induction false} LeftCons(op: Op, ops: seq<Op>, kind: Kind)
    ensures Left([op] + ops, kind) == (if op == Leave(kind) then 1 else 0) + Left(ops, kind)
  {
    assert ([op] + ops)[1..] == ops;
  }

  lemma {:induction false} LeftUpTo3(a: Op, b: Op, c: Op, kind: Kind)
    ensures Left([c], kind) == if c == Leave(kind) then 1 else 0
    ensures Left([b, c], kind) == (if b == Leave(kind) then 1 else 0) + Left([c], kind)
    ensures Left([a, b, c], kind) == (if a == Leave(kind) then 1 else 0) + Left([b, c], kind)
  {
    assert [c] == [c] + [] && [b, c] == [b] + [c] && [a, b, c] == [a] + [b, c];
    LeftCons(c, [], kind);
    LeftCons(b, [c], kind);
    LeftCons(a, [b, c], kind);
  }

  /** How many references a program drops. */
  function Dropped(ops: seq<Op>): nat {
    if ops == [] then 0 else (if ops[0].Dec? then 1 else 0) + Dropped(ops[1..])
  }

  lemma {:induction false} DroppedUpTo4(a: Op, b: Op, c: Op, d: Op)
    ensures Dropped([d]) == if d.Dec? then 1 else 0
    ensures Dropped([c, d]) == (if c.Dec? then 1 else 0) + Dropped([d])
    ensures Dropped([b, c, d]) == (if b.Dec? then 1 else 0) + Dropped([c, d])
    ensures Dropped([a, b, c, d]) == (if a.Dec? then 1 else 0) + Dropped([b, c, d])
  {
    assert [d][1..] == [] && [c, d][1..] == [d] && [b, c, d][1..] == [c, d] && [a, b, c, d][1..] == [b, c, d];
  }

  /** A request leaves one in flight, and so does the redirect of one; a payload made leaves a
      payload, also out of a reply; a refused request and a release leave nothing. A refused
      request gives back the reference it took, a reply and a redirect that of the request, a
      release its own, and a first request that of setting up the worker. */
  lemma {:induction false} OperationsLeave(flag: bool, kind: Kind)
    ensures Left(Request(flag), kind) == Left(Redirect, kind) == if kind == InFlight then 1 else 0
    ensures Left(MakePayload, kind) == if kind == Payload then 1 else 0
    ensures Left(Reply(flag), kind) == if flag && kind == Payload then 1 else 0
    ensures Left(RefusedRequest, kind) == Left(Release, kind) == 0
    ensures Dropped(RefusedRequest) == Dropped(Release) == Dropped(Reply(flag)) == Dropped(Redirect) == 1
    ensures Dropped(MakePayload) == 0 && Dropped(Request(flag)) == if flag then 1 else 0
  {
    OperationsDrop(flag);
    LeftUpTo3(Inc, Inc, Leave(InFlight), kind);
    LeftUpTo3(Inc, Dec, Leave(InFlight), kind);
    assert Request(flag) == if flag then [Inc] + [Inc, Dec, Leave(InFlight)] else [Inc, Leave(InFlight)];
    LeftCons(Inc, [Inc, Dec, Leave(InFlight)], kind);
    LeftUpTo3(Inc, Leave(InFlight), Dec, kind);
    LeftUpTo3(Inc, Inc, Leave(Payload), kind);
    LeftUpTo3(Inc, Leave(Payload), Dec, kind);
    assert Reply(flag) == if flag then [Inc, Leave(Payload), Dec] else [Dec];
    LeftUpTo3(Inc, Inc, Dec, kind);
  }

  function DueOf(thread: Thread, kind: Kind): nat {
    if thread.Running? then Left(thread.ops, kind) else 0
  }

  lemma {:induction false} OperationsDrop(flag: bool)
    ensures Dropped(RefusedRequest) == Dropped(Release) == Dropped(Reply(flag)) == Dropped(Redirect) == 1
    ensures Dropped(MakePayload) == 0 && Dropped(Request(flag)) == if flag then 1 else 0
  {
    DroppedUpTo4(Inc, Inc, Inc, Dec);
    DroppedUpTo4(Inc, Inc, Leave(Payload), Dec);
    DroppedUpTo4(Inc, Inc, Leave(InFlight), Dec);
    DroppedUpTo4(Inc, Inc, Inc, Leave(Payload));
    DroppedUpTo4(Inc, Inc, Inc, Leave(InFlight));
    DroppedUpTo4(Inc, Inc, Dec, Leave(InFlight));
    assert Request(flag) == if flag then [Inc, Inc, Dec, Leave(InFlight)] else [Inc, Leave(InFlight)];
    assert Reply(flag) == if flag then [Inc, Leave(Payload), Dec] else [Dec];
  }

  /** What the programs under way are still to leave. */
  function Due(threads: seq<Thread>, kind: Kind): nat {
    if threads == [] then 0 else DueOf(threads[0], kind) + Due(threads[1..], kind)
  }

  /** The live carriers of a kind, those to come included. */
  function Balance(s: Service, kind: Kind): nat {
    CountOf(s.carriers, kind) + Due(s.threads, kind)
  }

  /** What an event does to the balance: an operation brings what its program leaves, and
      takes the carrier it takes over; a handle whose destruction is refused comes back. */
  function Brings(s: Service, e: Event, kind: Kind): int
    requires Enabled(s, e)
  {
    match e
    case Use(_, _, ops) => Left(ops, kind)
    case TakeOver(_, c, ops) => Left(ops, kind) - (if s.carriers[c].kind == kind then 1 else 0)
    case Destroy(_, _) => if kind == External then -1 else 0
    case Run(t) => if s.threads[t].Destroying? && s.refCount > 1 && kind == External then 1 else 0
    case _ => 0
  }

  function Brought(s: Service, run: seq<Event>, kind: Kind): int
    requires IsRun(s, run)
    decreases |run|
  {
    if run == [] then 0 else Brings(s, run[0], kind) + Brought(Step(s, run[0]), run[1..], kind)
  }

  lemma {:induction false} DueUpdate(threads: seq<Thread>, t: nat, thread: Thread, kind: Kind)
    requires t < |threads|
    ensures Due(threads[t := thread], kind) == Due(threads, kind) - DueOf(threads[t], kind) + DueOf(thread, kind)
    decreases |threads|
  {
    if t == 0 {
      assert threads[0 := thread][1..] == threads[1..];
    } else {
      DueUpdate(threads[1..], t - 1, thread, kind);
      assert threads[t := thread][1..] == threads[1..][t - 1 := thread];
    }
  }

  lemma {:induction false} CountAppend(carriers: seq<Carrier>, added: Kind, kind: Kind)
    ensures CountOf(carriers + [Carrier(added, true)], kind) == CountOf(carriers, kind) + if added == kind then 1 else 0
    decreases |carriers|
  {
    if carriers == [] {
      assert [Carrier(added, true)][1..] == [];
    } else {
      assert (carriers + [Carrier(added, true)])[1..] == carriers[1..] + [Carrier(added, true)];
      CountAppend(carriers[1..], added, kind);
    }
  }

  lemma {:induction false} CountRetire(carriers: seq<Carrier>, c: nat, kind: Kind)
    requires c < |carriers| && carriers[c].live
    ensures CountOf(carriers[c := carriers[c].(live := false)], kind) == CountOf(carriers, kind) - if carriers[c].kind == kind then 1 else 0
    decreases |carriers|
  {
    var retired := carriers[c].(live := false);
    if c == 0 {
      assert carriers[0 := retired][1..] == carriers[1..];
    } else {
      CountRetire(carriers[1..], c - 1, kind);
      assert carriers[c := retired][1..] == carriers[1..][c - 1 := retired];
    }
  }

  /** Whoever drops the last reference has nothing left to do. */
  lemma {:induction false} LastDropIsTheEnd(s: Service, t: nat)
    requires Inv(s) && s.teardowns == 0 && s.refCount == 1 && t < |s.threads|
    requires s.threads[t].Running? && s.threads[t].ops != [] && s.threads[t].ops[0].Dec?
    ensures s.threads[t].ops[1..] == []
  {
    var th := s.threads[t];
    assert ThreadOk(s, th);
    RestOk(s, th);
    LastOneOut(s, t);
    NoneLives(s.carriers);
    assert th.borrowed == NOBODY && WellHeld(th.ops[1..], 0, false);
  }

  lemma {:induction false} LeaveBalance(s: Service, t: nat, kind: Kind)
    requires t < |s.threads| && s.threads[t].Running? && s.threads[t].ops != [] && s.threads[t].ops[0].Leave?
    ensures Balance(StepOp(s, t), kind) == Balance(s, kind)
  {
    var th := s.threads[t];
    var rest := Rest(th, th.held - 1);
    DueUpdate(s.threads, t, rest, kind);
    CountAppend(s.carriers, th.ops[0].kind, kind);
    assert th.ops[0] == Leave(th.ops[0].kind);
    assert DueOf(rest, kind) == Left(th.ops[1..], kind);
  }

  lemma {:induction false} RunStepBalance(s: Service, t: nat, kind: Kind)
    requires Inv(s) && Enabled(s, Run(t)) && s.threads[t].Running?
    ensures Balance(Step(s, Run(t)), kind) == Balance(s, kind)
  {
    var th := s.threads[t];
    var s' := Step(s, Run(t));
    assert s.teardowns == 0;
    DueUpdate(s.threads, t, s'.threads[t], kind);
    if th.ops[0].Leave? {
      LeaveBalance(s, t, kind);
    } else {
      assert Left(th.ops, kind) == Left(th.ops[1..], kind);
      if th.ops[0].Dec? && th.checked && s.refCount == 1 {
        LastDropIsTheEnd(s, t);
      }
    }
  }

  lemma {:induction false} LastStepBalance(s: Service, t: nat, kind: Kind)
    requires Enabled(s, Run(t)) && !s.threads[t].Running?
    ensures Balance(Step(s, Run(t)), kind) == Balance(s, kind) + Brings(s, Run(t), kind)
  {
    DueUpdate(s.threads, t, Step(s, Run(t)).threads[t], kind);
    if s.threads[t].Destroying? {
      CountAppend(s.carriers, External, kind);
    }
  }

  lemma {:induction false} TakeOverBalance(s: Service, e: Event, kind: Kind)
    requires Enabled(s, e) && (e.TakeOver? || e.Destroy?)
    ensures Balance(Step(s, e), kind) == Balance(s, kind) + Brings(s, e, kind)
  {
    CountRetire(s.carriers, e.carrier, kind);
    DueUpdate(s.threads, e.thread, if e.TakeOver? then Running(e.ops, 1, NOBODY, false) else Destroying, kind);
  }

  lemma {:induction false} StepBalance(s: Service, e: Event, kind: Kind)
    requires Inv(s) && Enabled(s, e)
    ensures Balance(Step(s, e), kind) == Balance(s, kind) + Brings(s, e, kind)
  {
    match e {
      case Use(t, c, ops) => DueUpdate(s.threads, t, Running(ops, 0, c, false), kind);
      case TakeOver(_, _, _) => TakeOverBalance(s, e, kind);
      case Destroy(_, _) => TakeOverBalance(s, e, kind);
      case Run(t) =>
        if s.threads[t].Running? {
          RunStepBalance(s, t, kind);
        } else {
          LastStepBalance(s, t, kind);
        }
      case _ =>
    }
  }

  lemma {:induction false} RunBalance(s: Service, run: seq<Event>, kind: Kind)
    requires Inv(s) && IsRun(s, run)
    ensures Balance(After(s, run), kind) == Balance(s, kind) + Brought(s, run, kind)
    decreases |run|
  {
    if run != [] {
      StepBalance(s, run[0], kind);
      StepKeepsInv(s, run[0]);
      RunBalance(Step(s, run[0]), run[1..], kind);
    }
  }

  lemma {:induction false} AllIdleOweNothing(threads: seq<Thread>, kind: Kind)
    requires forall t :: 0 <= t < |threads| ==> threads[t].Idle?
    ensures Due(threads, kind) == 0
    decreases |threads|
  {
    if threads != [] {
      AllIdleOweNothing(threads[1..], kind);
    }
  }

  /** Between operations, in every interleaving, the carriers of each kind are the one handle
      of the start and what the operations have brought, less what they have taken over. */
  lemma {:induction false} CarriersAtRest(threads: nat, run: seq<Event>, kind: Kind)
    requires IsRun(NewService(threads), run)
    requires forall t :: 0 <= t < |After(NewService(threads), run).threads| ==> After(NewService(threads), run).threads[t].Idle?
    ensures CountOf(After(NewService(threads), run).carriers, kind) ==
            (if kind == External then 1 else 0) + Brought(NewService(threads), run, kind)
  {
    var s := NewService(threads);
    NewInv(threads);
    RunBalance(s, run, kind);
    AllIdleOweNothing(s.threads, kind);
    AllIdleOweNothing(After(s, run).threads, kind);
    assert s.carriers == [] + [Carrier(External, true)];
    CountAppend([], External, kind);
  }

  /** Two threads can be at work on the one handle at the same time. */
  lemma {:induction false} HandleIsShared(firstRequest: bool, other: bool)
    ensures Enabled(NewService(2), Use(0, 0, Request(firstRequest)))
    ensures Enabled(Step(NewService(2), Use(0, 0, Request(firstRequest))), Use(1, 0, Request(other)))
  {
    OperationsAreWellHeld(firstRequest);
    OperationsAreWellHeld(other);
  }
}
