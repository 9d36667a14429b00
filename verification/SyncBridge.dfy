/** Blocking calls made out of callback-driven ones: any number of callers, each with its own
    context, and the single worker thread that answers them one after another. Waits may end
    early by timeout. */
module SyncBridge {
  import opened Wrappers

  type Value = int

  datatype Holder = Nobody | Caller | Callback

  /** Where the blocking caller is. */
  datatype CallerPc =
    | Start
    | Made                                  // context locked, one reference
    | Referenced                            // a second reference, for the callback
    | Rejected                              // the request was not accepted
    | Submitted
    | Waiting(signalled: bool)              // in cond_wait
    | Woken
    | HasData
    | Leaving(result: Option<Value>)        // entering cleanupAsyncToSyncContext
    | Releasing(result: Option<Value>)      // no reference left: the payload goes,
    | Freeing(result: Option<Value>)        // then the context
    | Unlocking(result: Option<Value>)
    | Returned(result: Option<Value>)

  /** Where `asyncToSyncConverter` is for this call. */
  datatype CallbackPc = Unqueued | Queued | Setting | Locking | Signalling | CbLeaving | CbReleasing | CbFreeing | CbUnlocking | Finished

  /** One blocking call. `reply` is the JSON the worker will report, if any; `jsonRefs` counts
      the references to it, `released` and `freed` what was done to payload and context, and
      `early` says that the wait timed out or that there was nothing to wait for. */
  datatype Call = Call(
    onWorker: bool, reply: Option<Value>,
    caller: CallerPc, callback: CallbackPc,
    lock: Holder, refcount: int, data: Option<Value>,
    jsonRefs: int, released: nat, freed: nat, early: bool, fault: bool)

  datatype Bridge = Bridge(calls: seq<Call>, queue: seq<nat>, worker: Option<nat>)

  datatype Event =
    | CallerStep(call: nat, accepted: bool)   // accepted: whether a request is taken, when one is made
    | TimeOut(call: nat)
    | WorkerTakes
    | WorkerStep

  function NewCall(onWorker: bool, reply: Option<Value>): Call {
    Call(onWorker, reply, Start, Unqueued, Nobody, 0, None, 0, 0, 0, false, false)
  }

  // ---------------------------------------------------------------------- steps

  predicate CallerCanStep(c: Call) {
    match c.caller
    case Waiting(signalled) => signalled && c.lock.Nobody?
    case Returned(_) => false
    case _ => true
  }

  predicate CallbackCanStep(c: Call) {
    c.callback.Locking? ==> c.lock.Nobody?
  }

  predicate Enabled(b: Bridge, e: Event) {
    match e
    case CallerStep(c, _) => c < |b.calls| && CallerCanStep(b.calls[c])
    case TimeOut(c) => c < |b.calls| && b.calls[c].caller.Waiting? && b.calls[c].lock.Nobody?
    case WorkerTakes => b.worker.None? && b.queue != [] && b.queue[0] < |b.calls|
    case WorkerStep => b.worker.Some? && b.worker.value < |b.calls| && CallbackCanStep(b.calls[b.worker.value])
  }

  /** Any access to a context that has been freed is a fault. */
  function Touch(c: Call): Call {
    c.(fault := c.fault || c.freed > 0)
  }

  /** `cleanupPayload` on the stored payload. */
  function Release(c: Call): Call {
    if c.data.Some? then c.(released := c.released + 1, jsonRefs := c.jsonRefs - 1, fault := c.fault || c.jsonRefs <= 0)
    else c
  }

  function CallerNext(c: Call, accepted: bool): Call {
    match c.caller
    case Start =>
      if c.onWorker then c.(caller := Returned(None))
      else c.(caller := Made, lock := Caller, refcount := 1)
    case Made => Touch(c).(caller := Referenced, refcount := c.refcount + 1)
    case Referenced => if accepted then c.(caller := Submitted, callback := Queued) else c.(caller := Rejected, early := true)
    case Rejected => Touch(c).(caller := Leaving(None), refcount := c.refcount - 1)
    case Submitted => Touch(c).(caller := Waiting(false), lock := Nobody)
    case Waiting(_) => Touch(c).(caller := Woken, lock := Caller)
    case Woken => Touch(c).(caller := if c.data.Some? then HasData else Leaving(None))
    case HasData => Touch(c).(caller := Leaving(c.data), jsonRefs := c.jsonRefs + 1, fault := c.fault || c.freed > 0 || c.jsonRefs <= 0)
    case Leaving(r) => Touch(c).(refcount := c.refcount - 1, caller := if c.refcount == 1 then Releasing(r) else Unlocking(r))
    case Releasing(r) => Release(Touch(c)).(caller := Freeing(r))
    case Freeing(r) => Touch(c).(lock := Nobody, freed := c.freed + 1, caller := Returned(r))
    case Unlocking(r) => Touch(c).(lock := Nobody, caller := Returned(r))
    case Returned(_) => c
  }

  function CallbackNext(c: Call): Call {
    match c.callback
    case Setting => Touch(c).(data := c.reply, jsonRefs := if c.reply.Some? then 1 else 0, callback := Locking)
    case Locking => Touch(c).(lock := Callback, callback := Signalling)
    case Signalling => Touch(c).(caller := if c.caller.Waiting? then Waiting(true) else c.caller, callback := CbLeaving)
    case CbLeaving => Touch(c).(refcount := c.refcount - 1, callback := if c.refcount == 1 then CbReleasing else CbUnlocking)
    case CbReleasing => Release(Touch(c)).(callback := CbFreeing)
    case CbFreeing => Touch(c).(lock := Nobody, freed := c.freed + 1, callback := Finished)
    case CbUnlocking => Touch(c).(lock := Nobody, callback := Finished)
    case _ => c
  }

  function Step(b: Bridge, e: Event): Bridge
    requires Enabled(b, e)
  {
    match e
    case CallerStep(c, accepted) =>
      var next := CallerNext(b.calls[c], accepted);
      b.(calls := b.calls[c := next],
         queue := if b.calls[c].callback.Unqueued? && next.callback.Queued? then b.queue + [c] else b.queue)
    case TimeOut(c) => b.(calls := b.calls[c := CallerNext(b.calls[c], false).(early := true)])
    case WorkerTakes =>
      var c := b.queue[0];
      Bridge(b.calls[c := b.calls[c].(callback := Setting)], b.queue[1..], Some(c))
    case WorkerStep =>
      var c := b.worker.value;
      var next := CallbackNext(b.calls[c]);
      b.(calls := b.calls[c := next], worker := if next.callback.Finished? then None else Some(c))
  }

  ghost predicate Init(b: Bridge) {
    && b.queue == [] && b.worker == None
    && forall c :: 0 <= c < |b.calls| ==> b.calls[c] == NewCall(b.calls[c].onWorker, b.calls[c].reply)
  }

  ghost predicate IsRun(b: Bridge, run: seq<Event>)
    decreases |run|
  {
    run == [] || (Enabled(b, run[0]) && IsRun(Step(b, run[0]), run[1..]))
  }

  function After(b: Bridge, run: seq<Event>): Bridge
    requires IsRun(b, run)
    decreases |run|
  {
    if run == [] then b else After(Step(b, run[0]), run[1..])
  }

  // ---------------------------------------------------------------- the invariant

  predicate CallerHoldsLock(pc: CallerPc) {
    || pc.Made? || pc.Referenced? || pc.Rejected? || pc.Submitted? || pc.Woken? || pc.HasData?
    || pc.Leaving? || pc.Releasing? || pc.Freeing? || pc.Unlocking?
  }

  predicate CallbackHoldsLock(pc: CallbackPc) {
    pc.Signalling? || pc.CbLeaving? || pc.CbReleasing? || pc.CbFreeing? || pc.CbUnlocking?
  }

  /** The caller has not yet given its reference back. */
  predicate CallerHasRef(pc: CallerPc) {
    !pc.Start? && !pc.Releasing? && !pc.Freeing? && !pc.Unlocking? && !pc.Returned?
  }

  predicate CallbackHasRef(pc: CallbackPc) {
    pc.Queued? || pc.Setting? || pc.Locking? || pc.Signalling? || pc.CbLeaving?
  }

  predicate BeforeSubmit(pc: CallerPc) {
    pc.Start? || pc.Made? || pc.Referenced? || pc.Rejected?
  }

  predicate Arrived(pc: CallbackPc) {
    !pc.Unqueued? && !pc.Queued? && !pc.Setting?
  }

  /** The result a caller carries from the moment it has its own reference to the JSON. */
  function ResultOf(pc: CallerPc): Option<Value> {
    if pc.Leaving? || pc.Releasing? || pc.Freeing? || pc.Unlocking? || pc.Returned? then pc.result else None
  }

  predicate GivenUp(pc: CallerPc) {
    (pc.Leaving? || pc.Releasing? || pc.Freeing? || pc.Unlocking? || pc.Returned?) && pc.result.None?
  }

  predicate Freed(c: Call) {
    c.caller.Returned? && !c.onWorker && (c.callback.Unqueued? || c.callback.Finished?)
  }

  predicate PayloadGone(c: Call) {
    c.data.Some? && (c.caller.Freeing? || c.callback.CbFreeing? || Freed(c))
  }

  /** The caller's reference and the one for the callback, from when it is counted. */
  function References(c: Call): int {
    (if CallerHasRef(c.caller) then 1 else 0)
    + (if c.caller.Referenced? || c.caller.Rejected? || CallbackHasRef(c.callback) then 1 else 0)
  }

  predicate CallOk(c: Call) {
    !c.fault && ContextOk(c) && PayloadOk(c)
  }

  /** The lock, the references and the life of the context. */
  predicate ContextOk(c: Call) {
    && (c.lock.Caller? <==> CallerHoldsLock(c.caller))
    && (c.lock.Callback? <==> CallbackHoldsLock(c.callback))
    && (c.onWorker ==> (c.caller.Start? || c.caller == Returned(None)) && c.callback.Unqueued?)
    && (!c.onWorker ==> c.refcount == References(c))
    && (BeforeSubmit(c.caller) ==> c.callback.Unqueued?)
    && (c.callback.Unqueued? ==> BeforeSubmit(c.caller) || ResultOf(c.caller) == None)
    && (c.callback.Unqueued? ==> !c.caller.Submitted? && !c.caller.Waiting? && !c.caller.Woken? && !c.caller.HasData? && !c.caller.Unlocking?)
    && (c.caller.Submitted? ==> c.callback.Queued? || c.callback.Setting? || c.callback.Locking?)
    && (c.caller.Releasing? || c.caller.Freeing? ==> c.callback.Unqueued? || c.callback.Finished?)
    && (c.callback.CbReleasing? || c.callback.CbFreeing? ==> c.caller.Returned?)
    && (c.caller.Unlocking? ==> CallbackHasRef(c.callback))
    && (c.callback.CbUnlocking? ==> CallerHasRef(c.caller) && c.caller.Waiting?)
    && (CallbackHoldsLock(c.callback) ==> c.caller.Waiting? || c.caller.Returned?)
    && ((c.callback.CbLeaving? || c.callback.CbUnlocking? || c.callback.Finished?) && c.caller.Waiting? ==> c.caller.signalled)
    && c.freed == (if Freed(c) then 1 else 0)
    && (c.caller.Waiting? && c.caller.signalled ==> Arrived(c.callback))
  }

  /** What has arrived, who holds the JSON, and what the caller will return. */
  predicate PayloadOk(c: Call) {
    && c.data == (if Arrived(c.callback) then c.reply else None)
    && (c.caller.HasData? ==> c.data.Some?)
    && (c.caller.Rejected? ==> c.early)
    && (c.caller.Woken? && !c.early ==> Arrived(c.callback))
    && (GivenUp(c.caller) && !c.early ==> c.onWorker || c.reply.None?)
    && (ResultOf(c.caller).Some? ==> ResultOf(c.caller) == c.data == c.reply)
    && c.released == (if PayloadGone(c) then 1 else 0)
    && c.jsonRefs == (if c.data.Some? && !PayloadGone(c) then 1 else 0) + (if ResultOf(c.caller).Some? then 1 else 0)
  }

  predicate Active(pc: CallbackPc) {
    !pc.Unqueued? && !pc.Queued? && !pc.Finished?
  }

  ghost predicate Inv(b: Bridge) {
    && (forall c :: 0 <= c < |b.calls| ==> CallOk(b.calls[c]))
    && (forall c :: 0 <= c < |b.calls| ==> (b.calls[c].callback.Queued? <==> c in b.queue))
    && (forall c :: 0 <= c < |b.calls| ==> (Active(b.calls[c].callback) <==> b.worker == Some(c)))
    && (forall i, j :: 0 <= i < j < |b.queue| ==> b.queue[i] != b.queue[j])
    && (forall i :: 0 <= i < |b.queue| ==> b.queue[i] < |b.calls|)
    && (b.worker.Some? ==> b.worker.value < |b.calls|)
  }

  lemma {:induction false} CallerKeepsOk(c: Call, accepted: bool)
    requires CallOk(c) && CallerCanStep(c)
    ensures CallOk(CallerNext(c, accepted))
  {
    CallerKeepsContext(c, accepted);
    if BeforeSubmit(c.caller) {
      EntryKeepsPayload(c, accepted);
    } else if GoingOut(c.caller) {
      ExitKeepsPayload(c, accepted);
    } else {
      MiddleKeepsPayload(c, accepted);
    }
  }

  predicate GoingOut(pc: CallerPc) {
    pc.Leaving? || pc.Releasing? || pc.Freeing? || pc.Unlocking?
  }

  lemma {:induction false} CallerKeepsContext(c: Call, accepted: bool)
    requires ContextOk(c) && CallerCanStep(c) && (c.caller.HasData? ==> c.data.Some?)
    ensures ContextOk(CallerNext(c, accepted))
  {
    if BeforeSubmit(c.caller) {
      EntryKeepsContext(c, accepted);
    } else if GoingOut(c.caller) {
      ExitKeepsContext(c, accepted);
    } else {
      MiddleKeepsContext(c, accepted);
    }
  }

  lemma {:induction false} EntryKeepsContext(c: Call, accepted: bool)
    requires ContextOk(c) && BeforeSubmit(c.caller)
    ensures ContextOk(CallerNext(c, accepted))
  {
  }

  lemma {:induction false} MiddleKeepsContext(c: Call, accepted: bool)
    requires ContextOk(c) && CallerCanStep(c) && !BeforeSubmit(c.caller) && !GoingOut(c.caller)
    ensures ContextOk(CallerNext(c, accepted))
  {
  }

  lemma {:induction false} ExitKeepsContext(c: Call, accepted: bool)
    requires ContextOk(c) && GoingOut(c.caller)
    ensures ContextOk(CallerNext(c, accepted))
  {
  }

  lemma {:induction false} EntryKeepsPayload(c: Call, accepted: bool)
    requires CallOk(c) && BeforeSubmit(c.caller)
    ensures PayloadOk(CallerNext(c, accepted)) && !CallerNext(c, accepted).fault
  {
  }

  lemma {:induction false} MiddleKeepsPayload(c: Call, accepted: bool)
    requires CallOk(c) && CallerCanStep(c) && !BeforeSubmit(c.caller) && !GoingOut(c.caller)
    ensures PayloadOk(CallerNext(c, accepted)) && !CallerNext(c, accepted).fault
  {
  }

  lemma {:induction false} ReleasingKeepsPayload(c: Call, accepted: bool)
    requires CallOk(c) && (c.caller.Releasing? || c.caller.Freeing?)
    ensures PayloadOk(CallerNext(c, accepted)) && !CallerNext(c, accepted).fault
  {
  }

  lemma {:induction false} ExitKeepsPayload(c: Call, accepted: bool)
    requires CallOk(c) && GoingOut(c.caller)
    ensures PayloadOk(CallerNext(c, accepted)) && !CallerNext(c, accepted).fault
  {
    if c.caller.Releasing? || c.caller.Freeing? {
      ReleasingKeepsPayload(c, accepted);
    }
  }

  lemma {:induction false} TimeOutKeepsOk(c: Call)
    requires CallOk(c) && c.caller.Waiting? && c.lock.Nobody?
    ensures CallOk(CallerNext(c, false).(early := true))
  {
  }

  lemma {:induction false} CallbackKeepsOk(c: Call)
    requires CallOk(c) && Active(c.callback) && CallbackCanStep(c)
    ensures CallOk(CallbackNext(c))
  {
    match c.callback {
      case Setting => SettingKeepsOk(c);
      case CbLeaving => LeavingKeepsOk(c);
      case CbReleasing => ReleasingKeepsOk(c);
      case CbFreeing => FreeingKeepsOk(c);
      case _ => SignallingKeepsOk(c);
    }
  }

  lemma {:induction false} SettingKeepsOk(c: Call)
    requires CallOk(c) && c.callback.Setting?
    ensures CallOk(CallbackNext(c))
  {
  }

  lemma {:induction false} SignallingKeepsOk(c: Call)
    requires CallOk(c) && (c.callback.Locking? || c.callback.Signalling? || c.callback.CbUnlocking?) && CallbackCanStep(c)
    ensures CallOk(CallbackNext(c))
  {
  }

  lemma {:induction false} LeavingKeepsOk(c: Call)
    requires CallOk(c) && c.callback.CbLeaving?
    ensures CallOk(CallbackNext(c))
  {
  }

  lemma {:induction false} ReleasingKeepsOk(c: Call)
    requires CallOk(c) && c.callback.CbReleasing?
    ensures CallOk(CallbackNext(c))
  {
  }

  lemma {:induction false} FreeingKeepsOk(c: Call)
    requires CallOk(c) && c.callback.CbFreeing?
    ensures CallOk(CallbackNext(c))
  {
  }

  /** What a caller's step means for the queue. */
  lemma CallerAndCallback(c: Call, accepted: bool)
    requires CallOk(c) && CallerCanStep(c)
    ensures var next := CallerNext(c, accepted);
            && (Active(next.callback) <==> Active(c.callback))
            && (c.callback.Queued? ==> next.callback.Queued?)
            && (next.callback.Queued? && !c.callback.Queued? ==> c.callback.Unqueued?)
  {
  }

  lemma {:induction false} CallerStepKeepsInv(b: Bridge, c: nat, accepted: bool)
    requires Inv(b) && c < |b.calls| && CallerCanStep(b.calls[c])
    ensures Inv(Step(b, CallerStep(c, accepted)))
  {
    CallerKeepsOk(b.calls[c], accepted);
    CallerAndCallback(b.calls[c], accepted);
    var next := CallerNext(b.calls[c], accepted);
    if b.calls[c].callback.Unqueued? && next.callback.Queued? {
      EnqueuedKeepsInv(b, c, next);
    } else {
      ReplacedKeepsInv(b, c, next);
    }
  }

  lemma {:induction false} ReplacedKeepsInv(b: Bridge, c: nat, next: Call)
    requires Inv(b) && c < |b.calls| && CallOk(next)
    requires (Active(next.callback) <==> Active(b.calls[c].callback)) && (next.callback.Queued? <==> b.calls[c].callback.Queued?)
    ensures Inv(b.(calls := b.calls[c := next]))
  {
  }

  lemma {:induction false} EnqueuedKeepsInv(b: Bridge, c: nat, next: Call)
    requires Inv(b) && c < |b.calls| && CallOk(next)
    requires b.calls[c].callback.Unqueued? && next.callback.Queued?
    ensures Inv(b.(calls := b.calls[c := next], queue := b.queue + [c]))
  {
    var queue := b.queue + [c];
    assert c !in b.queue;
    assert forall d :: d in queue <==> d in b.queue || d == c;
  }

  lemma {:induction false} TimeOutKeepsInv(b: Bridge, c: nat)
    requires Inv(b) && Enabled(b, TimeOut(c))
    ensures Inv(Step(b, TimeOut(c)))
  {
    TimeOutKeepsOk(b.calls[c]);
    ReplacedKeepsInv(b, c, CallerNext(b.calls[c], false).(early := true));
  }

  lemma {:induction false} TakingKeepsOk(c: Call)
    requires CallOk(c) && c.callback.Queued?
    ensures CallOk(c.(callback := Setting))
  {
  }

  lemma {:induction false} TakeKeepsInv(b: Bridge)
    requires Inv(b) && Enabled(b, WorkerTakes)
    ensures Inv(Step(b, WorkerTakes))
  {
    var c := b.queue[0];
    assert c in b.queue;
    TakingKeepsOk(b.calls[c]);
    var b' := Step(b, WorkerTakes);
    forall d | 0 <= d < |b.calls| ensures b'.calls[d].callback.Queued? <==> d in b'.queue {
      assert b.queue == [c] + b'.queue;
    }
  }

  lemma {:induction false} WorkerStepKeepsInv(b: Bridge)
    requires Inv(b) && Enabled(b, WorkerStep)
    ensures Inv(Step(b, WorkerStep))
  {
    CallbackKeepsOk(b.calls[b.worker.value]);
  }

  /** Every step of every caller and of the worker keeps the invariant. */
  lemma {:induction false} StepKeepsInv(b: Bridge, e: Event)
    requires Inv(b) && Enabled(b, e)
    ensures Inv(Step(b, e))
  {
    match e {
      case CallerStep(c, accepted) => CallerStepKeepsInv(b, c, accepted);
      case TimeOut(c) => TimeOutKeepsInv(b, c);
      case WorkerTakes => TakeKeepsInv(b);
      case WorkerStep => WorkerStepKeepsInv(b);
    }
  }

  lemma {:induction false} RunKeepsInv(b: Bridge, run: seq<Event>)
    requires Inv(b) && IsRun(b, run)
    ensures Inv(After(b, run))
    decreases |run|
  {
    if run != [] {
      StepKeepsInv(b, run[0]);
      RunKeepsInv(Step(b, run[0]), run[1..]);
    }
  }

  lemma {:induction false} InitInv(b: Bridge)
    requires Init(b)
    ensures Inv(b)
  {
  }

  // ---------------------------------------------------------------------- safety

  /** Whoever looked at a context after its free would leave a fault. */
  lemma {:induction false} MisuseFaults(c: Call, accepted: bool)
    requires c.freed > 0
    ensures !c.caller.Start? && !c.caller.Referenced? && !c.caller.Returned? ==> CallerNext(c, accepted).fault
    ensures Active(c.callback) ==> CallbackNext(c).fault
  {
  }

  /** In every interleaving, timeouts included: no context is used after its free or freed
      twice, no payload is released twice, and what a call returns is the JSON of its own
      reply, to which it has a reference of its own, or nothing; and it is always the reply
      unless the request was refused, the wait timed out, or the worker itself was calling. */
  lemma {:induction false} BridgeIsSafe(b: Bridge, run: seq<Event>, c: nat)
    requires Init(b) && IsRun(b, run) && c < |After(b, run).calls|
    ensures var call := After(b, run).calls[c];
            && !call.fault && call.freed <= 1 && call.released <= 1 && (call.freed > 0 ==> Complete(call))
            && (call.caller.Returned? && call.caller.result.Some? ==> call.caller.result == call.reply && call.jsonRefs > 0)
            && (call.caller.Returned? && !call.early && !call.onWorker ==> call.caller.result == call.reply)
  {
    InitInv(b);
    RunKeepsInv(b, run);
  }

  /** Nothing comes in between: every request of call `c` is taken, and no wait of it times out. */
  predicate Undisturbed(run: seq<Event>, c: nat) {
    forall i :: 0 <= i < |run| ==> run[i] != CallerStep(c, false) && run[i] != TimeOut(c)
  }

  lemma {:induction false} NeverEarly(b: Bridge, run: seq<Event>, c: nat)
    requires IsRun(b, run) && Undisturbed(run, c) && c < |b.calls| && !b.calls[c].early
    ensures c < |After(b, run).calls| && !After(b, run).calls[c].early
    decreases |run|
  {
    if run != [] {
      EarlyOnlyIfDisturbed(b, run[0], c);
      assert forall i :: 0 <= i < |run[1..]| ==> run[1..][i] == run[i + 1];
      NeverEarly(Step(b, run[0]), run[1..], c);
    }
  }

  lemma {:induction false} EarlyOnlyIfDisturbed(b: Bridge, e: Event, c: nat)
    requires Enabled(b, e) && e != CallerStep(c, false) && e != TimeOut(c) && c < |b.calls| && !b.calls[c].early
    ensures c < |Step(b, e).calls| && !Step(b, e).calls[c].early
  {
  }

  predicate SameCall(c: Call, next: Call) {
    next.onWorker == c.onWorker && next.reply == c.reply
  }

  lemma {:induction false} NextIsSameCall(c: Call, accepted: bool)
    ensures SameCall(c, CallerNext(c, accepted)) && SameCall(c, CallbackNext(c))
  {
  }

  lemma {:induction false} StepSameCall(b: Bridge, e: Event, c: nat)
    requires Enabled(b, e) && c < |b.calls|
    ensures c < |Step(b, e).calls| && SameCall(b.calls[c], Step(b, e).calls[c])
  {
    match e {
      case CallerStep(d, accepted) => NextIsSameCall(b.calls[d], accepted);
      case TimeOut(d) => NextIsSameCall(b.calls[d], false);
      case WorkerStep => NextIsSameCall(b.calls[b.worker.value], false);
      case WorkerTakes =>
    }
  }

  lemma {:induction false} SameCalls(b: Bridge, run: seq<Event>, c: nat)
    requires IsRun(b, run) && c < |b.calls|
    ensures c < |After(b, run).calls|
    ensures SameCall(b.calls[c], After(b, run).calls[c])
    decreases |run|
  {
    if run != [] {
      StepSameCall(b, run[0], c);
      SameCalls(Step(b, run[0]), run[1..], c);
    }
  }

  /** An undisturbed call off the worker returns the reply that was meant for it. */
  lemma {:induction false} UndisturbedCallGetsItsReply(b: Bridge, run: seq<Event>, c: nat)
    requires Init(b) && IsRun(b, run) && Undisturbed(run, c) && c < |b.calls| && !b.calls[c].onWorker
    ensures c < |After(b, run).calls|
    ensures After(b, run).calls[c].caller.Returned? ==> After(b, run).calls[c].caller.result == b.calls[c].reply
  {
    SameCalls(b, run, c);
    NeverEarly(b, run, c);
    BridgeIsSafe(b, run, c);
  }

  predicate Complete(c: Call) {
    c.caller.Returned? && (c.callback.Unqueued? || c.callback.Finished?)
  }

  /** When caller and callback are through, the context has been freed once, the payload that
      arrived has been released once, and the JSON is held by nobody but a caller that got it. */
  lemma {:induction false} NothingIsLeaked(b: Bridge, run: seq<Event>, c: nat)
    requires Init(b) && IsRun(b, run) && c < |After(b, run).calls| && Complete(After(b, run).calls[c])
    ensures var call := After(b, run).calls[c];
            && call.freed == (if call.onWorker then 0 else 1)
            && call.released == (if call.data.Some? then 1 else 0)
            && call.data == (if call.callback.Finished? then call.reply else None)
            && call.jsonRefs == (if call.caller.result.Some? then 1 else 0)
  {
    InitInv(b);
    RunKeepsInv(b, run);
    assert CallOk(After(b, run).calls[c]);
  }

  /** A blocking call on the worker thread itself comes back empty, without a request. */
  lemma {:induction false} WorkerDoesNotBlock(b: Bridge, run: seq<Event>, c: nat)
    requires Init(b) && IsRun(b, run) && c < |After(b, run).calls| && After(b, run).calls[c].onWorker
    ensures var call := After(b, run).calls[c];
            call.callback.Unqueued? && (call.caller.Start? || call.caller == Returned(None))
  {
    InitInv(b);
    RunKeepsInv(b, run);
    assert CallOk(After(b, run).calls[c]);
  }

  // ------------------------------------------------------------------------- order

  /** The calls whose request an event has put into the queue, or taken out of it. */
  function QueuedBy(b: Bridge, e: Event): seq<nat>
    requires Enabled(b, e)
  {
    if e.CallerStep? && b.calls[e.call].callback.Unqueued? && Step(b, e).calls[e.call].callback.Queued? then [e.call] else []
  }

  function TakenBy(b: Bridge, e: Event): seq<nat>
    requires Enabled(b, e)
  {
    if e.WorkerTakes? && Step(b, e).worker.Some? then [Step(b, e).worker.value] else []
  }

  function QueuedIn(b: Bridge, run: seq<Event>): seq<nat>
    requires IsRun(b, run)
    decreases |run|
  {
    if run == [] then [] else QueuedBy(b, run[0]) + QueuedIn(Step(b, run[0]), run[1..])
  }

  function TakenIn(b: Bridge, run: seq<Event>): seq<nat>
    requires IsRun(b, run)
    decreases |run|
  {
    if run == [] then [] else TakenBy(b, run[0]) + TakenIn(Step(b, run[0]), run[1..])
  }

  lemma {:induction false} StepKeepsOrder(b: Bridge, e: Event)
    requires Enabled(b, e)
    ensures b.queue + QueuedBy(b, e) == TakenBy(b, e) + Step(b, e).queue
  {
    if e.WorkerTakes? {
      assert b.queue == [b.queue[0]] + b.queue[1..];
    }
  }

  lemma {:induction false} RunKeepsOrder(b: Bridge, run: seq<Event>)
    requires IsRun(b, run)
    ensures b.queue + QueuedIn(b, run) == TakenIn(b, run) + After(b, run).queue
    decreases |run|
  {
    if run == [] {
      assert b.queue + [] == [] + b.queue;
    } else {
      StepKeepsOrder(b, run[0]);
      RunKeepsOrder(Step(b, run[0]), run[1..]);
      Regroup(b.queue, QueuedBy(b, run[0]), QueuedIn(Step(b, run[0]), run[1..]), TakenBy(b, run[0]), Step(b, run[0]).queue,
              TakenIn(Step(b, run[0]), run[1..]), After(b, run).queue);
    }
  }

  lemma {:induction false} Regroup(queue: seq<nat>, added: seq<nat>, later: seq<nat>, taken: seq<nat>, next: seq<nat>,
                                   takenLater: seq<nat>, left: seq<nat>)
    requires queue + added == taken + next && next + later == takenLater + left
    ensures queue + (added + later) == (taken + takenLater) + left
  {
    assert queue + (added + later) == (queue + added) + later;
    assert (taken + next) + later == taken + (next + later);
    assert taken + (takenLater + left) == (taken + takenLater) + left;
  }

  /** The worker answers the requests in the order in which they were queued, none twice and
      none left out. */
  lemma {:induction false} AnsweredInOrder(b: Bridge, run: seq<Event>)
    requires Init(b) && IsRun(b, run)
    ensures QueuedIn(b, run) == TakenIn(b, run) + After(b, run).queue
  {
    RunKeepsOrder(b, run);
    assert [] + QueuedIn(b, run) == QueuedIn(b, run);
  }

  // ---------------------------------------------------------------------- progress

  /** Whenever a call is not complete, somebody can move without waiting for a timeout: the
      worker, or, where the worker waits for a lock, the caller that holds it. */
  lemma {:induction false} NeverStuck(b: Bridge, c: nat) returns (e: Event)
    requires Inv(b) && c < |b.calls| && !Complete(b.calls[c])
    ensures Enabled(b, e) && !e.TimeOut?
  {
    if b.worker.Some? {
      var w := b.worker.value;
      assert CallOk(b.calls[w]) && Active(b.calls[w].callback);
      e := if CallbackCanStep(b.calls[w]) then WorkerStep else CallerStep(w, true);
    } else if b.queue != [] {
      e := WorkerTakes;
    } else {
      assert CallOk(b.calls[c]);
      assert !Active(b.calls[c].callback) && !b.calls[c].callback.Queued?;
      e := CallerStep(c, true);
    }
  }

  function CallerLeft(pc: CallerPc): nat {
    match pc
    case Start => 10
    case Made => 9
    case Referenced => 8
    case Rejected => 7
    case Submitted => 7
    case Waiting(_) => 6
    case Woken => 5
    case HasData => 4
    case Leaving(_) => 3
    case Releasing(_) => 2
    case Freeing(_) => 1
    case Unlocking(_) => 1
    case Returned(_) => 0
  }

  function CallbackLeft(pc: CallbackPc): nat {
    match pc
    case Unqueued => 8
    case Queued => 7
    case Setting => 6
    case Locking => 5
    case Signalling => 4
    case CbLeaving => 3
    case CbReleasing => 2
    case CbFreeing => 1
    case CbUnlocking => 1
    case Finished => 0
  }

  function StepsLeft(calls: seq<Call>): nat {
    if calls == [] then 0
    else CallLeft(calls[0]) + StepsLeft(calls[1..])
  }

  lemma {:induction false} OneCallMoves(calls: seq<Call>, c: nat, next: Call)
    requires c < |calls|
    requires CallLeft(next) < CallLeft(calls[c])
    ensures StepsLeft(calls[c := next]) < StepsLeft(calls)
    decreases |calls|
  {
    if c == 0 {
      assert calls[0 := next][1..] == calls[1..];
    } else {
      OneCallMoves(calls[1..], c - 1, next);
      assert calls[c := next][1..] == calls[1..][c - 1 := next];
    }
  }

  function CallLeft(c: Call): nat {
    CallerLeft(c.caller) + CallbackLeft(c.callback)
  }

  lemma {:induction false} CallerMoves(c: Call, accepted: bool)
    requires !c.caller.Returned? && (c.caller.Referenced? ==> c.callback.Unqueued?)
    ensures CallLeft(CallerNext(c, accepted)) < CallLeft(c)
  {
  }

  lemma {:induction false} CallbackMoves(c: Call)
    requires Active(c.callback) && (c.callback.Signalling? ==> c.caller.Waiting? || c.caller.Returned?)
    ensures CallLeft(CallbackNext(c)) < CallLeft(c)
  {
  }

  lemma {:induction false} StepMakesProgress(b: Bridge, e: Event)
    requires Inv(b) && Enabled(b, e)
    ensures StepsLeft(Step(b, e).calls) < StepsLeft(b.calls)
  {
    match e {
      case CallerStep(c, accepted) =>
        CallerMoves(b.calls[c], accepted);
        OneCallMoves(b.calls, c, CallerNext(b.calls[c], accepted));
      case TimeOut(c) =>
        CallerMoves(b.calls[c], false);
        OneCallMoves(b.calls, c, CallerNext(b.calls[c], false).(early := true));
      case WorkerTakes =>
        var c := b.queue[0];
        assert c in b.queue;
        OneCallMoves(b.calls, c, b.calls[c].(callback := Setting));
      case WorkerStep =>
        var c := b.worker.value;
        CallbackMoves(b.calls[c]);
        OneCallMoves(b.calls, c, CallbackNext(b.calls[c]));
    }
  }

  /** Every run is finite, and one that cannot be continued without a timeout has completed
      every call. */
  lemma {:induction false} EveryCallReturns(b: Bridge, run: seq<Event>)
    requires Init(b) && IsRun(b, run)
    ensures |run| <= 18 * |b.calls|
    ensures (forall e :: Enabled(After(b, run), e) ==> e.TimeOut?) ==>
              forall c :: 0 <= c < |After(b, run).calls| ==> Complete(After(b, run).calls[c])
  {
    InitInv(b);
    RunKeepsInv(b, run);
    RunIsBounded(b, run);
    InitBound(b.calls);
    var end := After(b, run);
    if forall e :: Enabled(end, e) ==> e.TimeOut? {
      forall c | 0 <= c < |end.calls| ensures Complete(end.calls[c]) {
        if !Complete(end.calls[c]) {
          var e := NeverStuck(end, c);
        }
      }
    }
  }

  lemma {:induction false} RunIsBounded(b: Bridge, run: seq<Event>)
    requires Inv(b) && IsRun(b, run)
    ensures |run| + StepsLeft(After(b, run).calls) <= StepsLeft(b.calls)
    decreases |run|
  {
    if run != [] {
      StepKeepsInv(b, run[0]);
      StepMakesProgress(b, run[0]);
      RunIsBounded(Step(b, run[0]), run[1..]);
    }
  }

  lemma {:induction false} InitBound(calls: seq<Call>)
    requires forall c :: 0 <= c < |calls| ==> calls[c].caller.Start? && calls[c].callback.Unqueued?
    ensures StepsLeft(calls) == 18 * |calls|
    decreases |calls|
  {
    if calls != [] {
      InitBound(calls[1..]);
    }
  }
}
