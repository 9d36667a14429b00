/** The end of a service: `freeServicePtr` on an outside thread, on the request worker or on
    the event thread, with the other threads running on until their terminators reach them. */
module Teardown {
  import opened Wrappers

  datatype Role = Outside | Worker | EventThread

  datatype Item = Request(id: nat) | DeleteRegistration | DeleteSession | Terminator

  /** A thread that serves a queue. Busy: inside the callback that runs `freeServicePtr`. */
  datatype Loop = Absent | Busy | Looping | Leaving | Exited

  /** How far `freeServicePtr` is. */
  datatype Phase = Mark | Unregister | Logout | EndEvents | JoinEvents | EndWorker | JoinWorker | Decide | Returned

  /** A queue, the thread that serves it, and how often the queue has been freed. */
  datatype Side = Side(queue: Option<seq<Item>>, loop: Loop, frees: nat)

  datatype Service = Service(
    role: Role, phase: Phase, registered: bool, loggedIn: bool,
    requests: Side, events: Side, ran: seq<Item>,
    freeing: bool, selfTerm: bool, eventTerm: bool, serviceFrees: nat, fault: bool)

  datatype Event =
    | Free                      // the thread in freeServicePtr goes on
    | Work(redirect: bool)      // the worker; redirect: the reply names another place to ask
    | HandleEvent

  // ------------------------------------------------------------------------ steps

  /** Any use of the service after it has been freed is a fault, and so is freeing a queue
      that is not there. */
  function Touch(s: Service): Service {
    s.(fault := s.fault || s.serviceFrees > 0)
  }

  /** `startRawAsyncRequest`, which makes the queue and the worker when there are none. */
  function Submit(side: Side, item: Item): Side {
    match side.queue
    case None => Side(Some([item]), Looping, side.frees)
    case Some(items) => side.(queue := Some(items + [item]))
  }

  function FreeQueue(side: Side): Side {
    side.(queue := None, frees := side.frees + 1)
  }

  /** Back from the callback that ran `freeServicePtr`. */
  function Resume(side: Side): Side {
    if side.loop.Busy? then side.(loop := Looping) else side
  }

  predicate Gone(loop: Loop) {
    loop.Absent? || loop.Exited?
  }

  predicate CanFree(s: Service) {
    && !s.phase.Returned?
    && (s.phase.JoinEvents? ==> s.events.loop.Exited?)
    && (s.phase.JoinWorker? ==> s.requests.loop.Exited?)
  }

  /** `deleteUriFromServiceAsync` for the event registration and for the session. */
  function SendDeletes(s: Service): Service {
    if s.phase.Unregister? then
      s.(phase := Logout, requests := if s.registered then Submit(s.requests, DeleteRegistration) else s.requests)
    else
      s.(phase := EndEvents, requests := if s.loggedIn then Submit(s.requests, DeleteSession) else s.requests)
  }

  /** `terminateAsyncEventThread`, up to the join. */
  function EndEventThread(s: Service): Service {
    if s.events.queue.None? then s.(phase := EndWorker)
    else
      s.(events := Submit(s.events, Terminator),
         eventTerm := s.eventTerm || s.role.EventThread?,
         phase := if s.role.EventThread? then EndWorker else JoinEvents)
  }

  /** `terminateAsyncThread`, up to the join. */
  function EndWorkerThread(s: Service): Service {
    if s.requests.queue.None? then s.(phase := Decide)
    else
      s.(requests := Submit(s.requests, Terminator),
         selfTerm := s.selfTerm || s.role.Worker?,
         phase := if s.role.Worker? then Decide else JoinWorker)
  }

  /** The end of `freeServicePtr`, and the way back to what the thread was doing. */
  function Finish(s: Service): Service {
    s.(phase := Returned, requests := Resume(s.requests), events := Resume(s.events),
       serviceFrees := if !s.selfTerm && !s.eventTerm then s.serviceFrees + 1 else s.serviceFrees)
  }

  function StepFree(s: Service): Service
    requires CanFree(s)
  {
    match s.phase
    case Mark => Touch(s).(phase := Unregister, freeing := true)
    case Unregister => SendDeletes(Touch(s))
    case Logout => SendDeletes(Touch(s))
    case EndEvents => EndEventThread(Touch(s))
    case JoinEvents => Touch(s).(phase := EndWorker, events := FreeQueue(s.events), fault := s.fault || s.serviceFrees > 0 || s.events.queue.None?)
    case EndWorker => EndWorkerThread(Touch(s))
    case JoinWorker => Touch(s).(phase := Decide, requests := FreeQueue(s.requests), fault := s.fault || s.serviceFrees > 0 || s.requests.queue.None?)
    case Decide => Finish(Touch(s))
    case Returned => s
  }

  predicate CanServe(side: Side) {
    side.loop.Leaving? || (side.loop.Looping? && side.queue.Some? && side.queue.value != [])
  }

  /** A served queue loses its head; the terminator ends the loop. */
  function Pop(side: Side): Side
    requires side.queue.Some? && side.queue.value != []
  {
    side.(queue := Some(side.queue.value[1..]), loop := if side.queue.value[0].Terminator? then Leaving else Looping)
  }

  /** The last lines of a serving thread, where `self` says that it has to clean up. */
  function Exit(side: Side, self: bool): Side {
    if self then FreeQueue(side).(loop := Exited) else side.(loop := Exited)
  }

  function StepWork(s: Service, redirect: bool): Service
    requires CanServe(s.requests)
  {
    if s.requests.loop.Leaving? then
      s.(requests := Exit(s.requests, s.selfTerm),
         serviceFrees := if s.selfTerm then s.serviceFrees + 1 else s.serviceFrees,
         fault := s.fault || s.serviceFrees > 0 || (s.selfTerm && s.requests.queue.None?))
    else if s.requests.queue.value[0].Terminator? then s.(requests := Pop(s.requests))
    else
      s.(requests := if redirect then Submit(Pop(s.requests), Request(0)) else Pop(s.requests),
         ran := s.ran + [s.requests.queue.value[0]],
         fault := s.fault || s.serviceFrees > 0)
  }

  function StepHandle(s: Service): Service
    requires CanServe(s.events)
  {
    if s.events.loop.Leaving? then
      s.(events := Exit(s.events, s.eventTerm),
         serviceFrees := if s.eventTerm then s.serviceFrees + 1 else s.serviceFrees,
         fault := s.fault || s.serviceFrees > 0 || (s.eventTerm && s.events.queue.None?))
    else s.(events := Pop(s.events))
  }

  predicate Enabled(s: Service, e: Event) {
    match e
    case Free => CanFree(s)
    case Work(_) => CanServe(s.requests)
    case HandleEvent => CanServe(s.events)
  }

  function Step(s: Service, e: Event): Service
    requires Enabled(s, e)
  {
    match e
    case Free => StepFree(s)
    case Work(redirect) => StepWork(s, redirect)
    case HandleEvent => StepHandle(s)
  }

  predicate InitSide(side: Side, mine: bool) {
    && side.frees == 0 && (mine ==> side.queue.Some?)
    && (side.queue.Some? ==> Terminator !in side.queue.value)
    && side.loop == if side.queue.None? then Absent else if mine then Busy else Looping
  }

  /** The last reference has gone on thread `role`; the queues may still hold work. */
  predicate Init(s: Service) {
    && s.phase.Mark? && s.ran == [] && !s.freeing && !s.selfTerm && !s.eventTerm && s.serviceFrees == 0 && !s.fault
    && InitSide(s.requests, s.role.Worker?) && InitSide(s.events, s.role.EventThread?)
  }

  ghost predicate IsRun(s: Service, run: seq<Event>)
    decreases |run|
  {
    run == [] || (Enabled(s, run[0]) && IsRun(Step(s, run[0]), run[1..]))
  }

  function After(s: Service, run: seq<Event>): Service
    requires IsRun(s, run)
    decreases |run|
  {
    if run == [] then s else After(Step(s, run[0]), run[1..])
  }

  /** Everybody is through. */
  predicate Complete(s: Service) {
    s.phase.Returned? && Gone(s.requests.loop) && Gone(s.events.loop)
  }

  // -------------------------------------------------------------------- invariant

  function Rank(phase: Phase): nat {
    match phase
    case Mark => 0
    case Unregister => 1
    case Logout => 2
    case EndEvents => 3
    case JoinEvents => 4
    case EndWorker => 5
    case JoinWorker => 6
    case Decide => 7
    case Returned => 8
  }

  predicate Ended(side: Side) {
    side.loop.Leaving? || side.loop.Exited? || (side.queue.Some? && Terminator in side.queue.value)
  }

  predicate Open(side: Side) {
    && side.frees == 0 && !side.loop.Leaving? && !side.loop.Exited? && (side.queue.None? <==> side.loop.Absent?)
    && (side.queue.Some? ==> Terminator !in side.queue.value)
  }

  /** Its terminator has been sent; the queue is still there. */
  predicate Closing(side: Side) {
    side.queue.Some? && side.frees == 0 && !side.loop.Absent? && Ended(side)
  }

  predicate Closed(side: Side) {
    side.queue.None? && ((side.loop.Absent? && side.frees == 0) || (side.loop.Exited? && side.frees == 1))
  }

  /** One side. `sent`: the terminator has been sent if there was somebody to send it to;
      `joining`: another thread waits for this one; `mine`: the side tears itself down. */
  predicate SideOk(side: Side, sent: bool, joining: bool, mine: bool, returned: bool) {
    && (mine ==> (side.loop.Busy? <==> !returned) && !side.loop.Absent?)
    && (!mine ==> !side.loop.Busy?)
    && (!sent ==> Open(side))
    && (sent && mine ==> if side.loop.Exited? then Closed(side) else Closing(side))
    && (sent && !mine ==> if joining then Closing(side) else Closed(side))
    && (joining ==> sent && !mine)
  }

  predicate RequestsOk(s: Service) {
    SideOk(s.requests, Rank(s.phase) > 5, s.phase.JoinWorker?, s.role.Worker?, s.phase.Returned?)
  }

  predicate EventsOk(s: Service) {
    SideOk(s.events, Rank(s.phase) > 3, s.phase.JoinEvents?, s.role.EventThread?, s.phase.Returned?)
  }

  /** Who has freed the service, and when. */
  predicate ServiceOk(s: Service) {
    && !s.fault && (s.freeing <==> Rank(s.phase) > 0)
    && (s.selfTerm <==> s.role.Worker? && Rank(s.phase) > 5)
    && (s.eventTerm <==> s.role.EventThread? && Rank(s.phase) > 3)
    && s.serviceFrees ==
       (match s.role
        case Outside => if s.phase.Returned? then 1 else 0
        case Worker => if s.requests.loop.Exited? then 1 else 0
        case EventThread => if s.events.loop.Exited? then 1 else 0)
  }

  predicate Inv(s: Service) {
    RequestsOk(s) && EventsOk(s) && ServiceOk(s)
  }

  // what a step does to one side, whichever it is

  lemma {:induction false} SubmitKeepsOpen(side: Side, item: Item)
    requires Open(side) && !item.Terminator?
    ensures Open(Submit(side, item)) && (Submit(side, item).loop.Busy? <==> side.loop.Busy?) && !Submit(side, item).loop.Absent?
  {
  }

  lemma {:induction false} TerminatorCloses(side: Side)
    requires Open(side) && side.queue.Some?
    ensures Closing(Submit(side, Terminator)) && Submit(side, Terminator).loop == side.loop
  {
    var items := side.queue.value + [Terminator];
    assert items[|side.queue.value|] == Terminator;
  }

  lemma {:induction false} PopKeepsSide(side: Side, sent: bool, joining: bool, mine: bool, returned: bool)
    requires SideOk(side, sent, joining, mine, returned) && CanServe(side) && side.loop.Looping?
    ensures SideOk(Pop(side), sent, joining, mine, returned)
  {
    assert side.queue.value == [side.queue.value[0]] + side.queue.value[1..];
  }

  lemma {:induction false} SubmitKeepsSide(side: Side, item: Item, sent: bool, joining: bool, mine: bool, returned: bool)
    requires SideOk(side, sent, joining, mine, returned) && !item.Terminator? && side.queue.Some?
    ensures SideOk(Submit(side, item), sent, joining, mine, returned)
  {
  }

  lemma {:induction false} ExitKeepsSide(side: Side, sent: bool, joining: bool, mine: bool, returned: bool)
    requires SideOk(side, sent, joining, mine, returned) && side.loop.Leaving?
    ensures sent && side.queue.Some? && SideOk(Exit(side, mine), sent, joining, mine, returned)
  {
  }

  lemma {:induction false} FreeKeepsRequests(s: Service)
    requires Inv(s) && CanFree(s)
    ensures RequestsOk(StepFree(s))
  {
    if s.phase.Unregister? || s.phase.Logout? {
      SubmitKeepsOpen(s.requests, DeleteRegistration);
      SubmitKeepsOpen(s.requests, DeleteSession);
    } else if s.phase.EndWorker? && s.requests.queue.Some? {
      TerminatorCloses(s.requests);
    } else {
      RequestsLeftAlone(s);
    }
  }

  lemma {:induction false} RequestsLeftAlone(s: Service)
    requires Inv(s) && CanFree(s) && !s.phase.Unregister? && !s.phase.Logout?
    requires s.phase.EndWorker? ==> s.requests.queue.None?
    ensures RequestsOk(StepFree(s))
  {
  }

  lemma {:induction false} FreeKeepsEvents(s: Service)
    requires Inv(s) && CanFree(s)
    ensures EventsOk(StepFree(s))
  {
    if s.phase.EndEvents? && s.events.queue.Some? {
      TerminatorCloses(s.events);
    } else {
      EventsLeftAlone(s);
    }
  }

  lemma {:induction false} EventsLeftAlone(s: Service)
    requires Inv(s) && CanFree(s) && (s.phase.EndEvents? ==> s.events.queue.None?)
    ensures EventsOk(StepFree(s))
  {
  }

  lemma {:induction false} FreeKeepsService(s: Service)
    requires Inv(s) && CanFree(s)
    ensures ServiceOk(StepFree(s))
  {
  }

  lemma {:induction false} WorkKeepsInv(s: Service, redirect: bool)
    requires Inv(s) && CanServe(s.requests)
    ensures Inv(StepWork(s, redirect))
  {
    var sent, joining, mine, returned := Rank(s.phase) > 5, s.phase.JoinWorker?, s.role.Worker?, s.phase.Returned?;
    if s.requests.loop.Leaving? {
      ExitKeepsSide(s.requests, sent, joining, mine, returned);
    } else {
      PopKeepsSide(s.requests, sent, joining, mine, returned);
      SubmitKeepsSide(Pop(s.requests), Request(0), sent, joining, mine, returned);
    }
  }

  lemma {:induction false} HandleKeepsInv(s: Service)
    requires Inv(s) && CanServe(s.events)
    ensures Inv(StepHandle(s))
  {
    var sent, joining, mine, returned := Rank(s.phase) > 3, s.phase.JoinEvents?, s.role.EventThread?, s.phase.Returned?;
    if s.events.loop.Leaving? {
      ExitKeepsSide(s.events, sent, joining, mine, returned);
    } else {
      PopKeepsSide(s.events, sent, joining, mine, returned);
    }
  }

  lemma {:induction false} StepKeepsInv(s: Service, e: Event)
    requires Inv(s) && Enabled(s, e)
    ensures Inv(Step(s, e))
  {
    match e {
      case Free =>
        FreeKeepsRequests(s);
        FreeKeepsEvents(s);
        FreeKeepsService(s);
      case Work(redirect) => WorkKeepsInv(s, redirect);
      case HandleEvent => HandleKeepsInv(s);
    }
  }

  // ------------------------------------------------------------- what the worker does

  function BeforeEnd(items: seq<Item>): (r: seq<Item>)
    ensures Terminator !in r
  {
    if items == [] || items[0].Terminator? then [] else [items[0]] + BeforeEnd(items[1..])
  }

  /** What a side will still take before its terminator, if nothing is added. */
  function Ahead(side: Side): seq<Item> {
    if side.queue.Some? && !side.loop.Leaving? && !side.loop.Exited? then BeforeEnd(side.queue.value) else []
  }

  /** The requests that have run or will run before the worker stops, if nothing is added. */
  function Due(s: Service): seq<Item> {
    s.ran + Ahead(s.requests)
  }

  lemma {:induction false} BeforeEndAppend(items: seq<Item>, item: Item)
    ensures BeforeEnd(items + [item]) ==
            if Terminator in items || item.Terminator? then BeforeEnd(items) else BeforeEnd(items) + [item]
    decreases |items|
  {
    if items == [] {
      assert [item][1..] == [];
      assert BeforeEnd([]) == [];
    } else {
      assert (items + [item])[1..] == items[1..] + [item];
      BeforeEndAppend(items[1..], item);
    }
  }

  /** A new item is ahead of the terminator only if there is none yet. */
  lemma {:induction false} SubmitAdds(side: Side, item: Item)
    requires side.queue.None? ==> side.loop.Absent?
    ensures Ahead(Submit(side, item)) == Ahead(side) + if Ended(side) || item.Terminator? then [] else [item]
  {
    if side.queue.Some? {
      BeforeEndAppend(side.queue.value, item);
      assert BeforeEnd(side.queue.value) + [] == BeforeEnd(side.queue.value);
    } else {
      assert [item][1..] == [] && BeforeEnd([]) == [];
    }
  }

  lemma {:induction false} PopTakes(side: Side)
    requires CanServe(side) && side.loop.Looping?
    ensures var item := side.queue.value[0];
            Ahead(side) == (if item.Terminator? then [] else [item]) + Ahead(Pop(side))
    ensures !side.queue.value[0].Terminator? ==> (Ended(Pop(side)) <==> Ended(side))
  {
    assert side.queue.value == [side.queue.value[0]] + side.queue.value[1..];
  }

  /** What one step adds to the due requests: nothing once the terminator is queued. */
  function Added(s: Service, e: Event): seq<Item> {
    match e
    case Free =>
      if s.phase.Unregister? && s.registered then [DeleteRegistration]
      else if s.phase.Logout? && s.loggedIn then [DeleteSession] else []
    case Work(redirect) => if redirect && !Ended(s.requests) then [Request(0)] else []
    case HandleEvent => []
  }

  /** One request taken, and perhaps one added for its redirect. */
  lemma {:induction false} TakeAdds(side: Side, redirect: bool)
    requires CanServe(side) && side.loop.Looping? && !side.queue.value[0].Terminator?
    ensures [side.queue.value[0]] + Ahead(if redirect then Submit(Pop(side), Request(0)) else Pop(side)) ==
            Ahead(side) + if redirect && !Ended(side) then [Request(0)] else []
  {
    PopTakes(side);
    if redirect {
      SubmitAdds(Pop(side), Request(0));
    }
  }

  lemma Regroup(ran: seq<Item>, item: Item, rest: seq<Item>, ahead: seq<Item>, added: seq<Item>)
    requires [item] + rest == ahead + added
    ensures (ran + [item]) + rest == (ran + ahead) + added
  {
    assert (ran + [item]) + rest == ran + ([item] + rest);
  }

  lemma {:induction false} WorkAdds(s: Service, redirect: bool)
    requires Inv(s) && CanServe(s.requests)
    ensures Due(StepWork(s, redirect)) == Due(s) + Added(s, Work(redirect))
  {
    var side := s.requests;
    if side.loop.Looping? && !side.queue.value[0].Terminator? {
      var side' := if redirect then Submit(Pop(side), Request(0)) else Pop(side);
      var added := if redirect && !Ended(side) then [Request(0)] else [];
      assert [side.queue.value[0]] + Ahead(side') == Ahead(side) + added by {
        TakeAdds(side, redirect);
      }
      Regroup(s.ran, side.queue.value[0], Ahead(side'), Ahead(side), added);
    } else if side.loop.Looping? {
      assert Ahead(side) == [] && Ended(side) by {
        PopTakes(side);
      }
    }
  }

  lemma {:induction false} FreeAdds(s: Service)
    requires Inv(s) && CanFree(s)
    ensures Due(StepFree(s)) == Due(s) + Added(s, Free)
  {
    match s.phase {
      case Unregister => SubmitAdds(s.requests, DeleteRegistration);
      case Logout => SubmitAdds(s.requests, DeleteSession);
      case EndWorker => SubmitAdds(s.requests, Terminator);
      case _ =>
    }
  }

  lemma {:induction false} StepAdds(s: Service, e: Event)
    requires Inv(s) && Enabled(s, e)
    ensures Due(Step(s, e)) == Due(s) + Added(s, e)
  {
    match e {
      case Free => FreeAdds(s);
      case Work(redirect) => WorkAdds(s, redirect);
      case HandleEvent =>
    }
  }

  /** The DELETEs that have been queued are due. */
  predicate DeletesDue(s: Service) {
    && (s.registered && Rank(s.phase) > 1 ==> DeleteRegistration in Due(s))
    && (s.loggedIn && Rank(s.phase) > 2 ==> DeleteSession in Due(s))
    && Terminator !in s.ran
  }

  predicate SameJob(s: Service, s': Service) {
    s'.role == s.role && s'.registered == s.registered && s'.loggedIn == s.loggedIn
  }

  lemma {:induction false} FreeMovesOn(s: Service)
    requires CanFree(s)
    ensures SameJob(s, StepFree(s)) && StepFree(s).ran == s.ran
    ensures Rank(StepFree(s).phase) > Rank(s.phase)
    ensures Rank(s.phase) < 3 ==> Rank(StepFree(s).phase) == Rank(s.phase) + 1
  {
    if s.phase.Mark? || s.phase.Unregister? || s.phase.Logout? {
      EarlyMovesOn(s);
    } else if s.phase.EndEvents? || s.phase.JoinEvents? {
      EventsMoveOn(s);
    } else {
      LateMovesOn(s);
    }
  }

  lemma {:induction false} EarlyMovesOn(s: Service)
    requires s.phase.Mark? || s.phase.Unregister? || s.phase.Logout?
    ensures SameJob(s, StepFree(s)) && StepFree(s).ran == s.ran && Rank(StepFree(s).phase) == Rank(s.phase) + 1
  {
  }

  lemma {:induction false} EventsMoveOn(s: Service)
    requires CanFree(s) && (s.phase.EndEvents? || s.phase.JoinEvents?)
    ensures SameJob(s, StepFree(s)) && StepFree(s).ran == s.ran && Rank(StepFree(s).phase) > Rank(s.phase)
  {
  }

  lemma {:induction false} LateMovesOn(s: Service)
    requires CanFree(s) && (s.phase.EndWorker? || s.phase.JoinWorker? || s.phase.Decide?)
    ensures SameJob(s, StepFree(s)) && StepFree(s).ran == s.ran && Rank(StepFree(s).phase) > Rank(s.phase)
  {
  }

  lemma {:induction false} WorkMovesOn(s: Service, redirect: bool)
    requires CanServe(s.requests)
    ensures SameJob(s, StepWork(s, redirect)) && StepWork(s, redirect).phase == s.phase
    ensures Terminator !in s.ran ==> Terminator !in StepWork(s, redirect).ran
  {
  }

  lemma {:induction false} StepMovesOn(s: Service, e: Event)
    requires Enabled(s, e)
    ensures SameJob(s, Step(s, e)) && Rank(s.phase) <= Rank(Step(s, e).phase)
    ensures !e.Free? ==> Step(s, e).phase == s.phase
    ensures e.Free? && Rank(s.phase) < 3 ==> Rank(Step(s, e).phase) == Rank(s.phase) + 1
    ensures Terminator !in s.ran ==> Terminator !in Step(s, e).ran
  {
    match e {
      case Free => FreeMovesOn(s);
      case Work(redirect) => WorkMovesOn(s, redirect);
      case HandleEvent =>
    }
  }

  lemma {:induction false} StepKeepsDeletes(s: Service, e: Event)
    requires Inv(s) && DeletesDue(s) && Enabled(s, e)
    ensures DeletesDue(Step(s, e)) && Due(s) <= Due(Step(s, e))
  {
    StepAdds(s, e);
    StepMovesOn(s, e);
  }

  lemma {:induction false} RunKeepsInv(s: Service, run: seq<Event>)
    requires Inv(s) && DeletesDue(s) && IsRun(s, run)
    ensures Inv(After(s, run)) && DeletesDue(After(s, run)) && Due(s) <= Due(After(s, run))
    ensures After(s, run).registered == s.registered && After(s, run).loggedIn == s.loggedIn
    decreases |run|
  {
    if run != [] {
      StepKeepsInv(s, run[0]);
      StepKeepsDeletes(s, run[0]);
      StepMovesOn(s, run[0]);
      RunKeepsInv(Step(s, run[0]), run[1..]);
    }
  }

  // ------------------------------------------------------------------ main results

  /** Whoever went on with a service after its free would leave a fault, and so would joining
      a thread whose queue is not there. */
  lemma {:induction false} MisuseFaults(s: Service, e: Event)
    requires Enabled(s, e)
    ensures s.serviceFrees > 0 && (e.Free? || (e.Work? && !s.requests.loop.Leaving? && !s.requests.queue.value[0].Terminator?)) ==>
              Step(s, e).fault
    ensures e.Free? && s.phase.JoinEvents? && s.events.queue.None? ==> Step(s, e).fault
    ensures e.Free? && s.phase.JoinWorker? && s.requests.queue.None? ==> Step(s, e).fault
  {
  }

  /** Whatever thread tears down and however the threads interleave: nothing is used after
      its free, and service and queues are freed at most once; when the service goes everybody
      is through, and when a queue goes its thread has stopped. */
  lemma {:induction false} TeardownIsSafe(s: Service, run: seq<Event>)
    requires Init(s) && IsRun(s, run)
    ensures var end := After(s, run);
            && !end.fault && end.serviceFrees <= 1 && end.requests.frees <= 1 && end.events.frees <= 1
            && !(end.selfTerm && end.eventTerm)
            && (end.serviceFrees > 0 ==> Complete(end))
            && (end.requests.frees > 0 ==> end.requests.loop.Exited?) && (end.events.frees > 0 ==> end.events.loop.Exited?)
  {
    RunKeepsInv(s, run);
  }

  /** When all threads are through, exactly one of them has freed the service, each queue
      there was has been freed exactly once, and the worker has run everything queued before
      its terminator, the two DELETEs included. */
  lemma {:induction false} TeardownIsComplete(s: Service, run: seq<Event>)
    requires Init(s) && IsRun(s, run) && Complete(After(s, run))
    ensures var end := After(s, run);
            && end.serviceFrees == 1
            && end.requests.queue.None? && end.requests.frees == (if end.requests.loop.Exited? then 1 else 0)
            && end.events.queue.None? && end.events.frees == (if end.events.loop.Exited? then 1 else 0)
            && Ahead(s.requests) <= end.ran
            && (s.registered ==> DeleteRegistration in end.ran) && (s.loggedIn ==> DeleteSession in end.ran)
            && Terminator !in end.ran
  {
    RunKeepsInv(s, run);
    var end := After(s, run);
    assert Due(end) == end.ran;
    assert Due(s) == Ahead(s.requests);
  }

  /** What is queued behind the terminator never runs: from then on the requests that will
      have run are settled, whatever is still redirected. */
  lemma {:induction false} NothingAfterTheTerminatorRuns(s: Service, run: seq<Event>)
    requires Inv(s) && IsRun(s, run) && Rank(s.phase) > 5 && Complete(After(s, run))
    ensures After(s, run).ran == Due(s)
    decreases |run|
  {
    if run != [] {
      StepKeepsInv(s, run[0]);
      StepAdds(s, run[0]);
      StepMovesOn(s, run[0]);
      assert Added(s, run[0]) == [];
      NothingAfterTheTerminatorRuns(Step(s, run[0]), run[1..]);
    }
  }

  // ---------------------------------------------------------------------- progress

  /** Until everybody is through, somebody can move: no join waits for ever. */
  lemma {:induction false} NeverStuck(s: Service) returns (e: Event)
    requires Inv(s) && !Complete(s)
    ensures Enabled(s, e)
  {
    e := if CanFree(s) then Free else if CanServe(s.requests) then Work(false) else HandleEvent;
  }

  function LoopLeft(loop: Loop): nat {
    match loop
    case Leaving => 1
    case Exited => 0
    case _ => 2
  }

  /** What a side has to do yet: the items before its terminator, and to stop. */
  function SideLeft(side: Side): nat {
    |Ahead(side)| + LoopLeft(side.loop)
  }

  function StepsLeft(s: Service): nat {
    2 * (8 - Rank(s.phase)) + SideLeft(s.requests) + SideLeft(s.events)
  }

  /** A redirect adds work only while the terminator is not queued. */
  function Redirected(s: Service, e: Event): nat {
    if e == Work(true) && !Ended(s.requests) then 1 else 0
  }

  function Redirects(s: Service, run: seq<Event>): nat
    requires IsRun(s, run)
    decreases |run|
  {
    if run == [] then 0 else Redirected(s, run[0]) + Redirects(Step(s, run[0]), run[1..])
  }

  lemma {:induction false} SubmitGrows(side: Side, item: Item)
    requires Open(side)
    ensures SideLeft(Submit(side, item)) <= SideLeft(side) + 1
  {
    SubmitAdds(side, item);
  }

  lemma {:induction false} FreeGrows(s: Service)
    requires Inv(s) && CanFree(s)
    ensures SideLeft(StepFree(s).requests) + SideLeft(StepFree(s).events) <= SideLeft(s.requests) + SideLeft(s.events) + 1
  {
    match s.phase {
      case Unregister => SubmitGrows(s.requests, DeleteRegistration);
      case Logout => SubmitGrows(s.requests, DeleteSession);
      case EndEvents => SubmitGrows(s.events, Terminator);
      case EndWorker => SubmitGrows(s.requests, Terminator);
      case _ => OtherStepsGrowNothing(s);
    }
  }

  lemma {:induction false} OtherStepsGrowNothing(s: Service)
    requires CanFree(s) && (s.phase.Mark? || s.phase.JoinEvents? || s.phase.JoinWorker? || s.phase.Decide?)
    ensures SideLeft(StepFree(s).requests) <= SideLeft(s.requests) && SideLeft(StepFree(s).events) <= SideLeft(s.events)
  {
  }

  lemma {:induction false} FreeMakesProgress(s: Service)
    requires Inv(s) && CanFree(s)
    ensures StepsLeft(StepFree(s)) < StepsLeft(s)
  {
    FreeMovesOn(s);
    assert SideLeft(StepFree(s).requests) + SideLeft(StepFree(s).events) <= SideLeft(s.requests) + SideLeft(s.events) + 1 by {
      FreeGrows(s);
    }
  }

  lemma {:induction false} PopMakesProgress(side: Side)
    requires CanServe(side) && side.loop.Looping?
    ensures SideLeft(Pop(side)) < SideLeft(side)
  {
    PopTakes(side);
  }

  lemma {:induction false} WorkMakesProgress(s: Service, redirect: bool)
    requires Inv(s) && CanServe(s.requests)
    ensures SideLeft(StepWork(s, redirect).requests) < SideLeft(s.requests) + Redirected(s, Work(redirect))
  {
    var side := s.requests;
    if side.loop.Looping? {
      if side.queue.value[0].Terminator? {
        PopMakesProgress(side);
      } else {
        TakeAdds(side, redirect);
      }
    }
  }

  lemma {:induction false} StepMakesProgress(s: Service, e: Event)
    requires Inv(s) && Enabled(s, e)
    ensures StepsLeft(Step(s, e)) < StepsLeft(s) + Redirected(s, e)
  {
    match e {
      case Free => FreeMakesProgress(s);
      case Work(redirect) =>
        WorkMakesProgress(s, redirect);
        WorkLeavesAlone(s, redirect);
      case HandleEvent => HandleMakesProgress(s);
    }
  }

  lemma {:induction false} WorkLeavesAlone(s: Service, redirect: bool)
    requires CanServe(s.requests)
    ensures StepWork(s, redirect).phase == s.phase && StepWork(s, redirect).events == s.events
  {
  }

  lemma {:induction false} HandleMakesProgress(s: Service)
    requires CanServe(s.events)
    ensures StepsLeft(StepHandle(s)) < StepsLeft(s)
  {
    if s.events.loop.Looping? {
      PopMakesProgress(s.events);
    }
  }

  /** Every run is bounded by what there is to do and the redirects that add to it; together
      with NeverStuck, it ends with everybody through unless it is redirected for ever. */
  lemma {:induction false} TeardownEnds(s: Service, run: seq<Event>)
    requires Inv(s) && IsRun(s, run)
    ensures |run| + StepsLeft(After(s, run)) <= StepsLeft(s) + Redirects(s, run)
    decreases |run|
  {
    if run != [] {
      StepKeepsInv(s, run[0]);
      StepMakesProgress(s, run[0]);
      TeardownEnds(Step(s, run[0]), run[1..]);
    }
  }

  /** Once the terminator of the worker has been queued, no redirect can put the end off. */
  lemma {:induction false} RedirectsCannotDelay(s: Service, run: seq<Event>)
    requires Inv(s) && IsRun(s, run) && Rank(s.phase) > 5
    ensures Redirects(s, run) == 0
    ensures |run| + StepsLeft(After(s, run)) <= StepsLeft(s)
    decreases |run|
  {
    if run != [] {
      StepKeepsInv(s, run[0]);
      StepMovesOn(s, run[0]);
      StepMakesProgress(s, run[0]);
      RedirectsCannotDelay(Step(s, run[0]), run[1..]);
    }
  }
}
