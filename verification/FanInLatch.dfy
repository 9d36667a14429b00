/** The fan-in context of a filter as a protocol: a loop starts one index step per slot while
    callbacks, in any interleaving, count slots down; whoever counts the last one calls the
    caller's callback and frees the context. */
module FanInLatch {

  /** How far a slot is: waiting for its element, for its filter result, or accounted for. */
  datatype Slot = Unstarted | Refused | AtIndex | AtResult | Counted

  /** The context (`left`, `validCount`), the loop (`next`, `loopDone`), and what happened to
      the context so far. `starts[i]` says whether the index step of slot `i` starts, and
      `mute[i]` that the filter of its element is accepted but never calls back. */
  datatype Latch = Latch(
    starts: seq<bool>, mute: seq<bool>, slots: seq<Slot>, next: nat, loopDone: bool,
    left: int, validCount: nat,
    fired: nat, freed: nat, fault: bool)

  datatype Event =
    | StartNext                           // one turn of the loop
    | IndexReply(slot: nat, going: bool)  // opGotPayloadByIndexAsync; going: the filter started
    | ResultReply(slot: nat, keep: bool)  // opGotResultAsync; keep: a payload to store
    | EndLoop

  function Init(starts: seq<bool>, mute: seq<bool>): Latch {
    Latch(starts, mute, seq(|starts|, _ => Unstarted), 0, false, |starts|, 0, 0, 0, false)
  }

  predicate Enabled(l: Latch, e: Event) {
    match e
    case StartNext => l.next < |l.slots| == |l.starts| && !l.loopDone
    case IndexReply(s, going) => s < |l.slots| == |l.mute| && l.slots[s] == AtIndex && (l.mute[s] ==> going)
    case ResultReply(s, _) => s < |l.slots| == |l.mute| && l.slots[s] == AtResult && !l.mute[s]
    case EndLoop => l.next >= |l.slots| && !l.loopDone
  }

  /** Any access to a context that has been freed is a fault. */
  function Touch(l: Latch): Latch {
    l.(fault := l.fault || l.freed > 0)
  }

  /** `left--` by a callback, and the finish when it reaches zero. */
  function CountDown(l: Latch, s: nat): Latch
    requires s < |l.slots|
  {
    var d := l.(left := l.left - 1, slots := l.slots[s := Counted]);
    if d.left == 0 then d.(fired := d.fired + 1, freed := d.freed + 1) else d
  }

  /** `payloads[validCount++] = payload`, with the bound of the allocated array. */
  function Store(l: Latch): Latch {
    l.(validCount := l.validCount + 1, fault := l.fault || l.validCount >= |l.starts|)
  }

  predicate AnyWork(l: Latch) {
    exists s :: 0 <= s < |l.slots| && !l.slots[s].Unstarted? && !l.slots[s].Refused?
  }

  function Step(l: Latch, e: Event): Latch
    requires Enabled(l, e)
  {
    match e
    case StartNext =>
      if l.starts[l.next] then l.(slots := l.slots[l.next := AtIndex], next := l.next + 1)
      else Touch(l).(slots := l.slots[l.next := Refused], next := l.next + 1, left := l.left - 1)
    case IndexReply(s, going) =>
      if going then Touch(l).(slots := l.slots[s := AtResult]) else CountDown(Touch(l), s)
    case ResultReply(s, keep) =>
      CountDown(if keep then Store(Touch(l)) else Touch(l), s)
    case EndLoop =>
      if AnyWork(l) then l.(loopDone := true)
      else Touch(l).(loopDone := true, freed := l.freed + 1)
  }

  ghost predicate IsRun(l: Latch, run: seq<Event>)
    decreases |run|
  {
    run == [] || (Enabled(l, run[0]) && IsRun(Step(l, run[0]), run[1..]))
  }

  function After(l: Latch, run: seq<Event>): Latch
    requires IsRun(l, run)
    decreases |run|
  {
    if run == [] then l else After(Step(l, run[0]), run[1..])
  }

  // -------------------------------------------------------------------- invariant

  predicate IsOpen(slot: Slot) {
    slot.Unstarted? || slot.AtIndex? || slot.AtResult?
  }

  function CountOpen(slots: seq<Slot>): nat {
    if slots == [] then 0 else (if IsOpen(slots[0]) then 1 else 0) + CountOpen(slots[1..])
  }

  function CountCounted(slots: seq<Slot>): nat {
    if slots == [] then 0 else (if slots[0].Counted? then 1 else 0) + CountCounted(slots[1..])
  }

  ghost predicate Inv(l: Latch) {
    && |l.slots| == |l.starts| == |l.mute| && l.next <= |l.slots|
    && (l.loopDone ==> l.next == |l.slots|)
    && (forall s :: 0 <= s < |l.slots| ==> (l.slots[s].Unstarted? <==> s >= l.next))
    && (forall s :: 0 <= s < l.next ==> (l.slots[s].Refused? <==> !l.starts[s]))
    && l.left == CountOpen(l.slots)
    && l.validCount <= CountCounted(l.slots)
    && l.freed == l.fired + (if l.loopDone && !AnyWork(l) then 1 else 0)
    && l.fired <= 1
    && (l.fired == 1 ==> l.left == 0 && AnyWork(l))
    && (l.left == 0 && |l.slots| > 0 && l.starts[|l.slots| - 1] ==> l.fired == 1)
    && !l.fault
  }

  lemma {:induction false} SlotChanges(slots: seq<Slot>, s: nat, slot: Slot)
    requires s < |slots|
    ensures CountOpen(slots[s := slot]) == CountOpen(slots) - (if IsOpen(slots[s]) then 1 else 0) + (if IsOpen(slot) then 1 else 0)
    ensures CountCounted(slots[s := slot]) == CountCounted(slots) - (if slots[s].Counted? then 1 else 0) + (if slot.Counted? then 1 else 0)
    decreases |slots|
  {
    if s == 0 {
      assert slots[0 := slot][1..] == slots[1..];
    } else {
      SlotChanges(slots[1..], s - 1, slot);
      assert slots[s := slot][1..] == slots[1..][s - 1 := slot];
    }
  }

  lemma {:induction false} Counts(slots: seq<Slot>)
    ensures CountOpen(slots) + CountCounted(slots) <= |slots|
    ensures CountOpen(slots) == 0 <==> forall s :: 0 <= s < |slots| ==> !IsOpen(slots[s])
    decreases |slots|
  {
    if slots != [] {
      Counts(slots[1..]);
      assert forall s :: 0 < s < |slots| ==> slots[s] == slots[1..][s - 1];
    }
  }

  lemma {:induction false} InitInv(starts: seq<bool>, mute: seq<bool>)
    requires starts != [] && |mute| == |starts|
    ensures Inv(Init(starts, mute))
  {
    Counts(Init(starts, mute).slots);
    AllUnstarted(Init(starts, mute).slots);
  }

  lemma {:induction false} AllUnstarted(slots: seq<Slot>)
    requires forall s :: 0 <= s < |slots| ==> slots[s].Unstarted?
    ensures CountOpen(slots) == |slots|
    decreases |slots|
  {
    if slots != [] {
      AllUnstarted(slots[1..]);
    }
  }

  /** What the step changes about one slot, as arithmetic: the counts before and after. */
  lemma {:induction false} Recount(slots: seq<Slot>, s: nat, slot: Slot)
    requires s < |slots|
    ensures var after := slots[s := slot];
            && CountOpen(after) == CountOpen(slots) - (if IsOpen(slots[s]) then 1 else 0) + (if IsOpen(slot) then 1 else 0)
            && CountCounted(after) == CountCounted(slots) - (if slots[s].Counted? then 1 else 0) + (if slot.Counted? then 1 else 0)
            && CountOpen(after) + CountCounted(after) <= |slots|
            && (IsOpen(slot) ==> CountOpen(after) > 0)
            && (CountOpen(after) == 0 ==> forall i :: 0 <= i < |slots| && i != s ==> !IsOpen(slots[i]))
  {
    SlotChanges(slots, s, slot);
    var after := slots[s := slot];
    Counts(after);
    assert after[s] == slot;
    assert forall i :: 0 <= i < |slots| && i != s ==> after[i] == slots[i];
  }

  lemma {:induction false} StartedKeepsInv(l: Latch)
    requires Inv(l) && Enabled(l, StartNext) && l.starts[l.next]
    ensures Inv(Step(l, StartNext))
  {
    Recount(l.slots, l.next, AtIndex);
    var m := Step(l, StartNext);
    assert IsOpen(l.slots[l.next]);
    assert m.slots[l.next] == AtIndex && AnyWork(m);
    OpenMeansLeft(l, l.next);
  }

  lemma {:induction false} OpenMeansLeft(l: Latch, s: nat)
    requires Inv(l) && s < |l.slots| && IsOpen(l.slots[s])
    ensures l.left > 0 && l.fired == 0
  {
    Counts(l.slots);
  }

  lemma {:induction false} RefusedKeepsInv(l: Latch)
    requires Inv(l) && Enabled(l, StartNext) && !l.starts[l.next]
    ensures Inv(Step(l, StartNext))
  {
    Recount(l.slots, l.next, Refused);
    OpenMeansLeft(l, l.next);
    var m := Step(l, StartNext);
    assert l.next < |l.slots| - 1 ==> IsOpen(l.slots[|l.slots| - 1]);
  }

  /** Counting a slot down keeps the invariant, also when a payload was stored for it. */
  lemma {:induction false} CountDownInv(l: Latch, s: nat, v: nat)
    requires Inv(l) && s < |l.slots| && (l.slots[s].AtIndex? || l.slots[s].AtResult?)
    requires v <= l.validCount + 1 && l.fired == 0 && l.freed == 0
    ensures Inv(CountDown(l.(validCount := v), s))
  {
    Recount(l.slots, s, Counted);
    var m := CountDown(l.(validCount := v), s);
    assert m.slots[s] == Counted && AnyWork(m);
    assert l.starts[s];
  }

  lemma {:induction false} CountDownKeepsInv(l: Latch, e: Event)
    requires Inv(l) && Enabled(l, e)
    requires e.ResultReply? || (e.IndexReply? && !e.going)
    ensures Inv(Step(l, e))
  {
    OpenMeansLeft(l, e.slot);
    assert AnyWork(l);
    assert l.freed == 0 && Touch(l) == l;
    var keep := e.ResultReply? && e.keep;
    var v := if keep then l.validCount + 1 else l.validCount;
    assert l.validCount < |l.starts| by { Counts(l.slots); }
    assert Step(l, e) == CountDown(l.(validCount := v), e.slot);
    CountDownInv(l, e.slot, v);
  }

  lemma {:induction false} GoingKeepsInv(l: Latch, e: Event)
    requires Inv(l) && Enabled(l, e) && e.IndexReply? && e.going
    ensures Inv(Step(l, e))
  {
    SlotChanges(l.slots, e.slot, AtResult);
    Counts(l.slots);
    assert IsOpen(l.slots[e.slot]);
    assert Step(l, e).slots[e.slot].AtResult?;
  }

  lemma {:induction false} EndKeepsInv(l: Latch)
    requires Inv(l) && Enabled(l, EndLoop)
    ensures Inv(Step(l, EndLoop))
  {
  }

  /** Every transition keeps the invariant. */
  lemma {:induction false} StepKeepsInv(l: Latch, e: Event)
    requires Inv(l) && Enabled(l, e)
    ensures Inv(Step(l, e))
  {
    match e {
      case StartNext => if l.starts[l.next] { StartedKeepsInv(l); } else { RefusedKeepsInv(l); }
      case IndexReply(s, going) => if going { GoingKeepsInv(l, e); } else { CountDownKeepsInv(l, e); }
      case ResultReply(_, _) => CountDownKeepsInv(l, e);
      case EndLoop => EndKeepsInv(l);
    }
  }

  lemma {:induction false} StepKeepsKinds(l: Latch, e: Event)
    requires Enabled(l, e)
    ensures Step(l, e).starts == l.starts && Step(l, e).mute == l.mute
  {
  }

  lemma {:induction false} RunKeepsInv(l: Latch, run: seq<Event>)
    requires Inv(l) && IsRun(l, run)
    ensures Inv(After(l, run)) && After(l, run).starts == l.starts && After(l, run).mute == l.mute
    decreases |run|
  {
    if run != [] {
      StepKeepsInv(l, run[0]);
      StepKeepsKinds(l, run[0]);
      RunKeepsInv(Step(l, run[0]), run[1..]);
    }
  }

  // ---------------------------------------------------------------------- safety

  /** The loop is over and nobody has anything left to reply. */
  predicate Complete(l: Latch) {
    l.loopDone && forall s :: 0 <= s < |l.slots| && IsOpen(l.slots[s]) ==> l.slots[s].AtResult? && s < |l.mute| && l.mute[s]
  }

  /** Complete means that no event is enabled. */
  lemma {:induction false} CompleteIff(l: Latch)
    requires Inv(l)
    ensures Complete(l) <==> forall e: Event :: !Enabled(l, e)
  {
    if forall e: Event :: !Enabled(l, e) {
      assert !Enabled(l, StartNext) && !Enabled(l, EndLoop);
      forall s | 0 <= s < |l.slots| && IsOpen(l.slots[s]) ensures l.slots[s].AtResult? && l.mute[s] {
        assert !Enabled(l, IndexReply(s, true)) && !Enabled(l, ResultReply(s, false));
      }
    }
  }

  /** The payloads that the replies of a run have brought. */
  function Brought(run: seq<Event>): nat {
    if run == [] then 0 else (if run[0].ResultReply? && run[0].keep then 1 else 0) + Brought(run[1..])
  }

  lemma {:induction false} AllAreStored(l: Latch, run: seq<Event>)
    requires IsRun(l, run)
    ensures After(l, run).validCount == l.validCount + Brought(run)
    decreases |run|
  {
    if run != [] {
      AllAreStored(Step(l, run[0]), run[1..]);
    }
  }

  lemma {:induction false} StillThere(l: Latch, e: Event)
    requires Inv(l) && Enabled(l, e) && !e.EndLoop?
    ensures l.freed == 0
  {
    OpenMeansLeft(l, if e.StartNext? then l.next else e.slot);
  }

  /** Whoever did come back would leave a fault, and so would a store beyond the array. */
  lemma {:induction false} MisuseFaults(l: Latch, e: Event)
    requires Enabled(l, e)
    ensures l.freed > 0 && (e.IndexReply? || e.ResultReply?) ==> Step(l, e).fault
    ensures e.ResultReply? && e.keep && l.validCount >= |l.starts| ==> Step(l, e).fault
  {
  }

  /** Nobody comes back to a context that has been freed: all that can be left is the end of
      the loop, which does not look at it when work was started. */
  lemma {:induction false} NobodyComesBack(l: Latch, e: Event)
    requires Inv(l) && l.freed > 0 && Enabled(l, e)
    ensures e.EndLoop? && AnyWork(l)
  {
    if !e.EndLoop? {
      StillThere(l, e);
    }
  }

  lemma {:induction false} RoomToStore(l: Latch, s: nat)
    requires Inv(l) && s < |l.slots| && l.slots[s].AtResult?
    ensures l.validCount < |l.starts|
  {
    Counts(l.slots);
    assert IsOpen(l.slots[s]);
  }

  /** In every interleaving, at every moment: no access after the free, every payload that was
      brought is stored, each within the array, the callback runs at most once, and the
      context is freed at most once. */
  lemma {:induction false} LatchIsSafe(starts: seq<bool>, mute: seq<bool>, run: seq<Event>)
    requires starts != [] && |mute| == |starts| && IsRun(Init(starts, mute), run)
    ensures var l := After(Init(starts, mute), run);
            && !l.fault && l.fired <= 1 && l.freed <= 1
            && 0 <= l.left && l.validCount + l.left <= |starts| && l.validCount == Brought(run)
            && (forall e :: l.freed > 0 && Enabled(l, e) ==> e.EndLoop? && AnyWork(l))
            && (forall s :: Enabled(l, ResultReply(s, true)) ==> l.validCount < |starts|)
  {
    var l := After(Init(starts, mute), run);
    InitInv(starts, mute);
    RunKeepsInv(Init(starts, mute), run);
    AllAreStored(Init(starts, mute), run);
    Counts(l.slots);
    forall e | l.freed > 0 && Enabled(l, e) ensures e.EndLoop? && AnyWork(l) {
      NobodyComesBack(l, e);
    }
    forall s | Enabled(l, ResultReply(s, true)) ensures l.validCount < |starts| {
      RoomToStore(l, s);
    }
  }

  /** A slot that starts and whose filter never calls back. */
  predicate AnyMute(starts: seq<bool>, mute: seq<bool>) {
    exists s :: 0 <= s < |starts| && s < |mute| && starts[s] && mute[s]
  }

  /** When the last slot starts and no filter is mute, every complete run calls back exactly
      once and frees the context exactly once, whatever the other slots do. */
  lemma {:induction false} LastStartFires(starts: seq<bool>, mute: seq<bool>, run: seq<Event>)
    requires starts != [] && |mute| == |starts| && starts[|starts| - 1] && !AnyMute(starts, mute)
    requires IsRun(Init(starts, mute), run) && Complete(After(Init(starts, mute), run))
    ensures After(Init(starts, mute), run).fired == 1 && After(Init(starts, mute), run).freed == 1
  {
    var l := After(Init(starts, mute), run);
    InitInv(starts, mute);
    RunKeepsInv(Init(starts, mute), run);
    forall s | 0 <= s < |l.slots| ensures !IsOpen(l.slots[s]) {
      assert l.slots[s].AtResult? ==> starts[s];
    }
    Counts(l.slots);
  }

  /** When no slot starts, the call is refused: no callback, and the context is freed. */
  lemma {:induction false} NothingStartedRefuses(starts: seq<bool>, mute: seq<bool>, run: seq<Event>)
    requires starts != [] && |mute| == |starts| && forall s :: 0 <= s < |starts| ==> !starts[s]
    requires IsRun(Init(starts, mute), run) && Complete(After(Init(starts, mute), run))
    ensures After(Init(starts, mute), run).fired == 0 && After(Init(starts, mute), run).freed == 1
  {
    InitInv(starts, mute);
    RunKeepsInv(Init(starts, mute), run);
  }

  // ------------------------------------------------------------ the failing family

  /** Start each slot and answer it at once, as inline replies do. */
  function Eager(starts: seq<bool>, mute: seq<bool>, from: nat): seq<Event>
    requires from <= |starts| == |mute|
    decreases |starts| - from
  {
    if from == |starts| then [EndLoop]
    else (if starts[from] then [StartNext, IndexReply(from, mute[from])] else [StartNext]) + Eager(starts, mute, from + 1)
  }

  /** All slots before `next` are accounted for or mute, and nothing has fired. */
  ghost predicate Swept(l: Latch) {
    && Inv(l) && !l.loopDone && l.fired == 0
    && forall s :: 0 <= s < l.next && l.starts[s] ==> l.slots[s] == if l.mute[s] then AtResult else Counted
  }

  /** One of the first slots keeps the context open. */
  predicate Held(l: Latch, upTo: nat) {
    exists s :: 0 <= s < upTo && s < |l.starts| && s < |l.mute| && l.starts[s] && l.mute[s]
  }

  lemma {:induction false} EagerTurn(l: Latch)
    requires Swept(l) && l.next < |l.slots|
    requires l.next == |l.slots| - 1 && l.starts[l.next] ==> Held(l, l.next + 1)
    ensures Enabled(l, StartNext)
    ensures var m, reply := Step(l, StartNext), IndexReply(l.next, l.mute[l.next]);
            if l.starts[l.next] then
              && Enabled(m, reply) && Swept(Step(m, reply)) && Step(m, reply).next == l.next + 1
              && Step(m, reply).starts == l.starts && Step(m, reply).mute == l.mute
            else Swept(m) && m.next == l.next + 1 && m.starts == l.starts && m.mute == l.mute
  {
    StepKeepsInv(l, StartNext);
    if l.starts[l.next] {
      var m, reply := Step(l, StartNext), IndexReply(l.next, l.mute[l.next]);
      StepKeepsInv(m, reply);
      StillOpen(l, Step(m, reply));
    }
  }

  lemma {:induction false} StillOpen(l: Latch, after: Latch)
    requires Swept(l) && l.next < |l.slots| && l.starts[l.next] && (l.next == |l.slots| - 1 ==> Held(l, l.next + 1))
    requires Inv(after) && after.slots == l.slots[l.next := if l.mute[l.next] then AtResult else Counted] && after.next == l.next + 1
    requires after.starts == l.starts && after.mute == l.mute
    ensures after.fired == 0
  {
    if l.next < |l.slots| - 1 {
      OpenMeansLeft(after, |l.slots| - 1);
    } else {
      var s :| 0 <= s < l.next + 1 && l.starts[s] && l.mute[s];
      OpenMeansLeft(after, s);
    }
  }

  /** A run that is complete without callback and without free. */
  ghost predicate Leaks(l: Latch, run: seq<Event>) {
    IsRun(l, run) && Complete(After(l, run)) && After(l, run).fired == 0 && After(l, run).freed == 0
  }

  lemma {:induction false} EagerEnds(l: Latch)
    requires Swept(l) && l.next == |l.slots| && AnyStarts(l.starts)
    ensures Leaks(l, [EndLoop])
  {
    var s :| 0 <= s < |l.starts| && l.starts[s];
    assert !l.slots[s].Refused?;
    assert [EndLoop][1..] == [];
  }

  /** The eager run of a call whose last slot does not start, or one of whose slots is mute. */
  lemma {:induction false} EagerLeaks(l: Latch)
    requires Swept(l) && |l.starts| > 0 && (!l.starts[|l.starts| - 1] || AnyMute(l.starts, l.mute))
    requires AnyStarts(l.starts)
    ensures Leaks(l, Eager(l.starts, l.mute, l.next))
    decreases |l.slots| - l.next
  {
    if l.next == |l.slots| {
      EagerEnds(l);
    } else {
      assert AnyMute(l.starts, l.mute) && l.next == |l.slots| - 1 ==> Held(l, l.next + 1);
      EagerTurn(l);
      var m, reply := Step(l, StartNext), IndexReply(l.next, l.mute[l.next]);
      var rest := Eager(l.starts, l.mute, l.next + 1);
      if l.starts[l.next] {
        EagerLeaks(Step(m, reply));
        LeaksFromTwo(l, StartNext, reply, rest);
      } else {
        EagerLeaks(m);
        LeaksFrom(l, StartNext, rest);
      }
    }
  }

  lemma {:induction false} LeaksFromTwo(l: Latch, e: Event, f: Event, rest: seq<Event>)
    requires Enabled(l, e) && Enabled(Step(l, e), f) && Leaks(Step(Step(l, e), f), rest)
    ensures Leaks(l, [e, f] + rest)
  {
    LeaksFrom(Step(l, e), f, rest);
    LeaksFrom(l, e, [f] + rest);
    assert [e, f] + rest == [e] + ([f] + rest);
  }

  lemma {:induction false} LeaksFrom(l: Latch, e: Event, rest: seq<Event>)
    requires Enabled(l, e) && Leaks(Step(l, e), rest)
    ensures Leaks(l, [e] + rest)
  {
    assert ([e] + rest)[1..] == rest;
  }

  predicate AnyStarts(starts: seq<bool>) {
    exists s :: 0 <= s < |starts| && starts[s]
  }

  ghost predicate AlwaysFires(starts: seq<bool>, mute: seq<bool>) {
    forall run: seq<Event> :: IsRun(Init(starts, mute), run) && Complete(After(Init(starts, mute), run)) ==>
      After(Init(starts, mute), run).fired == 1
  }

  /** Of the calls that are accepted, those whose every complete run reaches the caller's
      callback are exactly the ones whose last slot starts and none of whose filters is
      mute. */
  lemma {:induction false} FiresExactlyWhenLastStarts(starts: seq<bool>, mute: seq<bool>)
    requires AnyStarts(starts) && |mute| == |starts|
    ensures AlwaysFires(starts, mute) <==> starts[|starts| - 1] && !AnyMute(starts, mute)
  {
    if starts[|starts| - 1] && !AnyMute(starts, mute) {
      forall run | IsRun(Init(starts, mute), run) && Complete(After(Init(starts, mute), run))
        ensures After(Init(starts, mute), run).fired == 1
      {
        LastStartFires(starts, mute, run);
      }
    } else {
      InitInv(starts, mute);
      EagerLeaks(Init(starts, mute));
      assert After(Init(starts, mute), Eager(starts, mute, 0)).fired == 0;
    }
  }
}
