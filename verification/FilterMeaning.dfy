/** What a filter step of a path says, in terms of the property it names and the text that was
    written: numbers as numbers, texts in their order, the constants by their names. */
module FilterMeaning {
  import opened Wrappers
  import opened Json
  import opened RedPath
  import opened Evaluate
  import opened FilterPartition
  import opened StepMeaning
  import CNumbers
  import DottedLookup

  // ------------------------------------------------------------- the order of texts

  /** `a` comes before `b`: at the first place where they part it has ended or holds the
      smaller character. */
  predicate Precedes(a: string, b: string) {
    exists k :: 0 <= k <= |a| && k < |b| && PartAt(a, b, k) && (k < |a| ==> a[k] < b[k])
  }

  predicate PartAt(a: string, b: string, k: nat) {
    k <= |a| && k <= |b| && a[..k] == b[..k]
  }

  lemma {:induction false} CommonHead(a: string, b: string, k: nat)
    requires a != [] && b != [] && a[0] == b[0] && 0 < k <= |a| && k <= |b|
    ensures a[..k] == b[..k] <==> a[1..][..k - 1] == b[1..][..k - 1]
  {
    assert a[..k] == [a[0]] + a[1..][..k - 1] && b[..k] == [b[0]] + b[1..][..k - 1];
  }

  lemma {:induction false} PrecedesTail(a: string, b: string)
    requires a != [] && b != [] && a[0] == b[0]
    ensures Precedes(a, b) <==> Precedes(a[1..], b[1..])
  {
    if Precedes(a, b) {
      var k :| 0 <= k <= |a| && k < |b| && PartAt(a, b, k) && (k < |a| ==> a[k] < b[k]);
      assert k > 0;
      CommonHead(a, b, k);
      assert PartAt(a[1..], b[1..], k - 1);
    }
    if Precedes(a[1..], b[1..]) {
      var k :| 0 <= k <= |a[1..]| && k < |b[1..]| && PartAt(a[1..], b[1..], k) && (k < |a[1..]| ==> a[1..][k] < b[1..][k]);
      CommonHead(a, b, k + 1);
      assert PartAt(a, b, k + 1);
    }
  }

  /** The comparison of the C library is this order. */
  lemma {:induction false} StrCmpIsTheOrder(a: string, b: string)
    ensures StrCmp(a, b) < 0 <==> Precedes(a, b)
    ensures StrCmp(a, b) == 0 <==> a == b
    ensures StrCmp(a, b) > 0 <==> Precedes(b, a)
    decreases |a|
  {
    if a != [] && b != [] && a[0] == b[0] {
      StrCmpIsTheOrder(a[1..], b[1..]);
      PrecedesTail(a, b);
      PrecedesTail(b, a);
      assert a == [a[0]] + a[1..] && b == [b[0]] + b[1..];
    } else {
      assert PartAt(a, b, 0) && PartAt(b, a, 0);
      PartsAtOnce(a, b);
      PartsAtOnce(b, a);
    }
  }

  lemma {:induction false} PartsAtOnce(a: string, b: string)
    requires a == [] || b == [] || a[0] != b[0]
    ensures Precedes(a, b) <==> b != [] && (a == [] || a[0] < b[0])
  {
    forall k | 0 < k <= |a| && k <= |b| ensures !PartAt(a, b, k) {
      assert a[..k][0] == a[0] && b[..k][0] == b[0];
    }
    if b != [] && (a == [] || a[0] < b[0]) {
      assert PartAt(a, b, 0);
    }
  }

  // -------------------------------------------------------------------- the answer

  /** The requests that resolving a property costs: one when it is a link. */
  function Cost(payload: Json, prop: string): nat {
    var value := DottedLookup.ByPath(Some(payload), prop);
    if value.Some? && LinkOf(value.value).Some? then 1 else 0
  }

  /** The payload itself, or nothing. */
  predicate Keeps(answer: Eval, payload: Json, prop: string, keep: bool) {
    answer == Value(if keep then Some(payload) else None, Cost(payload, prop))
  }

  lemma {:induction false} AnswerIs(store: Store, payload: Json, step: Step, fuel: nat)
    requires !step.Name? && !step.Index?
    ensures Answer(store, payload, step, fuel) == OpResult(store, Some(payload), FilterOf(step), fuel)
  {
    assert [step][0] == step;
  }

  /** A payload that is neither a collection nor an array and resolves the property. */
  predicate Resolves(store: Store, payload: Json, prop: string, value: Json) {
    !IsCollection(payload) && !payload.Arr? && Resolved(store, payload, prop) == Some(value)
  }

  lemma {:induction false} PlainAnswer(store: Store, payload: Json, prop: string, value: Json, op: Op, text: string, fuel: nat)
    requires Resolves(store, payload, prop, value) && fuel > 0
    ensures Keeps(Answer(store, payload, Compare(prop, op, text), fuel), payload, prop, Passes(Wrap(prop, value), Comparison(prop, op, text)))
  {
    AnswerIs(store, payload, Compare(prop, op, text), fuel);
    UndefinedIff(Wrap(prop, value), prop, op, text);
  }

  // ------------------------------------------------------------- one type at a time

  /** The text of a number, negative ones with a minus sign. */
  function Written(n: int): string {
    if n < 0 then "-" + CNumbers.Decimal(-n) else CNumbers.Decimal(n)
  }

  lemma {:induction false} WrittenScans(n: int)
    requires -0x8000_0000_0000_0000 <= n < 0x8000_0000_0000_0000
    ensures CNumbers.StrToLl(Written(n)) == n
  {
    if n < 0 {
      CNumbers.NegativeScans(-n);
    } else {
      CNumbers.DecimalScans(n);
    }
  }

  /** A comparison of two numbers, one line for each operator. */
  ghost predicate ComparesNumbers(store: Store, payload: Json, prop: string, text: string, i: int, n: int, fuel: nat) {
    && Keeps(Answer(store, payload, Compare(prop, Equal, text), fuel), payload, prop, i == n)
    && Keeps(Answer(store, payload, Compare(prop, NotEqual, text), fuel), payload, prop, i != n)
    && Keeps(Answer(store, payload, Compare(prop, Less, text), fuel), payload, prop, i < n)
    && Keeps(Answer(store, payload, Compare(prop, Greater, text), fuel), payload, prop, i > n)
    && Keeps(Answer(store, payload, Compare(prop, LessEqual, text), fuel), payload, prop, i <= n)
    && Keeps(Answer(store, payload, Compare(prop, GreaterEqual, text), fuel), payload, prop, i >= n)
  }

  lemma {:induction false} NumbersCompared(store: Store, payload: Json, prop: string, text: string, i: int, n: int, fuel: nat)
    requires Resolves(store, payload, prop, Int(i)) && fuel > 0 && CNumbers.StrToLl(text) == n
    ensures ComparesNumbers(store, payload, prop, text, i, n, fuel)
  {
    forall op: Op ensures Keeps(Answer(store, payload, Compare(prop, op, text), fuel), payload, prop, IntCompare(i, n, Compares(op))) {
      PlainAnswer(store, payload, prop, Int(i), op, text, fuel);
    }
  }

  /** An integer property is compared with the number that was written. */
  lemma {:induction false} IntegerFilters(store: Store, payload: Json, prop: string, i: int, n: int, fuel: nat)
    requires Resolves(store, payload, prop, Int(i)) && fuel > 0
    requires -0x8000_0000_0000_0000 <= n < 0x8000_0000_0000_0000
    ensures ComparesNumbers(store, payload, prop, Written(n), i, n, fuel)
  {
    var text := Written(n);
    WrittenScans(n);
    NumbersCompared(store, payload, prop, text, i, n, fuel);
  }

  /** A comparison of two texts, one line for each operator. */
  ghost predicate ComparesTexts(store: Store, payload: Json, prop: string, text: string, left: string, right: string, fuel: nat) {
    && Keeps(Answer(store, payload, Compare(prop, Equal, text), fuel), payload, prop, left == right)
    && Keeps(Answer(store, payload, Compare(prop, NotEqual, text), fuel), payload, prop, left != right)
    && Keeps(Answer(store, payload, Compare(prop, Less, text), fuel), payload, prop, Precedes(left, right))
    && Keeps(Answer(store, payload, Compare(prop, Greater, text), fuel), payload, prop, Precedes(right, left))
    && Keeps(Answer(store, payload, Compare(prop, LessEqual, text), fuel), payload, prop, left == right || Precedes(left, right))
    && Keeps(Answer(store, payload, Compare(prop, GreaterEqual, text), fuel), payload, prop, left == right || Precedes(right, left))
  }

  lemma {:induction false} TextsCompared(store: Store, payload: Json, prop: string, value: Json, text: string, left: string, right: string, fuel: nat)
    requires Resolves(store, payload, prop, value) && fuel > 0
    requires forall op: Op :: Passes(Wrap(prop, value), Comparison(prop, op, text)) == IntCompare(StrCmp(left, right), 0, Compares(op))
    ensures ComparesTexts(store, payload, prop, text, left, right, fuel)
  {
    StrCmpIsTheOrder(left, right);
    forall op: Op ensures Keeps(Answer(store, payload, Compare(prop, op, text), fuel), payload, prop, IntCompare(StrCmp(left, right), 0, Compares(op))) {
      PlainAnswer(store, payload, prop, value, op, text, fuel);
    }
  }

  /** A text property is compared with the text that was written. */
  lemma {:induction false} TextFilters(store: Store, payload: Json, prop: string, s: string, text: string, fuel: nat)
    requires Resolves(store, payload, prop, Str(s)) && fuel > 0
    ensures ComparesTexts(store, payload, prop, text, s, text, fuel)
  {
    assert Get(Some(Wrap(prop, Str(s))), prop) == Some(Str(s));
    TextsCompared(store, payload, prop, Str(s), text, s, text, fuel);
  }

  /** So is an object by its own member of that name, if that is a text. */
  lemma {:induction false} ObjectFilters(store: Store, payload: Json, prop: string, value: Json, text: string, op: Op, fuel: nat)
    requires Resolves(store, payload, prop, value) && value.Obj? && fuel > 0
    ensures var inner := Get(Some(value), prop);
            if inner.Some? && inner.value.Str? then ComparesTexts(store, payload, prop, text, inner.value.s, text, fuel)
            else Keeps(Answer(store, payload, Compare(prop, op, text), fuel), payload, prop, false)
  {
    var inner := Get(Some(value), prop);
    if inner.Some? && inner.value.Str? {
      TextsCompared(store, payload, prop, value, text, inner.value.s, text, fuel);
    } else {
      PlainAnswer(store, payload, prop, value, op, text, fuel);
    }
  }

  /** The constants go the other way round: the text that was written is compared with the
      name of the constant, so it is the text that comes before or behind. */
  lemma {:induction false} ConstantFilters(store: Store, payload: Json, prop: string, text: string, fuel: nat)
    requires fuel > 0
    ensures Resolves(store, payload, prop, Bool(true)) ==> ComparesTexts(store, payload, prop, text, text, "true", fuel)
    ensures Resolves(store, payload, prop, Bool(false)) ==> ComparesTexts(store, payload, prop, text, text, "false", fuel)
    ensures Resolves(store, payload, prop, Null) ==> ComparesTexts(store, payload, prop, text, text, "null", fuel)
  {
    if Resolves(store, payload, prop, Bool(true)) {
      TextsCompared(store, payload, prop, Bool(true), text, text, "true", fuel);
    } else if Resolves(store, payload, prop, Bool(false)) {
      TextsCompared(store, payload, prop, Bool(false), text, text, "false", fuel);
    } else if Resolves(store, payload, prop, Null) {
      TextsCompared(store, payload, prop, Null, text, text, "null", fuel);
    }
  }

  /** Nothing is kept where there is nothing to compare: the property is not there, or is an
      array or a real number. */
  lemma {:induction false} NothingToCompare(store: Store, payload: Json, prop: string, op: Op, text: string, fuel: nat)
    requires !IsCollection(payload) && !payload.Arr? && fuel > 0
    requires var value := Resolved(store, payload, prop); value.None? || value.value.Arr? || value.value.Real?
    ensures Keeps(Answer(store, payload, Compare(prop, op, text), fuel), payload, prop, false)
  {
    AnswerIs(store, payload, Compare(prop, op, text), fuel);
  }

  /** The existence test keeps objects and texts, and has no answer for integers. */
  lemma {:induction false} ExistenceFilter(store: Store, payload: Json, prop: string, fuel: nat)
    requires !IsCollection(payload) && !payload.Arr? && fuel > 0
    ensures var answer, value := Answer(store, payload, Exists(prop), fuel), Resolved(store, payload, prop);
            if value.Some? && value.value.Int? then answer.Diverges?
            else Keeps(answer, payload, prop, value.Some? && (value.value.Obj? || value.value.Str?))
  {
    AnswerIs(store, payload, Exists(prop), fuel);
    ExistsIffObjectOrString(store, payload, prop, fuel);
  }

  /** A malformed operator keeps nothing, and so do `[*]`, `[last()]` and a root on the way, for
      which no property is named. */
  lemma {:induction false} OtherFilters(store: Store, payload: Json, prop: string, version: Option<string>, fuel: nat)
    requires !IsCollection(payload) && !payload.Arr? && fuel > 0
    ensures var answer := Answer(store, payload, Malformed(prop), fuel); answer.Value? ==> answer.found.None?
    ensures Answer(store, payload, Any, fuel) == Value(None, 0)
    ensures Answer(store, payload, Last, fuel) == Value(None, 0)
    ensures Answer(store, payload, Root(version), fuel) == Value(None, 0)
  {
    AnswerIs(store, payload, Malformed(prop), fuel);
    AnswerIs(store, payload, Any, fuel);
    AnswerIs(store, payload, Last, fuel);
    AnswerIs(store, payload, Root(version), fuel);
  }
}
