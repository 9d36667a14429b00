/** From query text to answer: the concatenation law of the parser and the composition law of
    the evaluator together. */
module Queries {
  import opened Wrappers
  import opened Json
  import opened RedPath
  import opened RedPathLaws
  import opened Evaluate

  /** `getPayloadForPathString`. A text that parses to nothing has no answer. */
  function Query(store: Store, payload: Option<Json>, text: string, fuel: nat): Eval
  {
    EvalPath(store, payload, Parse(text), fuel)
  }

  /** Querying with two relative texts glued by a slash is querying with the first and then,
      on what it found, with the second; the requests add up. */
  lemma {:induction false} GluedQuery(store: Store, payload: Option<Json>, text: string, more: string, fuel: nat)
    requires text != [] && !EndsInSlash(text) && more != []
    ensures var first := Query(store, payload, text, fuel);
            Query(store, payload, text + ("/" + more), fuel) ==
              if first.Diverges? then Diverges else Add(first.gets, Query(store, first.found, more, fuel))
  {
    ConcatLaw(text, more);
    ParsesToSomething(text);
    ParsesToSomething(more);
    PathsCompose(store, payload, Parse(text), Parse(more), fuel);
  }

  /** Querying with the printed text of a path is evaluating the path, and every path the
      parser can produce is queried that way. */
  lemma {:induction false} PrintedQuery(store: Store, payload: Option<Json>, path: Path, text: string, fuel: nat)
    ensures Canonical(path) ==> Query(store, payload, Print(path), fuel) == EvalPath(store, payload, path, fuel)
    ensures Query(store, payload, text, fuel) == Query(store, payload, Print(Parse(text)), fuel)
  {
    if Canonical(path) {
      RoundTrip(path);
    }
    NormalForm(text);
  }

  lemma {:induction false} ParsesToSomething(text: string)
    requires text != []
    ensures Parse(text) != []
  {
  }
}
