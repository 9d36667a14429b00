/** Dotted property names: the span-scanning loop of the blocking evaluator and the
    recursion of the callback-driven one, both compared with one left fold. */
module DottedLookup {
  import opened Wrappers
  import opened Json
  import opened Text

  /** The pieces of `path` between its dots, empty ones included. */
  function Segments(path: string): (segments: seq<string>)
    ensures segments != []
    decreases |path|
  {
    var n := Until(path, '.');
    if n < |path| then [path[..n]] + Segments(path[n + 1..]) else [path]
  }

  function DropEmpty(segments: seq<string>): seq<string> {
    if segments == [] then []
    else if segments[0] == "" then DropEmpty(segments[1..])
    else [segments[0]] + DropEmpty(segments[1..])
  }

  function Fold(json: Option<Json>, segments: seq<string>): Option<Json>
    decreases |segments|
  {
    if segments == [] then json else Fold(Get(json, segments[0]), segments[1..])
  }

  /** What `json_object_get_by_path` returns. */
  function ByPath(json: Option<Json>, path: string): Option<Json> {
    if '.' in path then Fold(json, DropEmpty(Segments(path))) else Get(json, path)
  }

  /** `getEmbeddedJsonField`: recursion on the text after the first dot. */
  function Embedded(json: Option<Json>, name: string): Option<Json>
    decreases |name|
  {
    var (key, end) := GetStringTill(name, '.');
    var found := Get(json, key);
    if end.Some? then Embedded(found, end.value[1..]) else found
  }

  predicate HasEmptySegment(path: string) {
    "" in Segments(path)
  }

  // ---------------------------------------------------------------- the loop

  lemma FoldFromNothing(segments: seq<string>)
    ensures Fold(None, segments) == None
  {
  }

  lemma LeadingDotAddsEmptySegment(path: string)
    requires path != [] && path[0] == '.'
    ensures Segments(path) == [""] + Segments(path[1..])
  {
    assert Until(path, '.') == 0;
    assert path[..0] == "";
  }

  lemma LeadingDotsDoNotMatter(path: string, n: nat)
    requires n <= |path| && forall i :: 0 <= i < n ==> path[i] == '.'
    ensures DropEmpty(Segments(path)) == DropEmpty(Segments(path[n..]))
  {
    if n == 0 {
      assert path[0..] == path;
    } else {
      LeadingDotAddsEmptySegment(path);
      assert path[1..][n - 1..] == path[n..];
      LeadingDotsDoNotMatter(path[1..], n - 1);
    }
  }

  lemma FirstSegment(path: string)
    requires path != [] && path[0] != '.'
    ensures var n := Until(path, '.');
            n > 0 && DropEmpty(Segments(path)) == [path[..n]] + DropEmpty(Segments(path[n..]))
  {
    var n := Until(path, '.');
    assert path[..n] != "";
    if n < |path| {
      LeadingDotAddsEmptySegment(path[n..]);
      assert path[n..][1..] == path[n + 1..];
      assert Segments(path)[1..] == Segments(path[n + 1..]);
    } else {
      assert path[..n] == path && path[n..] == "";
      assert Segments(path) == [path];
      assert Segments("") == [""];
    }
  }

  /** One turn of the loop: skip the dots, take one segment. */
  lemma LoopTurn(out: Option<Json>, rest: string)
    ensures var key := rest[While(rest, '.')..];
            var length := Until(key, '.');
            Fold(out, DropEmpty(Segments(rest))) ==
            if length == 0 then out else Fold(Get(out, key[..length]), DropEmpty(Segments(key[length..])))
  {
    var key := rest[While(rest, '.')..];
    var length := Until(key, '.');
    LeadingDotsDoNotMatter(rest, While(rest, '.'));
    if length > 0 {
      FirstSegment(key);
      var later := DropEmpty(Segments(key[length..]));
      assert ([key[..length]] + later)[1..] == later;
    } else {
      assert key == "" && Segments("") == [""];
    }
  }

  /** The loop with its moving `string_t` cursor ends on every path and computes the fold
      of single-key lookups over the non-empty segments. */
  method JsonObjectGetByPath(root: Option<Json>, path: string) returns (out: Option<Json>)
    ensures out == ByPath(root, path)
  {
    if '.' !in path {
      return Get(root, path);
    }
    out := root;
    var rest := path;
    while true
      invariant Fold(root, DropEmpty(Segments(path))) == Fold(out, DropEmpty(Segments(rest)))
      decreases |rest|
    {
      LoopTurn(out, rest);
      var key := rest[While(rest, '.')..];
      var length := Until(key, '.');
      if length == 0 {
        return;
      }
      out := Get(out, key[..length]);
      rest := key[length..];
      if out.None? {
        FoldFromNothing(DropEmpty(Segments(rest)));
        return;
      }
    }
  }

  // ------------------------------------------------------------ the recursion

  lemma {:induction false} EmbeddedIsFold(json: Option<Json>, name: string)
    ensures Embedded(json, name) == Fold(json, Segments(name))
    decreases |name|
  {
    var n := Until(name, '.');
    if n < |name| {
      assert name[n..][1..] == name[n + 1..];
      assert Segments(name)[1..] == Segments(name[n + 1..]);
      EmbeddedIsFold(Get(json, name[..n]), name[n + 1..]);
    } else {
      assert Segments(name) == [name];
      assert Fold(json, [name]) == Fold(Get(json, name), []);
    }
  }

  lemma DropEmptyIsIdentity(segments: seq<string>)
    requires "" !in segments
    ensures DropEmpty(segments) == segments
  {
    if segments != [] {
      assert segments == [segments[0]] + segments[1..];
    }
  }

  lemma NoDotOneSegment(path: string)
    requires '.' !in path
    ensures Segments(path) == [path]
  {
    UntilStops(path, "", '.');
    assert path + "" == path;
  }

  /** A chain of one-member objects along `segments`, ending in `null`. */
  function Nest(segments: seq<string>): Json {
    if segments == [] then Null else Obj([Member(segments[0], Nest(segments[1..]))])
  }

  lemma {:induction false} NestIsFound(segments: seq<string>)
    ensures Fold(Some(Nest(segments)), segments) == Some(Null)
  {
    if segments != [] {
      assert Nest(segments).members[0] == Member(segments[0], Nest(segments[1..]));
      NestIsFound(segments[1..]);
    }
  }

  lemma {:induction false} EmptyKeyIsMissed(segments: seq<string>)
    requires "" in segments
    ensures Fold(Some(Nest(DropEmpty(segments))), segments).None?
  {
    var kept := DropEmpty(segments);
    if segments[0] == "" {
      assert Get(Some(Nest(kept)), "").None? by {
        DropEmptyHasNone(segments);
        if kept != [] {
          assert kept[0] in kept;
          assert Find(Nest(kept).members[1..], "").None?;
        }
      }
      FoldFromNothing(segments[1..]);
    } else {
      assert Get(Some(Nest(kept)), segments[0]) == Some(Nest(kept[1..]));
      assert kept[1..] == DropEmpty(segments[1..]);
      assert "" in segments[1..];
      EmptyKeyIsMissed(segments[1..]);
    }
  }

  lemma DropEmptyHasNone(segments: seq<string>)
    ensures "" !in DropEmpty(segments)
  {
  }

  /** The loop and the recursion answer alike on every JSON value exactly when the name has
      no dot at all or no empty segment. */
  lemma LookupsAgreeIff(path: string)
    ensures (forall json: Option<Json> :: ByPath(json, path) == Embedded(json, path))
       <==> ('.' !in path || !HasEmptySegment(path))
  {
    var segments := Segments(path);
    forall json: Option<Json> ensures Embedded(json, path) == Fold(json, segments) {
      EmbeddedIsFold(json, path);
    }
    if '.' !in path {
      NoDotOneSegment(path);
      forall json: Option<Json> ensures ByPath(json, path) == Embedded(json, path) {
        assert Fold(json, [path]) == Fold(Get(json, path), []);
      }
    } else if !HasEmptySegment(path) {
      DropEmptyIsIdentity(segments);
    } else {
      var nested := Some(Nest(DropEmpty(segments)));
      NestIsFound(DropEmpty(segments));
      EmptyKeyIsMissed(segments);
      assert ByPath(nested, path) != Embedded(nested, path);
    }
  }
}
