/** C string helpers: single-character scanning and `getStringTill`. */
module Text {
  import opened Wrappers

  /** `strcspn(s, c)`: length of the longest prefix without `c`. */
  function Until(s: string, c: char): (n: nat)
    ensures n <= |s|
    ensures c !in s[..n]
    ensures n < |s| ==> s[n] == c
  {
    if s == [] || s[0] == c then 0 else 1 + Until(s[1..], c)
  }

  /** `strspn(s, c)`: length of the longest prefix made of `c` only. */
  function While(s: string, c: char): (n: nat)
    ensures n <= |s|
    ensures forall i :: 0 <= i < n ==> s[i] == c
    ensures n < |s| ==> s[n] != c
  {
    if s == [] || s[0] != c then 0 else 1 + While(s[1..], c)
  }

  /** The text before the first `c`, and the suffix starting at that `c` when there is one. */
  function GetStringTill(s: string, c: char): (r: (string, Option<string>))
    ensures c !in r.0
    ensures r.1.Some? ==> r.1.value != [] && r.1.value[0] == c && s == r.0 + r.1.value
    ensures r.1.None? ==> s == r.0
  {
    var n := Until(s, c);
    if n < |s| then (s[..n], Some(s[n..])) else (s, None)
  }

  /** A text without `c` that is followed by `c`, or by nothing, is cut off exactly there. */
  lemma UntilStops(token: string, rest: string, c: char)
    requires c !in token
    requires rest != [] ==> rest[0] == c
    ensures Until(token + rest, c) == |token|
  {
    if token == [] {
      assert token + rest == rest;
    } else {
      assert (token + rest)[1..] == token[1..] + rest;
      UntilStops(token[1..], rest, c);
    }
  }

  lemma TillStops(token: string, rest: string, c: char)
    requires c !in token
    requires rest != [] ==> rest[0] == c
    ensures GetStringTill(token + rest, c) == (token, if rest == [] then None else Some(rest))
  {
    UntilStops(token, rest, c);
    if rest == [] {
      assert token + rest == token;
    }
  }
}
