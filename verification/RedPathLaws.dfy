/** Laws of the RedPath parser over every input text: which chains it can produce, and how
    it treats a text that is glued together with a slash. */
module RedPathLaws {
  import opened Wrappers
  import opened Text
  import opened RedPath
  import CNumbers

  // ---------------------------------------------------- what the parser produces

  lemma SliceWithout(s: string, n: nat, c: char)
    requires n <= |s| && Without(s, c)
    ensures Without(s[..n], c) && Without(s[n..], c)
  {
  }

  lemma UntilOpOfPrefix(s: string)
    ensures UntilOp(s[..UntilOp(s)]) == UntilOp(s)
  {
    UntilOpOfPlain(s[..UntilOp(s)]);
  }

  lemma PropertyIsGood(text: string)
    requires BracketText(text) && !CNumbers.Converts(text)
    ensures PropertyText(text[..UntilOp(text)])
  {
    var n := UntilOp(text);
    assert text == text[..n] + text[n..];
    UntilOpOfPrefix(text);
    CNumbers.ConversionIsDecidedEarly(text[..n], text[n..]);
    SliceWithout(text, n, '/');
    SliceWithout(text, n, ']');
  }

  lemma OperationIsGood(prop: string, rest: string)
    requires PropertyText(prop) && BracketText(rest)
    requires rest != [] && IsOpChar(rest[0])
    ensures IsBracket(ParseOperation(prop, rest)) && GoodBracket(ParseOperation(prop, rest))
  {
    SliceWithout(rest, 1, '/');
    SliceWithout(rest, 1, ']');
    if |rest| > 1 {
      SliceWithout(rest, 2, '/');
      SliceWithout(rest, 2, ']');
    }
  }

  lemma BracketIsGood(text: string)
    requires BracketText(text)
    ensures IsBracket(ParseBracket(text)) && GoodBracket(ParseBracket(text))
  {
    var n := UntilOp(text);
    if !CNumbers.Converts(text) && n < |text| {
      PropertyIsGood(text);
      SliceWithout(text, n, '/');
      SliceWithout(text, n, ']');
      OperationIsGood(text[..n], text[n..]);
    }
  }

  /** A parsed segment in front of a canonical chain is canonical. */
  lemma SegmentIsCanonical(text: string, rest: Path)
    requires text != [] && Without(text, '/') && Canonical(rest)
    ensures Canonical(ParseSegment(text) + rest)
  {
    var (name, bracket) := GetStringTill(text, '[');
    var path := ParseSegment(text) + rest;
    if name == "*" {
      assert path[1..] == rest;
    } else if bracket.None? {
      assert path[1..] == rest;
      if SegmentSize(path) == 2 {
        assert path[2..] == rest[1..];
      }
    } else {
      var inner := GetStringTill(bracket.value[1..], ']').0;
      assert forall c :: c in inner ==> c in text by {
        assert forall c :: c in bracket.value[1..] ==> c in text;
        assert forall c :: c in inner ==> c in bracket.value[1..];
      }
      BracketIsGood(inner);
      assert path[2..] == rest;
    }
  }

  lemma HeadOfParse(text: string)
    requires Parse(text) != [] && Parse(text)[0].Name? && Parse(text)[0].name != ""
    ensures text != [] && Parse(text)[0].name[0] == text[0]
  {
  }

  /** Every chain the parser returns is canonical. */
  lemma {:induction false} ParseIsCanonical(text: string)
    ensures Canonical(Parse(text))
    decreases |text|
  {
    if text == [] {
    } else if PlainRoot(text) {
      ParseIsCanonical(text[1..]);
      var rest := Parse(text[1..]);
      assert Parse(text)[1..] == rest;
      if rest != [] && rest[0].Name? && rest[0].name != "" {
        HeadOfParse(text[1..]);
      }
    } else {
      var cut := CutOf(text);
      CutOfIsWhole(text);
      ParseIsCanonical(cut.Tail());
      if cut.root {
        assert Parse(text)[1..] == Parse(cut.Tail());
      } else {
        SegmentIsCanonical(cut.token, Parse(cut.Tail()));
      }
    }
  }

  /** The canonical chains are exactly the chains some text parses to, and printing picks a
      text for each of them: the round trip needs no stronger condition. */
  lemma ParseIsOntoCanonical(path: Path)
    ensures Canonical(path) <==> exists text :: Parse(text) == path
  {
    if Canonical(path) {
      RoundTrip(path);
    }
    if text :| Parse(text) == path {
      ParseIsCanonical(text);
    }
  }

  /** Reparsing the canonical text of whatever was parsed changes nothing. */
  lemma NormalForm(text: string)
    ensures Parse(Print(Parse(text))) == Parse(text)
  {
    ParseIsCanonical(text);
    RoundTrip(Parse(text));
  }

  // ------------------------------------------------------------- concatenation

  predicate EndsInSlash(text: string) {
    text != [] && text[|text| - 1] == '/'
  }

  /** The cut of `cut.Text() + more` when `more` starts with a slash. */
  function Followed(cut: Cut, more: string): Cut {
    Cut(cut.root, cut.token, cut.rest + more)
  }

  lemma FollowedText(cut: Cut, more: string)
    ensures Followed(cut, more).Text() == cut.Text() + more
    ensures cut.rest == [] && more != [] ==> Followed(cut, more).Tail() == more[1..]
    ensures cut.rest != [] ==> Followed(cut, more).Tail() == cut.Tail() + more
  {
  }

  lemma ThreeParts(a: Path, b: Path, c: Path)
    ensures a + (b + c) == a + b + c
  {
  }

  lemma TailKeepsEnd(cut: Cut)
    requires cut.Valid()
    ensures |cut.Tail()| < |cut.Text()|
    ensures EndsInSlash(cut.Text()) <==> cut.rest != [] && (cut.Tail() == [] || EndsInSlash(cut.Tail()))
  {
    var text := cut.Text();
    if cut.rest != [] {
      assert text[|text| - 1] == cut.rest[|cut.rest| - 1];
    } else {
      assert text[|text| - 1] == cut.token[|cut.token| - 1];
    }
  }

  /** Two cuts with the same token: what holds of their tails holds of the texts. */
  lemma SameToken(cut: Cut, glued: Cut, later: Path)
    requires cut.Valid() && glued.Valid() && cut.root == glued.root && cut.token == glued.token
    requires Parse(glued.Tail()) == Parse(cut.Tail()) + later
    ensures Parse(glued.Text()) == Parse(cut.Text()) + later
  {
    ParseOfCut(cut);
    ParseOfCut(glued);
    ThreeParts(cut.Steps(), Parse(cut.Tail()), later);
  }

  lemma SamePlainRoot(text: string, glued: string, later: Path)
    requires PlainRoot(text) && PlainRoot(glued)
    requires Parse(glued[1..]) == Parse(text[1..]) + later
    ensures Parse(glued) == Parse(text) + later
  {
    ThreeParts([Root(None)], Parse(text[1..]), later);
  }

  lemma PlainRootFollowed(text: string, more: string)
    requires PlainRoot(text) && (|text| == 1 ==> more == [] || more[0] != 'v')
    ensures PlainRoot(text + more) && (text + more)[1..] == text[1..] + more
  {
  }

  lemma {:induction false} ConcatLaw(text: string, more: string)
    requires text != [] && !EndsInSlash(text)
    ensures Parse(text + ("/" + more)) == Parse(text) + Parse(more)
    decreases |text|
  {
    var slashed := "/" + more;
    if PlainRoot(text) {
      ConcatLaw(text[1..], more);
      PlainRootFollowed(text, slashed);
      SamePlainRoot(text, text + slashed, Parse(more));
    } else {
      var cut := CutOf(text);
      CutOfIsWhole(text);
      FollowedText(cut, slashed);
      if cut.rest != [] {
        TailKeepsEnd(cut);
        ConcatLaw(cut.Tail(), more);
      } else {
        assert Followed(cut, slashed).Tail() == more;
        assert Parse(cut.Tail()) + Parse(more) == Parse(more);
      }
      SameToken(cut, Followed(cut, slashed), Parse(more));
    }
  }

  /** A slash after a slash, or at the very start, is read as another root. */
  lemma {:induction false} ExtraSlashIsARoot(text: string)
    requires text == [] || EndsInSlash(text)
    ensures Parse(text + "/") == Parse(text) + [Root(None)]
    decreases |text|
  {
    if text == [] {
      assert text + "/" == "/" && "/"[1..] == "";
    } else if PlainRoot(text) {
      ExtraSlashIsARoot(text[1..]);
      PlainRootFollowed(text, "/");
      SamePlainRoot(text, text + "/", [Root(None)]);
    } else {
      var cut := CutOf(text);
      CutOfIsWhole(text);
      FollowedText(cut, "/");
      TailKeepsEnd(cut);
      ExtraSlashIsARoot(cut.Tail());
      SameToken(cut, Followed(cut, "/"), [Root(None)]);
    }
  }

  /** Gluing with a slash splits into the two parses, whatever comes second, exactly when
      the first text is not empty and does not itself end in a slash. */
  lemma ConcatLawIff(text: string)
    ensures (forall more :: Parse(text + ("/" + more)) == Parse(text) + Parse(more))
       <==> (text != [] && !EndsInSlash(text))
  {
    if text != [] && !EndsInSlash(text) {
      forall more ensures Parse(text + ("/" + more)) == Parse(text) + Parse(more) {
        ConcatLaw(text, more);
      }
    } else {
      ExtraSlashIsARoot(text);
      assert "/" + "" == "/";
      assert Parse(text + ("/" + "")) != Parse(text) + Parse("");
    }
  }
}
