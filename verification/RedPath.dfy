/** The RedPath language: what the parser makes of a text, the canonical text of a parsed
    path, and the laws between the two. */
module RedPath {
  import opened Wrappers
  import opened Text
  import CNumbers

  datatype Op = Equal | NotEqual | Less | Greater | LessEqual | GreaterEqual

  /** One `redPathNode`. A chain of nodes is a sequence of steps; NULL is the empty one. */
  datatype Step =
    | Root(version: Option<string>)
    | Name(name: string)
    | Index(index: nat)
    | Compare(prop: string, op: Op, value: string)
    | Exists(prop: string)
    | Any
    | Last
    | Malformed(prop: string)  // `!` without `=`: REDPATH_OP_ERROR

  type Path = seq<Step>

  predicate IsOpChar(c: char) {
    c == '<' || c == '>' || c == '=' || c == '!'
  }

  /** Position of the first operator character, or the length when there is none. */
  function UntilOp(s: string): (n: nat)
    ensures n <= |s|
    ensures forall i :: 0 <= i < n ==> !IsOpChar(s[i])
    ensures n < |s| ==> IsOpChar(s[n])
  {
    if s == [] || IsOpChar(s[0]) then 0 else 1 + UntilOp(s[1..])
  }

  function StartsWith(s: string, prefix: string): bool {
    |prefix| <= |s| && s[..|prefix|] == prefix
  }

  // ------------------------------------------------------------------ parsing

  /** The operator and value part of a bracket, `rest` starting at the operator character. */
  function ParseOperation(prop: string, rest: string): Step
    requires rest != [] && IsOpChar(rest[0])
  {
    var wide := |rest| > 1 && rest[1] == '=';
    match rest[0]
    case '=' => Compare(prop, Equal, rest[1..])
    case '<' => if wide then Compare(prop, LessEqual, rest[2..]) else Compare(prop, Less, rest[1..])
    case '>' => if wide then Compare(prop, GreaterEqual, rest[2..]) else Compare(prop, Greater, rest[1..])
    case _ => if wide then Compare(prop, NotEqual, rest[2..]) else Malformed(prop)
  }

  /** The text between the brackets. */
  function ParseBracket(text: string): Step {
    if CNumbers.Converts(text) then Index(CNumbers.StrToUll(text))
    else
      var n := UntilOp(text);
      if n < |text| then ParseOperation(text[..n], text[n..])
      else if text != [] && text[0] == '*' then Any
      else if StartsWith(text, "last()") then Last
      else Exists(text)
  }

  /** `parseNode`: one segment yields one node, or two when it has a bracket. */
  function ParseSegment(text: string): Path {
    var (name, bracket) := GetStringTill(text, '[');
    if name == "*" then [Any]
    else if bracket.None? then [Name(name)]
    else [Name(name), ParseBracket(GetStringTill(bracket.value[1..], ']').0)]
  }

  predicate Without(s: string, c: char) {
    c !in s
  }

  /** A leading slash that does not introduce a version. */
  predicate PlainRoot(path: string) {
    path != [] && path[0] == '/' && (|path| == 1 || path[1] != 'v')
  }

  /** Any other text: its first token, a version or a segment, and what follows it. */
  datatype Cut = Cut(root: bool, token: string, rest: string) {
    predicate Valid() {
      && Without(token, '/') && token != []
      && (root ==> token[0] == 'v')
      && (rest != [] ==> rest[0] == '/')
    }

    function Text(): string {
      (if root then "/" else "") + (token + rest)
    }

    /** The steps the token stands for. */
    function Steps(): (steps: Path)
      ensures steps != []
    {
      if root then [Root(Some(token))] else ParseSegment(token)
    }

    /** Where parsing goes on: behind the slash that ended the token. */
    function Tail(): string {
      if rest == [] then [] else rest[1..]
    }
  }

  function CutOf(path: string): (cut: Cut)
    requires path != [] && !PlainRoot(path)
    ensures |cut.Tail()| < |path|
  {
    var root := path[0] == '/';
    var (token, rest) := GetStringTill(if root then path[1..] else path, '/');
    Cut(root, token, if rest.None? then "" else rest.value)
  }

  lemma {:induction false} CutOfIsWhole(path: string)
    requires path != [] && !PlainRoot(path)
    ensures CutOf(path).Valid() && CutOf(path).Text() == path
  {
    var root := path[0] == '/';
    var text := if root then path[1..] else path;
    var (token, rest) := GetStringTill(text, '/');
    assert text == token + if rest.None? then "" else rest.value;
    assert path == (if root then "/" else "") + text;
  }

  /** `parseRedPath`. Recursion on a shorter suffix, so it ends on every string. */
  function Parse(path: string): Path
    decreases |path|
  {
    if path == [] then []
    else if PlainRoot(path) then [Root(None)] + Parse(path[1..])
    else
      var cut := CutOf(path);
      cut.Steps() + Parse(cut.Tail())
  }

  // ----------------------------------------------------------------- printing

  function OpText(op: Op): string {
    match op
    case Equal => "="
    case NotEqual => "!="
    case Less => "<"
    case Greater => ">"
    case LessEqual => "<="
    case GreaterEqual => ">="
  }

  predicate IsBracket(step: Step) {
    !step.Root? && !step.Name?
  }

  function PrintBracket(step: Step): string
    requires IsBracket(step)
  {
    match step
    case Index(n) => CNumbers.Decimal(n)
    case Compare(prop, op, value) => prop + OpText(op) + value
    case Exists(prop) => prop
    case Any => "*"
    case Last => "last()"
    case Malformed(prop) => prop + "!"
  }

  /** The steps a segment starting at the head of `path` covers: a name takes a directly
      following bracket with it. */
  function SegmentSize(path: Path): (n: nat)
    requires path != []
    ensures 1 <= n <= |path| && n <= 2
  {
    if path[0].Name? && |path| > 1 && IsBracket(path[1]) then 2 else 1
  }

  function PrintSegment(path: Path): string
    requires path != [] && !path[0].Root?
  {
    if path[0].Name? then
      path[0].name + if SegmentSize(path) == 2 then "[" + PrintBracket(path[1]) + "]" else ""
    else PrintBracket(path[0])
  }

  /** Continue with a slash unless nothing is left. */
  function Joined(rest: string): string {
    if rest == [] then "" else "/" + rest
  }

  function Print(path: Path): string
    decreases |path|
  {
    if path == [] then ""
    else if path[0].Root? then
      if path[0].version.Some? then "/" + path[0].version.value + Joined(Print(path[1..]))
      else "/" + Print(path[1..])
    else PrintSegment(path) + Joined(Print(path[SegmentSize(path)..]))
  }

  // ----------------------------------------------------------- canonical paths

  predicate BracketText(s: string) {
    Without(s, '/') && Without(s, ']')
  }

  predicate PropertyText(s: string) {
    BracketText(s) && UntilOp(s) == |s| && !CNumbers.Converts(s)
  }

  predicate GoodBracket(step: Step)
    requires IsBracket(step)
  {
    match step
    case Index(n) => n < CNumbers.TWO_64
    case Compare(prop, op, value) =>
      PropertyText(prop) && BracketText(value) &&
      (op == Less || op == Greater ==> value == [] || value[0] != '=')
    case Exists(prop) =>
      PropertyText(prop) && (prop != [] ==> prop[0] != '*') && !StartsWith(prop, "last()")
    case Any => true
    case Last => true
    case Malformed(prop) => PropertyText(prop)
  }

  predicate GoodName(name: string, bracketed: bool) {
    Without(name, '/') && Without(name, '[') && name != "*" && (bracketed || name != "")
  }

  predicate GoodVersion(version: string) {
    Without(version, '/') && version != [] && version[0] == 'v'
  }

  /** The chains the parser can produce; see ParseIsOntoCanonical. */
  predicate Canonical(path: Path)
    decreases |path|
  {
    path == [] ||
    match path[0]
    case Root(None) =>
      Canonical(path[1..]) &&
      (|path| > 1 && path[1].Name? && path[1].name != "" ==> path[1].name[0] != 'v')
    case Root(Some(version)) => GoodVersion(version) && Canonical(path[1..])
    case Name(name) =>
      GoodName(name, SegmentSize(path) == 2) &&
      (SegmentSize(path) == 2 ==> GoodBracket(path[1])) &&
      Canonical(path[SegmentSize(path)..])
    case step => step.Any? && Canonical(path[1..])
  }

  // --------------------------------------------------------------- round trip

  lemma {:induction false} UntilOpStops(token: string, rest: string)
    requires UntilOp(token) == |token|
    requires rest != [] ==> IsOpChar(rest[0])
    ensures UntilOp(token + rest) == |token|
  {
    if token == [] {
      assert token + rest == rest;
    } else {
      assert (token + rest)[1..] == token[1..] + rest;
      UntilOpStops(token[1..], rest);
    }
  }

  lemma {:induction false} OperationReadsBack(prop: string, rest: string)
    requires PropertyText(prop)
    requires rest != [] && IsOpChar(rest[0])
    ensures ParseBracket(prop + rest) == ParseOperation(prop, rest)
  {
    UntilOpStops(prop, rest);
    CNumbers.ConversionIsDecidedEarly(prop, rest);
    assert (prop + rest)[..|prop|] == prop && (prop + rest)[|prop|..] == rest;
  }

  /** A text without an operator character names a property that has to exist, unless it is a
      number, begins with a star, or begins with last(). */
  lemma {:induction false} BracketWithoutOperator(text: string)
    requires '<' !in text && '>' !in text && '=' !in text && '!' !in text
    ensures ParseBracket(text) ==
            if CNumbers.Converts(text) then Index(CNumbers.StrToUll(text))
            else if |text| > 0 && text[0] == '*' then Any
            else if |text| >= 6 && text[..6] == "last()" then Last
            else Exists(text)
  {
    forall i | 0 <= i < |text| ensures !IsOpChar(text[i]) {
      assert text[i] in text;
    }
    UntilOpOfPlain(text);
  }

  /** At the first operator character it is cut into property, operator and value. */
  lemma {:induction false} BracketWithOperator(prop: string, value: string)
    requires '<' !in prop && '>' !in prop && '=' !in prop && '!' !in prop && !CNumbers.Converts(prop)
    ensures ParseBracket(prop + ("=" + value)) == Compare(prop, Equal, value)
    ensures ParseBracket(prop + ("!=" + value)) == Compare(prop, NotEqual, value)
    ensures ParseBracket(prop + ("<=" + value)) == Compare(prop, LessEqual, value)
    ensures ParseBracket(prop + (">=" + value)) == Compare(prop, GreaterEqual, value)
    ensures value == [] || value[0] != '=' ==> ParseBracket(prop + ("<" + value)) == Compare(prop, Less, value)
    ensures value == [] || value[0] != '=' ==> ParseBracket(prop + (">" + value)) == Compare(prop, Greater, value)
    ensures value == [] || value[0] != '=' ==> ParseBracket(prop + ("!" + value)) == Malformed(prop)
  {
    forall i | 0 <= i < |prop| ensures !IsOpChar(prop[i]) {
      assert prop[i] in prop;
    }
    UntilOpOfPlain(prop);
    OperatorIsRead(prop, "=", value);
    OperatorIsRead(prop, "!=", value);
    OperatorIsRead(prop, "<=", value);
    OperatorIsRead(prop, ">=", value);
    OperatorIsRead(prop, "<", value);
    OperatorIsRead(prop, ">", value);
    OperatorIsRead(prop, "!", value);
  }

  lemma {:induction false} OperatorIsRead(prop: string, op: string, value: string)
    requires UntilOp(prop) == |prop| && !CNumbers.Converts(prop)
    requires 1 <= |op| <= 2 && IsOpChar(op[0]) && (|op| == 2 ==> op[1] == '=')
    ensures ParseBracket(prop + (op + value)) == ParseOperation(prop, op + value)
    ensures (op + value)[|op|..] == value && (|op| == 1 && value != [] ==> (op + value)[1] == value[0])
  {
    var rest := op + value;
    UntilOpStops(prop, rest);
    CNumbers.ConversionIsDecidedEarly(prop, rest);
    assert (prop + rest)[..|prop|] == prop && (prop + rest)[|prop|..] == rest;
  }

  lemma {:induction false} CompareReadsBack(prop: string, op: Op, value: string)
    requires GoodBracket(Compare(prop, op, value))
    ensures ParseBracket(PrintBracket(Compare(prop, op, value))) == Compare(prop, op, value)
  {
    var rest := OpText(op) + value;
    OperationReadsBack(prop, rest);
    assert prop + OpText(op) + value == prop + rest;
    assert rest[|OpText(op)|..] == value;
  }

  lemma {:induction false} BracketReadsBack(step: Step)
    requires IsBracket(step) && GoodBracket(step)
    ensures ParseBracket(PrintBracket(step)) == step
  {
    match step {
      case Index(n) => CNumbers.DecimalScans(n);
      case Compare(prop, op, value) => CompareReadsBack(prop, op, value);
      case Exists(prop) => assert ParseBracket(prop) == Exists(prop);
      case Any => assert UntilOp("*") == 1;
      case Last => LastReadsBack();
      case Malformed(prop) => OperationReadsBack(prop, "!");
    }
  }

  lemma {:induction false} LastReadsBack()
    ensures ParseBracket("last()") == Last
  {
    assert !IsOpChar('l') && !IsOpChar('a') && !IsOpChar('s') && !IsOpChar('t') && !IsOpChar('(') && !IsOpChar(')');
    UntilOpOfPlain("last()");
    assert CNumbers.SkipSpace("last()") == "last()";
  }

  lemma UntilOpOfPlain(s: string)
    requires forall i :: 0 <= i < |s| ==> !IsOpChar(s[i])
    ensures UntilOp(s) == |s|
  {
  }

  lemma {:induction false} PrintedBracketIsBracketText(step: Step)
    requires IsBracket(step) && GoodBracket(step)
    ensures BracketText(PrintBracket(step))
  {
  }

  lemma {:induction false} SegmentIs(text: string, name: string, tail: string, inner: string)
    requires tail != [] && GetStringTill(text, '[') == (name, Some(tail)) && name != "*"
    requires GetStringTill(tail[1..], ']').0 == inner
    ensures ParseSegment(text) == [Name(name), ParseBracket(inner)]
  {
  }

  lemma {:induction false} BehindBracket(inner: string, tail: string)
    requires tail == "[" + inner + "]" && Without(inner, ']')
    ensures tail != [] && tail[0] == '[' && GetStringTill(tail[1..], ']').0 == inner
  {
    assert tail[1..] == inner + "]";
    TillStops(inner, "]", ']');
  }

  lemma {:induction false} BracketIsCutOff(name: string, inner: string, tail: string)
    requires GoodName(name, true) && Without(inner, ']') && tail == "[" + inner + "]"
    ensures ParseSegment(name + tail) == [Name(name), ParseBracket(inner)]
  {
    BehindBracket(inner, tail);
    TillStops(name, tail, '[');
    SegmentIs(name + tail, name, tail, inner);
  }

  lemma {:induction false} BracketedReadsBack(name: string, step: Step)
    requires GoodName(name, true) && IsBracket(step) && GoodBracket(step)
    ensures var text := name + ("[" + PrintBracket(step) + "]");
            ParseSegment(text) == [Name(name), step] && text != [] && Without(text, '/')
  {
    var inner := PrintBracket(step);
    PrintedBracketIsBracketText(step);
    BracketIsCutOff(name, inner, "[" + inner + "]");
    BracketReadsBack(step);
  }

  lemma {:induction false} BareReadsBack(name: string)
    requires GoodName(name, false)
    ensures ParseSegment(name) == [Name(name)]
  {
    TillStops(name, "", '[');
    assert name + "" == name;
  }

  lemma {:induction false} StarReadsBack()
    ensures ParseSegment("*") == [Any]
  {
    TillStops("*", "", '[');
    assert "*" + "" == "*";
  }

  lemma {:induction false} SegmentReadsBack(path: Path)
    requires path != [] && !path[0].Root? && Canonical(path)
    ensures ParseSegment(PrintSegment(path)) == path[..SegmentSize(path)]
    ensures PrintSegment(path) != [] && Without(PrintSegment(path), '/')
  {
    if !path[0].Name? {
      StarReadsBack();
      assert path[..1] == [path[0]];
    } else if SegmentSize(path) == 2 {
      BracketedReadsBack(path[0].name, path[1]);
      assert PrintSegment(path) == path[0].name + ("[" + PrintBracket(path[1]) + "]");
      assert path[..2] == [path[0], path[1]];
    } else {
      BareReadsBack(path[0].name);
      assert path[0].name + "" == path[0].name;
      assert path[..1] == [path[0]];
    }
  }

  lemma {:induction false} CutIsUnique(cut: Cut)
    requires cut.Valid()
    ensures !PlainRoot(cut.Text()) && CutOf(cut.Text()) == cut
  {
    TillStops(cut.token, cut.rest, '/');
    assert cut.token[0] in cut.token;
    if cut.root {
      assert cut.Text()[1..] == cut.token + cut.rest;
    } else {
      assert cut.Text() == cut.token + cut.rest;
    }
  }

  lemma {:induction false} ParseOfCut(cut: Cut)
    requires cut.Valid()
    ensures Parse(cut.Text()) == cut.Steps() + Parse(cut.Tail())
  {
    CutIsUnique(cut);
  }

  /** A printed path starts with `v` only when its first step is a name that does. */
  lemma {:induction false} PrintedHead(path: Path)
    requires Canonical(path)
    requires Print(path) != [] && Print(path)[0] == 'v'
    ensures path != [] && path[0].Name? && path[0].name != "" && path[0].name[0] == 'v'
  {
    if !path[0].Root? {
      SegmentReadsBack(path);
      assert Print(path)[0] == PrintSegment(path)[0];
    }
  }

  lemma {:induction false} PlainRootReadsBack(path: Path)
    requires path != [] && path[0] == Root(None) && Canonical(path)
    ensures Parse(Print(path)) == [Root(None)] + Parse(Print(path[1..]))
  {
    var rest := Print(path[1..]);
    assert ("/" + rest)[1..] == rest;
    if rest != [] && rest[0] == 'v' {
      PrintedHead(path[1..]);
      assert false;
    }
  }

  /** The cut that the printed text of a chain is made of. */
  lemma {:induction false} JoinedTail(root: bool, token: string, rest: string)
    ensures Cut(root, token, Joined(rest)).Tail() == rest
  {
    assert rest != [] ==> ("/" + rest)[1..] == rest;
  }

  lemma {:induction false} Slashed(token: string, rest: string)
    ensures "/" + token + rest == "/" + (token + rest)
  {
  }

  lemma {:induction false} RootCut(version: string, rest: string)
    requires GoodVersion(version) && (rest != [] ==> rest[0] == '/')
    ensures var cut := Cut(true, version, rest);
            cut.Valid() && cut.Steps() == [Root(Some(version))] && cut.Text() == "/" + version + rest
  {
    Slashed(version, rest);
  }

  lemma {:induction false} PrintedRoot(path: Path, version: string, rest: string)
    requires Canonical(path) && path != [] && path[0] == Root(Some(version)) && rest == Print(path[1..])
    ensures var cut := Cut(true, version, Joined(rest)); cut.Valid() && cut.Steps() == [path[0]] && Print(path) == cut.Text()
  {
    RootCut(version, Joined(rest));
  }

  lemma {:induction false} FirstStep(path: Path)
    requires path != []
    ensures path[..1] == [path[0]]
  {
  }

  lemma {:induction false} PrintedSegment(path: Path, token: string, rest: string, size: nat)
    requires Canonical(path) && path != [] && !path[0].Root? && size == SegmentSize(path)
    requires token == PrintSegment(path) && rest == Print(path[size..])
    ensures var cut := Cut(false, token, Joined(rest)); cut.Valid() && cut.Steps() == path[..size] && Print(path) == cut.Text()
  {
    SegmentReadsBack(path);
  }

  lemma {:induction false} PrintedCut(path: Path, cut: Cut, size: nat)
    requires Canonical(path) && path != [] && path[0] != Root(None)
    requires size == SegmentSize(path)
    requires cut == Cut(path[0].Root?, if path[0].Root? then path[0].version.value else PrintSegment(path), Joined(Print(path[size..])))
    ensures cut.Valid() && cut.Steps() == path[..size]
    ensures Print(path) == cut.Text() && cut.Tail() == Print(path[size..])
  {
    JoinedTail(cut.root, cut.token, Print(path[size..]));
    if path[0].Root? {
      FirstStep(path);
      PrintedRoot(path, cut.token, Print(path[size..]));
    } else {
      PrintedSegment(path, cut.token, Print(path[size..]), size);
    }
  }

  lemma {:induction false} CanonicalTail(path: Path)
    requires Canonical(path) && path != []
    ensures Canonical(path[SegmentSize(path)..])
  {
  }

  lemma Rejoined(path: Path, size: nat)
    requires size <= |path|
    ensures path == path[..size] + path[size..]
  {
  }

  /** Parsing the canonical text of a canonical chain gives back the same node chain. */
  lemma {:induction false} RoundTrip(path: Path)
    requires Canonical(path)
    ensures Parse(Print(path)) == path
    decreases |path|
  {
    if path == [] {
    } else if path[0] == Root(None) {
      RoundTrip(path[1..]);
      PlainRootReadsBack(path);
      Rejoined(path, 1);
    } else {
      var size := SegmentSize(path);
      var token := if path[0].Root? then path[0].version.value else PrintSegment(path);
      var cut := Cut(path[0].Root?, token, Joined(Print(path[size..])));
      PrintedCut(path, cut, size);
      CanonicalTail(path);
      RoundTrip(path[size..]);
      ParseOfCut(cut);
      Rejoined(path, size);
    }
  }
}
