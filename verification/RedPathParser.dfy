/** The parser as it runs: nodes are allocated and filled field by field, a segment reports
    its last node through `end`, and the chain of the remaining text is spliced on there. */
module RedPathParser {
  import opened Wrappers
  import opened Text
  import opened RedPath
  import CNumbers

  datatype NodeOp = Comparison(op: Op) | OpExists | OpAny | OpLast | OpError

  class RedPathNode {
    var isRoot: bool
    var isIndex: bool
    var version: Option<string>
    var nodeName: Option<string>
    var index: nat
    var op: NodeOp
    var propName: Option<string>
    var value: Option<string>
    var next: RedPathNode?

    /** `calloc`: everything zero, which makes the operation REDPATH_OP_EQUAL. */
    constructor ()
      ensures Blank() && next == null
    {
      isRoot, isIndex, version, nodeName, index := false, false, None, None, 0;
      op, propName, value, next := Comparison(Equal), None, None, null;
    }

    ghost predicate Blank()
      reads this
    {
      Holds(false, None, None, None, Comparison(Equal), None, None)
    }

    ghost predicate Holds(root: bool, ver: Option<string>, name: Option<string>, at: Option<nat>,
                          operation: NodeOp, prop: Option<string>, val: Option<string>)
      reads this
    {
      && isRoot == root && version == ver && nodeName == name
      && isIndex == at.Some? && index == (if at.Some? then at.value else 0)
      && op == operation && propName == prop && value == val
    }

    /** The node is the one `step` stands for, in every field but `next`. */
    ghost predicate Shows(step: Step)
      reads this
    {
      match step
      case Root(ver) => Holds(true, ver, None, None, Comparison(Equal), None, None)
      case Name(name) => Holds(false, None, Some(name), None, Comparison(Equal), None, None)
      case Index(n) => Holds(false, None, None, Some(n), Comparison(Equal), None, None)
      case Compare(prop, o, val) => Holds(false, None, None, None, Comparison(o), Some(prop), Some(val))
      case Exists(prop) => Holds(false, None, None, None, OpExists, Some(prop), None)
      case Any => Holds(false, None, None, None, OpAny, None, None)
      case Last => Holds(false, None, None, None, OpLast, None, None)
      case Malformed(prop) => Holds(false, None, None, None, OpError, Some(prop), None)
    }
  }

  /** `nodes` are the distinct nodes reached from `head` through `next`, showing `path`. */
  ghost predicate Chain(head: RedPathNode?, nodes: seq<RedPathNode>, path: Path)
    reads nodes
    decreases |nodes|
  {
    if nodes == [] then head == null && path == []
    else
      && path != [] && head == nodes[0]
      && nodes[0].Shows(path[0])
      && nodes[0] !in nodes[1..]
      && Chain(nodes[0].next, nodes[1..], path[1..])
  }

  /** The one or two nodes of a segment, from `node` to `end`. */
  ghost predicate SegmentNodes(node: RedPathNode, end: RedPathNode, path: Path)
    reads node, end
  {
    if node == end then |path| == 1 && node.Shows(path[0])
    else |path| == 2 && node.Shows(path[0]) && end.Shows(path[1]) && node.next == end
  }

  method FillOperation(node: RedPathNode, prop: string, rest: string)
    requires node.Blank() && rest != [] && IsOpChar(rest[0])
    modifies node
    ensures node.Shows(ParseOperation(prop, rest)) && node.next == old(node.next)
  {
    node.propName := Some(prop);
    var wide := |rest| > 1 && rest[1] == '=';
    var skip := 1;
    if rest[0] == '=' {
      node.op := Comparison(Equal);
    } else if rest[0] == '<' {
      if wide {
        node.op := Comparison(LessEqual);
        skip := 2;
      } else {
        node.op := Comparison(Less);
      }
    } else if rest[0] == '>' {
      if wide {
        node.op := Comparison(GreaterEqual);
        skip := 2;
      } else {
        node.op := Comparison(Greater);
      }
    } else {
      if !wide {
        node.op := OpError;
        return;
      }
      skip := 2;
      node.op := Comparison(NotEqual);
    }
    node.value := Some(rest[skip..]);
  }

  method FillBracket(node: RedPathNode, text: string)
    requires node.Blank()
    modifies node
    ensures node.Shows(ParseBracket(text)) && node.next == old(node.next)
  {
    if CNumbers.Converts(text) {
      node.index := CNumbers.StrToUll(text);
      node.isIndex := true;
      return;
    }
    var opChars := UntilOp(text);
    if opChars == |text| && text != [] && text[0] == '*' {
      node.op := OpAny;
    } else if opChars == |text| {
      if StartsWith(text, "last()") {
        node.op := OpLast;
      } else {
        node.op := OpExists;
        node.propName := Some(text);
      }
    } else {
      FillOperation(node, text[..opChars], text[opChars..]);
    }
  }

  method HangBracket(node: RedPathNode, name: string, text: string) returns (end: RedPathNode)
    requires node.Shows(Name(name))
    modifies node
    ensures fresh(end) && end != node && end.next == null
    ensures SegmentNodes(node, end, [Name(name), ParseBracket(text)])
  {
    end := new RedPathNode();
    node.next := end;
    FillBracket(end, text);
  }

  /** `parseNode`: fills `node`, hangs a second node on it for a bracket, and reports the
      last node of the segment. */
  method ParseNode(path: string, node: RedPathNode) returns (end: RedPathNode)
    requires node.Blank() && node.next == null
    modifies node
    ensures SegmentNodes(node, end, ParseSegment(path)) && end.next == null
    ensures end != node ==> fresh(end)
  {
    var (nodeName, indexStart) := GetStringTill(path, '[');
    end := node;
    if nodeName == "*" {
      node.op := OpAny;
    } else {
      node.nodeName := Some(nodeName);
      if indexStart.Some? {
        end := HangBracket(node, nodeName, GetStringTill(indexStart.value[1..], ']').0);
      }
    }
  }

  /** A segment whose last node points at a chain makes a longer chain. */
  lemma SegmentInFront(node: RedPathNode, end: RedPathNode, path: Path, more: seq<RedPathNode>, later: Path)
    requires SegmentNodes(node, end, path)
    requires Chain(end.next, more, later)
    requires node !in more && end !in more
    ensures Chain(node, (if node == end then [node] else [node, end]) + more, path + later)
  {
    if node == end {
      assert ([node] + more)[1..] == more && (path + later)[1..] == later;
    } else {
      assert ([node, end] + more)[1..] == [end] + more && (path + later)[1..] == [path[1]] + later;
      assert ([end] + more)[1..] == more && ([path[1]] + later)[1..] == later;
    }
  }

  /** Parse the remaining text and splice its chain behind `end`. */
  method ParseRest(node: RedPathNode, end: RedPathNode, ghost path: Path, rest: string)
    returns (ghost nodes: seq<RedPathNode>)
    requires SegmentNodes(node, end, path) && end.next == null
    modifies end
    ensures Chain(node, nodes, path + Parse(rest))
    ensures fresh((set n | n in nodes) - {node, end})
    decreases |rest|, 2
  {
    var next, more := ParseRedPath(rest);
    end.next := next;
    SegmentInFront(node, end, path, more, Parse(rest));
    nodes := (if node == end then [node] else [node, end]) + more;
  }

  /** What the text is cut into, for a text that does not start with a plain root. */
  lemma CutParts(path: string)
    requires path != [] && !PlainRoot(path)
    ensures var (token, rest) := GetStringTill(if path[0] == '/' then path[1..] else path, '/');
            var tail := if rest.None? then "" else rest.value[1..];
            |tail| < |path| &&
            Parse(path) == (if path[0] == '/' then [Root(Some(token))] else ParseSegment(token)) + Parse(tail)
  {
  }

  lemma PlainRootParts(path: string)
    requires PlainRoot(path)
    ensures path != [] && Parse(path) == [Root(None)] + Parse(path[1..])
  {
  }

  /** A leading slash: the root node with its optional version. */
  method FillRoot(path: string, node: RedPathNode) returns (rest: string, ghost steps: Path)
    requires path != [] && path[0] == '/' && node.Blank() && node.next == null
    modifies node
    ensures SegmentNodes(node, node, steps) && node.next == null
    ensures |rest| < |path| && Parse(path) == steps + Parse(rest)
  {
    node.isRoot := true;
    if |path| > 1 && path[1] == 'v' {
      var (version, curPath) := GetStringTill(path[1..], '/');
      node.version := Some(version);
      rest, steps := if curPath.None? then "" else curPath.value[1..], [Root(Some(version))];
      CutParts(path);
    } else {
      rest, steps := path[1..], [Root(None)];
      PlainRootParts(path);
    }
    assert node.Shows(steps[0]);
  }

  method FillSegment(path: string, node: RedPathNode) returns (end: RedPathNode, rest: string, ghost steps: Path)
    requires path != [] && path[0] != '/' && node.Blank() && node.next == null
    modifies node
    ensures SegmentNodes(node, end, steps) && end.next == null
    ensures end != node ==> fresh(end)
    ensures |rest| < |path| && Parse(path) == steps + Parse(rest)
  {
    node.isRoot := false;
    var (segment, after) := GetStringTill(path, '/');
    CutParts(path);
    end := ParseNode(segment, node);
    rest, steps := if after.None? then "" else after.value[1..], ParseSegment(segment);
  }

  /** `parseRedPath`: the chain it builds is the parse of the text. */
  method ParseRedPath(path: string) returns (head: RedPathNode?, ghost nodes: seq<RedPathNode>)
    ensures Chain(head, nodes, Parse(path)) && fresh(set n | n in nodes)
    decreases |path|, 1
  {
    if path == [] {
      return null, [];
    }
    var node := new RedPathNode();
    var end, rest, steps := FillFirst(path, node);
    head := node;
    nodes := ParseRest(node, end, steps, rest);
  }

  /** The first node, or the first two, and where the text goes on. */
  method FillFirst(path: string, node: RedPathNode) returns (end: RedPathNode, rest: string, ghost steps: Path)
    requires path != [] && node.Blank() && node.next == null
    modifies node
    ensures SegmentNodes(node, end, steps) && end.next == null
    ensures end != node ==> fresh(end)
    ensures |rest| < |path| && Parse(path) == steps + Parse(rest)
  {
    if path[0] == '/' {
      rest, steps := FillRoot(path, node);
      end := node;
    } else {
      end, rest, steps := FillSegment(path, node);
    }
  }

  /** `cleanupRedPath`: the rest of the chain first, then the node itself, so every node of
      the chain is released once, last to first. */
  method CleanupRedPath(node: RedPathNode?, ghost nodes: seq<RedPathNode>, ghost path: Path)
    returns (freed: seq<RedPathNode>)
    requires Chain(node, nodes, path)
    modifies nodes
    ensures |freed| == |nodes| && forall i :: 0 <= i < |nodes| ==> freed[i] == nodes[|nodes| - 1 - i]
    decreases |nodes|
  {
    if node == null {
      return [];
    }
    freed := CleanupRedPath(node.next, nodes[1..], path[1..]);
    node.next := null;
    freed := freed + [node];
  }
}
