/** The three-pointer queue used by one thread at a time: a linked list whose front part, up
    to `divider`, has been consumed and is unlinked by the next push. */
module Queue {
  import opened Wrappers

  type Value = int

  class QueueNode {
    var value: Value
    var next: QueueNode?

    constructor (value: Value)
      ensures this.value == value && next == null
    {
      this.value := value;
      next := null;
    }
  }

  /** Node `i` of the list points to the next one, the last to nothing. */
  ghost predicate Linked(nodes: seq<QueueNode>, i: nat)
    reads nodes
  {
    i < |nodes| && nodes[i].next == if i + 1 < |nodes| then nodes[i + 1] else null
  }

  class Queue {
    var first: QueueNode?
    var divider: QueueNode
    var last: QueueNode
    ghost var nodes: seq<QueueNode>    // the list from `first` on
    ghost var consumed: nat            // how many of them lie before `divider`

    ghost predicate Valid()
      reads this, nodes
    {
      && consumed < |nodes|
      && (forall i, j :: 0 <= i < j < |nodes| ==> nodes[i] != nodes[j])
      && (forall i :: 0 <= i < |nodes| ==> Linked(nodes, i))
      && first == nodes[0] && divider == nodes[consumed] && last == nodes[|nodes| - 1]
    }

    /** The values still to be popped. */
    ghost function Contents(): seq<Value>
      reads this, nodes
      requires Valid()
    {
      seq(|nodes| - consumed - 1, i requires 0 <= i < |nodes| - consumed - 1 reads this, nodes => nodes[consumed + 1 + i].value)
    }

    constructor ()
      ensures Valid() && Contents() == [] && consumed == 0 && fresh(nodes)
    {
      var node := new QueueNode(0);
      first, divider, last := node, node, node;
      nodes, consumed := [node], 0;
    }

    /** `queuePush`: link, move `last`, and unlink what has been consumed. */
    method Push(value: Value) returns (ghost freed: seq<QueueNode>)
      requires Valid()
      modifies this, nodes
      ensures Valid() && Contents() == old(Contents()) + [value]
      ensures freed == old(nodes[..consumed]) && consumed == 0
      ensures nodes[..|nodes| - 1] == old(nodes[consumed..]) && fresh(nodes[|nodes| - 1])
    {
      Append(value);
      freed := CleanupUnused();
    }

    method Append(value: Value)
      requires Valid()
      modifies this, last
      ensures Valid() && Contents() == old(Contents()) + [value]
      ensures consumed == old(consumed) && |nodes| == |old(nodes)| + 1
      ensures nodes[..|nodes| - 1] == old(nodes) && fresh(nodes[|nodes| - 1])
    {
      var node := new QueueNode(value);
      last.next := node;
      last := node;
      nodes := nodes + [node];
      forall i | 0 <= i < |nodes| ensures Linked(nodes, i) {
        assert i < |old(nodes)| ==> old(Linked(nodes, i));
      }
    }

    /** The clean-up at the end of `queuePush`. */
    method CleanupUnused() returns (ghost freed: seq<QueueNode>)
      requires Valid()
      modifies this
      ensures Valid() && Contents() == old(Contents())
      ensures freed == old(nodes[..consumed]) && nodes == old(nodes[consumed..]) && consumed == 0
    {
      ghost var all, d := nodes, consumed;
      freed := [];
      while first != divider
        invariant Valid() && |freed| <= d && freed == all[..|freed|]
        invariant nodes == all[|freed|..] && consumed == d - |freed|
        decreases consumed
      {
        assert Linked(nodes, 0);
        freed := freed + [first];
        first := first.next;
        ghost var before := nodes;
        nodes, consumed := nodes[1..], consumed - 1;
        forall i | 0 <= i < |nodes| ensures Linked(nodes, i) {
          assert Linked(before, i + 1);
        }
      }
      assert forall i :: 0 <= i < |nodes| ==> nodes[i] == all[d + i];
    }

    /** `queuePopNoWait`, and `queuePop` once there is something to pop. */
    method Pop() returns (value: Option<Value>)
      requires Valid()
      modifies this
      ensures Valid() && nodes == old(nodes)
      ensures old(Contents()) == [] ==> value == None && Contents() == [] && consumed == old(consumed)
      ensures old(Contents()) != [] ==> value == Some(old(Contents())[0]) && Contents() == old(Contents())[1..]
      ensures old(Contents()) != [] ==> consumed == old(consumed) + 1
    {
      if divider == last {
        return None;
      }
      assert Linked(nodes, consumed);
      value := Some(divider.next.value);
      divider := divider.next;
      consumed := consumed + 1;
    }

    /** `freeQueue`: walks the whole list, every node once. */
    method FreeQueue() returns (ghost freed: seq<QueueNode>)
      requires Valid()
      modifies this
      ensures freed == old(nodes) && first == null
    {
      freed := [];
      while first != null
        invariant |freed| <= |nodes| && freed == nodes[..|freed|] && nodes == old(nodes)
        invariant first == if |freed| < |nodes| then nodes[|freed|] else null
        invariant forall i :: 0 <= i < |nodes| ==> Linked(nodes, i)
        decreases |nodes| - |freed|
      {
        assert Linked(nodes, |freed|);
        freed := freed + [first];
        first := first.next;
      }
    }
  }

  datatype Op = Push(value: Value) | Pop

  /** The values a run pushes, in order. */
  function Pushed(ops: seq<Op>): seq<Value>
    decreases |ops|
  {
    if ops == [] then []
    else
      var last := ops[|ops| - 1];
      Pushed(ops[..|ops| - 1]) + if last.Push? then [last.value] else []
  }

  /** Any run of pushes and pops, in whatever order: the values come out in the order they
      went in, each once, and those that have not come out are still there. */
  method InOrder(ops: seq<Op>) returns (popped: seq<Value>, left: seq<Value>)
    ensures popped + left == Pushed(ops)
  {
    var queue := new Queue();
    popped := [];
    for i := 0 to |ops|
      invariant queue.Valid() && fresh(queue) && fresh(queue.nodes)
      invariant popped + queue.Contents() == Pushed(ops[..i])
    {
      assert ops[..i + 1] == ops[..i] + [ops[i]];
      assert ops[..i + 1][..i] == ops[..i];
      match ops[i] {
        case Push(value) =>
          var _ := queue.Push(value);
        case Pop =>
          var value := queue.Pop();
          if value.Some? {
            popped := popped + [value.value];
          }
      }
    }
    assert ops[..|ops|] == ops;
    left := Drain(queue);
  }

  /** Pop until nothing is left. */
  method Drain(queue: Queue) returns (popped: seq<Value>)
    requires queue.Valid()
    modifies queue
    ensures queue.Valid() && queue.Contents() == [] && popped == old(queue.Contents())
  {
    popped := [];
    ghost var all := queue.Contents();
    while true
      invariant queue.Valid() && queue.nodes == old(queue.nodes)
      invariant |popped| <= |all| && popped == all[..|popped|] && queue.Contents() == all[|popped|..]
      decreases |all| - |popped|
    {
      var value := queue.Pop();
      if value.None? {
        return;
      }
      assert all[|popped|..][1..] == all[|popped| + 1..];
      popped := popped + [value.value];
    }
  }
}
