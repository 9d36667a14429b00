/** Who frees what on a callback-driven walk: the `redPathNode` chain and the
    `redpathAsyncContext` blocks of one query, with stages that refuse, call back inside the
    starting call, or leave their callback to the worker. Reading or freeing a block needs it
    to be live, so that the methods verify says that nothing is used after its free. */
module WalkOwnership {
  import opened Wrappers

  /** The arguments of the callback; only whether there is a payload matters here. */
  datatype Reply = Reply(success: bool, code: nat, payload: bool)

  /** What starting the stage of one path node does. */
  datatype Stage = Refuse | Inline(reply: Reply) | Deferred(reply: Reply)

  const NOT_STARTED := Reply(false, 0xFFFF, false)

  /** The reply the user is owed once node `i` has replied: the first failure, a refusal of a
      later stage, or the reply of the last stage. */
  function Settle(stages: seq<Stage>, i: nat, reply: Reply): Reply
    requires i < |stages|
    decreases |stages| - i, 0
  {
    if !reply.success || reply.code >= 400 || i + 1 == |stages| then reply
    else
      match Outcome(stages, i + 1, reply.payload)
      case Some(later) => later
      case None => NOT_STARTED
  }

  /** The reply owed for the walk from node `i` on; None when it is not accepted. */
  function Outcome(stages: seq<Stage>, i: nat, payload: bool): Option<Reply>
    requires i < |stages|
    decreases |stages| - i, 1
  {
    if !payload || stages[i].Refuse? then None else Some(Settle(stages, i, stages[i].reply))
  }

  datatype Context = Context(redpath: nat, frees: nat)

  datatype Node = Node(next: Option<nat>, frees: nat)

  // --------------------------------------------------------- shapes of the memory

  /** Nodes `from..to` are live and linked in order, the last one to nothing. */
  predicate Chain(nodes: seq<Node>, from: nat, to: nat) {
    && from <= to <= |nodes|
    && forall j :: from <= j < to ==> nodes[j] == Node(if j + 1 < to then Some(j + 1) else None, 0)
  }

  /** From `before` to `after` exactly the nodes `from..to` were freed, once each. */
  predicate FreedNodes(before: seq<Node>, after: seq<Node>, from: nat, to: nat) {
    && |after| == |before| && from <= to <= |before|
    && (forall j :: from <= j < to ==> after[j].frees == before[j].frees + 1)
    && (forall j :: 0 <= j < |before| && !(from <= j < to) ==> after[j] == before[j])
  }

  /** Contexts from `start` on are all freed exactly once, except the one that waits,
      which is the newest. */
  predicate OnlyWaiting(contexts: seq<Context>, start: nat, waiting: Option<nat>) {
    && start <= |contexts|
    && (waiting.Some? ==> start <= waiting.value && waiting.value + 1 == |contexts|)
    && forall c :: start <= c < |contexts| ==> contexts[c].frees == if waiting == Some(c) then 0 else 1
  }

  class PathWalk {
    const stages: seq<Stage>
    var nodes: seq<Node>
    var contexts: seq<Context>
    var replies: seq<Reply>      // the calls of the user callback
    var waiting: Option<nat>     // the context of the request in the worker's queue

    /** A walk from node `from` has come to rest: delivered, or waiting at a later node. */
    ghost predicate Rests(nodesBefore: seq<Node>, contextsBefore: seq<Context>, repliesBefore: seq<Reply>, from: nat, owed: Reply)
      reads this
    {
      && |nodes| == |stages| && |contextsBefore| <= |contexts| && contexts[..|contextsBefore|] == contextsBefore
      && OnlyWaiting(contexts, |contextsBefore|, waiting)
      && match waiting
         case None => FreedNodes(nodesBefore, nodes, from, |stages|) && replies == repliesBefore + [owed]
         case Some(c) =>
           var at := contexts[c].redpath;
           && from <= at < |stages| && Chain(nodes, at, |stages|)
           && FreedNodes(nodesBefore, nodes, from, at) && replies == repliesBefore
           && stages[at].Deferred? && owed == Settle(stages, at, stages[at].reply)
    }

    constructor (stages: seq<Stage>)
      ensures this.stages == stages && Untouched()
    {
      this.stages := stages;
      nodes, contexts, replies, waiting := [], [], [], None;
    }

    /** `parseRedPath`: the chain, or NULL for a path without segments. */
    method ParseRedPath() returns (head: Option<nat>)
      requires Untouched()
      modifies this`nodes
      ensures nodes == Parsed(stages) && Chain(nodes, 0, |stages|)
      ensures head == if stages == [] then None else Some(0)
    {
      nodes := Parsed(stages);
      head := if stages == [] then None else Some(0);
    }

    // Every access goes through these; each wants its block to be live.

    function NextOf(node: nat): Option<nat>
      reads this`nodes
      requires node < |nodes| && nodes[node].frees == 0
    {
      nodes[node].next
    }

    function RedPathOf(c: nat): nat
      reads this`contexts
      requires c < |contexts| && contexts[c].frees == 0
    {
      contexts[c].redpath
    }

    method CutOff(node: nat)
      requires node < |nodes| && nodes[node].frees == 0
      modifies this`nodes
      ensures nodes == old(nodes)[node := Node(None, 0)]
    {
      nodes := nodes[node := nodes[node].(next := None)];
    }

    method FreeNode(node: nat)
      requires node < |nodes| && nodes[node].frees == 0
      modifies this`nodes
      ensures nodes == old(nodes)[node := old(nodes)[node].(frees := 1)]
    {
      nodes := nodes[node := nodes[node].(frees := nodes[node].frees + 1)];
    }

    method FreeContext(c: nat)
      requires c < |contexts| && contexts[c].frees == 0
      modifies this`contexts
      ensures contexts == old(contexts)[c := old(contexts)[c].(frees := 1)]
    {
      contexts := contexts[c := contexts[c].(frees := contexts[c].frees + 1)];
    }

    /** `cleanupRedPath`: the nodes behind first, then this one. */
    method CleanupRedPath(node: Option<nat>, ghost to: nat)
      requires node.Some? ==> node.value < to && Chain(nodes, node.value, to)
      modifies this`nodes
      ensures node.None? ==> nodes == old(nodes)
      ensures node.Some? ==> FreedNodes(old(nodes), nodes, node.value, to)
      decreases if node.Some? then to - node.value else 0
    {
      if node.None? {
        return;
      }
      var i := node.value;
      CleanupRedPath(NextOf(i), to);
      CutOff(i);
      FreeNode(i);
    }

    /** `getPayloadForPathAsync`: a context for the first node, and its stage. */
    method GetPayloadForPathAsync(payload: bool, redpath: Option<nat>) returns (ret: bool)
      requires waiting == None
      requires redpath.Some? ==> redpath.value < |stages| && |nodes| == |stages| && Chain(nodes, redpath.value, |stages|)
      modifies this
      ensures ret <==> redpath.Some? && Outcome(stages, redpath.value, payload).Some?
      ensures ret ==> Rests(old(nodes), old(contexts), old(replies), redpath.value, Outcome(stages, redpath.value, payload).value)
      ensures !ret ==> nodes == old(nodes) && replies == old(replies) && waiting == None
      ensures !ret ==> |old(contexts)| <= |contexts| && contexts[..|old(contexts)|] == old(contexts)
      ensures !ret ==> OnlyWaiting(contexts, |old(contexts)|, None)
      decreases if redpath.Some? then |stages| - redpath.value else 0, 1
    {
      if !payload || redpath.None? {
        return false;
      }
      var node, c := redpath.value, |contexts|;
      contexts := contexts + [Context(node, 0)];
      match stages[node] {
        case Refuse =>
          FreeContext(c);
          ret := false;
        case Inline(reply) =>
          GotNextRedPath(reply, c);
          ret := true;
        case Deferred(reply) =>
          waiting := Some(c);
          ret := true;
      }
    }

    /** `gotNextRedPath`, and word for word `gotServiceRootAsync`. */
    method GotNextRedPath(reply: Reply, c: nat)
      requires waiting == None && c + 1 == |contexts| && contexts[c].frees == 0
      requires contexts[c].redpath < |stages| && |nodes| == |stages| && Chain(nodes, contexts[c].redpath, |stages|)
      modifies this
      ensures Rests(old(nodes), old(contexts)[..c], old(replies), old(contexts)[c].redpath,
                    Settle(stages, old(contexts)[c].redpath, reply))
      ensures waiting.Some? ==> contexts[waiting.value].redpath > old(contexts)[c].redpath
      decreases |stages| - contexts[c].redpath, 0
    {
      var node := RedPathOf(c);
      if !reply.success || reply.code >= 400 || NextOf(node).None? {
        replies := replies + [reply];
        CleanupRedPath(Some(node), |stages|);
        FreeContext(c);
        return;
      }
      var ret := GetPayloadForPathAsync(reply.payload, NextOf(node));
      if !ret {
        replies := replies + [NOT_STARTED];
        CleanupRedPath(Some(RedPathOf(c)), |stages|);
      } else {
        CutOff(RedPathOf(c));
        CleanupRedPath(Some(RedPathOf(c)), node + 1);
      }
      FreeContext(c);
    }

    /** The worker takes the waiting request and reports its reply. */
    method Deliver(ghost nodesBefore: seq<Node>, ghost contextsBefore: seq<Context>, ghost repliesBefore: seq<Reply>, ghost from: nat, ghost owed: Reply)
      requires Rests(nodesBefore, contextsBefore, repliesBefore, from, owed) && waiting.Some?
      modifies this
      ensures Rests(nodesBefore, contextsBefore, repliesBefore, from, owed)
      ensures waiting.Some? ==> contexts[waiting.value].redpath > old(contexts[waiting.value].redpath)
    {
      var c := waiting.value;
      var node := RedPathOf(c);
      waiting := None;
      GotNextRedPath(stages[node].reply, c);
    }

    /** `getPayloadForPathStringAsync`. */
    method GetPayloadForPathStringAsync(payload: bool) returns (ret: bool)
      requires Untouched()
      modifies this
      ensures ret <==> Accepts(stages, payload)
      ensures ret ==> Rests(Parsed(stages), [], [], 0, Outcome(stages, 0, payload).value)
      ensures !ret ==> AllFreed() && replies == [] && waiting == None
    {
      if !payload {
        return false;
      }
      var redpath := ParseRedPath();
      if redpath.None? {
        return false;
      }
      ret := GetPayloadForPathAsync(payload, redpath);
      if !ret {
        CleanupRedPath(redpath, |stages|);
      }
    }

    /** `getPayloadByPathAsync`: only a path that starts with a root node is walked, and its
        first stage is the request for the service root. */
    method GetPayloadByPathAsync(isRoot: bool) returns (ret: bool)
      requires Untouched()
      modifies this
      ensures ret <==> isRoot && Accepts(stages, true)
      ensures ret ==> Rests(Parsed(stages), [], [], 0, Outcome(stages, 0, true).value)
      ensures !ret ==> AllFreed() && replies == [] && waiting == None
    {
      var redpath := ParseRedPath();
      if redpath.None? {
        return false;
      }
      if !isRoot {
        CleanupRedPath(redpath, |stages|);
        return false;
      }
      contexts := contexts + [Context(redpath.value, 0)];
      match stages[0] {
        case Refuse =>
          FreeContext(0);
          CleanupRedPath(redpath, |stages|);
          ret := false;
        case Inline(reply) =>
          GotNextRedPath(reply, 0);
          ret := true;
        case Deferred(reply) =>
          waiting := Some(0);
          ret := true;
      }
    }

    ghost predicate Untouched()
      reads this
    {
      nodes == [] && contexts == [] && replies == [] && waiting == None
    }

    /** Every node and every context has been freed, and none of them twice. */
    ghost predicate AllFreed()
      reads this
    {
      && (forall j :: 0 <= j < |nodes| ==> nodes[j].frees == 1)
      && (forall c :: 0 <= c < |contexts| ==> contexts[c].frees == 1)
    }

    /** The worker serves the walk until nothing waits. */
    method Serve(ghost owed: Reply)
      requires Rests(Parsed(stages), [], [], 0, owed)
      modifies this
      ensures |nodes| == |stages| && AllFreed() && replies == [owed] && waiting == None
    {
      while waiting.Some?
        invariant Rests(Parsed(stages), [], [], 0, owed)
        decreases if waiting.Some? then |stages| - contexts[waiting.value].redpath else -1
      {
        Deliver(Parsed(stages), [], [], 0, owed);
      }
    }
  }

  /** The chain of nodes as the parser leaves it. */
  function Parsed(stages: seq<Stage>): seq<Node> {
    seq(|stages|, (j: nat) => if j + 1 < |stages| then Node(Some(j + 1), 0) else Node(None, 0))
  }

  predicate Accepts(stages: seq<Stage>, payload: bool) {
    stages != [] && Outcome(stages, 0, payload).Some?
  }

  /** A whole query, from a payload or (`fromService`) from the service root. An accepted walk
      calls the user back exactly once, with the reply owed; a refused one never does. Either
      way every node and every context is freed exactly once. */
  method Query(stages: seq<Stage>, payload: bool, fromService: bool, isRoot: bool)
      returns (accepted: bool, replies: seq<Reply>, nodes: seq<Node>, contexts: seq<Context>)
    requires fromService ==> payload
    ensures accepted <==> Accepts(stages, payload) && (fromService ==> isRoot)
    ensures replies == if accepted then [Outcome(stages, 0, payload).value] else []
    ensures forall j :: 0 <= j < |nodes| ==> nodes[j].frees == 1
    ensures forall c :: 0 <= c < |contexts| ==> contexts[c].frees == 1
    ensures accepted ==> |nodes| == |stages|
    ensures accepted && payload ==> forall k :: BreaksOffAt(stages, k) ==> replies == [Reply(false, 0xFFFF, false)]
    ensures accepted && payload && Succeeds(replies[0]) ==>
              (forall j :: 0 <= j < |stages| ==> GoesOn(stages[j])) && replies[0] == stages[|stages| - 1].reply
  {
    var walk := new PathWalk(stages);
    if fromService {
      accepted := walk.GetPayloadByPathAsync(isRoot);
    } else {
      accepted := walk.GetPayloadForPathStringAsync(payload);
    }
    if accepted {
      walk.Serve(Outcome(stages, 0, payload).value);
    }
    assert walk.AllFreed();
    if accepted && payload {
      DeliveredRight(stages, Outcome(stages, 0, true).value);
    }
    replies, nodes, contexts := walk.replies, walk.nodes, walk.contexts;
  }

  // ------------------------------------------------------------ what is delivered

  predicate GoesOn(stage: Stage) {
    !stage.Refuse? && stage.reply.success && stage.reply.code < 400 && stage.reply.payload
  }

  /** The reply owed, read off the first stage that does not go on. */
  lemma {:induction false} FirstStopDecides(stages: seq<Stage>, i: nat, stop: nat)
    requires i <= stop < |stages|
    requires forall j :: i <= j < stop ==> GoesOn(stages[j])
    requires stop + 1 < |stages| ==> !GoesOn(stages[stop])
    ensures Outcome(stages, i, true) ==
            if stages[stop].Refuse? then (if stop == i then None else Some(Reply(false, 0xFFFF, false)))
            else if stop + 1 < |stages| && stages[stop].reply.success && stages[stop].reply.code < 400 then Some(Reply(false, 0xFFFF, false))
            else Some(stages[stop].reply)
    decreases stop - i
  {
    if i < stop {
      assert GoesOn(stages[i]);
      FirstStopDecides(stages, i + 1, stop);
    } else if !stages[i].Refuse? && i + 1 < |stages| && stages[i].reply.success && stages[i].reply.code < 400 {
      assert Outcome(stages, i + 1, stages[i].reply.payload).None?;
    }
  }

  /** The walk comes to stage `k`, which is refused or gets no payload. */
  predicate BreaksOffAt(stages: seq<Stage>, k: nat) {
    && 0 < k < |stages| && (forall j :: 0 <= j < k - 1 ==> GoesOn(stages[j]))
    && GoesOn(WithPayload(stages[k - 1])) && (stages[k].Refuse? || !stages[k - 1].reply.payload)
  }

  function WithPayload(stage: Stage): Stage {
    match stage
    case Refuse => Refuse
    case Inline(reply) => Inline(reply.(payload := true))
    case Deferred(reply) => Deferred(reply.(payload := true))
  }

  /** A walk that breaks off reports a failure without a payload. */
  lemma {:induction false} BrokenOffFails(stages: seq<Stage>, k: nat)
    requires BreaksOffAt(stages, k)
    ensures Outcome(stages, 0, true) == Some(Reply(false, 0xFFFF, false))
  {
    if stages[k - 1].reply.payload {
      assert forall j :: 0 <= j < k ==> GoesOn(stages[j]);
      FirstStopDecides(stages, 0, k);
    } else {
      FirstStopDecides(stages, 0, k - 1);
    }
  }

  predicate Succeeds(reply: Reply) {
    reply.success && reply.code < 400 && reply.payload
  }

  /** The user gets a payload exactly when every stage has replied with one, and then it is
      the last stage's. */
  lemma {:induction false} PayloadIsTheLastStages(stages: seq<Stage>, i: nat, owed: Reply)
    requires i < |stages| && Outcome(stages, i, true) == Some(owed)
    ensures Succeeds(owed) <==> forall j :: i <= j < |stages| ==> GoesOn(stages[j])
    ensures Succeeds(owed) ==> owed == stages[|stages| - 1].reply
    decreases |stages| - i
  {
    assert owed == Settle(stages, i, stages[i].reply);
    if GoesOn(stages[i]) && i + 1 < |stages| {
      if Outcome(stages, i + 1, true).Some? {
        PayloadIsTheLastStages(stages, i + 1, owed);
      } else {
        assert !GoesOn(stages[i + 1]);
      }
    }
  }

  lemma {:induction false} DeliveredRight(stages: seq<Stage>, owed: Reply)
    requires stages != [] && Outcome(stages, 0, true) == Some(owed)
    ensures forall k :: BreaksOffAt(stages, k) ==> owed == Reply(false, 0xFFFF, false)
    ensures Succeeds(owed) ==> (forall j :: 0 <= j < |stages| ==> GoesOn(stages[j])) && owed == stages[|stages| - 1].reply
  {
    forall k | BreaksOffAt(stages, k) ensures owed == Reply(false, 0xFFFF, false) {
      BrokenOffFails(stages, k);
    }
    PayloadIsTheLastStages(stages, 0, owed);
  }

  function WhenDeferred(stage: Stage): Stage {
    if stage.Inline? then Deferred(stage.reply) else stage
  }

  /** Whether a stage calls back at once or later makes no difference to the user. */
  lemma {:induction false} TimingDoesNotMatter(stages: seq<Stage>, late: seq<Stage>, i: nat, payload: bool)
    requires |late| == |stages| && i < |stages|
    requires forall j :: 0 <= j < |stages| ==> WhenDeferred(late[j]) == WhenDeferred(stages[j])
    ensures Outcome(late, i, payload) == Outcome(stages, i, payload)
    decreases |stages| - i
  {
    assert WhenDeferred(late[i]) == WhenDeferred(stages[i]);
    if i + 1 < |stages| && !stages[i].Refuse? {
      TimingDoesNotMatter(stages, late, i + 1, stages[i].reply.payload);
    }
  }
}
