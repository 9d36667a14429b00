/** The read and seek callbacks that feed a request body to the HTTP library. */
module UploadCursor {
  import CNumbers

  type byte = n: int | 0 <= n < 256

  datatype Op = Read(size: nat, count: nat) | Seek(offset: nat)

  /** `size * nmemb` in `size_t`. */
  function FullSize(size: nat, count: nat): nat {
    size * count % CNumbers.TWO_64
  }

  function Min(a: nat, b: nat): nat {
    if a < b then a else b
  }

  // -------------------------------------------------- the history, read backwards

  predicate InBody(body: seq<byte>, ops: seq<Op>) {
    forall i :: 0 <= i < |ops| && ops[i].Seek? ==> ops[i].offset <= |body|
  }

  /** The offset of the last seek; the body is sent from its start before any. */
  function LastSeek(ops: seq<Op>): nat
    decreases |ops|
  {
    if ops == [] then 0
    else if ops[|ops| - 1].Seek? then ops[|ops| - 1].offset
    else LastSeek(ops[..|ops| - 1])
  }

  /** How many bytes the reads since the last seek asked for. */
  function Asked(ops: seq<Op>): nat
    decreases |ops|
  {
    if ops == [] || ops[|ops| - 1].Seek? then 0
    else Asked(ops[..|ops| - 1]) + FullSize(ops[|ops| - 1].size, ops[|ops| - 1].count)
  }

  /** The buffer space offered since the last seek. */
  function Offered(ops: seq<Op>): nat
    decreases |ops|
  {
    if ops == [] then 0
    else
      match ops[|ops| - 1]
      case Seek(_) => 0
      case Read(size, count) => Offered(ops[..|ops| - 1]) + size * count
  }

  /** No product of a size and a count leaves `size_t`. */
  predicate NoWrap(ops: seq<Op>) {
    forall i :: 0 <= i < |ops| && ops[i].Read? ==> ops[i].size * ops[i].count < 0x1_0000_0000_0000_0000
  }

  lemma {:induction false} FullSizeFits(size: nat, count: nat)
    ensures FullSize(size, count) <= size * count
    ensures size * count < 0x1_0000_0000_0000_0000 ==> FullSize(size, count) == size * count
  {
  }

  /** The reads never ask for more than the space offered, and for all of it without a wrap. */
  lemma {:induction false} AskedIsOffered(ops: seq<Op>)
    ensures Asked(ops) <= Offered(ops)
    ensures NoWrap(ops) ==> Asked(ops) == Offered(ops)
    decreases |ops|
  {
    if ops != [] && ops[|ops| - 1].Read? {
      AskedIsOffered(ops[..|ops| - 1]);
      FullSizeFits(ops[|ops| - 1].size, ops[|ops| - 1].count);
    }
  }

  /** All the reads since the last seek hand out: what was asked for, or what there is. */
  function Sent(body: seq<byte>, ops: seq<Op>): seq<byte>
    requires InBody(body, ops)
  {
    LastSeekInBody(body, ops);
    body[LastSeek(ops)..Min(LastSeek(ops) + Asked(ops), |body|)]
  }

  lemma LastSeekInBody(body: seq<byte>, ops: seq<Op>)
    requires InBody(body, ops)
    ensures LastSeek(ops) <= |body|
    decreases |ops|
  {
    if ops != [] {
      LastSeekInBody(body, ops[..|ops| - 1]);
    }
  }

  lemma {:induction false} OneMore(ops: seq<Op>, op: Op)
    ensures LastSeek(ops + [op]) == if op.Seek? then op.offset else LastSeek(ops)
    ensures Asked(ops + [op]) == if op.Seek? then 0 else Asked(ops) + FullSize(op.size, op.count)
  {
    assert (ops + [op])[..|ops|] == ops;
  }

  // ------------------------------------------------------------------ the struct

  /** `struct MemoryStruct` on the sending side. The body stays where it is; `memory` is the
      distance of the moving pointer from `origin`. */
  class MemoryStruct {
    const origin: seq<byte>
    var memory: nat
    var size: nat
    ghost var ops: seq<Op>
    ghost var handed: seq<byte>    // what the reads since the last seek put into the buffers

    ghost predicate Valid()
      reads this
    {
      && memory + size == |origin| && InBody(origin, ops)
      && LastSeek(ops) <= memory == Min(LastSeek(ops) + Asked(ops), |origin|)
      && handed == origin[LastSeek(ops)..memory]
    }

    constructor (body: seq<byte>)
      ensures Valid() && origin == body && ops == [] && memory == 0 && handed == []
    {
      origin, memory, size := body, 0, |body|;
      ops, handed := [], [];
    }

    /** `curlReadMemory`: as many bytes as the buffer takes, or as there are; fewer only where
        the product leaves `size_t`. */
    method Read(ptr: array<byte>, itemSize: nat, count: nat) returns (n: nat)
      requires Valid() && itemSize * count <= ptr.Length
      modifies this, ptr
      ensures Valid() && ops == old(ops) + [Op.Read(itemSize, count)]
      ensures n <= itemSize * count && n <= old(size)
      ensures itemSize * count < 0x1_0000_0000_0000_0000 ==> n == itemSize * count || n == old(size)
      ensures n == Min(FullSize(itemSize, count), old(size)) && memory == old(memory) + n
      ensures n <= ptr.Length && handed == old(handed) + ptr[..n] && ptr[n..] == old(ptr[n..])
      ensures n == 0 && FullSize(itemSize, count) > 0 ==> memory == |origin|
    {
      var fullSize := FullSize(itemSize, count);
      FullSizeFits(itemSize, count);
      n := Deliver(ptr, fullSize);
      OneMore(ops, Op.Read(itemSize, count));
      ops := ops + [Op.Read(itemSize, count)];
    }

    method Deliver(ptr: array<byte>, fullSize: nat) returns (n: nat)
      requires memory + size == |origin| && fullSize <= ptr.Length
      modifies this`memory, this`size, this`handed, ptr
      ensures n == Min(fullSize, old(size)) && memory == old(memory) + n && memory + size == |origin|
      ensures handed == old(handed) + origin[old(memory)..memory] && ptr[..n] == origin[old(memory)..memory]
      ensures ptr[n..] == old(ptr[n..])
    {
      if fullSize < 1 {
        return 0;
      }
      n := if size > fullSize then fullSize else size;
      Copy(ptr, n);
      memory := memory + n;
      size := size - n;
      handed := handed + ptr[..n];
    }

    /** `memcpy(ptr, memory, n)`. */
    method Copy(ptr: array<byte>, n: nat)
      requires n <= ptr.Length && memory + n <= |origin|
      modifies ptr
      ensures ptr[..n] == origin[memory..memory + n] && ptr[n..] == old(ptr[n..])
    {
      for i := 0 to n
        invariant ptr[..i] == origin[memory..memory + i]
        invariant ptr[n..] == old(ptr[n..])
      {
        ptr[i] := origin[memory + i];
      }
    }

    /** `curlSeekMemory`, for the offsets the HTTP library may ask for. */
    method Seek(offset: nat)
      requires Valid() && offset <= |origin|
      modifies this
      ensures Valid() && ops == old(ops) + [Op.Seek(offset)] && memory == offset && handed == []
    {
      OneMore(ops, Op.Seek(offset));
      memory := offset;
      size := |origin| - offset;
      ops := ops + [Op.Seek(offset)];
      handed := [];
    }
  }

  /** The last of a run of operations asked for bytes. */
  predicate AskedLast(ops: seq<Op>) {
    ops != [] && ops[|ops| - 1].Read? && FullSize(ops[|ops| - 1].size, ops[|ops| - 1].count) > 0
  }

  /** Any run of reads and seeks: the bytes handed out since the last seek are the ones the
      history says, a prefix of the body from there, and all of it after an empty read; they fill the
      buffers offered, or reach the end of the body. */
  method Perform(body: seq<byte>, ops: seq<Op>) returns (handed: seq<byte>, at: nat, last: nat)
    requires InBody(body, ops)
    ensures handed == Sent(body, ops)
    ensures LastSeek(ops) <= |body| && handed <= body[LastSeek(ops)..] && at == LastSeek(ops) + |handed|
    ensures |handed| <= Offered(ops)
    ensures NoWrap(ops) ==> |handed| == Offered(ops) || at == |body|
    ensures AskedLast(ops) && last == 0 ==> handed == body[LastSeek(ops)..]
  {
    var pooh := new MemoryStruct(body);
    handed, last := [], 0;
    for i := 0 to |ops|
      invariant pooh.Valid() && fresh(pooh) && pooh.origin == body && pooh.ops == ops[..i] && handed == pooh.handed
      invariant AskedLast(ops[..i]) && last == 0 ==> pooh.memory == |body|
    {
      assert ops[..i + 1] == ops[..i] + [ops[i]];
      match ops[i] {
        case Read(itemSize, count) =>
          var ptr := new byte[itemSize * count](_ => 0);
          last := pooh.Read(ptr, itemSize, count);
          handed := handed + ptr[..last];
        case Seek(offset) =>
          pooh.Seek(offset);
          handed := [];
      }
    }
    assert ops[..|ops|] == ops;
    AskedIsOffered(ops);
    at := pooh.memory;
  }
}
