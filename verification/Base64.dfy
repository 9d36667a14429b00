/** The Base64 encoder: a pointer loop into a buffer whose size is computed in wrapping
    64-bit `size_t` arithmetic, against decoding by section 4 of RFC 4648. */
module Base64 {
  import opened Wrappers

  const TWO_64: nat := 0x1_0000_0000_0000_0000
  const TWO_62: nat := 0x4000_0000_0000_0000

  newtype byte = b: int | 0 <= b < 256

  // ------------------------------------------------------------------ buffer size

  /** `olen`, every operation reduced modulo 2^64 as `size_t` does. */
  function BufferSize(len: nat): (olen: nat)
    requires len < TWO_64
    ensures olen < TWO_64
  {
    var base := ((len * 4) % TWO_64 / 3 + 4) % TWO_64;
    var lined := (base + base / 72) % TWO_64;
    (lined + 1) % TWO_64
  }

  /** The characters written, without the terminator. */
  function EncodedSize(len: nat): nat {
    4 * ((len + 2) / 3)
  }

  lemma EncodedSizeIs(groups: nat, left: nat)
    requires left < 3
    ensures EncodedSize(3 * groups + left) == 4 * groups + if left == 0 then 0 else 4
  {
    assert (3 * groups + left + 2) / 3 == groups + (left + 2) / 3;
  }

  lemma NoWrap(base: nat)
    requires 2 * base + 1 < TWO_64
    ensures ((base + base / 72) % TWO_64 + 1) % TWO_64 == base + base / 72 + 1
  {
    assert base / 72 <= base;
  }

  lemma ThirdsAtLeast(n: nat, k: nat)
    requires 3 * k <= n
    ensures k <= n / 3
  {
  }

  lemma SmallLengthDoesNotWrap(len: nat)
    requires len < TWO_62
    ensures var base := len * 4 / 3 + 4; BufferSize(len) == base + base / 72 + 1
  {
    var base := len * 4 / 3 + 4;
    assert (len * 4) % TWO_64 == len * 4;
    assert base % TWO_64 == base;
    NoWrap(base);
  }

  lemma SmallLengthFits(len: nat)
    requires len < TWO_62
    ensures BufferSize(len) > len && EncodedSize(len) + 1 <= BufferSize(len)
  {
    var groups, left := len / 3, len % 3;
    EncodedSizeIs(groups, left);
    SmallLengthDoesNotWrap(len);
    ThirdsAtLeast(len * 4, 4 * groups);
    ThirdsAtLeast(len * 4, len);
  }

  /** How often 2^62 fits into a length. */
  function Quarters(len: nat): nat {
    if len < TWO_62 then 0 else if len < 2 * TWO_62 then 1 else if len < 3 * TWO_62 then 2 else 3
  }

  lemma ModOf(k: nat, y: nat)
    requires k <= 3 && y < TWO_64
    ensures (y + k * TWO_64) % TWO_64 == y
  {
    if k == 1 {
      assert (y + TWO_64) % TWO_64 == y;
    } else if k == 2 {
      assert (y + 2 * TWO_64) % TWO_64 == y;
    } else if k == 3 {
      assert (y + 3 * TWO_64) % TWO_64 == y;
    }
  }

  lemma SizeFrom(len: nat, m: nat)
    requires len < TWO_64 && m == (len * 4) % TWO_64
    ensures var base := m / 3 + 4; BufferSize(len) == base + base / 72 + 1
  {
    var base := m / 3 + 4;
    assert base % TWO_64 == base;
    NoWrap(base);
  }

  lemma FourThirds(low: nat, base: nat, lines: nat)
    requires low < TWO_62 && base <= low * 4 / 3 + 4 && 72 * lines <= base
    ensures base + lines + 1 < low + TWO_62
  {
    assert 3 * (base - 4) <= 4 * low;
  }

  lemma LargeLengthWraps(len: nat)
    requires TWO_62 <= len < TWO_64
    ensures BufferSize(len) < len
  {
    var k := Quarters(len);
    var low := len - k * TWO_62;
    assert low < TWO_62 && len >= low + TWO_62 && len * 4 == low * 4 + k * TWO_64;
    ModOf(k, low * 4);
    SizeFrom(len, low * 4);
    var base := low * 4 / 3 + 4;
    FourThirds(low, base, base / 72);
  }

  /** The overflow check refuses exactly the lengths from 2^62 on; below that the buffer
      holds the whole encoding and its terminator. */
  lemma SizeCheckIsExact(len: nat)
    requires len < TWO_64
    ensures BufferSize(len) < len <==> len >= TWO_62
    ensures len < TWO_62 ==> EncodedSize(len) + 1 <= BufferSize(len)
  {
    if len < TWO_62 {
      SmallLengthFits(len);
    } else {
      LargeLengthWraps(len);
    }
  }

  // --------------------------------------------------------------------- alphabet

  /** Table 1 of RFC 4648. */
  function Letter(v: nat): char
    requires v < 64
  {
    if v < 26 then ('A' as int + v) as char
    else if v < 52 then ('a' as int + (v - 26)) as char
    else if v < 62 then ('0' as int + (v - 52)) as char
    else if v == 62 then '+' else '/'
  }

  function ValueOf(c: char): (v: Option<nat>)
    ensures v.Some? ==> v.value < 64
  {
    if 'A' <= c <= 'Z' then Some(c as int - 'A' as int)
    else if 'a' <= c <= 'z' then Some(c as int - 'a' as int + 26)
    else if '0' <= c <= '9' then Some(c as int - '0' as int + 52)
    else if c == '+' then Some(62)
    else if c == '/' then Some(63)
    else None
  }

  lemma LetterReadsBack(v: nat)
    requires v < 64
    ensures ValueOf(Letter(v)) == Some(v) && Letter(v) != '='
  {
  }

  // --------------------------------------------------------------- decoding (RFC)

  function Byte(v: nat): byte
    requires v < 256
  {
    v as byte
  }

  /** One final quantum with two padding characters: 8 bits, the rest must be zero. */
  function DecodeOne(a: nat, b: nat): Option<seq<byte>>
    requires a < 64 && b < 64
  {
    if b % 16 != 0 then None else Some([Byte(a * 4 + b / 16)])
  }

  function DecodeTwo(a: nat, b: nat, c: nat): Option<seq<byte>>
    requires a < 64 && b < 64 && c < 64
  {
    if c % 4 != 0 then None else Some([Byte(a * 4 + b / 16), Byte(b % 16 * 16 + c / 4)])
  }

  function DecodeThree(a: nat, b: nat, c: nat, d: nat): seq<byte>
    requires a < 64 && b < 64 && c < 64 && d < 64
  {
    [Byte(a * 4 + b / 16), Byte(b % 16 * 16 + c / 4), Byte(c % 4 * 64 + d)]
  }

  /** One quantum: its bytes, and whether it is padded and therefore the last one. */
  datatype Quantum = Invalid | Full(bytes: seq<byte>) | Padded(bytes: seq<byte>)

  function PaddedQuantum(bytes: Option<seq<byte>>): Quantum {
    if bytes.Some? then Padded(bytes.value) else Invalid
  }

  function ReadQuantum(s: string): Quantum
    requires |s| == 4
  {
    match (ValueOf(s[0]), ValueOf(s[1]), ValueOf(s[2]), ValueOf(s[3]))
    case (Some(a), Some(b), Some(c), Some(d)) => Full(DecodeThree(a, b, c, d))
    case (Some(a), Some(b), Some(c), None) => if s[3] == '=' then PaddedQuantum(DecodeTwo(a, b, c)) else Invalid
    case (Some(a), Some(b), None, None) =>
      if s[2] == '=' && s[3] == '=' then PaddedQuantum(DecodeOne(a, b)) else Invalid
    case _ => Invalid
  }

  function Then(front: Option<seq<byte>>, bytes: seq<byte>): Option<seq<byte>> {
    if front.Some? then Some(front.value + bytes) else None
  }

  /** Quanta of four alphabet characters each, without padding. */
  function DecodeFull(s: string): Option<seq<byte>>
    decreases |s|
  {
    if s == [] then Some([])
    else if |s| < 4 then None
    else
      match ReadQuantum(s[|s| - 4..])
      case Full(bytes) => Then(DecodeFull(s[..|s| - 4]), bytes)
      case _ => None
  }

  /** Strict decoding: quanta of four characters, of which the last may be padded. */
  function Decode(s: string): Option<seq<byte>> {
    if s == [] then Some([])
    else if |s| < 4 then None
    else
      match ReadQuantum(s[|s| - 4..])
      case Full(bytes) => Then(DecodeFull(s[..|s| - 4]), bytes)
      case Padded(bytes) => Then(DecodeFull(s[..|s| - 4]), bytes)
      case Invalid => None
  }

  // --------------------------------------------------------------------- encoding

  /** The four characters of a full group; the source's shifts and masks of bytes written as
      division and remainder. */
  function Group(x: byte, y: byte, z: byte): string {
    var (p, q, r) := (x as int, y as int, z as int);
    [Letter(p / 4), Letter(p % 4 * 16 + q / 16), Letter(q % 16 * 4 + r / 64), Letter(r % 64)]
  }

  function TailOne(x: byte): string {
    var p := x as int;
    [Letter(p / 4), Letter(p % 4 * 16), '=', '=']
  }

  function TailTwo(x: byte, y: byte): string {
    var (p, q) := (x as int, y as int);
    [Letter(p / 4), Letter(p % 4 * 16 + q / 16), Letter(q % 16 * 4), '=']
  }

  function Concat<T>(parts: seq<seq<T>>): seq<T> {
    if parts == [] then [] else Concat(parts[..|parts| - 1]) + parts[|parts| - 1]
  }

  /** The quanta of the first `groups` full groups. */
  function Quanta(src: seq<byte>, groups: nat): (quanta: seq<string>)
    requires 3 * groups <= |src|
    ensures |quanta| == groups
  {
    if groups == 0 then []
    else Quanta(src, groups - 1) + [Group(src[3 * groups - 3], src[3 * groups - 2], src[3 * groups - 1])]
  }

  function EncodeGroups(src: seq<byte>, groups: nat): string
    requires 3 * groups <= |src|
  {
    Concat(Quanta(src, groups))
  }

  /** The text of the one or two bytes behind the last full group. */
  function EncodeTail(tail: seq<byte>): string
    requires |tail| < 3
  {
    if |tail| == 0 then "" else if |tail| == 1 then TailOne(tail[0]) else TailTwo(tail[0], tail[1])
  }

  function Encode(src: seq<byte>): string {
    EncodeGroups(src, |src| / 3) + EncodeTail(src[|src| / 3 * 3..])
  }

  /** Two bit fields packed into one character value come apart again. */
  lemma Unpack(hi: nat, lo: nat)
    ensures lo < 16 ==> (hi * 16 + lo) / 16 == hi && (hi * 16 + lo) % 16 == lo
    ensures lo < 4 ==> (hi * 4 + lo) / 4 == hi && (hi * 4 + lo) % 4 == lo
  {
  }

  lemma {:induction false} ThreeBytes(p: nat, q: nat, r: nat)
    requires p < 256 && q < 256 && r < 256
    ensures DecodeThree(p / 4, p % 4 * 16 + q / 16, q % 16 * 4 + r / 64, r % 64) == [Byte(p), Byte(q), Byte(r)]
  {
    Unpack(p % 4, q / 16);
    Unpack(q % 16, r / 64);
  }

  lemma {:induction false} GroupIsRead(x: byte, y: byte, z: byte)
    ensures ReadQuantum(Group(x, y, z)) == Full([x, y, z])
  {
    var (p, q, r) := (x as int, y as int, z as int);
    ThreeBytes(p, q, r);
    LetterReadsBack(p / 4);
    LetterReadsBack(p % 4 * 16 + q / 16);
    LetterReadsBack(q % 16 * 4 + r / 64);
    LetterReadsBack(r % 64);
  }

  lemma {:induction false} TailOneIsRead(x: byte)
    ensures ReadQuantum(TailOne(x)) == Padded([x])
  {
    Unpack(x as int % 4, 0);
    LetterReadsBack(x as int / 4);
    LetterReadsBack(x as int % 4 * 16);
  }

  lemma {:induction false} TailTwoIsRead(x: byte, y: byte)
    ensures ReadQuantum(TailTwo(x, y)) == Padded([x, y])
  {
    var (p, q) := (x as int, y as int);
    Unpack(p % 4, q / 16);
    Unpack(q % 16, 0);
    assert DecodeTwo(p / 4, p % 4 * 16 + q / 16, q % 16 * 4) == Some([x, y]);
    LetterReadsBack(p / 4);
    LetterReadsBack(p % 4 * 16 + q / 16);
    LetterReadsBack(q % 16 * 4);
  }

  lemma {:induction false} LastQuantum(front: string, four: string)
    requires |four| == 4
    ensures var s := front + four; s[..|s| - 4] == front && s[|s| - 4..] == four
  {
  }

  /** Quanta that are read back one by one are read back together. */
  lemma {:induction false} QuantaReadBack(quanta: seq<string>, parts: seq<seq<byte>>)
    requires ReadAs(quanta, parts)
    ensures DecodeFull(Concat(quanta)) == Some(Concat(parts)) && Decode(Concat(quanta)) == Some(Concat(parts))
    decreases |quanta|
  {
    if quanta != [] {
      var n := |quanta| - 1;
      QuantaReadBack(quanta[..n], parts[..n]);
      LastQuantum(Concat(quanta[..n]), quanta[n]);
    }
  }

  lemma {:induction false} QuantaTailReadsBack(quanta: seq<string>, parts: seq<seq<byte>>, four: string, tail: seq<byte>)
    requires ReadAs(quanta, parts)
    requires |four| == 4 && ReadQuantum(four) == Padded(tail)
    ensures Decode(Concat(quanta) + four) == Some(Concat(parts) + tail)
  {
    QuantaReadBack(quanta, parts);
    LastQuantum(Concat(quanta), four);
  }

  function Triples(src: seq<byte>, groups: nat): (parts: seq<seq<byte>>)
    requires 3 * groups <= |src|
    ensures |parts| == groups
  {
    if groups == 0 then [] else Triples(src, groups - 1) + [src[3 * groups - 3..3 * groups]]
  }

  lemma {:induction false} TriplesMakeUp(src: seq<byte>, groups: nat)
    requires 3 * groups <= |src|
    ensures Concat(Triples(src, groups)) == src[..3 * groups]
    decreases groups
  {
    if groups > 0 {
      TriplesMakeUp(src, groups - 1);
      var parts := Triples(src, groups);
      assert parts[..groups - 1] == Triples(src, groups - 1);
      assert src[..3 * groups - 3] + src[3 * groups - 3..3 * groups] == src[..3 * groups];
    }
  }

  lemma {:induction false} QuantumAt(src: seq<byte>, groups: nat, i: nat)
    requires 3 * groups <= |src| && i < groups
    ensures |Quanta(src, groups)[i]| == 4 && ReadQuantum(Quanta(src, groups)[i]) == Full(Triples(src, groups)[i])
    decreases groups
  {
    if i == groups - 1 {
      var x, y, z := src[3 * groups - 3], src[3 * groups - 2], src[3 * groups - 1];
      GroupIsRead(x, y, z);
      assert src[3 * groups - 3..3 * groups] == [x, y, z];
    } else {
      QuantumAt(src, groups - 1, i);
    }
  }

  lemma {:induction false} TailIsRead(tail: seq<byte>)
    requires 0 < |tail| < 3
    ensures |EncodeTail(tail)| == 4 && ReadQuantum(EncodeTail(tail)) == Padded(tail)
  {
    if |tail| == 1 {
      TailOneIsRead(tail[0]);
      assert tail == [tail[0]];
    } else {
      TailTwoIsRead(tail[0], tail[1]);
      assert tail == [tail[0], tail[1]];
    }
  }

  predicate ReadAs(quanta: seq<string>, parts: seq<seq<byte>>) {
    && |quanta| == |parts|
    && forall i :: 0 <= i < |quanta| ==> |quanta[i]| == 4 && ReadQuantum(quanta[i]) == Full(parts[i])
  }

  lemma {:induction false} QuantaAreRead(src: seq<byte>, groups: nat)
    requires 3 * groups <= |src|
    ensures ReadAs(Quanta(src, groups), Triples(src, groups))
  {
    forall i | 0 <= i < groups
      ensures |Quanta(src, groups)[i]| == 4 && ReadQuantum(Quanta(src, groups)[i]) == Full(Triples(src, groups)[i])
    {
      QuantumAt(src, groups, i);
    }
  }

  lemma {:induction false} PartsMakeUp(src: seq<byte>)
    ensures Concat(Triples(src, |src| / 3)) + src[|src| / 3 * 3..] == src
  {
    TriplesMakeUp(src, |src| / 3);
  }

  lemma {:induction false} QuantaAndTailReadBack(quanta: seq<string>, parts: seq<seq<byte>>, tail: seq<byte>)
    requires ReadAs(quanta, parts) && |tail| < 3
    ensures Decode(Concat(quanta) + EncodeTail(tail)) == Some(Concat(parts) + tail)
  {
    if |tail| == 0 {
      QuantaReadBack(quanta, parts);
      assert Concat(quanta) + "" == Concat(quanta) && Concat(parts) + tail == Concat(parts);
    } else {
      TailIsRead(tail);
      QuantaTailReadsBack(quanta, parts, EncodeTail(tail), tail);
    }
  }

  /** Decoding what was encoded gives the input back, whatever its length. */
  lemma {:induction false} DecodeOfEncode(src: seq<byte>)
    ensures Decode(Encode(src)) == Some(src)
  {
    var groups := |src| / 3;
    assert ReadAs(Quanta(src, groups), Triples(src, groups)) by {
      QuantaAreRead(src, groups);
    }
    QuantaAndTailReadBack(Quanta(src, groups), Triples(src, groups), src[groups * 3..]);
    PartsMakeUp(src);
  }

  lemma {:induction false} GroupsGrow(src: seq<byte>, groups: nat)
    requires 3 * groups + 3 <= |src|
    ensures EncodeGroups(src, groups + 1) ==
            EncodeGroups(src, groups) + Group(src[3 * groups], src[3 * groups + 1], src[3 * groups + 2])
  {
    assert Quanta(src, groups + 1)[..groups] == Quanta(src, groups);
  }

  // --------------------------------------------------------------------- the loop

  /** Put four characters at `pos`. */
  method Put(out: array<char>, pos: nat, four: string)
    requires |four| == 4 && pos + 4 <= out.Length
    modifies out
    ensures out[..pos + 4] == old(out[..pos]) + four
  {
    out[pos] := four[0];
    out[pos + 1] := four[1];
    out[pos + 2] := four[2];
    out[pos + 3] := four[3];
  }

  /** One turn of the loop over full groups. */
  method PutGroup(src: seq<byte>, in_: nat, out: array<char>, pos: nat, ghost groups: nat)
    requires in_ == 3 * groups && in_ + 3 <= |src| && pos == 4 * groups && pos + 4 <= out.Length
    requires out[..pos] == EncodeGroups(src, groups)
    modifies out
    ensures out[..pos + 4] == EncodeGroups(src, groups + 1)
  {
    GroupsGrow(src, groups);
    Put(out, pos, Group(src[in_], src[in_ + 1], src[in_ + 2]));
  }

  /** The loop over full groups. */
  method PutGroups(src: seq<byte>, out: array<char>) returns (in_: nat, pos: nat)
    requires |src| / 3 * 4 <= out.Length
    modifies out
    ensures in_ == |src| / 3 * 3 && pos == |src| / 3 * 4
    ensures out[..pos] == EncodeGroups(src, |src| / 3)
  {
    in_, pos := 0, 0;
    ghost var groups, all := 0, |src| / 3;
    assert 3 * all <= |src| < 3 * all + 3 && 4 * all <= out.Length;
    while |src| - in_ >= 3
      invariant 0 <= groups <= all && in_ == 3 * groups && pos == 4 * groups
      invariant out[..pos] == EncodeGroups(src, groups)
    {
      PutGroup(src, in_, out, pos, groups);
      pos := pos + 4;
      in_ := in_ + 3;
      groups := groups + 1;
    }
  }

  /** The one or two bytes behind the last full group, with their padding. */
  method PutTail(src: seq<byte>, in_: nat, out: array<char>, pos: nat) returns (end: nat)
    requires in_ == |src| / 3 * 3 && pos == |src| / 3 * 4 && EncodedSize(|src|) < out.Length
    requires out[..pos] == EncodeGroups(src, |src| / 3)
    modifies out
    ensures end == EncodedSize(|src|) && out[..end] == Encode(src)
  {
    EncodedSizeIs(|src| / 3, |src| % 3);
    end := pos;
    if |src| - in_ != 0 {
      if |src| - in_ == 1 {
        Put(out, pos, TailOne(src[in_]));
      } else {
        Put(out, pos, TailTwo(src[in_], src[in_ + 1]));
      }
      end := pos + 4;
    }
  }

  /** `base64_encode`: NULL for a length the size check refuses; otherwise every write,
      the terminator included, is inside the buffer, and the text decodes to the input. */
  method Base64Encode(src: seq<byte>) returns (out: array?<char>, outLen: nat)
    requires |src| < TWO_64
    ensures out == null <==> |src| >= TWO_62
    ensures out != null ==> fresh(out) && out.Length == BufferSize(|src|)
    ensures out != null ==> outLen == EncodedSize(|src|) < out.Length && out[outLen] == '\0'
    ensures out != null ==> out[..outLen] == Encode(src) && Decode(out[..outLen]) == Some(src)
  {
    var len := |src|;
    var olen := ((len * 4) % TWO_64 / 3 + 4) % TWO_64;
    olen := (olen + olen / 72) % TWO_64;
    olen := (olen + 1) % TWO_64;
    assert olen == BufferSize(len);
    SizeCheckIsExact(len);
    if olen < len {
      return null, 0;
    }
    var buffer := new char[olen];
    EncodedSizeIs(len / 3, len % 3);
    var in_, pos := PutGroups(src, buffer);
    pos := PutTail(src, in_, buffer, pos);
    buffer[pos] := '\0';
    DecodeOfEncode(src);
    out, outLen := buffer, pos;
  }
}
