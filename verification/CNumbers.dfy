/** The C library's `strtoull` and `strtoll` in base 0, and decimal printing. */
module CNumbers {
  const TWO_64: int := 0x1_0000_0000_0000_0000
  const TWO_63: int := 0x8000_0000_0000_0000

  predicate IsSpace(c: char) {
    c == ' ' || '\t' <= c <= '\r'
  }

  /** The digit `c` stands for in bases up to 36, or 36 when it is none. */
  function DigitValue(c: char): (d: nat)
    ensures d <= 36
  {
    if '0' <= c <= '9' then c as int - '0' as int
    else if 'a' <= c <= 'z' then c as int - 'a' as int + 10
    else if 'A' <= c <= 'Z' then c as int - 'A' as int + 10
    else 36
  }

  function SkipSpace(s: string): string {
    if s != [] && IsSpace(s[0]) then SkipSpace(s[1..]) else s
  }

  function SkipSign(s: string): string {
    if s != [] && (s[0] == '+' || s[0] == '-') then s[1..] else s
  }

  /** The longest prefix of digits below `radix`. */
  function Digits(s: string, radix: nat): string {
    if s != [] && DigitValue(s[0]) < radix then [s[0]] + Digits(s[1..], radix) else ""
  }

  function Magnitude(digits: string, radix: nat): nat {
    if digits == [] then 0
    else Magnitude(digits[..|digits| - 1], radix) * radix + DigitValue(digits[|digits| - 1])
  }

  predicate HexPrefix(s: string) {
    |s| >= 3 && s[0] == '0' && (s[1] == 'x' || s[1] == 'X') && DigitValue(s[2]) < 16
  }

  function Radix(s: string): nat {
    if HexPrefix(s) then 16 else if s != [] && s[0] == '0' then 8 else 10
  }

  function Body(s: string): string {
    if HexPrefix(s) then s[2..] else s
  }

  /** Whether any characters are converted, that is whether `*endptr` moves off `nptr`. */
  predicate Converts(s: string) {
    var number := SkipSign(SkipSpace(s));
    number != [] && '0' <= number[0] <= '9'
  }

  predicate Negative(s: string) {
    var signed := SkipSpace(s);
    signed != [] && signed[0] == '-'
  }

  function Absolute(s: string): nat {
    var number := SkipSign(SkipSpace(s));
    Magnitude(Digits(Body(number), Radix(number)), Radix(number))
  }

  /** `strtoull(s, _, 0)`: saturates at ULLONG_MAX, a minus sign negates modulo 2^64. */
  function StrToUll(s: string): (n: nat)
    ensures n < TWO_64
  {
    if !Converts(s) then 0
    else if Absolute(s) >= TWO_64 then TWO_64 - 1
    else if Negative(s) then (TWO_64 - Absolute(s)) % TWO_64
    else Absolute(s)
  }

  /** `strtoll(s, _, 0)`: saturates at LLONG_MIN and LLONG_MAX. */
  function StrToLl(s: string): (n: int)
    ensures -TWO_63 <= n < TWO_63
  {
    if !Converts(s) then 0
    else if Negative(s) then (if Absolute(s) > TWO_63 then -TWO_63 else 0 - Absolute(s))
    else if Absolute(s) >= TWO_63 then TWO_63 - 1
    else Absolute(s)
  }

  // ----------------------------------------------------------------- decimal

  function DigitChar(d: nat): (c: char)
    requires d < 10
    ensures '0' <= c <= '9' && DigitValue(c) == d
  {
    (d + '0' as int) as char
  }

  function Decimal(n: nat): (s: string)
    ensures s != []
    ensures forall i :: 0 <= i < |s| ==> '0' <= s[i] <= '9'
    ensures s[0] == '0' ==> n == 0 && s == "0"
  {
    if n < 10 then [DigitChar(n)] else Decimal(n / 10) + [DigitChar(n % 10)]
  }

  lemma AllDigits(s: string, radix: nat)
    requires forall i :: 0 <= i < |s| ==> DigitValue(s[i]) < radix
    ensures Digits(s, radix) == s
  {
  }

  lemma {:induction false} DecimalMagnitude(n: nat)
    ensures Magnitude(Decimal(n), 10) == n
  {
    var s := Decimal(n);
    if n < 10 {
      assert s[..0] == "";
    } else {
      DecimalMagnitude(n / 10);
      assert s[..|s| - 1] == Decimal(n / 10);
    }
  }

  /** The digits of a printed number are read back, whatever stands in front of them. */
  lemma {:induction false} DecimalReads(n: nat)
    ensures var s := Decimal(n); Body(s) == s && Magnitude(Digits(s, Radix(s)), Radix(s)) == n && Digits(s, Radix(s)) != ""
  {
    var s := Decimal(n);
    if s[0] == '0' {
      assert s == "0" && Digits(s, 8) == ['0'] + Digits(s[1..], 8);
      assert Digits(s, 8) == "0";
      assert Magnitude("0", 8) == Magnitude("0"[..0], 8) * 8 + 0;
    } else {
      AllDigits(s, 10);
      DecimalMagnitude(n);
    }
  }

  /** A printed number converts to itself, and to the largest number of the type when it is
      too large. */
  lemma {:induction false} DecimalScans(n: nat)
    ensures Converts(Decimal(n))
    ensures StrToUll(Decimal(n)) == if n < 0x1_0000_0000_0000_0000 then n else 0xFFFF_FFFF_FFFF_FFFF
    ensures StrToLl(Decimal(n)) == if n < 0x8000_0000_0000_0000 then n else 0x7FFF_FFFF_FFFF_FFFF
  {
    var s := Decimal(n);
    assert SkipSpace(s) == s && SkipSign(s) == s;
    DecimalReads(n);
  }

  /** With a minus sign it converts to the negative number, or the smallest; unsigned, it is
      negated modulo 2^64 unless it is too large. */
  lemma {:induction false} NegativeScans(n: nat)
    ensures Converts("-" + Decimal(n))
    ensures StrToLl("-" + Decimal(n)) == if n <= 0x8000_0000_0000_0000 then 0 - n else -0x8000_0000_0000_0000
    ensures StrToUll("-" + Decimal(n)) ==
            if n == 0 then 0 else if n < 0x1_0000_0000_0000_0000 then 0x1_0000_0000_0000_0000 - n else 0xFFFF_FFFF_FFFF_FFFF
  {
    var s := "-" + Decimal(n);
    assert s[0] == '-' && s[1..] == Decimal(n);
    assert SkipSpace(s) == s && SkipSign(s) == Decimal(n);
    DecimalReads(n);
  }

  // -------------------------------------------------------------- other notations

  function HexChar(d: nat, upper: bool): (c: char)
    requires d < 16
    ensures DigitValue(c) == d
  {
    if d < 10 then DigitChar(d)
    else match d
         case 10 => if upper then 'A' else 'a'
         case 11 => if upper then 'B' else 'b'
         case 12 => if upper then 'C' else 'c'
         case 13 => if upper then 'D' else 'd'
         case 14 => if upper then 'E' else 'e'
         case _ => if upper then 'F' else 'f'
  }

  /** A number printed in base 8 or 16, without a prefix. */
  function Printed(n: nat, radix: nat, upper: bool): (s: string)
    requires radix == 8 || radix == 16
    ensures s != [] && forall i :: 0 <= i < |s| ==> DigitValue(s[i]) < radix
    decreases n
  {
    if n < radix then [HexChar(n, upper)] else Printed(n / radix, radix, upper) + [HexChar(n % radix, upper)]
  }

  lemma {:induction false} PrintedMagnitude(n: nat, radix: nat, upper: bool)
    requires radix == 8 || radix == 16
    ensures Magnitude(Printed(n, radix, upper), radix) == n
    decreases n
  {
    var s := Printed(n, radix, upper);
    if n < radix {
      assert s[..0] == "";
    } else {
      PrintedMagnitude(n / radix, radix, upper);
      assert s[..|s| - 1] == Printed(n / radix, radix, upper);
    }
  }

  /** Behind 0x a number is read in base 16. */
  lemma {:induction false} HexScans(n: nat, upper: bool)
    requires n < 0x8000_0000_0000_0000
    ensures var s := (if upper then "0X" else "0x") + Printed(n, 16, upper);
            Converts(s) && StrToUll(s) == n && StrToLl(s) == n
  {
    var digits := Printed(n, 16, upper);
    var s := (if upper then "0X" else "0x") + digits;
    assert SkipSpace(s) == s && SkipSign(s) == s && s[2..] == digits && s[2] == digits[0];
    AllDigits(digits, 16);
    PrintedMagnitude(n, 16, upper);
  }

  lemma {:induction false} OctalShape(s: string)
    requires |s| >= 2 && s[0] == '0' && DigitValue(s[1]) < 8
    ensures Converts(s) && !Negative(s) && SkipSign(SkipSpace(s)) == s && Body(s) == s && Radix(s) == 8
  {
  }

  lemma {:induction false} OctalAbsolute(s: string, n: nat)
    requires |s| >= 2 && s[0] == '0' && forall i :: 0 <= i < |s| ==> DigitValue(s[i]) < 8
    requires Magnitude(s, 8) == n && n < 0x8000_0000_0000_0000
    ensures Converts(s) && StrToUll(s) == n && StrToLl(s) == n
  {
    OctalShape(s);
    AllDigits(s, 8);
  }

  /** Behind a zero it is read in base 8. */
  lemma {:induction false} OctalScans(n: nat)
    requires n < 0x8000_0000_0000_0000
    ensures var s := "0" + Printed(n, 8, false); Converts(s) && StrToUll(s) == n && StrToLl(s) == n
  {
    var digits := Printed(n, 8, false);
    PrintedMagnitude(n, 8, false);
    MagnitudeOfZero(digits, 8);
    OctalAbsolute("0" + digits, n);
  }

  lemma {:induction false} MagnitudeOfZero(digits: string, radix: nat)
    ensures Magnitude("0" + digits, radix) == Magnitude(digits, radix)
    decreases |digits|
  {
    var s := "0" + digits;
    if digits == [] {
      assert s == "0" && s[..0] == "";
    } else {
      MagnitudeOfZero(digits[..|digits| - 1], radix);
      assert s[..|s| - 1] == "0" + digits[..|digits| - 1];
    }
  }

  /** Blanks in front do not matter, nor does a plus sign in front of a digit. */
  lemma {:induction false} FrontDoesNotMatter(s: string, blank: char)
    ensures blank in " \t\n\U{B}\U{C}\r" ==>
              Converts([blank] + s) == Converts(s) && StrToUll([blank] + s) == StrToUll(s) && StrToLl([blank] + s) == StrToLl(s)
    ensures s != [] && '0' <= s[0] <= '9' ==> StrToUll("+" + s) == StrToUll(s) && StrToLl("+" + s) == StrToLl(s)
  {
    assert ([blank] + s)[1..] == s && ("+" + s)[1..] == s;
    if blank in " \t\n\U{B}\U{C}\r" {
      assert SkipSpace([blank] + s) == SkipSpace(s);
    }
    if s != [] && '0' <= s[0] <= '9' {
      assert SkipSpace("+" + s) == "+" + s && SkipSpace(s) == s;
    }
  }

  lemma SkipSpaceOfConcat(s: string, t: string)
    requires t != [] && !IsSpace(t[0])
    ensures SkipSpace(s + t) == SkipSpace(s) + t
  {
    if s == [] {
      assert s + t == t;
    } else if IsSpace(s[0]) {
      assert (s + t)[1..] == s[1..] + t;
    }
  }

  /** What follows cannot turn a text into a number when it starts with neither a digit,
      a sign nor a blank. */
  lemma ConversionIsDecidedEarly(s: string, t: string)
    requires t != [] ==> !IsSpace(t[0]) && t[0] != '+' && t[0] != '-' && !('0' <= t[0] <= '9')
    ensures Converts(s + t) == Converts(s)
  {
    if t == [] {
      assert s + t == s;
    } else {
      SkipSpaceOfConcat(s, t);
    }
  }

  // ------------------------------------------------------------------- casts

  /** The cast of a `json_int_t` to `size_t`: a negative number becomes a huge one. */
  function ToSizeT(count: int): nat
    decreases if count < 0 then -count else 0
  {
    if count < 0 then ToSizeT(count + TWO_64) else count
  }

  /** The cast keeps the number modulo 2^64. */
  lemma {:induction false} ToSizeTIsMod(count: int)
    requires -TWO_63 <= count < TWO_63
    ensures ToSizeT(count) == count % TWO_64
  {
    if count < 0 {
      assert ToSizeT(count) == ToSizeT(count + TWO_64) == count + TWO_64;
      assert (count + TWO_64) % TWO_64 == count % TWO_64;
    }
  }
}
