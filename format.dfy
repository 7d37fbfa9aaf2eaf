/**
 * The parts of Go's `fmt` formatting the core relies on: a byte string
 * printed as text (`%s`, `%v`, `%c`) and a decimal integer (`%d`).
 */
module Format {
  import opened Outcomes

  /** A byte of a Go `[]byte` or `string`. */
  type byte = b: int | 0 <= b < 256

  /** Bytes printed as text: byte b becomes the character with code b. */
  function Chars(bs: seq<byte>): string
  {
    seq(|bs|, i requires 0 <= i < |bs| => bs[i] as char)
  }

  /** Printing loses nothing: two byte strings print alike only when they are equal. */
  lemma CharsInjective(a: seq<byte>, b: seq<byte>)
    ensures Chars(a) == Chars(b) <==> a == b
  {
    if Chars(a) == Chars(b) {
      assert |a| == |Chars(a)| == |b|;
      forall i | 0 <= i < |a|
        ensures a[i] == b[i]
      {
        assert Chars(a)[i] == Chars(b)[i];
      }
    }
  }

  predicate IsDigitChar(c: char)
  {
    '0' <= c <= '9'
  }

  function DigitChar(d: nat): (c: char)
    requires d < 10
    ensures IsDigitChar(c) && c as int - '0' as int == d
  {
    ('0' as int + d) as char
  }

  /** The decimal digits of n, most significant first, without leading zeros. */
  function Digits(n: nat): (s: string)
    ensures 1 <= |s|
    ensures forall i :: 0 <= i < |s| ==> IsDigitChar(s[i])
    ensures |s| > 1 ==> s[0] != '0'
    decreases n
  {
    if n < 10 then [DigitChar(n)] else Digits(n / 10) + [DigitChar(n % 10)]
  }

  /** `%d`: an optional minus sign, then the digits of the magnitude. */
  function Decimal(n: int): string
  {
    if n < 0 then "-" + Digits(-n) else Digits(n)
  }

  /** The number a string of decimal digits denotes. */
  function DigitsValue(s: string): nat
    requires forall i :: 0 <= i < |s| ==> IsDigitChar(s[i])
  {
    if s == [] then 0
    else
      var last := s[|s| - 1];
      assert IsDigitChar(last);
      DigitsValue(s[..|s| - 1]) * 10 + (last as int - '0' as int)
  }

  /** Reading back what `%d` printed for a non-negative number yields that number. */
  lemma {:induction false} DigitsRoundTrip(n: nat)
    ensures DigitsValue(Digits(n)) == n
    decreases n
  {
    if n >= 10 {
      DigitsRoundTrip(n / 10);
      var s := Digits(n);
      assert s[..|s| - 1] == Digits(n / 10);
    }
  }

  /** The longest prefix of s made of decimal digits. */
  function LeadingDigits(s: string): (d: string)
    ensures |d| <= |s| && d == s[..|d|]
    ensures forall i :: 0 <= i < |d| ==> IsDigitChar(d[i])
    ensures |d| < |s| ==> !IsDigitChar(s[|d|])
  {
    if s == [] || !IsDigitChar(s[0]) then [] else [s[0]] + LeadingDigits(s[1..])
  }

  lemma {:induction false} LeadingDigitsOf(d: string, rest: string)
    requires forall i :: 0 <= i < |d| ==> IsDigitChar(d[i])
    requires rest != [] && !IsDigitChar(rest[0])
    ensures LeadingDigits(d + rest) == d
    decreases |d|
  {
    if d != [] {
      assert (d + rest)[1..] == d[1..] + rest;
      LeadingDigitsOf(d[1..], rest);
    }
  }

  /** Reads the decimal number that follows prefix at the start of s. */
  function ReadNumberAfter(prefix: string, s: string): Option<nat>
  {
    if |s| < |prefix| || s[..|prefix|] != prefix then None
    else
      var d := LeadingDigits(s[|prefix|..]);
      if d == [] then None else Some(DigitsValue(d))
  }

  /** What `%d` printed after a prefix and before a non-digit is read back. */
  lemma ReadNumberAfterDigits(prefix: string, n: nat, rest: string)
    requires rest != [] && !IsDigitChar(rest[0])
    ensures ReadNumberAfter(prefix, prefix + Digits(n) + rest) == Some(n)
  {
    var s := prefix + Digits(n) + rest;
    assert s[..|prefix|] == prefix;
    assert s[|prefix|..] == Digits(n) + rest;
    LeadingDigitsOf(Digits(n), rest);
    DigitsRoundTrip(n);
  }

  /** Reads the integer, with an optional minus sign, that follows prefix at the start of s. */
  function ReadIntAfter(prefix: string, s: string): Option<int>
  {
    var negative := |s| > |prefix| && s[|prefix|] == '-';
    var m := ReadNumberAfter(if negative then prefix + "-" else prefix, s);
    if m.None? then None
    else if negative then Some(-(m.value as int))
    else Some(m.value as int)
  }

  /** What `%d` printed after a prefix and before a non-digit is read back, sign included. */
  lemma DecimalRoundTrip(prefix: string, n: int, rest: string)
    requires rest != [] && !IsDigitChar(rest[0])
    ensures ReadIntAfter(prefix, prefix + Decimal(n) + rest) == Some(n)
  {
    if n < 0 {
      NegativeRoundTrip(prefix, n, rest);
    } else {
      NonNegativeRoundTrip(prefix, n, rest);
    }
  }

  lemma NegativeRoundTrip(prefix: string, n: int, rest: string)
    requires n < 0 && rest != [] && !IsDigitChar(rest[0])
    ensures ReadIntAfter(prefix, prefix + Decimal(n) + rest) == Some(n)
  {
    var d := Digits(-n);
    assert Decimal(n) == "-" + d;
    var s := prefix + Decimal(n) + rest;
    assert prefix + ("-" + d) == (prefix + "-") + d;
    assert s == (prefix + "-") + d + rest;
    assert |s| > |prefix| && s[|prefix|] == '-';
    ReadNumberAfterDigits(prefix + "-", -n, rest);
    assert ReadNumberAfter(prefix + "-", s) == Some(-n);
  }

  lemma NonNegativeRoundTrip(prefix: string, n: int, rest: string)
    requires n >= 0 && rest != [] && !IsDigitChar(rest[0])
    ensures ReadIntAfter(prefix, prefix + Decimal(n) + rest) == Some(n)
  {
    var s := prefix + Decimal(n) + rest;
    assert s == prefix + Digits(n) + rest;
    assert |s| > |prefix| && s[|prefix|] == Digits(n)[0] != '-';
    ReadNumberAfterDigits(prefix, n, rest);
  }
}
