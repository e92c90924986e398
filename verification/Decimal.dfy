/**
 Decimal text: std::to_string on integers, and strtoll in base 10
 (section 7.22.1.4 of ISO/IEC 9899:2011).  Cache keys, cached totals, request
 counts and SQL result fields all travel as decimal text.
 */
module Decimal {

  const INT64_MIN: int := -0x8000_0000_0000_0000
  const INT64_MAX: int := 0x7fff_ffff_ffff_ffff

  type int64 = x: int | INT64_MIN <= x <= INT64_MAX

  predicate IsDigit(c: char) {
    '0' <= c <= '9'
  }

  predicate IsSpace(c: char) {
    c == ' ' || c == '\t' || c == '\n' || c == '\r' || c == '\U{0B}' || c == '\U{0C}'
  }

  function DigitValue(c: char): nat
    requires IsDigit(c)
  {
    c as int - '0' as int
  }

  function DigitChar(d: nat): (c: char)
    requires d < 10
    ensures IsDigit(c) && DigitValue(c) == d
  {
    ('0' as int + d) as char
  }

  predicate AllDigits(s: string) {
    forall i :: 0 <= i < |s| ==> IsDigit(s[i])
  }

  /** std::to_string on a non-negative integer. */
  function NatText(n: nat): (s: string)
    ensures s != [] && AllDigits(s)
  {
    if n < 10 then [DigitChar(n)] else NatText(n / 10) + [DigitChar(n % 10)]
  }

  /** std::to_string. */
  function Text(n: int): string {
    if n < 0 then ['-'] + NatText(-n) else NatText(n)
  }

  function SkipSpace(s: string): string {
    if s != [] && IsSpace(s[0]) then SkipSpace(s[1..]) else s
  }

  /** The value of the longest digit prefix of `s`, continuing from `acc`. */
  function ReadDigits(s: string, acc: nat): nat {
    if s == [] || !IsDigit(s[0]) then acc else ReadDigits(s[1..], acc * 10 + DigitValue(s[0]))
  }

  /** The integer a string starts with, before any range check. */
  function ReadInt(s: string): int {
    var t := SkipSpace(s);
    if t != [] && t[0] == '-' then 0 - ReadDigits(t[1..], 0)
    else if t != [] && t[0] == '+' then ReadDigits(t[1..], 0)
    else ReadDigits(t, 0)
  }

  /** strtoll(s, nullptr, 10): out-of-range values saturate. */
  function Strtoll(s: string): int64 {
    var n := ReadInt(s);
    if n < INT64_MIN then INT64_MIN else if n > INT64_MAX then INT64_MAX else n
  }

  lemma {:induction false} ReadDigitsSnoc(s: string, c: char, acc: nat)
    requires AllDigits(s) && IsDigit(c)
    ensures ReadDigits(s + [c], acc) == ReadDigits(s, acc) * 10 + DigitValue(c)
  {
    if s == [] {
      assert ([c])[1..] == [];
    } else {
      assert (s + [c])[1..] == s[1..] + [c];
      ReadDigitsSnoc(s[1..], c, acc * 10 + DigitValue(s[0]));
    }
  }

  lemma {:induction false} ReadNatText(n: nat)
    ensures ReadDigits(NatText(n), 0) == n
  {
    if n < 10 {
      ReadDigitsSnoc([], DigitChar(n), 0);
      assert [] + [DigitChar(n)] == NatText(n);
    } else {
      ReadNatText(n / 10);
      ReadDigitsSnoc(NatText(n / 10), DigitChar(n % 10), 0);
    }
  }

  /** Printing then reading gives the integer back, whatever its size. */
  lemma ReadBack(n: int)
    ensures ReadInt(Text(n)) == n
  {
    if n < 0 {
      ReadNatText(-n);
      assert Text(n)[1..] == NatText(-n);
    } else {
      ReadNatText(n);
      assert IsDigit(NatText(n)[0]);
    }
  }

  /** to_string followed by strtoll is the identity exactly on the int64 range, both ends included. */
  lemma StrtollRoundTrip(n: int)
    ensures Strtoll(Text(n)) == n <==> INT64_MIN <= n <= INT64_MAX
  {
    ReadBack(n);
  }

  /** Reading digits stops at the first character that is none. */
  lemma {:induction false} ReadDigitsUpTo(s: string, rest: string, acc: nat)
    requires AllDigits(s) && (rest == "" || !IsDigit(rest[0]))
    ensures ReadDigits(s + rest, acc) == ReadDigits(s, acc)
  {
    if s == "" {
      assert s + rest == rest;
    } else {
      assert (s + rest)[1..] == s[1..] + rest;
      ReadDigitsUpTo(s[1..], rest, acc * 10 + DigitValue(s[0]));
    }
  }

  lemma {:induction false} SkipSpaceAll(blank: string, s: string)
    requires forall i :: 0 <= i < |blank| ==> blank[i] in " \t\n\r"
    requires s == "" || !IsSpace(s[0])
    ensures SkipSpace(blank + s) == s
  {
    if blank == "" {
      assert blank + s == s;
    } else {
      assert (blank + s)[1..] == blank[1..] + s;
      SkipSpaceAll(blank[1..], s);
    }
  }

  lemma ReadIntUpTo(n: int, rest: string)
    requires rest == "" || rest[0] < '0' || '9' < rest[0]
    ensures ReadInt(Text(n) + rest) == n
  {
    var t := NatText(if n < 0 then -n else n);
    ReadDigitsUpTo(t, rest, 0);
    ReadNatText(if n < 0 then -n else n);
    if n < 0 {
      assert Text(n) + rest == ['-'] + (t + rest);
      assert (Text(n) + rest)[1..] == t + rest;
    } else {
      assert IsDigit((t + rest)[0]);
    }
  }

  /** strtoll skips blanks, reads the longest integer, ignores what follows, and saturates at 64 bits. */
  lemma StrtollReads(blank: string, n: int, rest: string)
    requires forall i :: 0 <= i < |blank| ==> blank[i] in " \t\n\r"
    requires rest == "" || rest[0] < '0' || '9' < rest[0]
    ensures Strtoll(blank + Text(n) + rest)
            == if n < -9_223_372_036_854_775_808 then -9_223_372_036_854_775_808
               else if n > 9_223_372_036_854_775_807 then 9_223_372_036_854_775_807
               else n
  {
    var s := Text(n) + rest;
    assert blank + Text(n) + rest == blank + s;
    SkipSpaceAll(blank, s);
    SkipSpaceAll("", s);
    assert "" + s == s;
    ReadIntUpTo(n, rest);
  }

  lemma TextInjective(a: int, b: int)
    ensures Text(a) == Text(b) <==> a == b
  {
    ReadBack(a);
    ReadBack(b);
  }

  lemma TextIsNulFree(n: int)
    ensures '\0' !in Text(n)
  {
  }

  /** Decimal text never contains the separator used inside list-cache keys. */
  lemma TextHasNoColon(n: int)
    ensures ':' !in Text(n)
  {
  }
}
