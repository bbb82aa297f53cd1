/**
 * The pieces of Swift string handling that request construction relies on:
 * `joined(separator:)`, splitting at a separator, and the decimal rendering of
 * an `Int` by string interpolation. Each rendering has a parser beside it, so
 * that what a rendered string carries can be stated as a round trip.
 */
module Text {
  import opened Wrappers

  /** Swift's `joined(separator:)` with a one-character separator. */
  function Join(parts: seq<string>, sep: char): string
  {
    if |parts| == 0 then ""
    else if |parts| == 1 then parts[0]
    else parts[0] + [sep] + Join(parts[1..], sep)
  }

  /** Splits at every occurrence of `sep`: the parser that reads back what `Join` (`joined(separator:)`) wrote. */
  function Split(s: string, sep: char): (parts: seq<string>)
    ensures |parts| >= 1
  {
    if |s| == 0 then [""]
    else
      var rest := Split(s[1..], sep);
      if s[0] == sep then [""] + rest else [[s[0]] + rest[0]] + rest[1..]
  }

  /** Splits at the first occurrence of `sep`; `None` when there is none. */
  function SplitAtFirst(s: string, sep: char): (r: Option<(string, string)>)
    ensures r.None? <==> sep !in s
    ensures r.Some? ==> sep !in r.value.0 && r.value.0 + [sep] + r.value.1 == s
  {
    if |s| == 0 then None
    else if s[0] == sep then Some(("", s[1..]))
    else
      match SplitAtFirst(s[1..], sep)
      case None => None
      case Some((front, back)) => Some(([s[0]] + front, back))
  }

  /** A part without the separator splits into itself. */
  lemma {:induction false} SplitWithoutSeparator(p: string, sep: char)
    requires sep !in p
    ensures Split(p, sep) == [p]
  {
    if |p| > 0 {
      SplitWithoutSeparator(p[1..], sep);
      assert [p[0]] + p[1..] == p;
    }
  }

  /** Splitting stops at the first separator after a part that has none. */
  lemma {:induction false} SplitAfterPart(p: string, sep: char, rest: string)
    requires sep !in p
    ensures Split(p + [sep] + rest, sep) == [p] + Split(rest, sep)
  {
    var s := p + [sep] + rest;
    if |p| == 0 {
      assert s[1..] == rest;
    } else {
      assert s[1..] == p[1..] + [sep] + rest;
      SplitAfterPart(p[1..], sep, rest);
      assert [p[0]] + p[1..] == p;
    }
  }

  /** Splitting undoes joining, when no part holds the separator. */
  lemma {:induction false} SplitJoin(parts: seq<string>, sep: char)
    requires |parts| >= 1
    requires forall i :: 0 <= i < |parts| ==> sep !in parts[i]
    ensures Split(Join(parts, sep), sep) == parts
  {
    if |parts| == 1 {
      SplitWithoutSeparator(parts[0], sep);
    } else {
      SplitJoin(parts[1..], sep);
      SplitAfterPart(parts[0], sep, Join(parts[1..], sep));
      assert [parts[0]] + parts[1..] == parts;
    }
  }

  /** Joining undoes splitting, for every string. */
  lemma {:induction false} JoinSplit(s: string, sep: char)
    ensures Join(Split(s, sep), sep) == s
  {
    if |s| > 0 {
      var rest := Split(s[1..], sep);
      JoinSplit(s[1..], sep);
      if s[0] == sep {
        assert s == [sep] + s[1..];
      } else {
        var parts := [[s[0]] + rest[0]] + rest[1..];
        if |rest| == 1 {
          assert rest == [rest[0]];
        } else {
          assert rest == [rest[0]] + rest[1..];
          assert parts[1..] == rest[1..];
        }
      }
    }
  }

  /** Splitting at the first separator recovers a part written before it. */
  lemma {:induction false} SplitAtFirstAfterPart(p: string, sep: char, rest: string)
    requires sep !in p
    ensures SplitAtFirst(p + [sep] + rest, sep) == Some((p, rest))
  {
    var s := p + [sep] + rest;
    if |p| == 0 {
      assert s[1..] == rest;
    } else {
      assert s[1..] == p[1..] + [sep] + rest;
      SplitAtFirstAfterPart(p[1..], sep, rest);
      assert [p[0]] + p[1..] == p;
    }
  }

  predicate IsDigit(c: char) {
    '0' <= c <= '9'
  }

  predicate AllDigits(s: string) {
    forall i :: 0 <= i < |s| ==> IsDigit(s[i])
  }

  function DigitChar(d: int): char
    requires 0 <= d < 10
  {
    ('0' as int + d) as char
  }

  function DigitValue(c: char): int
    requires IsDigit(c)
  {
    c as int - '0' as int
  }

  /** The decimal digits of `n`, most significant first, without leading zeros. */
  function NatString(n: nat): (s: string)
    ensures |s| >= 1 && AllDigits(s)
  {
    if n < 10 then [DigitChar(n)] else NatString(n / 10) + [DigitChar(n % 10)]
  }

  /** Swift's `"\(n)"` for an `Int`: a minus sign for negative values, then the digits. */
  function DecimalString(n: int): string
  {
    if n < 0 then "-" + NatString(-n) else NatString(n)
  }

  /** The value of a string of decimal digits. */
  function DigitsValue(s: string): nat
    requires AllDigits(s)
  {
    if |s| == 0 then 0 else DigitsValue(s[..|s| - 1]) * 10 + DigitValue(s[|s| - 1])
  }

  /** Reads back an optionally signed decimal integer. */
  function ParseDecimal(s: string): Option<int>
  {
    if |s| > 1 && s[0] == '-' && AllDigits(s[1..]) then Some(0 - DigitsValue(s[1..]) as int)
    else if |s| > 0 && AllDigits(s) then Some(DigitsValue(s))
    else None
  }

  lemma {:induction false} NatStringValue(n: nat)
    ensures DigitsValue(NatString(n)) == n
  {
    if n >= 10 {
      var s := NatString(n);
      NatStringValue(n / 10);
      assert s[..|s| - 1] == NatString(n / 10);
    }
  }

  /** The decimal rendering of an integer reads back as that integer. */
  lemma DecimalRoundTrip(n: int)
    ensures ParseDecimal(DecimalString(n)) == Some(n)
  {
    if n < 0 {
      var digits := NatString(-n);
      var s := "-" + digits;
      assert s[0] == '-' && s[1..] == digits;
      NatStringValue(-n);
      assert ParseDecimal(s) == Some(0 - (-n));
    } else {
      NatStringValue(n);
    }
  }
}
