/**
 The few Python string operations the monitor relies on, on `seq<char>`:
 substring membership (`sub in s`), `str.split` on one character,
 `str(n)` for integers and a strict form of `int(text)`.
 */
module Text {
  import opened Wrappers

  // ---------------------------------------------------------------------------
  // Substrings

  /** `sub` occupies positions i .. i + |sub| of `s`. */
  predicate OccursAt(s: string, sub: string, i: nat)
  {
    i + |sub| <= |s| && s[i..i + |sub|] == sub
  }

  /** Python's `sub in s` for two strings. */
  predicate Contains(s: string, sub: string)
    ensures sub == [] ==> Contains(s, sub)
    ensures Contains(s, sub) ==> |sub| <= |s|
  {
    assert sub == [] ==> OccursAt(s, sub, 0);
    exists i: nat | i <= |s| :: OccursAt(s, sub, i)
  }

  /** Text placed anywhere in a string is found in it. */
  lemma ContainsInfix(a: string, sub: string, b: string)
    ensures Contains(a + sub + b, sub)
  {
    assert OccursAt(a + sub + b, sub, |a|);
  }

  /** Python's `s.endswith(suffix)`. */
  predicate EndsWith(s: string, suffix: string)
  {
    |suffix| <= |s| && s[|s| - |suffix|..] == suffix
  }

  // ---------------------------------------------------------------------------
  // str.split(sep) and its inverse, sep.join(parts)

  /**
   Python's `s.split(sep)` for a one-character separator: the text between
   consecutive separators, so always one more part than there are separators.
   */
  function Split(s: string, sep: char): (parts: seq<string>)
    ensures |parts| == multiset(s)[sep] + 1
    decreases |s|
  {
    if |s| == 0 then [""]
    else
      var rest := Split(s[1..], sep);
      assert s == [s[0]] + s[1..];
      if s[0] == sep then [""] + rest
      else [[s[0]] + rest[0]] + rest[1..]
  }

  /** Python's `sep.join(parts)`. */
  function Join(parts: seq<string>, sep: char): string
    decreases |parts|
  {
    if |parts| == 0 then ""
    else if |parts| == 1 then parts[0]
    else parts[0] + [sep] + Join(parts[1..], sep)
  }

  /** Prepending a character to the first part prepends it to the joined text. */
  lemma JoinExtendFirst(c: char, parts: seq<string>, sep: char)
    requires |parts| > 0
    ensures Join([[c] + parts[0]] + parts[1..], sep) == [c] + Join(parts, sep)
  {
  }

  /** Splitting loses nothing: joining the parts back gives the original text. */
  lemma {:induction false} SplitJoin(s: string, sep: char)
    ensures Join(Split(s, sep), sep) == s
    decreases |s|
  {
    if |s| > 0 {
      SplitJoin(s[1..], sep);
      var rest := Split(s[1..], sep);
      if s[0] == sep {
        assert ([""] + rest)[1..] == rest;
      } else {
        JoinExtendFirst(s[0], rest, sep);
      }
      assert s == [s[0]] + s[1..];
    }
  }

  /** No part of a split contains the separator. */
  lemma {:induction false} SplitPartsFree(s: string, sep: char, i: nat)
    requires i < |Split(s, sep)|
    ensures sep !in Split(s, sep)[i]
    decreases |s|
  {
    if |s| > 0 {
      var rest := Split(s[1..], sep);
      if s[0] == sep {
        if i > 0 {
          SplitPartsFree(s[1..], sep, i - 1);
        }
      } else if i == 0 {
        SplitPartsFree(s[1..], sep, 0);
      } else {
        SplitPartsFree(s[1..], sep, i);
      }
    }
  }

  /** Text without the separator is a single part. */
  lemma {:induction false} SplitWithoutSeparator(a: string, sep: char)
    requires sep !in a
    ensures Split(a, sep) == [a]
    decreases |a|
  {
    if |a| > 0 {
      SplitWithoutSeparator(a[1..], sep);
      assert [a[0]] + a[1..] == a;
    }
  }

  /** A separator after separator-free text `a` closes the first part. */
  lemma {:induction false} SplitAfterPrefix(a: string, sep: char, b: string)
    requires sep !in a
    ensures Split(a + [sep] + b, sep) == [a] + Split(b, sep)
    decreases |a|
  {
    var s := a + [sep] + b;
    if |a| == 0 {
      assert s == [sep] + b;
      assert s[1..] == b;
    } else {
      assert s[1..] == a[1..] + [sep] + b;
      SplitAfterPrefix(a[1..], sep, b);
      assert [a[0]] + a[1..] == a;
    }
  }

  // ---------------------------------------------------------------------------
  // Decimal integers: str(n) and int(text)

  predicate IsDigit(c: char)
  {
    '0' <= c <= '9'
  }

  predicate AllDigits(s: string)
  {
    forall i :: 0 <= i < |s| ==> IsDigit(s[i])
  }

  function DigitChar(d: nat): (c: char)
    requires d < 10
    ensures IsDigit(c)
  {
    ('0' as int + d) as char
  }

  function DigitValue(c: char): (d: nat)
    requires IsDigit(c)
    ensures d < 10 && DigitChar(d) == c
  {
    c as int - '0' as int
  }

  /** The decimal digits of `n`, most significant first, without leading zeros. */
  function NatToDigits(n: nat): (s: string)
    ensures |s| > 0 && AllDigits(s)
    ensures s[0] == '0' ==> n == 0 && s == "0"
    decreases n
  {
    if n < 10 then [DigitChar(n)] else NatToDigits(n / 10) + [DigitChar(n % 10)]
  }

  /** The value of a string of decimal digits (leading zeros allowed). */
  function DigitsValue(s: string): nat
    requires AllDigits(s)
    decreases |s|
  {
    if |s| == 0 then 0 else DigitsValue(s[..|s| - 1]) * 10 + DigitValue(s[|s| - 1])
  }

  /** Python's `str(i)` for an integer. */
  function IntToString(i: int): (s: string)
    ensures |s| > 0 && (s[0] == '-' <==> i < 0)
    ensures var digits := if i < 0 then s[1..] else s;
            |digits| > 0 && AllDigits(digits) && (digits[0] == '0' ==> digits == "0")
  {
    if i < 0 then "-" + NatToDigits(-i) else NatToDigits(i)
  }

  /** What Python's `int(text)` accepts here: an optional sign, then at least one ASCII digit. */
  predicate IsIntLiteral(s: string)
  {
    |s| > 0 &&
    var digits := if s[0] == '-' || s[0] == '+' then s[1..] else s;
    |digits| > 0 && AllDigits(digits)
  }

  /** Python's `int(text)`, failing (None) where Python raises ValueError. */
  function ParseInt(s: string): (r: Option<int>)
    ensures r.Some? <==> IsIntLiteral(s)
  {
    if |s| == 0 then None
    else
      var negative := s[0] == '-';
      var digits := if s[0] == '-' || s[0] == '+' then s[1..] else s;
      if |digits| == 0 || !AllDigits(digits) then None
      else
        var magnitude: int := DigitsValue(digits);
        Some(if negative then -magnitude else magnitude)
  }

  lemma {:induction false} DigitsRoundTrip(n: nat)
    ensures DigitsValue(NatToDigits(n)) == n
    decreases n
  {
    if n >= 10 {
      DigitsRoundTrip(n / 10);
      var s := NatToDigits(n);
      assert s[..|s| - 1] == NatToDigits(n / 10);
      assert s[|s| - 1] == DigitChar(n % 10);
    }
  }

  /** `int(str(i)) == i` for every integer. */
  lemma IntRoundTrip(i: int)
    ensures ParseInt(IntToString(i)) == Some(i)
  {
    var s := IntToString(i);
    if i < 0 {
      DigitsRoundTrip(-i);
      assert s[1..] == NatToDigits(-i);
    } else {
      DigitsRoundTrip(i);
    }
  }

  /** Different integers print differently. */
  lemma IntToStringInjective(a: int, b: int)
    requires IntToString(a) == IntToString(b)
    ensures a == b
  {
    IntRoundTrip(a);
    IntRoundTrip(b);
  }

  /** A printed integer holds only digits and minus signs. */
  lemma IntToStringCharacters(i: int, c: char)
    requires c in IntToString(i)
    ensures IsDigit(c) || c == '-'
  {
  }
}
