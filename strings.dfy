/**
 * The Python string built-ins the bot uses to template its ffmpeg command:
 * `str.replace("'", "\\'")`, `str(int)`, `int(str)`, `";".join(...)` and
 * `str.split(":", 1)`, each stated over `seq<char>`.
 */
module Strings {
  import opened Wrappers

  // ---------------------------------------------------------------------------
  // Quote escaping: text.replace("'", r"\'")
  // ---------------------------------------------------------------------------

  /** Every single quote becomes backslash-quote; every other character is copied. */
  function Escape(s: string): string
  {
    if s == [] then []
    else (if s[0] == '\'' then "\\'" else [s[0]]) + Escape(s[1..])
  }

  /** The number of single quotes in `s`. */
  function QuoteCount(s: string): nat
  {
    if s == [] then 0
    else (if s[0] == '\'' then 1 else 0) + QuoteCount(s[1..])
  }

  /** Every quote in `r` has a backslash right before it, so none can close a quoted argument. */
  predicate QuotesEscaped(r: string)
  {
    forall i :: 0 <= i < |r| && r[i] == '\'' ==> 0 < i && r[i - 1] == '\\'
  }

  /** The inverse of Escape: each backslash-quote pair becomes a quote again. */
  function Unescape(r: string): string
    decreases |r|
  {
    if r == [] then []
    else if |r| >= 2 && r[0] == '\\' && r[1] == '\'' then "'" + Unescape(r[2..])
    else [r[0]] + Unescape(r[1..])
  }

  /** Escaping adds exactly one character per quote. */
  lemma {:induction false} EscapeLength(s: string)
    ensures |Escape(s)| == |s| + QuoteCount(s)
  {
    if s != [] {
      EscapeLength(s[1..]);
    }
  }

  /** No quote survives escaping without its backslash. */
  lemma {:induction false} EscapeQuotesEscaped(s: string)
    ensures QuotesEscaped(Escape(s))
  {
    if s != [] {
      var tail := Escape(s[1..]);
      EscapeQuotesEscaped(s[1..]);
      var head: string := if s[0] == '\'' then "\\'" else [s[0]];
      var r := head + tail;
      assert Escape(s) == r;
      forall i | 0 <= i < |r| && r[i] == '\''
        ensures 0 < i && r[i - 1] == '\\'
      {
        if i >= |head| {
          assert tail[i - |head|] == '\'';
          if i - |head| == 0 {
            assert false;
          } else {
            assert r[i - 1] == tail[i - |head| - 1];
          }
        }
      }
    }
  }

  /** Escaping loses nothing: removing the inserted backslashes gives back the text, in order. */
  lemma {:induction false} UnescapeEscape(s: string)
    ensures Unescape(Escape(s)) == s
  {
    if s != [] {
      var tail := Escape(s[1..]);
      UnescapeEscape(s[1..]);
      EscapeQuotesEscaped(s[1..]);
      assert tail != [] ==> tail[0] != '\'';
      if s[0] == '\'' {
        var r := "\\'" + tail;
        assert Escape(s) == r;
        assert r[2..] == tail;
      } else {
        var r := [s[0]] + tail;
        assert Escape(s) == r;
        assert r[1..] == tail;
        assert !(|r| >= 2 && r[0] == '\\' && r[1] == '\'');
      }
    }
  }

  /** Escaping works character by character, so it distributes over concatenation. */
  lemma {:induction false} EscapeAppend(a: string, b: string)
    ensures Escape(a + b) == Escape(a) + Escape(b)
  {
    if a != [] {
      assert (a + b)[0] == a[0];
      assert (a + b)[1..] == a[1..] + b;
      EscapeAppend(a[1..], b);
    } else {
      assert a + b == b;
    }
  }

  /** Text without quotes passes through unchanged. */
  lemma {:induction false} EscapeNoQuotes(s: string)
    requires '\'' !in s
    ensures Escape(s) == s
  {
    if s != [] {
      assert '\'' !in s[1..] by {
        forall c | c in s[1..] ensures c in s { }
      }
      EscapeNoQuotes(s[1..]);
    }
  }

  /** A single quote inside quote-free text gains one backslash, so O'Brien becomes O\'Brien. */
  lemma EscapeOneQuote(a: string, b: string)
    requires '\'' !in a && '\'' !in b
    ensures Escape(a + "'" + b) == a + "\\'" + b
  {
    assert a + "'" + b == a + ("'" + b);
    EscapeAppend(a, "'" + b);
    EscapeAppend("'", b);
    EscapeNoQuotes(a);
    EscapeNoQuotes(b);
    assert Escape("'") == "\\'" + Escape([]);
  }

  // ---------------------------------------------------------------------------
  // Decimal text: str(int) and int(str)
  // ---------------------------------------------------------------------------

  predicate IsDigit(c: char)
  {
    '0' <= c <= '9'
  }

  predicate AllDigits(s: string)
  {
    forall i :: 0 <= i < |s| ==> IsDigit(s[i])
  }

  function DigitChar(d: nat): (c: char)
    requires d < 10
    ensures IsDigit(c)
  {
    "0123456789"[d]
  }

  function DigitValue(c: char): nat
    requires IsDigit(c)
  {
    (c as int) - ('0' as int)
  }

  /** The value of a string of decimal digits, most significant first. */
  function DigitsValue(s: string): nat
    requires AllDigits(s)
    decreases |s|
  {
    if s == [] then 0 else DigitsValue(s[..|s| - 1]) * 10 + DigitValue(s[|s| - 1])
  }

  /** Python's str(n) for a non-negative n: shortest decimal, no sign. */
  function NatToString(n: nat): string
    decreases n
  {
    if n < 10 then [DigitChar(n)] else NatToString(n / 10) + [DigitChar(n % 10)]
  }

  /** Python's str(i): a minus sign before the digits of a negative number. */
  function IntToString(i: int): string
  {
    if i < 0 then "-" + NatToString(-i) else NatToString(i)
  }

  /**
   * Python's int(s), restricted to an optional sign followed by one or more
   * ASCII digits; None is the ValueError.
   */
  function ParseInt(s: string): Option<int>
  {
    var signed := |s| > 0 && (s[0] == '-' || s[0] == '+');
    var digits := if signed then s[1..] else s;
    if |digits| > 0 && AllDigits(digits) then
      var magnitude: int := DigitsValue(digits);
      Some(if signed && s[0] == '-' then -magnitude else magnitude)
    else None
  }

  /** The digits of n are non-empty decimal digits whose value is n. */
  lemma {:induction false} NatToStringDigits(n: nat)
    ensures |NatToString(n)| > 0 && AllDigits(NatToString(n))
    ensures DigitsValue(NatToString(n)) == n
  {
    if n >= 10 {
      NatToStringDigits(n / 10);
      var s := NatToString(n);
      assert s == NatToString(n / 10) + [DigitChar(n % 10)];
      assert s[..|s| - 1] == NatToString(n / 10);
      assert DigitValue(DigitChar(n % 10)) == n % 10;
    } else {
      assert DigitValue(DigitChar(n)) == n;
      assert NatToString(n)[..0] == [];
    }
  }

  /** int(str(i)) == i for every integer. */
  lemma ParseIntToString(i: int)
    ensures ParseInt(IntToString(i)) == Some(i)
  {
    var n: nat := if i < 0 then -i else i;
    NatToStringDigits(n);
    var d := NatToString(n);
    assert IsDigit(d[0]);
    if i < 0 {
      assert ("-" + d)[1..] == d;
    }
  }

  /** Text that is not a number is rejected. */
  lemma ParseIntRejects(s: string)
    requires exists i :: 0 <= i < |s| && !IsDigit(s[i]) && (i > 0 || (s[i] != '-' && s[i] != '+'))
    ensures ParseInt(s) == None
  {
    var i :| 0 <= i < |s| && !IsDigit(s[i]) && (i > 0 || (s[i] != '-' && s[i] != '+'));
    if |s| > 0 && (s[0] == '-' || s[0] == '+') {
      assert s[1..][i - 1] == s[i];
    }
  }

  // ---------------------------------------------------------------------------
  // ";".join(parts) and s.split(":", 1)
  // ---------------------------------------------------------------------------

  /** Python's sep.join(parts). */
  function Join(sep: string, parts: seq<string>): string
  {
    if parts == [] then ""
    else if |parts| == 1 then parts[0]
    else parts[0] + sep + Join(sep, parts[1..])
  }

  /** Python's s.split(c, 1) for a string that contains c: the text before and after the first c. */
  function SplitFirst(s: string, c: char): (string, string)
    requires c in s
  {
    if s[0] == c then ([], s[1..])
    else
      var rest := SplitFirst(s[1..], c);
      ([s[0]] + rest.0, rest.1)
  }

  /** Splitting at the first separator loses nothing, and the left part has no separator. */
  lemma {:induction false} SplitFirstParts(s: string, c: char)
    requires c in s
    ensures SplitFirst(s, c).0 + [c] + SplitFirst(s, c).1 == s
    ensures c !in SplitFirst(s, c).0
  {
    if s[0] != c {
      assert c in s[1..] by {
        var k :| 0 <= k < |s| && s[k] == c;
        assert s[1..][k - 1] == c;
      }
      SplitFirstParts(s[1..], c);
      assert s == [s[0]] + s[1..];
    }
  }
}
