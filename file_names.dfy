/**
 * Scan file names: `arb_opportunities_YYYYMMDD_HHMMSS`. The weekly summary splits a file's stem
 * at `_` and reads the third piece as a date; a name without one is skipped.
 */
module FileNames {
  import opened Optional

  /** The pieces of s between occurrences of sep, empty pieces included (Python's `str.split(sep)`). */
  function Split(s: string, sep: char): (fields: seq<string>)
    ensures |fields| >= 1
    ensures forall i :: 0 <= i < |fields| ==> sep !in fields[i]
  {
    if s == [] then [""]
    else
      var rest := Split(s[1..], sep);
      if s[0] == sep then [""] + rest else [[s[0]] + rest[0]] + rest[1..]
  }

  /** The pieces glued back together with sep between them (Python's `sep.join`). */
  function Join(fields: seq<string>, sep: char): string
    requires |fields| >= 1
  {
    if |fields| == 1 then fields[0] else fields[0] + [sep] + Join(fields[1..], sep)
  }

  /** Splitting loses nothing: joining the pieces gives the string back. */
  lemma {:induction false} JoinSplit(s: string, sep: char)
    ensures Join(Split(s, sep), sep) == s
  {
    if s != [] {
      var rest := Split(s[1..], sep);
      JoinSplit(s[1..], sep);
      if s[0] == sep {
        assert ([""] + rest)[1..] == rest;
      } else if |rest| > 1 {
        var fields := [[s[0]] + rest[0]] + rest[1..];
        assert fields[1..] == rest[1..];
        assert Join(rest, sep) == rest[0] + [sep] + Join(rest[1..], sep);
      }
    }
  }

  /** A piece without the separator followed by the separator is split off whole. */
  lemma {:induction false} SplitAfter(a: string, sep: char, b: string)
    requires sep !in a
    ensures Split(a + [sep] + b, sep) == [a] + Split(b, sep)
  {
    if a == [] {
      assert [] + [sep] + b == [sep] + b;
      assert ([sep] + b)[1..] == b;
    } else {
      assert (a + [sep] + b)[1..] == a[1..] + [sep] + b;
      SplitAfter(a[1..], sep, b);
      assert [a[0]] + a[1..] == a;
    }
  }

  predicate IsDigit(c: char)
  {
    '0' <= c <= '9'
  }

  predicate AllDigits(s: string)
  {
    forall i :: 0 <= i < |s| ==> IsDigit(s[i])
  }

  function Pow10(k: nat): (p: int)
    ensures p >= 1
  {
    if k == 0 then 1 else 10 * Pow10(k - 1)
  }

  /** The number a string of decimal digits spells. */
  function NumberOf(s: string): (n: int)
    requires AllDigits(s)
    ensures 0 <= n < Pow10(|s|)
  {
    if s == [] then 0 else NumberOf(s[..|s| - 1]) * 10 + (s[|s| - 1] as int - '0' as int)
  }

  /** n written with exactly `width` decimal digits, zero-padded. */
  function Digits(n: int, width: nat): (s: string)
    requires 0 <= n < Pow10(width)
    ensures |s| == width && AllDigits(s)
  {
    if width == 0 then "" else Digits(n / 10, width - 1) + [('0' as int + n % 10) as char]
  }

  /** Reading back what Digits writes gives the number. */
  lemma {:induction false} NumberOfDigits(n: int, width: nat)
    requires 0 <= n < Pow10(width)
    ensures NumberOf(Digits(n, width)) == n
  {
    if width > 0 {
      var s := Digits(n, width);
      var q, d := n / 10, n % 10;
      var init := Digits(q, width - 1);
      NumberOfDigits(q, width - 1);
      assert s == init + [('0' as int + d) as char];
      assert s[..|s| - 1] == init;
      assert NumberOf(s) == NumberOf(init) * 10 + d;
      assert q * 10 + d == n;
    }
  }

  /** Writing back what NumberOf reads gives the digits. */
  lemma {:induction false} DigitsNumberOf(s: string)
    requires AllDigits(s)
    ensures Digits(NumberOf(s), |s|) == s
  {
    if s != [] {
      var init := s[..|s| - 1];
      DigitsNumberOf(init);
      var n := NumberOf(s);
      assert n / 10 == NumberOf(init);
      assert n % 10 == s[|s| - 1] as int - '0' as int;
      assert s == init + [s[|s| - 1]];
    }
  }

  /** A calendar date written as the number YYYYMMDD: year at least 1, month 1-12, day 1-31. */
  predicate ValidDate(ymd: int)
  {
    ymd / 10000 >= 1 && 1 <= ymd / 100 % 100 <= 12 && 1 <= ymd % 100 <= 31
  }

  /**
   * The date in the third `_`-separated piece of a file stem, as YYYYMMDD; None when there is no
   * third piece or it is not an eight-digit date.
   */
  function FileDate(stem: string): (d: Option<int>)
    ensures d.Some? ==> ValidDate(d.value) && d.value < Pow10(8)
  {
    var fields := Split(stem, '_');
    if |fields| < 3 then None
    else
      var piece := fields[2];
      if |piece| == 8 && AllDigits(piece) && ValidDate(NumberOf(piece)) then Some(NumberOf(piece)) else None
  }

  /** The scanner's own names, `<a>_<b>_<YYYYMMDD>_<rest>`, carry their date. */
  lemma FileDateOfName(a: string, b: string, ymd: int, rest: string)
    requires '_' !in a && '_' !in b
    requires 0 <= ymd < Pow10(8) && ValidDate(ymd)
    ensures FileDate(a + "_" + (b + "_" + (Digits(ymd, 8) + "_" + rest))) == Some(ymd)
  {
    var d := Digits(ymd, 8);
    assert '_' !in d by {
      assert AllDigits(d);
    }
    SplitAfter(d, '_', rest);
    SplitAfter(b, '_', d + "_" + rest);
    SplitAfter(a, '_', b + "_" + (d + "_" + rest));
    NumberOfDigits(ymd, 8);
  }
}
