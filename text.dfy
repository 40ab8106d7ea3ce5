/** String helpers for the parts of Python's str the server relies on:
    substring containment, prefixes and suffixes, str.join and str(int). */
module Text {
  import opened Wrappers

  /** `needle in hay`, Python's substring test. */
  ghost predicate Contains(hay: string, needle: string)
  {
    exists pre: string, post: string :: hay == pre + needle + post
  }

  predicate StartsWith(s: string, prefix: string)
  {
    |prefix| <= |s| && s[..|prefix|] == prefix
  }

  predicate EndsWith(s: string, suffix: string)
  {
    |suffix| <= |s| && s[|s| - |suffix|..] == suffix
  }

  lemma ContainsIntro(pre: string, needle: string, post: string)
    ensures Contains(pre + needle + post, needle)
  {
  }

  lemma ContainsStart(needle: string, post: string)
    ensures Contains(needle + post, needle)
  {
    assert needle + post == "" + needle + post;
  }

  lemma ContainsEnd(pre: string, needle: string)
    ensures Contains(pre + needle, needle)
  {
    assert pre + needle == pre + needle + "";
  }

  lemma ContainsPrepend(pre: string, s: string, needle: string)
    requires Contains(s, needle)
    ensures Contains(pre + s, needle)
  {
    var p, q :| s == p + needle + q;
    assert pre + s == (pre + p) + needle + q;
  }

  lemma ContainsAppend(s: string, post: string, needle: string)
    requires Contains(s, needle)
    ensures Contains(s + post, needle)
  {
    var p, q :| s == p + needle + q;
    assert s + post == p + needle + (q + post);
  }

  /** Containment is transitive: a string containing `mid` contains all of `mid`'s substrings. */
  lemma ContainsTrans(hay: string, mid: string, needle: string)
    requires Contains(hay, mid) && Contains(mid, needle)
    ensures Contains(hay, needle)
  {
    var p1, q1 :| hay == p1 + mid + q1;
    var p2, q2 :| mid == p2 + needle + q2;
    assert hay == (p1 + p2) + needle + (q2 + q1);
  }

  lemma StartsWithAppend(s: string, t: string)
    ensures StartsWith(s + t, s)
  {
    assert (s + t)[..|s|] == s;
  }

  lemma EndsWithAppend(s: string, t: string)
    ensures EndsWith(s + t, t)
  {
    assert (s + t)[|s|..] == t;
  }

  lemma StartsWithPrefix(s: string, t: string, prefix: string)
    requires StartsWith(s, prefix)
    ensures StartsWith(s + t, prefix)
  {
    assert (s + t)[..|prefix|] == s[..|prefix|];
  }

  lemma EndsWithExtend(s: string, suffix: string, t: string)
    requires EndsWith(s, suffix)
    ensures EndsWith(s + t, suffix + t)
  {
    assert (s + t)[|s + t| - |suffix + t|..] == s[|s| - |suffix|..] + t;
  }

  lemma StartsWithContains(s: string, prefix: string)
    requires StartsWith(s, prefix)
    ensures Contains(s, prefix)
  {
    assert s == "" + prefix + s[|prefix|..];
  }

  lemma EndsWithContains(s: string, suffix: string)
    requires EndsWith(s, suffix)
    ensures Contains(s, suffix)
  {
    assert s == s[..|s| - |suffix|] + suffix + "";
  }

  /** `sep.join(parts)`. */
  function Join(sep: string, parts: seq<string>): string
  {
    if |parts| == 0 then ""
    else if |parts| == 1 then parts[0]
    else parts[0] + sep + Join(sep, parts[1..])
  }

  /** Joining one more part adds a separator and that part at the end. */
  lemma {:induction false} JoinSnoc(sep: string, parts: seq<string>, last: string)
    requires |parts| > 0
    ensures Join(sep, parts + [last]) == Join(sep, parts) + sep + last
  {
    if |parts| == 1 {
      assert parts + [last] == [parts[0], last];
      assert [parts[0], last][1..] == [last];
    } else {
      assert (parts + [last])[1..] == parts[1..] + [last];
      JoinSnoc(sep, parts[1..], last);
    }
  }

  function DigitChar(d: nat): (c: char)
    requires d < 10
    ensures '0' <= c <= '9'
  {
    (48 + d) as char
  }

  predicate IsDigit(c: char)
  {
    '0' <= c <= '9'
  }

  function DigitValue(c: char): (d: nat)
    requires IsDigit(c)
    ensures d < 10 && DigitChar(d) == c
  {
    (c as int - 48) as nat
  }

  /** `str(n)` for a non-negative integer: its decimal digits, most significant first. */
  function Decimal(n: nat): (s: string)
    ensures |s| > 0
    ensures forall i :: 0 <= i < |s| ==> IsDigit(s[i])
    ensures n < 10 <==> |s| == 1
  {
    if n < 10 then [DigitChar(n)] else Decimal(n / 10) + [DigitChar(n % 10)]
  }

  /** Reads a non-empty string of decimal digits as a number; anything else is None. */
  function ParseDecimal(s: string): Option<nat>
  {
    if |s| == 0 || !IsDigit(s[|s| - 1]) then None
    else if |s| == 1 then Some(DigitValue(s[0]))
    else match ParseDecimal(s[..|s| - 1])
      case Some(high) => Some(high * 10 + DigitValue(s[|s| - 1]))
      case None => None
  }

  /** Reading back `str(n)` gives `n`. */
  lemma {:induction false} ParseDecimalOfDecimal(n: nat)
    ensures ParseDecimal(Decimal(n)) == Some(n)
  {
    if n >= 10 {
      var high := Decimal(n / 10);
      var s := high + [DigitChar(n % 10)];
      assert s[..|s| - 1] == high;
      ParseDecimalOfDecimal(n / 10);
      assert DigitValue(s[|s| - 1]) == n % 10;
    }
  }
}
