/** The few Python string operations the modelled code relies on, over
    `string` (a sequence of code points): `strip`, `rstrip`, `split`,
    `join`, the substring test `in`, `rfind`, slicing, `str(int)` and
    `int(str)`. */
module Text {
  import opened Wrappers

  /** Python's `str.isspace` for the characters up to U+00FF. */
  predicate IsSpace(c: char)
  {
    c == ' ' || ('\t' <= c <= '\r') || ('\U{1C}' <= c <= '\U{1F}') || c == '\U{85}' || c == '\U{A0}'
  }

  predicate IsNewline(c: char) { c == '\n' }

  predicate IsParen(c: char) { c == '(' || c == ')' }

  predicate IsDigit(c: char) { '0' <= c <= '9' }

  /** Drops the longest suffix whose characters all satisfy `drop`. */
  function TrimEnd(s: string, drop: char -> bool): string
  {
    if s != [] && drop(s[|s| - 1]) then TrimEnd(s[..|s| - 1], drop) else s
  }

  /** What `TrimEnd` keeps is a prefix that does not end in a dropped
      character, and everything after it is dropped. */
  lemma {:induction false} TrimEndSpec(s: string, drop: char -> bool)
    ensures TrimEnd(s, drop) <= s
    ensures |TrimEnd(s, drop)| > 0 ==> !drop(TrimEnd(s, drop)[|TrimEnd(s, drop)| - 1])
    ensures forall i :: |TrimEnd(s, drop)| <= i < |s| ==> drop(s[i])
  {
    if s != [] && drop(s[|s| - 1]) {
      TrimEndSpec(s[..|s| - 1], drop);
    }
  }

  /** Drops the longest prefix whose characters all satisfy `drop`. */
  function TrimStart(s: string, drop: char -> bool): string
  {
    if s != [] && drop(s[0]) then TrimStart(s[1..], drop) else s
  }

  /** What `TrimStart` keeps is a suffix that does not start with a dropped
      character, and everything before it is dropped. */
  lemma {:induction false} TrimStartSpec(s: string, drop: char -> bool)
    ensures |TrimStart(s, drop)| <= |s| && TrimStart(s, drop) == s[|s| - |TrimStart(s, drop)|..]
    ensures |TrimStart(s, drop)| > 0 ==> !drop(TrimStart(s, drop)[0])
    ensures forall i :: 0 <= i < |s| - |TrimStart(s, drop)| ==> drop(s[i])
  {
    if s != [] && drop(s[0]) {
      TrimStartSpec(s[1..], drop);
    }
  }

  function StripBy(s: string, drop: char -> bool): string
  {
    TrimStart(TrimEnd(s, drop), drop)
  }

  /** `s.strip()` */
  function Strip(s: string): string { StripBy(s, IsSpace) }

  /** `s.strip("()")` */
  function StripParens(s: string): string { StripBy(s, IsParen) }

  /** `s.rstrip("\n")`: removes every trailing newline. */
  function RStripNewlines(s: string): string { TrimEnd(s, IsNewline) }

  lemma {:induction false} TrimEndDropped(s: string, tail: string, drop: char -> bool)
    requires forall i :: 0 <= i < |tail| ==> drop(tail[i])
    ensures TrimEnd(s + tail, drop) == TrimEnd(s, drop)
  {
    if tail != [] {
      var t := tail[..|tail| - 1];
      assert (s + tail)[..|s + tail| - 1] == s + t;
      TrimEndDropped(s, t, drop);
    } else {
      assert s + tail == s;
    }
  }

  lemma {:induction false} TrimStartDropped(head: string, s: string, drop: char -> bool)
    requires forall i :: 0 <= i < |head| ==> drop(head[i])
    ensures TrimStart(head + s, drop) == TrimStart(s, drop)
  {
    if head != [] {
      assert (head + s)[1..] == head[1..] + s;
      TrimStartDropped(head[1..], s, drop);
    } else {
      assert head + s == s;
    }
  }

  /** Stripping a text padded only with dropped characters gives the text
      back, provided the text itself neither starts nor ends with one. */
  lemma StripByPadded(head: string, s: string, tail: string, drop: char -> bool)
    requires forall i :: 0 <= i < |head| ==> drop(head[i])
    requires forall i :: 0 <= i < |tail| ==> drop(tail[i])
    requires s == [] || (!drop(s[0]) && !drop(s[|s| - 1]))
    ensures StripBy(head + s + tail, drop) == s
  {
    TrimEndDropped(head + s, tail, drop);
    if s == [] {
      assert head + s == head && head == [] + head;
      TrimEndDropped([], head, drop);
    } else {
      TrimStartDropped(head, s, drop);
    }
  }

  /** A text with no surrounding whitespace is left alone by `strip()`. */
  predicate Stripped(s: string)
  {
    s == [] || (!IsSpace(s[0]) && !IsSpace(s[|s| - 1]))
  }

  lemma StripPadded(head: string, s: string, tail: string)
    requires forall i :: 0 <= i < |head| ==> IsSpace(head[i])
    requires forall i :: 0 <= i < |tail| ==> IsSpace(tail[i])
    requires Stripped(s)
    ensures Strip(head + s + tail) == s
  {
    StripByPadded(head, s, tail, IsSpace);
  }

  /** Newlines are whitespace, so `s.rstrip("\n").strip() == s.strip()`. */
  lemma {:induction false} StripNewlines(s: string)
    ensures Strip(RStripNewlines(s)) == Strip(s)
  {
    TrimEndNewlines(s);
  }

  lemma {:induction false} TrimEndNewlines(s: string)
    ensures TrimEnd(TrimEnd(s, IsNewline), IsSpace) == TrimEnd(s, IsSpace)
  {
    if s != [] && IsNewline(s[|s| - 1]) {
      TrimEndNewlines(s[..|s| - 1]);
    }
  }

  /** `s.split(sep)` for a one-character separator. */
  function Split(s: string, sep: char): (r: seq<string>)
    ensures |r| >= 1
    ensures forall i :: 0 <= i < |r| ==> sep !in r[i]
  {
    if s == [] then [""]
    else
      var rest := Split(s[1..], sep);
      if s[0] == sep then [""] + rest else [[s[0]] + rest[0]] + rest[1..]
  }

  /** `sep.join(parts)` */
  function Join(parts: seq<string>, sep: string): string
  {
    if |parts| == 0 then ""
    else if |parts| == 1 then parts[0]
    else parts[0] + sep + Join(parts[1..], sep)
  }

  lemma {:induction false} SplitNoSeparator(s: string, sep: char)
    requires sep !in s
    ensures Split(s, sep) == [s]
  {
    if s != [] {
      SplitNoSeparator(s[1..], sep);
      assert [s[0]] + s[1..] == s;
    }
  }

  /** A text holding the separator splits into at least two parts. */
  lemma {:induction false} SplitSeparator(s: string, sep: char)
    requires sep in s
    ensures |Split(s, sep)| >= 2
  {
    if s[0] != sep {
      SplitSeparator(s[1..], sep);
    }
  }

  /** Splitting at a separator splits the two sides independently. */
  lemma {:induction false} SplitAppend(a: string, b: string, sep: char)
    ensures Split(a + [sep] + b, sep) == Split(a, sep) + Split(b, sep)
  {
    if a == [] {
      assert a + [sep] + b == [sep] + b;
      assert ([sep] + b)[1..] == b;
    } else {
      assert (a + [sep] + b)[1..] == a[1..] + [sep] + b;
      SplitAppend(a[1..], b, sep);
    }
  }

  /** Splitting what was joined with the same one-character separator gives
      the parts back, provided no part contains the separator. */
  lemma {:induction false} SplitJoin(parts: seq<string>, sep: char)
    requires |parts| >= 1
    requires forall i :: 0 <= i < |parts| ==> sep !in parts[i]
    ensures Split(Join(parts, [sep]), sep) == parts
  {
    SplitNoSeparator(parts[0], sep);
    if |parts| > 1 {
      SplitJoin(parts[1..], sep);
      SplitAppend(parts[0], Join(parts[1..], [sep]), sep);
      assert parts == [parts[0]] + parts[1..];
    }
  }

  /** Joining the pieces of a split with the separator gives the text back. */
  lemma {:induction false} JoinSplit(s: string, sep: char)
    ensures Join(Split(s, sep), [sep]) == s
  {
    if s != [] {
      var rest := Split(s[1..], sep);
      JoinSplit(s[1..], sep);
      if s[0] == sep {
        assert Split(s, sep)[1..] == rest;
        assert s == [sep] + s[1..];
      } else {
        var r := Split(s, sep);
        assert r[1..] == rest[1..];
        if |rest| > 1 {
          assert rest == [rest[0]] + rest[1..];
        }
        assert s == [s[0]] + s[1..];
      }
    }
  }

  /** Python's `sub in s`. */
  predicate Contains(s: string, sub: string)
  {
    sub <= s || (s != [] && Contains(s[1..], sub))
  }

  /** `s.rfind(c)`, with `None` for Python's -1. */
  function RFind(s: string, c: char): (r: Option<nat>)
    ensures r.Some? ==> r.value < |s| && s[r.value] == c
    ensures r.Some? ==> forall j :: r.value < j < |s| ==> s[j] != c
    ensures r.None? <==> c !in s
  {
    if s == [] then None
    else if s[|s| - 1] == c then Some(|s| - 1)
    else
      assert s == s[..|s| - 1] + [s[|s| - 1]];
      RFind(s[..|s| - 1], c)
  }

  /** The last occurrence of `c` is the one after which `c` no longer
      appears. */
  lemma RFindLast(a: string, b: string, c: char)
    requires c !in b
    ensures RFind(a + [c] + b, c) == Some(|a|)
  {
    var s := a + [c] + b;
    NoneAfter(a, b, c);
    assert RFind(s, c).Some?;
  }

  lemma NoneAfter(a: string, b: string, c: char)
    requires c !in b
    ensures (a + [c] + b)[|a|] == c
    ensures forall j :: |a| < j < |a + [c] + b| ==> (a + [c] + b)[j] != c
  {
    var s := a + [c] + b;
    forall j | |a| < j < |s| ensures s[j] != c {
      assert s[j] == b[j - |a| - 1];
    }
  }

  /** `s[lo:hi]` for indices within the text: empty when `lo > hi`. */
  function Slice(s: string, lo: nat, hi: nat): string
    requires lo <= |s| && hi <= |s|
  {
    if lo <= hi then s[lo..hi] else ""
  }

  function DigitChar(d: nat): char
    requires d < 10
  {
    ('0' as int + d) as char
  }

  function DigitValue(c: char): nat
    requires IsDigit(c)
  {
    c as int - '0' as int
  }

  predicate AllDigits(s: string)
  {
    forall i :: 0 <= i < |s| ==> IsDigit(s[i])
  }

  /** `str(n)` for a natural number: its decimal digits. */
  function NatToString(n: nat): (r: string)
    ensures |r| >= 1 && AllDigits(r)
  {
    if n < 10 then [DigitChar(n)] else NatToString(n / 10) + [DigitChar(n % 10)]
  }

  /** `str(i)` */
  function IntToString(i: int): (r: string)
    ensures |r| >= 1 && (r[0] == '-' || IsDigit(r[0])) && IsDigit(r[|r| - 1])
  {
    if i < 0 then "-" + NatToString(-i) else NatToString(i)
  }

  /** The number a string of decimal digits denotes. */
  function DigitsValue(s: string): nat
    requires AllDigits(s)
  {
    if s == [] then 0 else 10 * DigitsValue(s[..|s| - 1]) + DigitValue(s[|s| - 1])
  }

  /** `int(s)` in base 10: surrounding whitespace, an optional sign, then one
      or more ASCII digits; anything else raises `ValueError` (`None`). */
  function ParseInt(s: string): Option<int>
  {
    var t := Strip(s);
    var negative := |t| > 0 && t[0] == '-';
    var digits := if |t| > 0 && (t[0] == '-' || t[0] == '+') then t[1..] else t;
    if |digits| > 0 && AllDigits(digits) then
      var v: int := DigitsValue(digits);
      Some(if negative then -v else v)
    else None
  }

  lemma {:induction false} NatToStringValue(n: nat)
    ensures DigitsValue(NatToString(n)) == n
  {
    if n >= 10 {
      var s := NatToString(n);
      assert s[..|s| - 1] == NatToString(n / 10);
      NatToStringValue(n / 10);
    }
  }

  /** `int(str(i)) == i` */
  lemma ParseIntToString(i: int)
    ensures ParseInt(IntToString(i)) == Some(i)
  {
    if i < 0 {
      ParseNegative(-i);
    } else {
      ParseNatural(i);
    }
  }

  lemma ParseNatural(n: nat)
    ensures ParseInt(NatToString(n)) == Some(n)
  {
    var d := NatToString(n);
    StripIntToString(d);
    NatToStringValue(n);
    ParseUnsigned(d);
  }

  lemma ParseNegative(n: nat)
    requires n > 0
    ensures ParseInt("-" + NatToString(n)) == Some(-(n as int))
  {
    var d := NatToString(n);
    var s := "-" + d;
    assert s[0] == '-' && s[|s| - 1] == d[|d| - 1];
    StripIntToString(s);
    NatToStringValue(n);
    ParseSigned(d);
  }

  lemma StripIntToString(s: string)
    requires |s| >= 1 && (s[0] == '-' || IsDigit(s[0])) && IsDigit(s[|s| - 1])
    ensures Strip(s) == s
  {
    StripPadded("", s, "");
    assert "" + s + "" == s;
  }

  lemma ParseSigned(d: string)
    requires |d| > 0 && AllDigits(d) && Strip("-" + d) == "-" + d
    ensures ParseInt("-" + d) == Some(-(DigitsValue(d) as int))
  {
    assert ("-" + d)[1..] == d;
  }

  lemma ParseUnsigned(d: string)
    requires |d| > 0 && AllDigits(d) && Strip(d) == d
    ensures ParseInt(d) == Some(DigitsValue(d) as int)
  {
    assert IsDigit(d[0]);
  }
}
