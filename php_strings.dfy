/**
 * The parts of PHP's runtime semantics that the modules rely on: NULL as an
 * option, `empty()` on strings, and the string functions `str_replace` (with an
 * empty replacement), `explode`, `implode`, `strpos`, `strtolower`, `ucfirst`
 * and the conversion of an integer to its decimal text.
 */
module Php {

  /** A PHP value that may be NULL (or an unset array key). */
  datatype Option<+T> = None | Some(value: T)

  /** PHP's `empty()` (and falsy-ness) on a string: "" and "0" are empty. */
  predicate IsEmptyString(s: string)
  {
    s == "" || s == "0"
  }

  /** Does `pat` occur in `s` at some index? */
  predicate OccursIn(pat: string, s: string)
    decreases |s|
  {
    |pat| <= |s| && (pat <= s || OccursIn(pat, s[1..]))
  }

  /**
   * `str_replace(pat, "", s)`: scans left to right and deletes every
   * non-overlapping occurrence of `pat` it meets.
   */
  function RemoveAll(s: string, pat: string): (r: string)
    requires pat != []
    ensures |r| <= |s|
    ensures |s| < |pat| ==> r == s
    decreases |s|
  {
    if |s| < |pat| then s
    else if pat <= s then RemoveAll(s[|pat|..], pat)
    else [s[0]] + RemoveAll(s[1..], pat)
  }

  /** Where `pat` does not occur, `str_replace` leaves the string unchanged. */
  lemma {:induction false} RemoveAllAbsent(s: string, pat: string)
    requires pat != []
    requires !OccursIn(pat, s)
    ensures RemoveAll(s, pat) == s
    decreases |s|
  {
    if |s| >= |pat| {
      RemoveAllAbsent(s[1..], pat);
      assert s == [s[0]] + s[1..];
    }
  }

  /** A leading occurrence is deleted and the scan resumes right after it. */
  lemma RemoveAllLeading(pat: string, t: string)
    requires pat != []
    ensures RemoveAll(pat + t, pat) == RemoveAll(t, pat)
  {
    assert (pat + t)[|pat|..] == t;
  }

  /**
   * A prefix in which no occurrence of `pat` starts is kept as it is, and the
   * removal continues on the rest.
   */
  lemma {:induction false} RemoveAllKeepsPrefix(a: string, b: string, pat: string)
    requires pat != []
    requires forall i :: 0 <= i < |a| ==> !(pat <= (a + b)[i..])
    ensures RemoveAll(a + b, pat) == a + RemoveAll(b, pat)
    decreases |a|
  {
    if a != [] {
      var s := a + b;
      assert s[0..] == s;
      assert !(pat <= s);
      if |s| >= |pat| {
        assert s[1..] == a[1..] + b;
        forall i | 0 <= i < |a[1..]|
          ensures !(pat <= (a[1..] + b)[i..])
        {
          assert (a[1..] + b)[i..] == s[i + 1..];
        }
        RemoveAllKeepsPrefix(a[1..], b, pat);
        assert a == [a[0]] + a[1..];
      } else {
        assert RemoveAll(b, pat) == b;
      }
    }
  }

  /** The removal is not idempotent: deleting one occurrence can create another. */
  lemma RemoveAllCanCreateOccurrence()
    ensures RemoveAll("/ex/exportport", "/export") == "/export"
  {
    var pat, front, back := "/export", "/ex", "port";
    var s := front + (pat + back);
    assert s == "/ex/exportport";
    assert front + back == pat;
    forall i | 0 <= i < |front|
      ensures !(pat <= s[i..])
    {
      if i == 0 { assert s[i..][3] != pat[3]; }
      else { assert s[i..][0] != pat[0]; }
    }
    RemoveAllKeepsPrefix(front, pat + back, pat);
    RemoveAllLeading(pat, back);
  }

  /** Index of the first `c` in `s`. */
  function FirstIndex(s: string, c: char): (i: nat)
    requires c in s
    ensures i < |s| && s[i] == c && c !in s[..i]
  {
    if s[0] == c then 0
    else
      assert s == [s[0]] + s[1..];
      1 + FirstIndex(s[1..], c)
  }

  /** Index of the last `c` in `s`. */
  function LastIndex(s: string, c: char): (i: nat)
    requires c in s
    ensures i < |s| && s[i] == c && c !in s[i + 1..]
    decreases |s|
  {
    if s[|s| - 1] == c then |s| - 1
    else
      assert s == s[..|s| - 1] + [s[|s| - 1]];
      LastIndex(s[..|s| - 1], c)
  }

  /** `explode(c, s)` for a one-character delimiter. */
  function Split(s: string, c: char): (parts: seq<string>)
    ensures |parts| >= 1
    ensures forall k :: 0 <= k < |parts| ==> c !in parts[k]
    decreases |s|
  {
    if c !in s then [s]
    else
      var i := FirstIndex(s, c);
      [s[..i]] + Split(s[i + 1..], c)
  }

  /** `implode(c, parts)`. */
  function Join(parts: seq<string>, c: char): string
  {
    if parts == [] then ""
    else if |parts| == 1 then parts[0]
    else parts[0] + [c] + Join(parts[1..], c)
  }

  /** Joining the pieces of a split gives back the original string. */
  lemma {:induction false} JoinSplit(s: string, c: char)
    ensures Join(Split(s, c), c) == s
    decreases |s|
  {
    if c in s {
      var i := FirstIndex(s, c);
      JoinSplit(s[i + 1..], c);
      assert s == s[..i] + [c] + s[i + 1..];
    }
  }

  /** Splitting a join of delimiter-free pieces gives back the pieces. */
  lemma {:induction false} SplitJoin(parts: seq<string>, c: char)
    requires |parts| >= 1
    requires forall k :: 0 <= k < |parts| ==> c !in parts[k]
    ensures Split(Join(parts, c), c) == parts
    decreases |parts|
  {
    if |parts| > 1 {
      var rest := Join(parts[1..], c);
      SplitJoin(parts[1..], c);
      SplitAfterFirstPiece(parts[0], c, rest);
      assert parts == [parts[0]] + parts[1..];
    }
  }

  /** What follows the first delimiter is split on its own. */
  lemma SplitAfterFirstPiece(base: string, c: char, tail: string)
    requires c !in base
    ensures Split(base + [c] + tail, c) == [base] + Split(tail, c)
  {
    var s := base + [c] + tail;
    assert s[|base|] == c;
    assert s[..|base|] == base;
    assert FirstIndex(s, c) == |base|;
    assert s[|base| + 1..] == tail;
  }

  /** Appending one piece to a join adds one delimiter and the piece. */
  lemma {:induction false} JoinSnoc(parts: seq<string>, x: string, c: char)
    ensures Join(parts + [x], c) == if parts == [] then x else Join(parts, c) + [c] + x
    decreases |parts|
  {
    var p := parts + [x];
    if |parts| > 1 {
      assert p[1..] == parts[1..] + [x];
      JoinSnoc(parts[1..], x, c);
      assert Join(p, c) == p[0] + [c] + Join(p[1..], c);
    } else if |parts| == 1 {
      assert p[1..] == [x];
      assert Join(p, c) == p[0] + [c] + Join(p[1..], c);
    }
  }

  /** Splitting text that ends in a delimiter and a delimiter-free tail. */
  lemma {:induction false} SplitSnoc(a: string, b: string, c: char)
    requires c !in b
    ensures Split(a + [c] + b, c) == Split(a, c) + [b]
    decreases |a|
  {
    if c in a {
      var j := FirstIndex(a, c);
      var head, rest := a[..j], a[j + 1..];
      assert a == head + [c] + rest;
      assert a + [c] + b == head + [c] + (rest + [c] + b);
      SplitAfterFirstPiece(head, c, rest + [c] + b);
      SplitAfterFirstPiece(head, c, rest);
      SplitSnoc(rest, b, c);
      calc {
        Split(a + [c] + b, c);
        [head] + Split(rest + [c] + b, c);
        [head] + (Split(rest, c) + [b]);
        ([head] + Split(rest, c)) + [b];
        Split(a, c) + [b];
      }
    } else {
      SplitAfterFirstPiece(a, c, b);
      assert Split(a, c) == [a] && Split(b, c) == [b];
    }
  }

  /** The pieces of `s` are those of the text before its last delimiter, then the tail. */
  lemma SplitAtLast(s: string, c: char)
    requires c in s
    ensures Split(s, c) == Split(s[..LastIndex(s, c)], c) + [s[LastIndex(s, c) + 1..]]
  {
    var k := LastIndex(s, c);
    assert s == s[..k] + [c] + s[k + 1..];
    SplitSnoc(s[..k], s[k + 1..], c);
  }

  /** The first piece of text that starts with a delimiter-free run and a delimiter is that run. */
  lemma SplitFirstPiece(base: string, c: char, tail: string)
    requires c !in base
    ensures Split(base + [c] + tail, c)[0] == base
  {
    SplitAfterFirstPiece(base, c, tail);
  }

  /** The last delimiter is the one before a delimiter-free tail. */
  lemma {:induction false} LastIndexSnoc(a: string, b: string, c: char)
    requires c !in b
    ensures LastIndex(a + [c] + b, c) == |a|
    decreases |b|
  {
    var s := a + [c] + b;
    if b != [] {
      assert s[..|s| - 1] == a + [c] + b[..|b| - 1];
      assert s[|s| - 1] == b[|b| - 1];
      LastIndexSnoc(a, b[..|b| - 1], c);
    }
  }

  /** `strpos(s, pat)`: the index of the first occurrence, or FALSE. */
  function IndexOf(s: string, pat: string): (r: Option<nat>)
    ensures r.Some? ==> r.value + |pat| <= |s| && pat <= s[r.value..]
    ensures r.Some? <==> OccursIn(pat, s)
    decreases |s|
  {
    if |s| < |pat| then None
    else if pat <= s then Some(0)
    else match IndexOf(s[1..], pat)
      case None => None
      case Some(i) =>
        assert s[1..][i..] == s[i + 1..];
        Some(i + 1)
  }

  /** No occurrence starts before the index `strpos` reports. */
  lemma {:induction false} IndexOfIsFirst(s: string, pat: string, j: nat)
    requires IndexOf(s, pat).Some? && j < IndexOf(s, pat).value
    ensures !(pat <= s[j..])
    decreases |s|
  {
    if j > 0 {
      assert s[1..][j - 1..] == s[j..];
      IndexOfIsFirst(s[1..], pat, j - 1);
    } else {
      assert s[0..] == s;
    }
  }

  /** Truthiness of `strpos(s, pat)`: found at an index other than 0. */
  predicate StrposTruthy(s: string, pat: string)
  {
    var i := IndexOf(s, pat); i.Some? && i.value > 0
  }

  /** `strtolower` on one character (ASCII letters only). */
  function LowerChar(ch: char): char
  {
    if 'A' <= ch <= 'Z' then (ch as int + 32) as char else ch
  }

  /** `strtolower` in the C locale (ASCII letters only; locale-independent from PHP 8.2). */
  function Lower(s: string): (r: string)
    ensures |r| == |s|
    ensures forall k :: 0 <= k < |s| ==> r[k] == LowerChar(s[k])
  {
    seq(|s|, k requires 0 <= k < |s| => LowerChar(s[k]))
  }

  /** `ucfirst`: the first character in upper case (ASCII letters only). */
  function Ucfirst(s: string): (r: string)
    ensures |r| == |s| && (|s| > 0 ==> r[1..] == s[1..])
    ensures |s| > 0 && 'a' <= s[0] <= 'z' ==> r[0] == (s[0] as int - 32) as char
    ensures |s| > 0 && !('a' <= s[0] <= 'z') ==> r == s
  {
    if |s| > 0 && 'a' <= s[0] <= 'z' then [(s[0] as int - 32) as char] + s[1..] else s
  }

  /** The decimal digit for `d`. */
  function Digit(d: nat): char
    requires d < 10
  {
    "0123456789"[d]
  }

  /** The value of a decimal digit. */
  function DigitValue(ch: char): nat
  {
    if '0' <= ch <= '9' then ch as int - '0' as int else 0
  }

  /** PHP's conversion of a non-negative integer to its decimal text. */
  function NatToString(n: nat): (r: string)
    ensures |r| >= 1
    ensures forall k :: 0 <= k < |r| ==> '0' <= r[k] <= '9'
    ensures n > 0 ==> r[0] != '0'
    decreases n
  {
    if n < 10 then [Digit(n)] else NatToString(n / 10) + [Digit(n % 10)]
  }

  /** The value a string of decimal digits denotes. */
  function DecimalValue(s: string): nat
    decreases |s|
  {
    if s == [] then 0 else 10 * DecimalValue(s[..|s| - 1]) + DigitValue(s[|s| - 1])
  }

  /** Reading back the decimal text of `n` gives `n`. */
  lemma {:induction false} NatToStringRoundTrip(n: nat)
    ensures DecimalValue(NatToString(n)) == n
    decreases n
  {
    var r := NatToString(n);
    if n < 10 {
      assert r[..0] == [];
    } else {
      NatToStringRoundTrip(n / 10);
      assert r[..|r| - 1] == NatToString(n / 10);
    }
  }
}
