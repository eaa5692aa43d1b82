/**
 * The few pieces of Python string handling the client relies on:
 * `"%d" % n`, `str.split(sep)` and `sep.join(parts)` for a one-character
 * separator.
 */
module Strings {

  predicate IsDigit(c: char) {
    '0' <= c <= '9'
  }

  function Digit(d: nat): (c: char)
    requires d < 10
    ensures IsDigit(c)
  {
    ('0' as int + d) as char
  }

  function DigitValue(c: char): (d: nat)
    requires IsDigit(c)
    ensures d < 10
  {
    c as int - '0' as int
  }

  /** The decimal text Python's `"%d" % n` writes for a non-negative `n`. */
  function NatToString(n: nat): (s: string)
    ensures |s| >= 1
    ensures forall i :: 0 <= i < |s| ==> IsDigit(s[i])
    decreases n
  {
    if n < 10 then [Digit(n)] else NatToString(n / 10) + [Digit(n % 10)]
  }

  /** Reads a string of decimal digits back as a number. */
  function ParseNat(s: string): nat
    requires forall i :: 0 <= i < |s| ==> IsDigit(s[i])
  {
    if s == [] then 0 else ParseNat(s[..|s| - 1]) * 10 + DigitValue(s[|s| - 1])
  }

  lemma {:induction false} ParseNatToString(n: nat)
    ensures ParseNat(NatToString(n)) == n
    decreases n
  {
    if n >= 10 {
      var s := NatToString(n);
      assert s[..|s| - 1] == NatToString(n / 10);
      ParseNatToString(n / 10);
    }
  }

  /** Different numbers are written differently: the basis of distinct `fun_<i>` tags. */
  lemma NatToStringInjective(m: nat, n: nat)
    requires NatToString(m) == NatToString(n)
    ensures m == n
  {
    ParseNatToString(m);
    ParseNatToString(n);
  }

  /** Index of the first `c` in `s`, or -1 (Python's `str.find`). */
  function IndexOf(s: string, c: char): (i: int)
    ensures -1 <= i < |s|
    ensures i >= 0 ==> s[i] == c
    ensures forall j :: 0 <= j < |s| && (i < 0 || j < i) ==> s[j] != c
  {
    if s == [] then -1
    else if s[0] == c then 0
    else
      var j := IndexOf(s[1..], c);
      if j < 0 then -1 else j + 1
  }

  /** Python's `s.split(sep)`: the pieces between separators, never an empty list. */
  function Split(s: string, sep: char): (parts: seq<string>)
    ensures |parts| >= 1
    ensures forall i, j :: 0 <= i < |parts| && 0 <= j < |parts[i]| ==> parts[i][j] != sep
    decreases |s|
  {
    var i := IndexOf(s, sep);
    if i < 0 then [s] else [s[..i]] + Split(s[i + 1..], sep)
  }

  /** Python's `sep.join(parts)`. */
  function Join(parts: seq<string>, sep: char): string
  {
    if parts == [] then ""
    else if |parts| == 1 then parts[0]
    else parts[0] + [sep] + Join(parts[1..], sep)
  }

  lemma IndexOfAfterPrefix(p: string, sep: char, rest: string)
    requires forall j :: 0 <= j < |p| ==> p[j] != sep
    ensures IndexOf(p + [sep] + rest, sep) == |p|
  {
    var s := p + [sep] + rest;
    assert s[|p|] == sep;
    assert s[..|p|] == p;
  }

  /** Joining the pieces of a split gives the original string back. */
  lemma {:induction false} JoinSplit(s: string, sep: char)
    ensures Join(Split(s, sep), sep) == s
    decreases |s|
  {
    var i := IndexOf(s, sep);
    if i >= 0 {
      var head, tail := s[..i], s[i + 1..];
      JoinSplit(tail, sep);
      JoinCons(head, Split(tail, sep), sep);
      assert s == head + [sep] + tail by {
        assert s[i] == sep;
      }
    }
  }

  lemma JoinCons(head: string, rest: seq<string>, sep: char)
    requires |rest| >= 1
    ensures Join([head] + rest, sep) == head + [sep] + Join(rest, sep)
  {
    assert ([head] + rest)[1..] == rest;
  }

  /** Splitting a join of separator-free pieces gives the pieces back. */
  lemma {:induction false} SplitJoin(parts: seq<string>, sep: char)
    requires |parts| >= 1
    requires forall i, j :: 0 <= i < |parts| && 0 <= j < |parts[i]| ==> parts[i][j] != sep
    ensures Split(Join(parts, sep), sep) == parts
  {
    if |parts| > 1 {
      var s := Join(parts, sep);
      var tail := Join(parts[1..], sep);
      IndexOfAfterPrefix(parts[0], sep, tail);
      assert s[..|parts[0]|] == parts[0];
      assert s[|parts[0]| + 1..] == tail;
      SplitJoin(parts[1..], sep);
    }
  }
}
