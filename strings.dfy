/**
 * The string operations the provider uses from Go's `strings` package,
 * restricted to a one-character separator: `IndexByte`, `SplitN` and the
 * join that the importers write out with `+`.
 */
module Strings {
  import opened Wrappers

  /** Number of occurrences of `c` in `s`. */
  function Count(s: string, c: char): nat
  {
    multiset(s)[c]
  }

  function Min(a: nat, b: nat): nat
  {
    if a <= b then a else b
  }

  /** Index of the first occurrence of `c` in `s`, or None when there is none. */
  function IndexOf(s: string, c: char): (r: Option<nat>)
    ensures r.None? <==> c !in s
    ensures r.Some? ==> r.value < |s| && s[r.value] == c && c !in s[..r.value]
  {
    if s == [] then None
    else if s[0] == c then Some(0)
    else match IndexOf(s[1..], c)
      case None => None
      case Some(i) =>
        assert s[..i + 1] == [s[0]] + s[1..][..i];
        Some(i + 1)
  }

  /** The parts with `sep` written between each two neighbours. */
  function Join(parts: seq<string>, sep: char): string
  {
    if |parts| == 0 then ""
    else if |parts| == 1 then parts[0]
    else parts[0] + [sep] + Join(parts[1..], sep)
  }

  /**
   * Go's strings.SplitN(s, sep, n): n = 0 yields no parts; otherwise the
   * string is cut at the first n - 1 occurrences of `sep` (fewer when it has
   * fewer), and the last part is the uncut remainder.
   */
  function SplitN(s: string, sep: char, n: nat): (parts: seq<string>)
    ensures n == 0 ==> parts == []
    ensures n > 0 ==> |parts| == Min(n, Count(s, sep) + 1)
    ensures n > 0 ==> Join(parts, sep) == s
    ensures forall i :: 0 <= i < |parts| - 1 ==> sep !in parts[i]
    decreases n
  {
    if n == 0 then []
    else if n == 1 then [s]
    else match IndexOf(s, sep)
      case None => [s]
      case Some(i) =>
        assert s == s[..i] + [sep] + s[i + 1..];
        assert multiset(s) == multiset(s[..i]) + multiset{sep} + multiset(s[i + 1..]);
        [s[..i]] + SplitN(s[i + 1..], sep, n - 1)
  }

  /** Three parts joined. */
  lemma JoinThree(parts: seq<string>, sep: char)
    requires |parts| == 3
    ensures Join(parts, sep) == parts[0] + [sep] + parts[1] + [sep] + parts[2]
  {
    assert Join(parts[1..], sep) == parts[1] + [sep] + parts[2];
  }

  /**
   * The count of `d` in two strings joined by `c` is the sum of their counts,
   * plus one when `c` is `d`.
   */
  lemma CountCut(a: string, b: string, c: char, d: char)
    ensures Count(a + [c] + b, d) == Count(a, d) + Count([c], d) + Count(b, d)
  {
    assert multiset(a + [c] + b) == multiset(a) + multiset([c]) + multiset(b);
  }

  /** The first occurrence of `c` in `a + [c] + b` is the one after `a` when `a` has none. */
  lemma {:induction false} IndexOfCut(a: string, b: string, c: char)
    requires c !in a
    ensures IndexOf(a + [c] + b, c) == Some(|a|)
  {
    if a != [] {
      assert (a + [c] + b)[1..] == a[1..] + [c] + b;
      IndexOfCut(a[1..], b, c);
    }
  }

  /** Cutting at the first occurrence of a separator is unambiguous. */
  lemma {:induction false} FirstCutUnique(a: string, b: string, a': string, b': string, c: char)
    requires a + [c] + b == a' + [c] + b'
    requires c !in a && c !in a'
    ensures a == a' && b == b'
  {
    var x := a + [c] + b;
    IndexOfCut(a, b, c);
    IndexOfCut(a', b', c);
    assert |a| == |a'|;
    assert a == x[..|a|] && a' == x[..|a'|];
    assert b == x[|a| + 1..] && b' == x[|a'| + 1..];
  }

  /**
   * Go's `%d` formatting of a natural number: its decimal digits, with no
   * leading zero, reading back as `n`.
   */
  function Decimal(n: nat): (r: string)
    ensures |r| >= 1
    ensures forall i :: 0 <= i < |r| ==> '0' <= r[i] <= '9'
    ensures r[0] == '0' <==> n == 0
    ensures ValueOf(r) == n
  {
    if n < 10 then
      assert ValueOf([Digit(n)]) == ValueOf([]) * 10 + DigitValue(Digit(n));
      [Digit(n)]
    else
      var front := Decimal(n / 10);
      var r := front + [Digit(n % 10)];
      assert r[..|r| - 1] == front;
      r
  }

  function Digit(d: nat): (c: char)
    requires d < 10
    ensures '0' <= c <= '9'
    ensures DigitValue(c) == d
  {
    ['0', '1', '2', '3', '4', '5', '6', '7', '8', '9'][d]
  }

  /** The value of a decimal digit character. */
  function DigitValue(c: char): nat
    requires '0' <= c <= '9'
  {
    c as int - '0' as int
  }

  /** The number a string of decimal digits stands for. */
  function ValueOf(s: string): nat
    requires forall i :: 0 <= i < |s| ==> '0' <= s[i] <= '9'
  {
    if s == [] then 0 else ValueOf(s[..|s| - 1]) * 10 + DigitValue(s[|s| - 1])
  }
}
