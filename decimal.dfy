/** Python's `str` on non-negative integers and `str.split` on one separator character. */
module Decimal {

  predicate IsDigit(c: char) {
    '0' <= c <= '9'
  }

  predicate AllDigits(s: string) {
    forall i :: 0 <= i < |s| ==> IsDigit(s[i])
  }

  function Digit(d: nat): (c: char)
    requires d < 10
    ensures IsDigit(c) && c as int - '0' as int == d
  {
    "0123456789"[d]
  }

  /** The decimal spelling of `n`, most significant digit first, without padding. */
  function Show(n: nat): string
    decreases n
  {
    if n < 10 then [Digit(n)] else Show(n / 10) + [Digit(n % 10)]
  }

  /** The number a non-empty string of digits spells. */
  function Parse(s: string): nat
    requires AllDigits(s)
  {
    if s == [] then 0
    else Parse(s[..|s| - 1]) * 10 + (s[|s| - 1] as int - '0' as int)
  }

  /** `Show` writes only digits, at least one, and never a leading zero except for 0 itself. */
  lemma {:induction false} ShowIsUnpadded(n: nat)
    ensures |Show(n)| >= 1 && AllDigits(Show(n))
    ensures Show(n)[0] == '0' <==> n == 0
    ensures n < 10 <==> |Show(n)| == 1
  {
    if n >= 10 {
      ShowIsUnpadded(n / 10);
      assert Show(n)[0] == Show(n / 10)[0];
    }
  }

  lemma {:induction false} ParseShow(n: nat)
    ensures AllDigits(Show(n)) && Parse(Show(n)) == n
  {
    ShowIsUnpadded(n);
    if n >= 10 {
      ParseShow(n / 10);
      var s := Show(n);
      assert s[..|s| - 1] == Show(n / 10);
    }
  }

  /** Python's `s.split(sep)`: the pieces between occurrences of `sep`, always at least one. */
  function Split(s: string, sep: char): (parts: seq<string>)
    ensures |parts| >= 1
    decreases |s|
  {
    if s == [] then [""]
    else if s[0] == sep then [""] + Split(s[1..], sep)
    else
      var rest := Split(s[1..], sep);
      [[s[0]] + rest[0]] + rest[1..]
  }

  lemma {:induction false} SplitNoSeparator(a: string, sep: char)
    requires sep !in a
    ensures Split(a, sep) == [a]
  {
    if a != [] {
      SplitNoSeparator(a[1..], sep);
      assert [a[0]] + a[1..] == a;
    }
  }

  lemma {:induction false} SplitAtFirst(a: string, sep: char, rest: string)
    requires sep !in a
    ensures Split(a + [sep] + rest, sep) == [a] + Split(rest, sep)
  {
    if a == [] {
      assert a + [sep] + rest == [sep] + rest;
    } else {
      var s := a + [sep] + rest;
      assert s[0] == a[0] && s[1..] == a[1..] + [sep] + rest;
      SplitAtFirst(a[1..], sep, rest);
      assert [a[0]] + a[1..] == a;
    }
  }

  /** A separator that is not a digit never occurs in a decimal spelling. */
  lemma ShowAvoids(n: nat, sep: char)
    requires !IsDigit(sep)
    ensures sep !in Show(n)
  {
  }
}
