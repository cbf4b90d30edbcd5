/**
 * String operations the survey scripts use: Python's `in` on strings, `str.startswith`,
 * `str()` of a non-negative integer, and the notion of a subsequence used to state that a
 * list keeps the relative order of the items it retains.
 */
module Text {

  /** `t` occurs in `s` starting at index `i`. */
  predicate OccursAt(s: string, t: string, i: int) {
    0 <= i && i + |t| <= |s| && s[i..i + |t|] == t
  }

  /** Python's `t in s` for two strings: a case-sensitive substring test. */
  predicate Contains(s: string, t: string) {
    exists i | 0 <= i <= |s| :: OccursAt(s, t, i)
  }

  /** `t` is in `s` when it matches `s` character by character from index `i`. */
  lemma ContainsAt(s: string, t: string, i: nat)
    requires i + |t| <= |s| && forall k :: 0 <= k < |t| ==> s[i + k] == t[k]
    ensures Contains(s, t)
  {
    assert s[i..i + |t|] == t;
    assert OccursAt(s, t, i);
  }

  /** Python's `s.startswith(prefix)`. */
  predicate StartsWith(s: string, prefix: string) {
    |prefix| <= |s| && s[..|prefix|] == prefix
  }

  /** A string in which the first character of `t` never appears does not contain `t`. */
  lemma MissingFirstChar(s: string, t: string)
    requires |t| > 0 && t[0] !in s
    ensures !Contains(s, t)
  {
  }

  // ---------------------------------------------------------------------------
  // Decimal rendering, as Python's str() and "{}".format() print a non-negative int

  const Digits := "0123456789"

  predicate IsDigit(c: char) {
    '0' <= c <= '9'
  }

  function DigitValue(c: char): nat
    requires IsDigit(c)
  {
    c as int - '0' as int
  }

  /** Python's `str(n)` for `n >= 0`. */
  function NatToString(n: nat): string
  {
    if n < 10 then [Digits[n]] else NatToString(n / 10) + [Digits[n % 10]]
  }

  /** The number a string of decimal digits denotes, read most significant digit first. */
  function DecimalValue(s: string): nat
    requires forall k :: 0 <= k < |s| ==> IsDigit(s[k])
  {
    if s == [] then 0 else 10 * DecimalValue(s[..|s| - 1]) + DigitValue(s[|s| - 1])
  }

  /**
   * The rendering is canonical decimal: it is made of digits only, has no leading zero, and
   * reading it back gives the number.
   */
  lemma {:induction false} NatToStringIsDecimal(n: nat)
    ensures |NatToString(n)| > 0
    ensures forall k :: 0 <= k < |NatToString(n)| ==> IsDigit(NatToString(n)[k])
    ensures |NatToString(n)| > 1 ==> NatToString(n)[0] != '0'
    ensures DecimalValue(NatToString(n)) == n
  {
    var s := NatToString(n);
    if n < 10 {
      assert s == [Digits[n]];
    } else {
      var prefix := NatToString(n / 10);
      NatToStringIsDecimal(n / 10);
      assert s == prefix + [Digits[n % 10]];
      assert s[..|s| - 1] == prefix;
      assert s[0] == prefix[0];
    }
  }

  /** The length of the run of digits a string starts with. */
  function LeadingDigits(s: string): (n: nat)
    ensures n <= |s|
  {
    if s == [] || !IsDigit(s[0]) then 0 else 1 + LeadingDigits(s[1..])
  }

  lemma {:induction false} LeadingDigitsOfDigits(d: string, rest: string)
    requires forall k :: 0 <= k < |d| ==> IsDigit(d[k])
    requires rest == [] || !IsDigit(rest[0])
    ensures LeadingDigits(d + rest) == |d|
    decreases |d|
  {
    if d == [] {
      assert d + rest == rest;
    } else {
      assert (d + rest)[1..] == d[1..] + rest;
      LeadingDigitsOfDigits(d[1..], rest);
    }
  }

  /**
   * A rendered number followed by text that does not start with a digit can be read back:
   * two such strings are equal only if the numbers are.
   */
  lemma NatToStringInjective(m: nat, n: nat, a: string, b: string)
    requires a == [] || !IsDigit(a[0])
    requires b == [] || !IsDigit(b[0])
    requires NatToString(m) + a == NatToString(n) + b
    ensures m == n
  {
    NatToStringIsDecimal(m);
    NatToStringIsDecimal(n);
    LeadingDigitsOfDigits(NatToString(m), a);
    LeadingDigitsOfDigits(NatToString(n), b);
    var s := NatToString(m) + a;
    assert NatToString(m) == s[..|NatToString(m)|];
    assert NatToString(n) == s[..|NatToString(n)|];
  }

  // ---------------------------------------------------------------------------
  // Subsequences

  /** `a` is obtained from `b` by deleting elements, the rest keeping their relative order. */
  predicate IsSubsequence<T(==)>(a: seq<T>, b: seq<T>)
    decreases |b|
  {
    a == [] ||
    (b != [] &&
     ((a[|a| - 1] == b[|b| - 1] && IsSubsequence(a[..|a| - 1], b[..|b| - 1])) ||
      IsSubsequence(a, b[..|b| - 1])))
  }

  lemma {:induction false} SubsequenceReflexive<T>(a: seq<T>)
    ensures IsSubsequence(a, a)
    decreases |a|
  {
    if a != [] {
      SubsequenceReflexive(a[..|a| - 1]);
    }
  }

  lemma {:induction false} SubsequenceTransitive<T>(a: seq<T>, b: seq<T>, c: seq<T>)
    requires IsSubsequence(a, b) && IsSubsequence(b, c)
    ensures IsSubsequence(a, c)
    decreases |c|
  {
    if a == [] {
    } else if IsSubsequence(b, c[..|c| - 1]) {
      SubsequenceTransitive(a, b, c[..|c| - 1]);
    } else {
      assert b[|b| - 1] == c[|c| - 1] && IsSubsequence(b[..|b| - 1], c[..|c| - 1]);
      if a[|a| - 1] == b[|b| - 1] && IsSubsequence(a[..|a| - 1], b[..|b| - 1]) {
        SubsequenceTransitive(a[..|a| - 1], b[..|b| - 1], c[..|c| - 1]);
      } else {
        SubsequenceTransitive(a, b[..|b| - 1], c[..|c| - 1]);
      }
    }
  }

  /** Every element of a subsequence is an element of the sequence it was taken from. */
  lemma {:induction false} SubsequenceMembers<T>(a: seq<T>, b: seq<T>)
    requires IsSubsequence(a, b)
    ensures forall x :: x in a ==> x in b
    decreases |b|
  {
    if a == [] {
    } else if IsSubsequence(a, b[..|b| - 1]) {
      SubsequenceMembers(a, b[..|b| - 1]);
    } else {
      SubsequenceMembers(a[..|a| - 1], b[..|b| - 1]);
      assert a == a[..|a| - 1] + [a[|a| - 1]];
    }
  }

  predicate Distinct<T(==)>(s: seq<T>) {
    forall i, j :: 0 <= i < j < |s| ==> s[i] != s[j]
  }

  /** A subsequence of a sequence without repetitions has no repetitions either. */
  lemma {:induction false} SubsequenceOfDistinct<T>(a: seq<T>, b: seq<T>)
    requires IsSubsequence(a, b) && Distinct(b)
    ensures Distinct(a)
    decreases |b|
  {
    if a == [] {
    } else if IsSubsequence(a, b[..|b| - 1]) {
      SubsequenceOfDistinct(a, b[..|b| - 1]);
    } else {
      var a', b' := a[..|a| - 1], b[..|b| - 1];
      SubsequenceOfDistinct(a', b');
      SubsequenceMembers(a', b');
      assert b[|b| - 1] !in b';
      forall i, j | 0 <= i < j < |a| ensures a[i] != a[j] {
        if j < |a| - 1 {
          assert a[i] == a'[i] && a[j] == a'[j];
        } else {
          assert a[i] == a'[i] && a'[i] in a';
        }
      }
    }
  }

  /** Deleting the element at index `k` leaves a subsequence. */
  lemma {:induction false} DeletionIsSubsequence<T>(s: seq<T>, k: nat)
    requires k < |s|
    ensures IsSubsequence(s[..k] + s[k + 1..], s)
    decreases |s|
  {
    var d := s[..k] + s[k + 1..];
    if k == |s| - 1 {
      assert d == s[..|s| - 1];
      SubsequenceReflexive(d);
    } else {
      var s' := s[..|s| - 1];
      DeletionIsSubsequence(s', k);
      assert d[..|d| - 1] == s'[..k] + s'[k + 1..];
      assert d[|d| - 1] == s[|s| - 1];
    }
  }
}
