/** The string handling behind resume positions: unsigned decimals, and splitting. */
module Decimal {
  import opened Basics

  predicate IsDigit(c: char) {
    '0' <= c <= '9'
  }

  function Digit(d: nat): (c: char)
    requires d < 10
    ensures IsDigit(c)
  {
    '0' + d as char
  }

  function Format(n: nat): (s: string)
    ensures s != [] && forall i :: 0 <= i < |s| ==> IsDigit(s[i])
  {
    if n < 10 then [Digit(n)] else Format(n / 10) + [Digit(n % 10)]
  }

  predicate Digits(s: string) {
    forall i :: 0 <= i < |s| ==> IsDigit(s[i])
  }

  function Value(s: string): nat
    requires Digits(s)
  {
    if s == [] then 0 else 10 * Value(s[..|s| - 1]) + (s[|s| - 1] - '0') as nat
  }

  // Base 10, at most 64 bits, no sign: anything else is refused.
  function ParseUint(s: string): Option<nat> {
    if s == [] || !Digits(s) || Value(s) >= U64 then None else Some(Value(s))
  }

  lemma {:induction false} ValueOfFormat(n: nat)
    ensures Value(Format(n)) == n
  {
    if n >= 10 {
      ValueOfFormat(n / 10);
      var s := Format(n);
      assert s[..|s| - 1] == Format(n / 10);
    }
  }

  lemma ParseFormat(n: nat)
    requires n < U64
    ensures ParseUint(Format(n)) == Some(n)
  {
    ValueOfFormat(n);
  }

  // ---------- Splitting ----------

  predicate OccursAt(s: string, sep: string, i: nat) {
    i + |sep| <= |s| && s[i..i + |sep|] == sep
  }

  ghost predicate Occurs(s: string, sep: string) {
    exists i: nat :: OccursAt(s, sep, i)
  }

  // Position of the first separator at or after `from`, or |s| when there is none.
  function Find(s: string, sep: string, from: nat := 0): (i: nat)
    requires sep != [] && from <= |s|
    ensures from <= i <= |s|
    ensures i < |s| ==> OccursAt(s, sep, i)
    ensures forall j: nat :: from <= j < i ==> !OccursAt(s, sep, j)
    decreases |s| - from
  {
    if from == |s| || OccursAt(s, sep, from) then from else Find(s, sep, from + 1)
  }

  // At most `n` parts; the last one keeps the rest unsplit.
  function SplitN(s: string, sep: string, n: nat): (r: seq<string>)
    requires sep != [] && n >= 1
    ensures 1 <= |r| <= n
    decreases n
  {
    var i := Find(s, sep);
    if n == 1 || i == |s| then [s] else [s[..i]] + SplitN(s[i + |sep|..], sep, n - 1)
  }

  function Split(s: string, sep: string): (r: seq<string>)
    requires sep != []
    ensures r != []
    decreases |s|
  {
    var i := Find(s, sep);
    if i == |s| then [s] else [s[..i]] + Split(s[i + |sep|..], sep)
  }

  // The first separator after a part with no character of the separator's head.
  lemma FindAfter(a: string, sep: string, b: string)
    requires sep != [] && sep[0] !in a
    ensures Find(a + sep + b, sep) == |a|
    ensures (a + sep + b)[..|a|] == a && (a + sep + b)[|a| + |sep|..] == b
  {
    var s := a + sep + b;
    assert OccursAt(s, sep, |a|);
    forall j | 0 <= j < |a| ensures !OccursAt(s, sep, j) {
      assert s[j] == a[j];
    }
    var i := Find(s, sep);
    assert !(i < |a|);
    assert !(i > |a|);
  }

  lemma SeparatorHead(s: string, sep: string, i: nat)
    requires sep != [] && OccursAt(s, sep, i)
    ensures sep[0] in s
  {
    assert s[i] == s[i..i + |sep|][0];
  }

  lemma NoHeadNoSeparator(s: string, sep: string)
    requires sep != [] && sep[0] !in s
    ensures !Occurs(s, sep)
  {
    if i: nat :| OccursAt(s, sep, i) {
      SeparatorHead(s, sep, i);
    }
  }

  lemma FindNone(s: string, sep: string)
    requires sep != []
    ensures Find(s, sep) == |s| <==> !Occurs(s, sep)
  {
    var i := Find(s, sep);
    if i == |s| {
      forall j: nat ensures !OccursAt(s, sep, j) {
        if j >= |s| {
          assert j + |sep| > |s|;
        }
      }
    }
  }

  // ---------- Lexicographic order ----------

  predicate Before(a: string, b: string) {
    b != [] && (a == [] || a[0] < b[0] || (a[0] == b[0] && Before(a[1..], b[1..])))
  }

  function Pow10(m: nat): (p: nat)
    ensures p >= 1
  {
    if m == 0 then 1 else 10 * Pow10(m - 1)
  }

  // A common prefix does not matter.
  lemma {:induction false} BeforePrefix(p: string, a: string, b: string)
    ensures Before(p + a, p + b) <==> Before(a, b)
  {
    if p == [] {
      assert p + a == a && p + b == b;
    } else {
      BeforePrefix(p[1..], a, b);
      assert (p + a)[1..] == p[1..] + a && (p + b)[1..] == p[1..] + b;
    }
  }

  // Of two strings as long as each other and different, the rest does not matter.
  lemma {:induction false} BeforeRest(a: string, b: string, r: string, t: string)
    requires |a| == |b| && a != b
    ensures Before(a + r, b + t) <==> Before(a, b)
    ensures Before(a, b) || Before(b, a)
  {
    assert a == [a[0]] + a[1..] && b == [b[0]] + b[1..];
    assert (a + r)[1..] == a[1..] + r && (b + t)[1..] == b[1..] + t;
    if a[0] == b[0] {
      BeforeRest(a[1..], b[1..], r, t);
    }
  }

  // Numerals of the same length are ordered as their values.
  lemma {:induction false} ValueOrder(a: string, b: string)
    requires |a| == |b| && Digits(a) && Digits(b)
    ensures Before(a, b) <==> Value(a) < Value(b)
    decreases |a|
  {
    if a != [] {
      var n := |a| - 1;
      var c, d, x, y := a[..n], b[..n], a[n], b[n];
      assert a == c + [x] && b == d + [y];
      ValueOrder(c, d);
      ValueOrder(d, c);
      if c == d {
        BeforePrefix(c, [x], [y]);
      } else {
        BeforeRest(c, d, [x], [y]);
      }
    }
  }

  lemma {:induction false} LongerIsGreater(j: nat, k: nat)
    requires j <= k
    ensures |Format(j)| <= |Format(k)|
  {
    if j >= 10 {
      LongerIsGreater(j / 10, k / 10);
    }
  }

  // The number without its last m digits.
  function Shortened(k: nat, m: nat): nat {
    if m == 0 then k else Shortened(k / 10, m - 1)
  }

  lemma {:induction false} Leading(k: nat, m: nat)
    requires m < |Format(k)|
    ensures Format(Shortened(k, m)) == Format(k)[..|Format(k)| - m]
    decreases m
  {
    if m > 0 {
      assert Format(k) == Format(k / 10) + [Digit(k % 10)];
      Leading(k / 10, m - 1);
    }
  }

  lemma {:induction false} ShortenedBounds(k: nat, m: nat)
    ensures Shortened(k, m) * Pow10(m) <= k < (Shortened(k, m) + 1) * Pow10(m)
    decreases m
  {
    if m > 0 {
      var d, p := Shortened(k / 10, m - 1), Pow10(m - 1);
      ShortenedBounds(k / 10, m - 1);
      TenTimes(d, p);
      TenTimes(d + 1, p);
    }
  }

  lemma TenTimes(d: nat, p: nat)
    ensures d * (10 * p) == 10 * (d * p)
  {
  }

  lemma ProductGrows(a: nat, b: nat, p: nat)
    requires a <= b
    ensures a * p <= b * p
  {
    assert b * p == a * p + (b - a) * p;
  }

  lemma BelowShortened(j: nat, k: nat, m: nat)
    ensures j < Shortened(k, m) <==> (j + 1) * Pow10(m) <= k
  {
    hide Shortened, Pow10;
    var d, p := Shortened(k, m), Pow10(m);
    ShortenedBounds(k, m);
    if j < d {
      ProductGrows(j + 1, d, p);
    } else {
      ProductGrows(d + 1, j + 1, p);
    }
  }

  // Numerals followed by something that sorts after every digit: the smaller number comes first
  // if and only if its successor, padded with zeros to as many digits, does not exceed the other.
  lemma NumeralOrderIff(j: nat, k: nat, rest: string)
    requires j < k && rest != [] && rest[0] > '9'
    ensures |Format(j)| <= |Format(k)|
    ensures Before(Format(j) + rest, Format(k) + rest) <==> (j + 1) * Pow10(|Format(k)| - |Format(j)|) <= k
  {
    hide Before, Format, Value, Pow10, Shortened;
    LongerIsGreater(j, k);
    var a, b := Format(j), Format(k);
    var m := |b| - |a|;
    var lead, more := b[..|a|], b[|a|..];
    Leading(k, m);
    BelowShortened(j, k, m);
    ValueOfFormat(j);
    ValueOfFormat(Shortened(k, m));
    ValueOrder(a, lead);
    assert b + rest == lead + (more + rest);
    if a == lead {
      BeforePrefix(a, rest, more + rest);
      if m == 0 {
        assert more == [] && lead == b;
        ValueOfFormat(k);
      } else {
        DigitFirst(rest, more + rest);
      }
    } else {
      BeforeRest(a, lead, rest, more + rest);
    }
  }

  lemma DigitFirst(a: string, b: string)
    requires a != [] && b != [] && a[0] > b[0]
    ensures !Before(a, b)
  {
  }
}
