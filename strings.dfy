/** String helpers with the meaning JavaScript gives them. */
module Strings {

  /** `xs.join(sep)`: the elements in order, `sep` between neighbours. */
  function Join(xs: seq<string>, sep: string): string
  {
    if |xs| == 0 then ""
    else if |xs| == 1 then xs[0]
    else xs[0] + sep + Join(xs[1..], sep)
  }

  /** The offset at which element `i` starts in `Join(xs, sep)`. */
  function StartOf(xs: seq<string>, i: nat, sep: string): nat
    requires i <= |xs|
  {
    if i == 0 then 0 else |xs[0]| + |sep| + StartOf(xs[1..], i - 1, sep)
  }

  /** Slicing after a drop is slicing at shifted offsets. */
  lemma SliceOfDrop(s: string, k: nat, a: nat, b: nat)
    requires a <= b && k + b <= |s|
    ensures s[k..][a..b] == s[k + a..k + b]
  {
  }

  lemma SliceMiddle(a: string, b: string, c: string)
    ensures (a + b + c)[|a|..|a| + |b|] == b
  {
  }

  /** A join of two or more elements is the first, a separator, then the join of the rest. */
  lemma JoinUnfold(xs: seq<string>, sep: string)
    requires |xs| > 1
    ensures Join(xs, sep)[|xs[0]| + |sep|..] == Join(xs[1..], sep)
  {
    var j := Join(xs, sep);
    assert j == xs[0] + sep + Join(xs[1..], sep);
  }

  /** Element `i` sits at offset `StartOf(xs, i, sep)`. */
  lemma {:induction false} JoinPlacesElement(xs: seq<string>, sep: string, i: nat)
    requires i < |xs|
    ensures StartOf(xs, i, sep) + |xs[i]| <= |Join(xs, sep)|
    ensures Join(xs, sep)[StartOf(xs, i, sep)..StartOf(xs, i, sep) + |xs[i]|] == xs[i]
  {
    if i == 0 {
      if |xs| > 1 {
        assert Join(xs, sep) == xs[0] + sep + Join(xs[1..], sep);
      }
    } else {
      var rest, k := xs[1..], |xs[0]| + |sep|;
      var s := StartOf(rest, i - 1, sep);
      JoinPlacesElement(rest, sep, i - 1);
      JoinUnfold(xs, sep);
      assert rest[i - 1] == xs[i];
      SliceOfDrop(Join(xs, sep), k, s, s + |xs[i]|);
    }
  }

  /** Every element after the first is preceded directly by the separator. */
  lemma {:induction false} JoinPlacesSeparator(xs: seq<string>, sep: string, i: nat)
    requires 0 < i < |xs|
    ensures |sep| <= StartOf(xs, i, sep) <= |Join(xs, sep)|
    ensures Join(xs, sep)[StartOf(xs, i, sep) - |sep|..StartOf(xs, i, sep)] == sep
  {
    var rest, k := xs[1..], |xs[0]| + |sep|;
    if i == 1 {
      assert Join(xs, sep) == xs[0] + sep + Join(rest, sep);
      SliceMiddle(xs[0], sep, Join(rest, sep));
    } else {
      var s := StartOf(rest, i - 1, sep);
      assert StartOf(xs, i, sep) == k + s;
      JoinPlacesSeparator(rest, sep, i - 1);
      JoinUnfold(xs, sep);
      SliceOfDrop(Join(xs, sep), k, s - |sep|, s);
    }
  }

  /** The joined string holds the elements and the separators and nothing else. */
  lemma {:induction false} JoinLength(xs: seq<string>, sep: string)
    requires |xs| > 0
    ensures |Join(xs, sep)| + |sep| == StartOf(xs, |xs|, sep)
  {
    if |xs| > 1 {
      JoinLength(xs[1..], sep);
    }
  }

  predicate IsDigit(c: char) {
    '0' <= c <= '9'
  }

  predicate AllDigits(s: string) {
    forall i :: 0 <= i < |s| ==> IsDigit(s[i])
  }

  function DigitChar(d: nat): (c: char)
    requires d < 10
    ensures IsDigit(c)
  {
    ('0' as int + d) as char
  }

  function DigitValue(c: char): (d: nat)
    requires IsDigit(c)
    ensures d < 10 && DigitChar(d) == c
  {
    (c as int - '0' as int) as nat
  }

  /** A non-negative integer interpolated into a template literal: its decimal digits. */
  function NatToDecimal(n: nat): (s: string)
    ensures |s| > 0 && AllDigits(s)
    ensures (s[0] == '0') == (n == 0)
  {
    if n < 10 then [DigitChar(n)] else NatToDecimal(n / 10) + [DigitChar(n % 10)]
  }

  /** The value of a string of decimal digits, most significant first. */
  function ParseDecimal(s: string): nat
    requires AllDigits(s)
  {
    if |s| == 0 then 0 else 10 * ParseDecimal(s[..|s| - 1]) + DigitValue(s[|s| - 1])
  }

  lemma {:induction false} DecimalRoundTrip(n: nat)
    ensures ParseDecimal(NatToDecimal(n)) == n
  {
    if n >= 10 {
      DecimalRoundTrip(n / 10);
      var s := NatToDecimal(n / 10);
      var t := NatToDecimal(n);
      assert t == s + [DigitChar(n % 10)];
      assert t[..|t| - 1] == s;
    }
  }

  /** The longest all-digit suffix of `s`. */
  function TrailingDigits(s: string): (d: string)
    ensures |d| <= |s| && d == s[|s| - |d|..] && AllDigits(d)
    ensures |d| < |s| ==> !IsDigit(s[|s| - |d| - 1])
  {
    if |s| == 0 || !IsDigit(s[|s| - 1]) then ""
    else TrailingDigits(s[..|s| - 1]) + [s[|s| - 1]]
  }

  /** Digits written right after a non-digit are read back exactly. */
  lemma {:induction false} TrailingDigitsAfter(p: string, ds: string)
    requires |p| > 0 && !IsDigit(p[|p| - 1]) && AllDigits(ds)
    ensures TrailingDigits(p + ds) == ds
  {
    if |ds| > 0 {
      var init := ds[..|ds| - 1];
      TrailingDigitsAfter(p, init);
      var s := p + ds;
      assert s[..|s| - 1] == p + init;
      assert s[|s| - 1] == ds[|ds| - 1];
      assert init + [ds[|ds| - 1]] == ds;
    } else {
      assert p + ds == p;
    }
  }
}
