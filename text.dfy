/**
 * The parts of Python's string and path semantics the backup tools rely on:
 * `str.endswith`, slicing off a suffix, the ordering `<` on `str`,
 * zero-padded and plain decimal rendering of numbers (as `strftime` and
 * f-strings produce them) and two-argument `os.path.join` on POSIX.
 */
module Text {

  /** `s.endswith(suffix)`. */
  predicate EndsWith(s: string, suffix: string)
  {
    |suffix| <= |s| && s[|s| - |suffix|..] == suffix
  }

  /** A string ends with `suffix` exactly when it is some string followed by `suffix`. */
  lemma EndsWithSplit(s: string, suffix: string)
    ensures EndsWith(s, suffix) <==> |suffix| <= |s| && s[..|s| - |suffix|] + suffix == s
  {
    if |suffix| <= |s| {
      assert s[..|s| - |suffix|] + s[|s| - |suffix|..] == s;
      if s[..|s| - |suffix|] + suffix == s {
        assert s[|s| - |suffix|..] == (s[..|s| - |suffix|] + suffix)[|s| - |suffix|..];
      }
    }
  }

  lemma EndsWithAppended(p: string, suffix: string)
    ensures EndsWith(p + suffix, suffix)
  {
    assert (p + suffix)[|p|..] == suffix;
  }

  lemma EndsWithTransitive(r: string, b: string, suffix: string)
    requires EndsWith(r, b) && EndsWith(b, suffix)
    ensures EndsWith(r, suffix)
  {
    assert r[|r| - |suffix|..] == r[|r| - |b|..][|b| - |suffix|..];
  }

  /** Python's `a < b` on strings: compare code points left to right; a proper prefix is smaller. */
  predicate LexLess(a: string, b: string)
    ensures LexLess(a, b) ==> |b| > 0
    ensures |a| < |b| && a == b[..|a|] ==> LexLess(a, b)
    decreases |a|
  {
    |b| > 0 && (|a| == 0 || a[0] < b[0] || (a[0] == b[0] && LexLess(a[1..], b[1..])))
  }

  /** At most one of two strings is below the other. */
  lemma {:induction false} LexLessAsymmetric(a: string, b: string)
    ensures !(LexLess(a, b) && LexLess(b, a))
    decreases |a|
  {
    if |a| > 0 && |b| > 0 && a[0] == b[0] {
      LexLessAsymmetric(a[1..], b[1..]);
    }
  }

  lemma {:induction false} LexLessIrreflexive(a: string)
    ensures !LexLess(a, a)
    decreases |a|
  {
    if |a| > 0 {
      LexLessIrreflexive(a[1..]);
    }
  }

  /**
   * Comparing two strings that start with fields of equal width decides on
   * the first field, and on the rest only when the first fields are equal.
   */
  lemma {:induction false} LexLessConcat(x: string, s: string, y: string, t: string)
    requires |x| == |y|
    ensures LexLess(x + s, y + t) <==> LexLess(x, y) || (x == y && LexLess(s, t))
    decreases |x|
  {
    if |x| == 0 {
      assert x + s == s && y + t == t;
    } else {
      assert (x + s)[1..] == x[1..] + s;
      assert (y + t)[1..] == y[1..] + t;
      LexLessConcat(x[1..], s, y[1..], t);
      if x[0] == y[0] && x[1..] == y[1..] {
        assert x == y;
      }
    }
  }

  predicate IsDigit(c: char) {
    '0' <= c <= '9'
  }

  predicate AllDigits(s: string) {
    forall i :: 0 <= i < |s| ==> IsDigit(s[i])
  }

  lemma AllDigitsConcat(a: string, b: string)
    requires AllDigits(a) && AllDigits(b)
    ensures AllDigits(a + b)
  {
    forall i | 0 <= i < |a + b|
      ensures IsDigit((a + b)[i])
    {
      if i >= |a| {
        assert (a + b)[i] == b[i - |a|];
      }
    }
  }

  /** The parts of `a + sep + b` can be sliced back out. */
  lemma SplitAt(a: string, sep: string, b: string)
    ensures (a + sep + b)[..|a|] == a && (a + sep + b)[|a|..|a| + |sep|] == sep && (a + sep + b)[|a| + |sep|..] == b
  {
  }

  lemma Regroup(a: string, b: string, c: string, d: string)
    ensures a + b + c + d == a + (b + (c + d))
  {
  }

  function DigitChar(d: int): (c: char)
    requires 0 <= d < 10
    ensures IsDigit(c) && c as int - '0' as int == d
  {
    ('0' as int + d) as char
  }

  /** The number a string of decimal digits denotes. */
  function DigitsValue(s: string): int
  {
    if s == [] then 0 else 10 * DigitsValue(s[..|s| - 1]) + (s[|s| - 1] as int - '0' as int)
  }

  function Pow10(w: nat): (p: nat)
    ensures p >= 1
  {
    if w == 0 then 1 else 10 * Pow10(w - 1)
  }

  /** `n` written with exactly `w` digits, leading zeros included (`%02d`, `%m`, `%H`, ...). */
  function Padded(n: nat, w: nat): (r: string)
    requires n < Pow10(w)
    ensures |r| == w && AllDigits(r)
    decreases w
  {
    if w == 0 then "" else Padded(n / 10, w - 1) + [DigitChar(n % 10)]
  }

  /** `n` in decimal without leading zeros (`str(n)`). */
  function Decimal(n: nat): (r: string)
    ensures 1 <= |r| && AllDigits(r)
  {
    if n < 10 then [DigitChar(n)] else Decimal(n / 10) + [DigitChar(n % 10)]
  }

  /** Reading a padded rendering back gives the number. */
  lemma {:induction false} PaddedValue(n: nat, w: nat)
    requires n < Pow10(w)
    ensures DigitsValue(Padded(n, w)) == n
    decreases w
  {
    if w > 0 {
      PaddedValue(n / 10, w - 1);
      var r := Padded(n, w);
      assert r[..|r| - 1] == Padded(n / 10, w - 1);
    }
  }

  lemma PaddedInjective(x: nat, y: nat, w: nat)
    requires x < Pow10(w) && y < Pow10(w)
    ensures Padded(x, w) == Padded(y, w) <==> x == y
  {
    PaddedValue(x, w);
    PaddedValue(y, w);
  }

  /** Fixed-width renderings compare as strings exactly as the numbers do. */
  lemma {:induction false} PaddedOrder(x: nat, y: nat, w: nat)
    requires x < Pow10(w) && y < Pow10(w)
    ensures LexLess(Padded(x, w), Padded(y, w)) <==> x < y
    decreases w
  {
    if w > 0 {
      PaddedOrder(x / 10, y / 10, w - 1);
      PaddedInjective(x / 10, y / 10, w - 1);
      LexLessConcat(Padded(x / 10, w - 1), [DigitChar(x % 10)], Padded(y / 10, w - 1), [DigitChar(y % 10)]);
      assert x == 10 * (x / 10) + x % 10;
      assert y == 10 * (y / 10) + y % 10;
    }
  }

  /** A number of exactly `w` digits is printed without leading zeros in `w` digits. */
  lemma {:induction false} DecimalPadded(n: nat, w: nat)
    requires 1 <= w && Pow10(w - 1) <= n < Pow10(w)
    ensures Decimal(n) == Padded(n, w)
    decreases w
  {
    if w == 1 {
      assert n < 10 && n / 10 == 0 && n % 10 == n;
    } else {
      assert Pow10(w) == 10 * Pow10(w - 1) && Pow10(w - 1) == 10 * Pow10(w - 2);
      assert 10 <= n;
      assert Pow10(w - 2) <= n / 10 < Pow10(w - 1);
      DecimalPadded(n / 10, w - 1);
    }
  }

  /** A four-digit number is printed without leading zeros in exactly four digits. */
  lemma DecimalFourDigits(n: nat)
    requires 1000 <= n < 10000
    ensures Decimal(n) == Padded(n, 4)
  {
    assert Pow10(3) == 1000 && Pow10(4) == 10000;
    DecimalPadded(n, 4);
  }

  /** What `os.path.join(a, x)` puts in front of a relative `x`: `a`, with a "/" added unless it is empty or ends in one. */
  function JoinPrefix(a: string): (r: string)
    ensures a != "" && !EndsWith(a, "/") ==> r == a + "/"
  {
    if a == "" || EndsWith(a, "/") then a else a + "/"
  }

  /** `os.path.join(a, b)` on POSIX, for two components: an absolute `b` replaces `a`. */
  function PathJoin(a: string, b: string): (r: string)
    ensures EndsWith(r, b)
    ensures |b| > 0 && b[0] != '/' && a != "" && !EndsWith(a, "/") ==> r == a + "/" + b
  {
    if |b| > 0 && b[0] == '/' then
      assert b[|b| - |b|..] == b;
      b
    else
      EndsWithAppended(JoinPrefix(a), b);
      JoinPrefix(a) + b
  }

  lemma JoinRelativeThenAppend(dir: string, name: string, suffix: string)
    requires |name| > 0 && name[0] != '/'
    ensures PathJoin(dir, name) + suffix == PathJoin(dir, name + suffix)
  {
    assert (name + suffix)[0] == name[0];
    assert JoinPrefix(dir) + name + suffix == JoinPrefix(dir) + (name + suffix);
  }

  lemma JoinAbsoluteThenAppend(dir: string, name: string, suffix: string)
    requires |name| > 0 && name[0] == '/'
    ensures PathJoin(dir, name) + suffix == PathJoin(dir, name + suffix)
  {
    assert (name + suffix)[0] == '/';
  }

  lemma JoinEmptyThenAppend(dir: string, suffix: string)
    requires suffix == "" || suffix[0] != '/'
    ensures PathJoin(dir, "") + suffix == PathJoin(dir, suffix)
  {
    assert JoinPrefix(dir) + "" == JoinPrefix(dir);
  }

  /** Appending to a joined path equals joining the extended last component. */
  lemma JoinThenAppend(dir: string, name: string, suffix: string)
    requires name != "" || suffix == "" || suffix[0] != '/'
    ensures PathJoin(dir, name) + suffix == PathJoin(dir, name + suffix)
  {
    if name == "" {
      assert name + suffix == suffix;
      JoinEmptyThenAppend(dir, suffix);
    } else if name[0] == '/' {
      JoinAbsoluteThenAppend(dir, name, suffix);
    } else {
      JoinRelativeThenAppend(dir, name, suffix);
    }
  }
}
