/**
 * Strings as the batch registry handles them: the order a text column sorts
 * in, decimal digits, Python's `int(s)`, `str(n)` and `s.zfill(w)`, and
 * `s.split(sep)`.
 */
module Text {
  import opened Wrappers

  // ---------------------------------------------------------------------------
  // Code-point order on strings (the order `order_by` gives a CharField)
  // ---------------------------------------------------------------------------

  /** `a` sorts strictly before `b`: first differing character decides, a proper prefix comes first. */
  predicate LexLess(a: string, b: string)
  {
    if b == [] then false
    else if a == [] then true
    else if a[0] != b[0] then a[0] < b[0]
    else LexLess(a[1..], b[1..])
  }

  predicate LexLeq(a: string, b: string)
  {
    a == b || LexLess(a, b)
  }

  lemma {:induction false} LexLessIrreflexive(a: string)
    ensures !LexLess(a, a)
  {
    if a != [] {
      LexLessIrreflexive(a[1..]);
    }
  }

  lemma {:induction false} LexLessTransitive(a: string, b: string, c: string)
    requires LexLess(a, b) && LexLess(b, c)
    ensures LexLess(a, c)
  {
    if a != [] && a[0] == b[0] && b[0] == c[0] {
      LexLessTransitive(a[1..], b[1..], c[1..]);
    }
  }

  lemma {:induction false} LexLessTotal(a: string, b: string)
    requires a != b
    ensures LexLess(a, b) || LexLess(b, a)
  {
    if a != [] && b != [] && a[0] == b[0] {
      assert a == [a[0]] + a[1..] && b == [b[0]] + b[1..];
      LexLessTotal(a[1..], b[1..]);
    }
  }

  /** LexLeq is a total order: the facts a maximum search needs, for all strings at once. */
  lemma LexOrder()
    ensures forall a, b, c :: LexLess(a, b) && LexLess(b, c) ==> LexLess(a, c)
    ensures forall a, b :: !LexLess(a, b) ==> LexLeq(b, a)
    ensures forall a :: !LexLess(a, a)
  {
    forall a, b, c | LexLess(a, b) && LexLess(b, c) ensures LexLess(a, c) {
      LexLessTransitive(a, b, c);
    }
    forall a, b | !LexLess(a, b) ensures LexLeq(b, a) {
      if a != b {
        LexLessTotal(a, b);
      }
    }
    forall a ensures !LexLess(a, a) {
      LexLessIrreflexive(a);
    }
  }

  // ---------------------------------------------------------------------------
  // Decimal digits
  // ---------------------------------------------------------------------------

  predicate IsDigit(c: char)
  {
    '0' <= c <= '9'
  }

  predicate AllDigits(s: string)
  {
    forall i :: 0 <= i < |s| ==> IsDigit(s[i])
  }

  function DigitValue(c: char): nat
    requires IsDigit(c)
  {
    (c as int) - ('0' as int)
  }

  function DigitChar(d: nat): (c: char)
    requires d < 10
    ensures IsDigit(c) && DigitValue(c) == d
  {
    (('0' as int) + d) as char
  }

  function Pow10(k: nat): (p: nat)
    ensures p >= 1
  {
    if k == 0 then 1 else 10 * Pow10(k - 1)
  }

  /** The number a digit string denotes, read most significant digit first. */
  function Value(s: string): nat
    requires AllDigits(s)
    decreases |s|
  {
    if s == [] then 0 else Value(s[..|s| - 1]) * 10 + DigitValue(s[|s| - 1])
  }

  /** Python's `str(n)` for a non-negative integer: no sign, no leading zero. */
  function Decimal(n: nat): (r: string)
    ensures AllDigits(r) && r != []
    ensures r[0] != '0' || n == 0
    decreases n
  {
    if n < 10 then [DigitChar(n)] else Decimal(n / 10) + [DigitChar(n % 10)]
  }

  /**
   * Python's `int(s)`, narrowed to what a sequence column holds: a non-empty
   * string of ASCII digits parses (leading zeros allowed); anything else is
   * the `ValueError` branch, here `None`.
   */
  function ParseDecimal(s: string): (r: Option<nat>)
    ensures r.Some? <==> s != [] && AllDigits(s)
    ensures r.Some? ==> r.value < Pow10(|s|)
  {
    if s != [] && AllDigits(s) then ValueBound(s); Some(Value(s)) else None
  }

  function Zeros(k: nat): (r: string)
    ensures |r| == k
    ensures forall i :: 0 <= i < k ==> r[i] == '0'
  {
    seq(k, _ => '0')
  }

  /** Python's `s.zfill(width)` on an unsigned string: pad on the left with '0' up to `width`, never cut. */
  function ZFill(s: string, width: nat): (r: string)
    ensures |r| == if |s| < width then width else |s|
    ensures r[|r| - |s|..] == s
    ensures forall i :: 0 <= i < |r| - |s| ==> r[i] == '0'
  {
    if |s| >= width then s else Zeros(width - |s|) + s
  }

  // ---------------------------------------------------------------------------
  // Round trips between numbers and digit strings
  // ---------------------------------------------------------------------------

  lemma {:induction false} DecimalRoundTrip(n: nat)
    ensures Value(Decimal(n)) == n
  {
    if n >= 10 {
      var d := Decimal(n / 10);
      DecimalRoundTrip(n / 10);
      assert (d + [DigitChar(n % 10)])[..|d|] == d;
    }
  }

  lemma {:induction false} ValueOfZeros(z: string)
    requires forall i :: 0 <= i < |z| ==> z[i] == '0'
    ensures AllDigits(z) && Value(z) == 0
  {
    if z != [] {
      ValueOfZeros(z[..|z| - 1]);
    }
  }

  /** Leading zeros do not change the number a digit string denotes. */
  lemma {:induction false} ValueLeadingZeros(z: string, s: string)
    requires forall i :: 0 <= i < |z| ==> z[i] == '0'
    requires AllDigits(s)
    ensures AllDigits(z + s) && Value(z + s) == Value(s)
    decreases |s|
  {
    ValueOfZeros(z);
    if s == [] {
      assert z + s == z;
    } else {
      var init := s[..|s| - 1];
      ValueLeadingZeros(z, init);
      assert (z + s)[..|z + s| - 1] == z + init;
    }
  }

  /** Parsing what `str(n).zfill(w)` produced gives back `n`. */
  lemma ParseZFillDecimal(n: nat, width: nat)
    ensures ParseDecimal(ZFill(Decimal(n), width)) == Some(n)
  {
    var d := Decimal(n);
    DecimalRoundTrip(n);
    if |d| < width {
      ValueLeadingZeros(Zeros(width - |d|), d);
    }
  }

  /** A digit string whose value is 0 is all zeros. */
  lemma {:induction false} ZeroValueIsZeros(s: string)
    requires AllDigits(s) && Value(s) == 0
    ensures forall i :: 0 <= i < |s| ==> s[i] == '0'
    decreases |s|
  {
    if s != [] {
      var init := s[..|s| - 1];
      ZeroValueIsZeros(init);
      assert forall i :: 0 <= i < |init| ==> s[i] == init[i];
    }
  }

  /**
   * Every string `int()` accepts is `str` of its value, zero-filled to the
   * string's own length: parsing loses only the leading zeros.
   */
  lemma ParseDecimalZFillInverse(s: string)
    requires ParseDecimal(s).Some?
    ensures |Decimal(ParseDecimal(s).value)| <= |s|
    ensures ZFill(Decimal(ParseDecimal(s).value), |s|) == s
  {
    DigitsAreZFilledDecimal(s);
  }

  /** A non-empty digit string is `Decimal` of its value behind leading zeros. */
  lemma {:induction false} DigitsAreZFilledDecimal(s: string)
    requires s != [] && AllDigits(s)
    ensures |Decimal(Value(s))| <= |s|
    ensures ZFill(Decimal(Value(s)), |s|) == s
    decreases |s|
  {
    var init, c := s[..|s| - 1], s[|s| - 1];
    assert s == init + [c];
    if init == [] || Value(init) == 0 {
      ZFilledFirstDigit(init, c);
    } else {
      DigitsAreZFilledDecimal(init);
      ZFilledNextDigit(init, c);
    }
  }

  /** Behind zeros only, the last digit alone is the value's `Decimal`. */
  lemma ZFilledFirstDigit(init: string, c: char)
    requires AllDigits(init) && Value(init) == 0 && IsDigit(c)
    ensures AllDigits(init + [c])
    ensures |Decimal(Value(init + [c]))| <= |init + [c]|
    ensures ZFill(Decimal(Value(init + [c])), |init + [c]|) == init + [c]
  {
    var s := init + [c];
    assert s[..|s| - 1] == init;
    assert Value(s) == DigitValue(c);
    DecimalOfDigit(c);
    assert init == Zeros(|init|) by {
      ZeroValueIsZeros(init);
    }
    ZFillPadded(|init|, [c]);
  }

  /** Appending a digit to a string of the form zeros-then-`Decimal(m)`, with `m > 0`, keeps that form. */
  lemma ZFilledNextDigit(init: string, c: char)
    requires init != [] && AllDigits(init) && Value(init) > 0 && IsDigit(c)
    requires |Decimal(Value(init))| <= |init| && ZFill(Decimal(Value(init)), |init|) == init
    ensures AllDigits(init + [c])
    ensures |Decimal(Value(init + [c]))| <= |init + [c]|
    ensures ZFill(Decimal(Value(init + [c])), |init + [c]|) == init + [c]
  {
    var s := init + [c];
    assert s[..|s| - 1] == init;
    var d := Decimal(Value(init));
    DecimalAppendDigit(Value(init), c);
    assert Decimal(Value(s)) == d + [c];
    var z := |init| - |d|;
    assert init == Zeros(z) + d by {
      ZFillPadded(z, d);
    }
    assert s == Zeros(z) + (d + [c]);
    ZFillPadded(z, d + [c]);
  }



  lemma DecimalOfDigit(c: char)
    requires IsDigit(c)
    ensures Decimal(DigitValue(c)) == [c]
  {
    assert DigitChar(DigitValue(c)) == c;
  }

  lemma DecimalAppendDigit(m: nat, c: char)
    requires m > 0 && IsDigit(c)
    ensures Decimal(m * 10 + DigitValue(c)) == Decimal(m) + [c]
  {
    var n := m * 10 + DigitValue(c);
    assert n / 10 == m && n % 10 == DigitValue(c);
    assert DigitChar(DigitValue(c)) == c;
  }


  /** Zero-filling to `z` more than the length adds exactly `z` zeros. */
  lemma ZFillPadded(z: nat, d: string)
    ensures ZFill(d, z + |d|) == Zeros(z) + d
  {
    if z == 0 {
      assert Zeros(0) + d == d;
    }
  }




  /** Numbers below 1000 print in at most three digits, so `zfill(3)` makes exactly three. */
  lemma DecimalBelow1000(n: nat)
    requires n < 1000
    ensures |Decimal(n)| <= 3
  {
    if n >= 10 {
      assert |Decimal(n / 10)| <= 2 by {
        if n / 10 >= 10 {
          assert |Decimal(n / 100)| == 1;
        }
      }
    }
  }

  lemma {:induction false} ValueBound(s: string)
    requires AllDigits(s)
    ensures Value(s) < Pow10(|s|)
    decreases |s|
  {
    if s != [] {
      var init := s[..|s| - 1];
      ValueBound(init);
      assert Value(init) + 1 <= Pow10(|init|);
      assert Value(s) <= (Pow10(|init|) - 1) * 10 + 9;
    }
  }

  /** The leading digit weighs `10^(|s| - 1)`. */
  lemma {:induction false} ValueFront(s: string)
    requires AllDigits(s) && s != []
    ensures Value(s) == DigitValue(s[0]) * Pow10(|s| - 1) + Value(s[1..])
    decreases |s|
  {
    if |s| == 1 {
      assert s[..0] == [] && s[1..] == [];
    } else {
      var n := |s|;
      var init, tail := s[..n - 1], s[1..];
      ValueFront(init);
      assert init[0] == s[0] && init[1..] == tail[..n - 2];
      assert tail[n - 2] == s[n - 1];
      assert Value(tail) == Value(tail[..n - 2]) * 10 + DigitValue(s[n - 1]);
      assert Value(s) == Value(init) * 10 + DigitValue(s[n - 1]);
      ShiftDigit(DigitValue(s[0]), Pow10(n - 2), Value(tail[..n - 2]), DigitValue(s[n - 1]));
    }
  }

  /** Appending a digit to `d * p + m` multiplies the leading term's weight by ten. */
  lemma ShiftDigit(d: nat, p: nat, m: nat, last: nat)
    ensures (d * p + m) * 10 + last == d * (10 * p) + (m * 10 + last)
  {
  }

  /** On digit strings of one length, string order is numeric order. */
  lemma {:induction false} LexLessValue(a: string, b: string)
    requires AllDigits(a) && AllDigits(b) && |a| == |b|
    requires LexLess(a, b)
    ensures Value(a) < Value(b)
    decreases |a|
  {
    ValueFront(a);
    ValueFront(b);
    if a[0] != b[0] {
      ValueBound(a[1..]);
      LeadingDigitDominates(DigitValue(a[0]), DigitValue(b[0]), Value(a[1..]), Value(b[1..]), Pow10(|a| - 1));
    } else {
      LexLessValue(a[1..], b[1..]);
    }
  }

  lemma LeadingDigitDominates(da: nat, db: nat, ra: nat, rb: nat, p: nat)
    requires da < db && ra < p
    ensures da * p + ra < db * p + rb
  {
    var k: nat := db - da - 1;
    assert db * p == (da + 1 + k) * p;
    assert (da + 1 + k) * p == da * p + p + k * p;
    assert k * p >= 0;
  }

  // ---------------------------------------------------------------------------
  // Splitting on a separator
  // ---------------------------------------------------------------------------

  /** Python's `s.split(sep)` for a one-character separator: always at least one part. */
  function Split(s: string, sep: char): (r: seq<string>)
    ensures |r| >= 1
    decreases |s|
  {
    if s == [] then [[]]
    else
      var rest := Split(s[1..], sep);
      if s[0] == sep then [[]] + rest else [[s[0]] + rest[0]] + rest[1..]
  }

  lemma {:induction false} SplitWithoutSeparator(a: string, sep: char)
    requires sep !in a
    ensures Split(a, sep) == [a]
    decreases |a|
  {
    if a != [] {
      SplitWithoutSeparator(a[1..], sep);
      assert [a[0]] + a[1..] == a;
    }
  }

  /** A separator after a separator-free part ends exactly that part. */
  lemma {:induction false} SplitAtFirstSeparator(a: string, sep: char, t: string)
    requires sep !in a
    ensures Split(a + [sep] + t, sep) == [a] + Split(t, sep)
    decreases |a|
  {
    var s := a + [sep] + t;
    if a == [] {
      assert s[1..] == t;
    } else {
      assert s[1..] == a[1..] + [sep] + t;
      SplitAtFirstSeparator(a[1..], sep, t);
      assert [a[0]] + a[1..] == a;
    }
  }
}
