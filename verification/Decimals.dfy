/** Checked 64-bit arithmetic and the decimal text of fixed-point amounts. */
module Decimals {
  import opened Wrappers

  const U64_MAX: nat := 0xFFFF_FFFF_FFFF_FFFF
  const RATE_SCALE: nat := 1_000_000
  const COST_SCALE: nat := 1_000_000_000_000
  const RATE_CAP: nat := 1_000_000_000_000

  function Add(a: nat, b: nat): (r: Result<nat>)
    requires a <= U64_MAX
    ensures r == if a + b <= U64_MAX then Ok(a + b) else Err("cost_overflow")
  {
    if b <= U64_MAX - a then Ok(a + b) else Err("cost_overflow")
  }

  function Multiply(a: nat, b: nat): (r: Result<nat>)
    ensures r == if a * b <= U64_MAX then Ok(a * b) else Err("cost_overflow")
  {
    if a != 0 then
      DivideBound(a, b, U64_MAX);
      if b <= U64_MAX / a then Ok(a * b) else Err("cost_overflow")
    else Ok(0)
  }

  lemma DivideBound(a: nat, b: nat, m: nat)
    requires a > 0
    ensures b <= m / a <==> a * b <= m
  {
    var q, r := m / a, m % a;
    DivMod(m, a);
    if b <= q {
      MulMonotone(a, b, q);
    } else {
      MulMonotone(a, q + 1, b);
      assert a * (q + 1) == a * q + a;
    }
  }

  lemma DivMod(n: nat, d: nat)
    requires d > 0
    ensures n == d * (n / d) + n % d && 0 <= n % d < d
  {
  }

  function Quotient(n: nat, d: nat): nat
    requires d > 0
  {
    n / d
  }

  function Remainder(n: nat, d: nat): nat
    requires d > 0
  {
    n % d
  }

  lemma MulMonotone(a: nat, b: nat, c: nat)
    requires b <= c
    ensures a * b <= a * c
  {
    assert a * (c - b) >= 0;
  }

  // ----- Digits -----

  function Pow10(n: nat): nat {
    if n == 0 then 1 else 10 * Pow10(n - 1)
  }

  predicate IsDigit(c: char) { '0' <= c <= '9' }

  predicate IsDigits(s: string) { forall i | 0 <= i < |s| :: IsDigit(s[i]) }

  function DigitValue(c: char): nat
    requires IsDigit(c)
  {
    c as int - '0' as int
  }

  function Digit(d: nat): (c: char)
    requires d < 10
    ensures IsDigit(c) && DigitValue(c) == d
  {
    (d + '0' as int) as char
  }

  /** The number a digit string denotes. */
  function ValueOf(s: string): nat
    requires IsDigits(s)
  {
    if s == "" then 0 else 10 * ValueOf(s[..|s| - 1]) + DigitValue(s[|s| - 1])
  }

  function ToText(n: nat): string {
    if n < 10 then [Digit(n)] else ToText(n / 10) + [Digit(n % 10)]
  }

  lemma {:induction false} PowPositive(n: nat)
    ensures Pow10(n) >= 1
  {
    if n > 0 {
      PowPositive(n - 1);
    }
  }

  lemma {:induction false} PowAdd(m: nat, n: nat)
    ensures Pow10(m + n) == Pow10(m) * Pow10(n)
  {
    if m > 0 {
      PowAdd(m - 1, n);
    }
  }

  lemma {:induction false} ValueBound(s: string)
    requires IsDigits(s)
    ensures ValueOf(s) < Pow10(|s|)
  {
    if s != "" {
      ValueBound(s[..|s| - 1]);
    }
  }

  lemma {:induction false} ValueAppend(a: string, b: string)
    requires IsDigits(a) && IsDigits(b)
    ensures IsDigits(a + b) && ValueOf(a + b) == ValueOf(a) * Pow10(|b|) + ValueOf(b)
    decreases |b|
  {
    if b == "" {
      assert a + b == a;
    } else {
      var b' := b[..|b| - 1];
      ValueAppend(a, b');
      assert (a + b)[..|a + b| - 1] == a + b';
      assert 10 * (ValueOf(a) * Pow10(|b'|)) == ValueOf(a) * Pow10(|b|);
    }
  }

  /** `ToText` is the inverse of `ValueOf`, without leading zeros. */
  lemma {:induction false} TextRoundTrip(n: nat)
    ensures var s := ToText(n); s != "" && IsDigits(s) && ValueOf(s) == n && (|s| > 1 ==> s[0] != '0')
  {
    if n >= 10 {
      TextRoundTrip(n / 10);
      var s := ToText(n);
      assert s[..|s| - 1] == ToText(n / 10);
      if |ToText(n / 10)| == 1 {
        assert ValueOf(ToText(n / 10)) == 10 * ValueOf("") + DigitValue(ToText(n / 10)[0]);
      }
    } else {
      assert ToText(n)[..0] == "";
    }
  }

  lemma {:induction false} TextLength(n: nat, k: nat)
    requires k >= 1 && n < Pow10(k)
    ensures |ToText(n)| <= k
    decreases k
  {
    if n >= 10 {
      assert Pow10(1) == 10;
      TextLength(n / 10, k - 1);
    }
  }

  function Zeros(n: nat): (z: string)
    ensures |z| == n
  {
    seq(n, _ => '0')
  }

  lemma {:induction false} ZerosAreZero(n: nat)
    ensures IsDigits(Zeros(n)) && ValueOf(Zeros(n)) == 0
  {
    if n > 0 {
      ZerosAreZero(n - 1);
      assert Zeros(n)[..n - 1] == Zeros(n - 1);
    }
  }

  // ----- Decimal text -----

  function Scale(digits: nat): (p: nat)
    ensures p >= 1
  {
    PowPositive(digits);
    Pow10(digits)
  }

  function WholeUnits(n: nat, digits: nat): nat { Quotient(n, Scale(digits)) }

  function PartUnits(n: nat, digits: nat): nat { Remainder(n, Scale(digits)) }

  /** The fraction of `n`, padded to its full width. */
  function Fraction(n: nat, digits: nat): string {
    var tail := ToText(PartUnits(n, digits));
    if |tail| <= digits then Zeros(digits - |tail|) + tail else tail
  }

  function Decimal(n: nat, digits: nat): string {
    ToText(WholeUnits(n, digits)) + "." + Fraction(n, digits)
  }

  lemma UnitsAre(n: nat, digits: nat)
    ensures n == Pow10(digits) * WholeUnits(n, digits) + PartUnits(n, digits)
    ensures PartUnits(n, digits) < Pow10(digits)
  {
    DivMod(n, Scale(digits));
    hide Pow10;
  }

  lemma FractionIs(n: nat, digits: nat)
    requires digits >= 1
    ensures var f := Fraction(n, digits); |f| == digits && IsDigits(f) && ValueOf(f) == PartUnits(n, digits)
  {
    hide PartUnits, Pow10, ValueOf, ToText, Zeros;
    var tail := ToText(PartUnits(n, digits));
    UnitsAre(n, digits);
    TextLength(PartUnits(n, digits), digits);
    TextRoundTrip(PartUnits(n, digits));
    ZerosAreZero(digits - |tail|);
    ValueAppend(Zeros(digits - |tail|), tail);
  }

  /** The digits of a decimal, read without the point, are the amount itself. */
  lemma DecimalDigits(n: nat, digits: nat)
    requires digits >= 1
    ensures var whole, f := ToText(WholeUnits(n, digits)), Fraction(n, digits);
            IsDigits(whole + f) && ValueOf(whole + f) == n
  {
    hide ToText, Fraction, ValueOf, IsDigits, WholeUnits, PartUnits, Pow10;
    TextRoundTrip(WholeUnits(n, digits));
    FractionIs(n, digits);
    ValueAppend(ToText(WholeUnits(n, digits)), Fraction(n, digits));
    UnitsAre(n, digits);
  }

  // ----- Rates: up to seven digits, optionally a point and up to six more -----

  function FindDot(s: string, at: nat): (i: nat)
    requires at <= |s|
    ensures at <= i <= |s|
    ensures i < |s| ==> s[i] == '.'
    ensures forall j :: at <= j < i ==> s[j] != '.'
    decreases |s| - at
  {
    if at == |s| || s[at] == '.' then at else FindDot(s, at + 1)
  }

  function Whole(s: string): (n: nat)
    ensures n <= |s|
  {
    FindDot(s, 0)
  }

  function Places(s: string): nat {
    if Whole(s) == |s| then 0 else |s| - Whole(s) - 1
  }

  /** The first `i` characters without the point. */
  function DigitsTo(s: string, i: nat): string
    requires i <= |s|
  {
    if i <= Whole(s) then s[..i] else s[..Whole(s)] + s[Whole(s) + 1..i]
  }

  predicate RateForm(s: string) {
    && 0 < |s| <= 14
    && 1 <= Whole(s) <= 7 && (Whole(s) == 1 || s[0] != '0')
    && (Whole(s) == |s| || 1 <= Places(s) <= 6)
  }

  /** A rate in millionths of a currency unit. */
  function RateUnits(s: string): Result<nat> {
    if !RateForm(s) || !IsDigits(DigitsTo(s, |s|)) then Err("cost_rate_decimal")
    else
      var value := ValueOf(DigitsTo(s, |s|)) * Pow10(6 - Places(s));
      if value <= RATE_CAP then Ok(value) else Err("cost_rate_range")
  }

  lemma PowersOfTen()
    ensures Pow10(1) == 10 && Pow10(6) == RATE_SCALE && Pow10(12) == COST_SCALE
    ensures Pow10(13) == 10_000_000_000_000 && Pow10(19) == 10_000_000_000_000_000_000
  {
    assert Pow10(3) == 1000;
    PowAdd(3, 3);
    PowAdd(6, 6);
    PowAdd(12, 1);
    PowAdd(13, 6);
  }

  lemma {:induction false} PowMonotone(m: nat, n: nat)
    requires m <= n
    ensures Pow10(m) <= Pow10(n)
    decreases n
  {
    if m < n {
      PowMonotone(m, n - 1);
    }
  }

  /** Reads the digits around the point in checked 64-bit arithmetic, which never overflows. */
  method ReadDigits(s: string) returns (r: Result<nat>)
    requires RateForm(s)
    ensures r == if IsDigits(DigitsTo(s, |s|)) then Ok(ValueOf(DigitsTo(s, |s|))) else Err("cost_rate_decimal")
  {
    hide Multiply, Add, DigitsTo, RateForm, ValueOf, IsDigits;
    var whole := Whole(s);
    var value := 0;
    NoDigits(s);
    for i := 0 to |s|
      invariant IsDigits(DigitsTo(s, i)) && value == ValueOf(DigitsTo(s, i))
    {
      NextDigit(s, i);
      if i == whole {
        continue;
      }
      :- Need(IsDigit(s[i]), "cost_rate_decimal");
      var shifted := Multiply(value, 10);
      assert shifted.Ok?;
      var next := Add(shifted.value, DigitValue(s[i]));
      assert next.Ok?;
      value := next.value;
    }
    r := Ok(value);
  }

  lemma NoDigits(s: string)
    ensures IsDigits(DigitsTo(s, 0)) && ValueOf(DigitsTo(s, 0)) == 0
  {
  }

  /** What the next character adds to the digits read so far. */
  lemma NextDigit(s: string, i: nat)
    requires RateForm(s) && i < |s| && IsDigits(DigitsTo(s, i))
    ensures i == Whole(s) ==> DigitsTo(s, i + 1) == DigitsTo(s, i)
    ensures i != Whole(s) && !IsDigit(s[i]) ==> !IsDigits(DigitsTo(s, |s|))
    ensures i != Whole(s) && IsDigit(s[i]) ==>
              && IsDigits(DigitsTo(s, i + 1))
              && ValueOf(DigitsTo(s, i + 1)) == 10 * ValueOf(DigitsTo(s, i)) + DigitValue(s[i]) <= U64_MAX
  {
    if i == Whole(s) {
      assert DigitsTo(s, i + 1) == DigitsTo(s, i);
    } else {
      assert DigitsTo(s, i + 1) == DigitsTo(s, i) + [s[i]];
      MoreDigits(s, i + 1);
      assert DigitsTo(s, i + 1)[|DigitsTo(s, i)|] == s[i];
      if IsDigit(s[i]) {
        OneDigit(DigitsTo(s, i), s[i]);
        hide ValueOf, FindDot, Pow10;
        ValueBound(DigitsTo(s, i + 1));
        PowMonotone(|DigitsTo(s, i + 1)|, 13);
        PowersOfTen();
      }
    }
  }

  /** A rate's units, scaled to millionths; the range is the only bound ever met. */
  method ParseRate(s: string) returns (r: Result<nat>)
    ensures r == RateUnits(s)
  {
    hide Multiply, Pow10, DigitsTo, ValueOf;
    :- Need(RateForm(s), "cost_rate_decimal");
    var value :- ReadDigits(s);
    var places := Places(s);
    ghost var digits := DigitsTo(s, |s|);
    DigitsFit(s);
    hide RateForm, IsDigits, Whole;
    for i := places to 6
      invariant value == ValueOf(digits) * Pow10(i - places)
    {
      ScaleStep(digits, i - places);
      var scaled := Multiply(value, 10);
      assert scaled.Ok?;
      value := scaled.value;
      assert i - places + 1 == i + 1 - places;
    }
    :- Need(value <= RATE_CAP, "cost_rate_range");
    r := Ok(value);
  }

  lemma DigitsFit(s: string)
    requires RateForm(s)
    ensures |DigitsTo(s, |s|)| == Whole(s) + Places(s) && Places(s) <= 6
    ensures forall v: nat :: v * Pow10(0) == v
  {
  }

  lemma OneDigit(a: string, c: char)
    requires IsDigits(a) && IsDigit(c)
    ensures IsDigits(a + [c]) && ValueOf(a + [c]) == 10 * ValueOf(a) + DigitValue(c)
  {
    assert (a + [c])[..|a|] == a;
  }

  lemma MoreDigits(s: string, i: nat)
    requires i <= |s|
    ensures DigitsTo(s, i) <= DigitsTo(s, |s|)
    ensures !IsDigits(DigitsTo(s, i)) ==> !IsDigits(DigitsTo(s, |s|))
  {
    var a, b := DigitsTo(s, i), DigitsTo(s, |s|);
    assert forall j :: 0 <= j < |a| ==> a[j] == b[j];
  }

  lemma ScaleStep(s: string, k: nat)
    requires IsDigits(s) && |s| + k <= 13
    ensures ValueOf(s) * Pow10(k) * 10 == ValueOf(s) * Pow10(k + 1) <= U64_MAX
    ensures ValueOf(s) * Pow10(k) <= U64_MAX
  {
    hide ValueOf, Pow10;
    ValueBound(s);
    PowAdd(|s|, k);
    PowMonotone(|s| + k, 13);
    PowersOfTen();
    PowNext(k);
    ScaleBound(ValueOf(s), Pow10(k), Pow10(|s|), Pow10(13));
  }

  lemma PowNext(k: nat)
    ensures Pow10(k + 1) == 10 * Pow10(k)
  {
  }

  lemma ScaleBound(v: nat, p: nat, q: nat, top: nat)
    requires v <= q && q * p <= top
    ensures v * p <= top && v * (10 * p) == v * p * 10
  {
    MulMonotone(p, v, q);
  }

  // ----- Round trips -----

  lemma PointForm(w: string, f: string)
    requires w != "" && f != "" && forall i | 0 <= i < |w| :: w[i] != '.'
    ensures var d := w + "." + f;
            && Whole(d) == |w| < |d| && Places(d) == |f| && d[0] == w[0]
            && DigitsTo(d, |d|) == w + f && d[..|w|] == w && d[|w|] == '.' && d[|w| + 1..] == f
  {
    var d := w + "." + f;
    assert d[|w|] == '.' && forall j :: 0 <= j < |w| ==> d[j] == w[j];
    assert d[..|w|] == w && d[|w| + 1..|d|] == f;
  }

  lemma DecimalForm(n: nat, digits: nat)
    requires digits >= 1
    ensures var d, w, f := Decimal(n, digits), ToText(WholeUnits(n, digits)), Fraction(n, digits);
            && Whole(d) == |w| < |d| && Places(d) == digits && d[0] == w[0]
            && DigitsTo(d, |d|) == w + f && d[..|w|] == w && d[|w|] == '.' && d[|w| + 1..] == f
  {
    TextRoundTrip(WholeUnits(n, digits));
    FractionIs(n, digits);
    hide ToText, Fraction, ValueOf, WholeUnits, Whole;
    PointForm(ToText(WholeUnits(n, digits)), Fraction(n, digits));
  }

  /** `text` is a decimal with exactly `places` digits after its one point, and denotes
      `n` units of its last place. */
  ghost predicate Denotes(text: string, places: nat, n: nat) {
    exists w, f :: IsSplit(text, w, f) && |f| == places && w != "" && IsDigits(w + f) && ValueOf(w + f) == n
  }

  predicate IsSplit(text: string, w: string, f: string) { text == w + "." + f }

  /** The units a decimal denotes, if it is one. */
  function UnitsOf(text: string, places: nat): Option<nat> {
    var w := |text| - places - 1;
    if w < 1 || text[w] != '.' || !IsDigits(text[..w] + text[w + 1..]) then None
    else Some(ValueOf(text[..w] + text[w + 1..]))
  }

  /** A text denotes at most one amount, and `UnitsOf` finds it. */
  lemma DenotesIff(text: string, places: nat, n: nat)
    ensures Denotes(text, places, n) <==> UnitsOf(text, places) == Some(n)
  {
    hide ValueOf;
    var w := |text| - places - 1;
    if UnitsOf(text, places) == Some(n) {
      assert IsSplit(text, text[..w], text[w + 1..]);
    }
    if a, f :| IsSplit(text, a, f) && |f| == places && a != "" && IsDigits(a + f) && ValueOf(a + f) == n {
      assert w == |a| && text[..w] == a && text[w + 1..] == f;
    }
  }

  /** A printed amount denotes itself, point included. */
  lemma DecimalDenotes(n: nat, digits: nat)
    requires digits >= 1
    ensures Denotes(Decimal(n, digits), digits, n) && UnitsOf(Decimal(n, digits), digits) == Some(n)
  {
    hide ToText, Fraction, ValueOf, WholeUnits, UnitsOf;
    DecimalDigits(n, digits);
    FractionIs(n, digits);
    TextRoundTrip(WholeUnits(n, digits));
    assert IsSplit(Decimal(n, digits), ToText(WholeUnits(n, digits)), Fraction(n, digits));
    DenotesIff(Decimal(n, digits), digits, n);
  }

  /** A printed rate reads back as itself, over the whole accepted range. */
  lemma RateRoundTrip(n: nat)
    requires n <= RATE_CAP
    ensures RateUnits(Decimal(n, 6)) == Ok(n)
  {
    hide ToText, Fraction, ValueOf, Whole, Decimal;
    PowersOfTen();
    PowAdd(1, 6);
    TextLength(WholeUnits(n, 6), 7);
    TextRoundTrip(WholeUnits(n, 6));
    DecimalForm(n, 6);
    DecimalDigits(n, 6);
    FractionIs(n, 6);
    assert |DigitsTo(Decimal(n, 6), |Decimal(n, 6)|)| == Whole(Decimal(n, 6)) + 6;
    assert Pow10(0) == 1;
  }

  /** One to seven whole digits without a leading zero, then up to six decimals or no
      point at all, denoting `n` millionths within the cap. */
  ghost predicate SpellsRate(s: string, w: string, f: string, n: nat) {
    && s == (if f == "" then w else w + "." + f)
    && 1 <= |w| <= 7 && |f| <= 6 && (|w| == 1 || w[0] != '0') && IsDigits(w) && IsDigits(f) && IsDigits(w + f)
    && n == ValueOf(w + f) * Pow10(6 - |f|) && n <= 1_000_000_000_000
  }

  /** The accepted rates are exactly these spellings, read at their value. */
  lemma RateIff(s: string, n: nat)
    ensures RateUnits(s) == Ok(n) <==> exists w, f :: SpellsRate(s, w, f, n)
  {
    if RateUnits(s) == Ok(n) {
      RateSplits(s, n);
    }
    if w, f :| SpellsRate(s, w, f, n) {
      SpellingReads(s, w, f, n);
    }
  }

  lemma RateSplits(s: string, n: nat)
    requires RateUnits(s) == Ok(n)
    ensures exists w, f :: SpellsRate(s, w, f, n)
  {
    hide ValueOf, Pow10;
    var at := Whole(s);
    var w, f := s[..at], if at == |s| then "" else s[at + 1..];
    assert DigitsTo(s, |s|) == w + f;
    assert forall i :: 0 <= i < |w| ==> w[i] == (w + f)[i];
    assert forall i :: 0 <= i < |f| ==> f[i] == (w + f)[|w| + i];
    assert SpellsRate(s, w, f, n);
  }

  lemma SpellingReads(s: string, w: string, f: string, n: nat)
    requires SpellsRate(s, w, f, n)
    ensures RateUnits(s) == Ok(n)
  {
    hide ValueOf, Pow10;
    assert forall i :: 0 <= i < |w| ==> IsDigit(w[i]) && w[i] != '.';
    if f == "" {
      assert w + f == w && Whole(s) == |s| && DigitsTo(s, |s|) == s;
    } else {
      PointForm(w, f);
    }
  }

  lemma DecimalInjective(m: nat, n: nat, digits: nat)
    requires digits >= 1 && Decimal(m, digits) == Decimal(n, digits)
    ensures m == n
  {
    DecimalForm(m, digits);
    DecimalForm(n, digits);
    DecimalDigits(m, digits);
    DecimalDigits(n, digits);
    hide ToText, Fraction, ValueOf, Whole, Decimal;
  }

  /** `s` and `t` denote the same number: equal digits over equal powers of ten. */
  predicate SameNumber(s: string, t: string)
    requires IsDigits(DigitsTo(s, |s|)) && IsDigits(DigitsTo(t, |t|))
  {
    ValueOf(DigitsTo(s, |s|)) * Pow10(Places(t)) == ValueOf(DigitsTo(t, |t|)) * Pow10(Places(s))
  }

  lemma CrossMultiply(a: nat, b: nat, p: nat, q: nat, p': nat, q': nat, m: nat)
    requires p * p' == m && q * q' == m && m > 0
    ensures a * p' == b * q' <==> a * q == b * p
  {
    assert a * p' * (p * q) == a * q * m by {
      assert a * p' * (p * q) == a * q * (p * p');
    }
    assert b * q' * (p * q) == b * p * m by {
      assert b * q' * (p * q) == b * p * (q * q');
    }
    if a * p' == b * q' {
      Cancel(a * q, b * p, m);
    }
    if a * q == b * p {
      assert p * q > 0 by {
        assert p > 0 && q > 0;
      }
      Cancel(a * p', b * q', p * q);
    }
  }

  lemma Cancel(x: nat, y: nat, m: nat)
    requires m > 0 && x * m == y * m
    ensures x == y
  {
    if x < y {
      MulMonotone(m, x + 1, y);
    } else if y < x {
      MulMonotone(m, y + 1, x);
    }
  }

  /** Two accepted spellings print alike exactly when they denote the same number. */
  lemma SpellingsNormalize(s: string, t: string)
    requires RateUnits(s).Ok? && RateUnits(t).Ok?
    ensures Decimal(RateUnits(s).value, 6) == Decimal(RateUnits(t).value, 6) <==> SameNumber(s, t)
  {
    hide Decimal, ValueOf, Whole, DigitsTo, Pow10;
    if Decimal(RateUnits(s).value, 6) == Decimal(RateUnits(t).value, 6) {
      DecimalInjective(RateUnits(s).value, RateUnits(t).value, 6);
    }
    PowAdd(Places(s), 6 - Places(s));
    PowAdd(Places(t), 6 - Places(t));
    PowPositive(6);
    CrossMultiply(ValueOf(DigitsTo(s, |s|)), ValueOf(DigitsTo(t, |t|)), Pow10(Places(s)), Pow10(Places(t)),
                  Pow10(6 - Places(s)), Pow10(6 - Places(t)), Pow10(6));
  }

  // ----- Reading a printed amount -----

  function UnitsFrom(s: string, i: nat, result: nat): Result<nat>
    requires i <= |s| && result <= U64_MAX
    decreases |s| - i
  {
    if i == |s| then Ok(result)
    else if s[i] == '.' then UnitsFrom(s, i + 1, result)
    else if !IsDigit(s[i]) then Err("comparison_internal_amount")
    else
      var shifted :- Multiply(result, 10);
      var next :- Add(shifted, DigitValue(s[i]));
      UnitsFrom(s, i + 1, next)
  }

  function ReportUnits(s: string): Result<nat> {
    UnitsFrom(s, 0, 0)
  }

  /** Reads back an amount the report printed, in checked 64-bit arithmetic. */
  method ReadUnits(s: string) returns (r: Result<nat>)
    ensures r == ReportUnits(s)
  {
    hide Multiply, Add;
    var result: nat := 0;
    for i := 0 to |s|
      invariant result <= U64_MAX && UnitsFrom(s, i, result) == UnitsFrom(s, 0, 0)
    {
      if s[i] == '.' {
        continue;
      }
      :- Need(IsDigit(s[i]), "comparison_internal_amount");
      var shifted :- Multiply(result, 10);
      result :- Add(shifted, DigitValue(s[i]));
    }
    r := Ok(result);
  }

  /** Digits are read as their value as long as that fits. */
  lemma {:induction false} UnitsOfDigits(s: string, i: nat, j: nat, before: string)
    requires i <= j <= |s| && IsDigits(s[i..j]) && IsDigits(before)
    requires IsDigits(before + s[i..j]) && ValueOf(before + s[i..j]) <= U64_MAX
    ensures ValueOf(before) <= U64_MAX
    ensures UnitsFrom(s, i, ValueOf(before)) == UnitsFrom(s, j, ValueOf(before + s[i..j]))
    decreases j - i
  {
    hide Multiply, Add, ValueOf;
    if i == j {
      assert before + s[i..j] == before;
    } else {
      var next := before + [s[i]];
      assert s[i..j][0] == s[i] && next + s[i + 1..j] == before + s[i..j];
      OneDigit(before, s[i]);
      assert s[i + 1..j] == s[i..j][1..];
      UnitsOfDigits(s, i + 1, j, next);
    }
  }

  lemma PointUnits(w: string, f: string)
    requires IsDigits(w) && IsDigits(f) && w != "" && f != "" && IsDigits(w + f) && ValueOf(w + f) <= U64_MAX
    ensures ReportUnits(w + "." + f) == Ok(ValueOf(w + f))
  {
    var d := w + "." + f;
    hide ValueOf, Multiply, Add;
    assert d[0..|w|] == w && d[|w|] == '.' && d[|w| + 1..|d|] == f;
    assert "" + w == w;
    ValueAppend(w, f);
    PowPositive(|f|);
    MulMonotone(ValueOf(w), 1, Pow10(|f|));
    EmptyIsZero();
    UnitsOfDigits(d, 0, |w|, "");
    UnitsOfDigits(d, |w| + 1, |d|, w);
  }

  /** Every 64-bit amount reads back from its printed form, and the checked arithmetic never trips. */
  lemma UnitsRoundTrip(n: nat)
    requires n <= U64_MAX
    ensures ReportUnits(Decimal(n, 12)) == Ok(n)
  {
    TextRoundTrip(WholeUnits(n, 12));
    FractionIs(n, 12);
    DecimalDigits(n, 12);
    hide ToText, Fraction, Scale, ValueOf, ReportUnits;
    PointUnits(ToText(WholeUnits(n, 12)), Fraction(n, 12));
  }

  lemma EmptyIsZero()
    ensures ValueOf("") == 0
  {
  }
}
