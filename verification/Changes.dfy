/** The difference between two printed amounts: a signed decimal and a fraction in
    lowest terms. */
module Changes {
  import opened Wrappers
  import opened Decimals
  import opened TokenCost
  import opened CostReports

  datatype Ratio = Ratio(numerator: string, denominator: string)

  datatype Change = Change(delta: Option<string>, unavailable: Option<string>,
                           relative: Option<Ratio>, relativeUnavailable: Option<string>)

  const INELIGIBLE := Change(None, Some("comparison_not_eligible"), None, None)

  function Gcd(a: nat, b: nat): nat
    decreases b
  {
    if b == 0 then a else Gcd(b, a % b)
  }

  function Distance(a: nat, b: nat): nat { if b < a then a - b else b - a }

  function Sign(a: nat, b: nat): string { if b < a then "-" else "" }

  /** The relative change, divided by the greatest common divisor. */
  function RatioOf(sign: string, magnitude: nat, a: nat): Ratio
    requires a > 0
  {
    GcdPositive(magnitude, a);
    var divisor := Gcd(magnitude, a);
    Ratio(sign + ToText(Quotient(magnitude, divisor)), ToText(Quotient(a, divisor)))
  }

  function Difference(a: nat, b: nat): Change {
    var delta := Sign(a, b) + Money(Distance(a, b));
    if a == 0 then Change(Some(delta), None, None, Some("zero_baseline"))
    else Change(Some(delta), None, Some(RatioOf(Sign(a, b), Distance(a, b), a)), None)
  }

  function ChangeOf(baseline: Summary, candidate: Summary, eligible: bool): Result<Change> {
    if !eligible then Ok(INELIGIBLE) else
    var a :- ReportUnits(baseline.knownSubtotal);
    var b :- ReportUnits(candidate.knownSubtotal);
    Ok(Difference(a, b))
  }

  /** Reads the two printed subtotals back and prints their difference. */
  method MakeChange(baseline: Summary, candidate: Summary, eligible: bool) returns (r: Result<Change>)
    ensures r == ChangeOf(baseline, candidate, eligible)
  {
    hide ReportUnits, Difference;
    if !eligible {
      return Ok(INELIGIBLE);
    }
    var a :- ReadUnits(baseline.knownSubtotal);
    var b :- ReadUnits(candidate.knownSubtotal);
    r := Ok(Difference(a, b));
  }

  // ----- Divisibility -----

  predicate IsProduct(n: nat, d: nat, k: nat) { n == d * k }

  ghost predicate Divides(d: nat, n: nat) { exists k: nat :: IsProduct(n, d, k) }

  ghost predicate Coprime(p: nat, q: nat) {
    forall d: nat :: Divides(d, p) && Divides(d, q) ==> d == 1
  }

  lemma {:induction false} GcdPositive(a: nat, b: nat)
    ensures a > 0 || b > 0 ==> Gcd(a, b) > 0
    decreases b
  {
    if b > 0 {
      GcdPositive(b, a % b);
    }
  }

  lemma QuotientRemainder(a: nat, b: nat)
    requires b > 0
    ensures a == (a / b) * b + a % b
  {
  }

  lemma DividesSum(d: nat, x: nat, y: nat, k: nat)
    requires Divides(d, x) && Divides(d, y)
    ensures Divides(d, k * x + y)
  {
    var m: nat :| IsProduct(x, d, m);
    var n: nat :| IsProduct(y, d, n);
    assert k * (d * m) + d * n == d * (k * m + n);
    assert IsProduct(k * x + y, d, k * m + n);
  }

  lemma DividesRest(d: nat, x: nat, y: nat, k: nat)
    requires Divides(d, k * x + y) && Divides(d, x) && d > 0
    ensures Divides(d, y)
  {
    var m: nat :| IsProduct(x, d, m);
    var n: nat :| IsProduct(k * x + y, d, n);
    assert k * (d * m) == d * (k * m);
    assert y == d * (n - k * m);
    NotNegative(d, n - k * m);
    assert IsProduct(y, d, n - k * m);
  }

  lemma NotNegative(d: nat, x: int)
    requires d > 0 && d * x >= 0
    ensures x >= 0
  {
  }

  lemma {:induction false} GcdDivides(a: nat, b: nat)
    ensures Divides(Gcd(a, b), a) && Divides(Gcd(a, b), b)
    decreases b
  {
    if b == 0 {
      assert IsProduct(a, a, 1) && IsProduct(0, a, 0);
    } else {
      GcdDivides(b, a % b);
      DividesBack(Gcd(b, a % b), a, b);
    }
  }

  lemma DividesBack(g: nat, a: nat, b: nat)
    requires b > 0 && Divides(g, b) && Divides(g, a % b)
    ensures Divides(g, a)
  {
    QuotientRemainder(a, b);
    DividesSum(g, b, a % b, a / b);
  }

  lemma {:induction false} GcdGreatest(a: nat, b: nat, d: nat)
    requires Divides(d, a) && Divides(d, b) && d > 0
    ensures Divides(d, Gcd(a, b))
    decreases b
  {
    if b > 0 {
      QuotientRemainder(a, b);
      DividesRest(d, b, a % b, a / b);
      GcdGreatest(b, a % b, d);
    }
  }

  lemma Exact(n: nat, d: nat)
    requires d > 0 && Divides(d, n)
    ensures n == d * Quotient(n, d)
  {
    var k: nat :| IsProduct(n, d, k);
    QuotientRemainder(n, d);
    hide Quotient;
    SmallMultiple(d, k - n / d, n % d);
  }

  lemma SmallMultiple(d: nat, x: int, r: nat)
    requires d * x == r && r < d
    ensures x == 0
  {
    NotNegative(d, x);
  }

  /** A fraction divided by its greatest common divisor is in lowest terms. */
  lemma LowestTerms(m: nat, a: nat)
    requires a > 0
    ensures var g := Gcd(m, a);
            && g > 0 && m == g * Quotient(m, g) && a == g * Quotient(a, g)
            && Coprime(Quotient(m, g), Quotient(a, g)) && Quotient(a, g) > 0
  {
    hide Quotient, Gcd;
    var g := Gcd(m, a);
    GcdPositive(m, a);
    GcdDivides(m, a);
    Exact(m, g);
    Exact(a, g);
    var p, q := Quotient(m, g), Quotient(a, g);
    forall d: nat | Divides(d, p) && Divides(d, q) ensures d == 1 {
      LowestDivisor(m, a, p, q, d);
    }
  }

  lemma LowestDivisor(m: nat, a: nat, p: nat, q: nat, d: nat)
    requires a > 0 && Gcd(m, a) > 0 && m == Gcd(m, a) * p && a == Gcd(m, a) * q && Divides(d, p) && Divides(d, q)
    ensures d == 1
  {
    hide Gcd;
    var g := Gcd(m, a);
    var i: nat :| IsProduct(p, d, i);
    var j: nat :| IsProduct(q, d, j);
    Regroup(g, d, i);
    Regroup(g, d, j);
    assert IsProduct(m, g * d, i) && IsProduct(a, g * d, j);
    assert d > 0;
    GcdGreatest(m, a, g * d);
    var k: nat :| IsProduct(g, g * d, k);
    Regroup(g, d, k);
    OneFactor(g, d * k);
    UnitFactor(d, k);
  }

  lemma Regroup(g: nat, d: nat, i: nat)
    ensures g * (d * i) == (g * d) * i
  {
  }

  lemma OneFactor(g: nat, n: nat)
    requires g > 0 && g == g * n
    ensures n == 1
  {
  }

  lemma UnitFactor(d: nat, k: nat)
    requires d * k == 1
    ensures d == 1
  {
  }

  // ----- What a change says -----

  function Negated(n: Option<nat>): Option<int> {
    if n.Some? then Some(0 - n.value) else None
  }

  /** The amount a signed decimal denotes, if it denotes one. */
  function SignedAmount(s: string): Option<int> {
    if s != "" && s[0] == '-' then Negated(AmountOf(s[1..])) else AmountOf(s)
  }

  /** `s` shows exactly `z` at twelve decimals, with a minus sign when negative. */
  ghost predicate IsSignedMoney(s: string, z: int) {
    if z < 0 then s != "" && s[0] == '-' && IsMoney(s[1..], -z) else IsMoney(s, z)
  }

  /** The integer a signed digit string denotes, if it denotes one. */
  function SignedValue(s: string): Option<int> {
    var digits := if s != "" && s[0] == '-' then s[1..] else s;
    if digits == "" || !IsDigits(digits) then None
    else if digits == s then Some(ValueOf(digits)) else Negated(Some(ValueOf(digits)))
  }

  lemma MoneySigned(a: nat, b: nat)
    ensures var text := Sign(a, b) + Money(Distance(a, b));
            SignedAmount(text) == Some(b - a) && IsSignedMoney(text, b - a)
  {
    hide Money, AmountOf, IsMoney;
    var s := Money(Distance(a, b));
    MoneyIs(Distance(a, b));
    MoneyUnsigned(s, Distance(a, b));
    assert ("-" + s)[1..] == s;
    assert "" + s == s;
  }

  lemma FirstIsDigit(s: string)
    requires s != "" && IsDigits(s)
    ensures s[0] != '-'
  {
    assert IsDigit(s[0]);
  }

  lemma MoneyUnsigned(text: string, n: nat)
    requires IsMoney(text, n)
    ensures text != "" && text[0] != '-'
  {
    var w, f :| IsSplit(text, w, f) && w != "" && IsDigits(w + f);
    assert text[0] == (w + f)[0];
    FirstIsDigit(w + f);
  }

  lemma TextSigned(a: nat, b: nat, n: nat)
    ensures SignedValue(Sign(a, b) + ToText(n)) == Some(if b < a then 0 - n else n)
  {
    TextRoundTrip(n);
    hide ToText, ValueOf;
    assert ("-" + ToText(n))[1..] == ToText(n);
    assert "" + ToText(n) == ToText(n);
  }

  /** `r` is the fraction (b - a) / a in lowest terms. */
  ghost predicate IsRelative(r: Ratio, a: nat, b: nat) {
    var p, q := SignedValue(r.numerator), SignedValue(r.denominator);
    && p.Some? && q.Some? && q.value > 0 && p.value * a == (b - a) * q.value
    && Coprime(if p.value < 0 then -p.value else p.value, q.value)
  }

  lemma RelativeIs(a: nat, b: nat)
    requires a > 0
    ensures var d := Difference(a, b); d.relative.Some? && IsRelative(d.relative.value, a, b)
  {
    var m, g := Distance(a, b), Gcd(Distance(a, b), a);
    hide Gcd, Quotient, ToText, SignedValue, Coprime, SignedAmount, Money;
    LowestTerms(m, a);
    var p, q := Quotient(m, g), Quotient(a, g);
    TextSigned(a, b, p);
    TextSigned(a, a, q);
    assert Sign(a, a) + ToText(q) == ToText(q);
    Crosswise(m, a, g, p, q);
  }

  lemma Crosswise(m: nat, a: nat, g: nat, p: nat, q: nat)
    requires m == g * p && a == g * q
    ensures p * a == m * q && (0 - p) * a == (0 - m) * q
    ensures p == 0 ==> m == 0
  {
    assert p * (g * q) == (g * p) * q;
    assert (0 - p) * a == 0 - p * a && (0 - m) * q == 0 - m * q;
  }

  /** Exactly what an eligible change prints: the signed difference, and the fully
      reduced relative change unless the baseline is zero. */
  lemma DifferenceIsExact(a: nat, b: nat)
    ensures var d := Difference(a, b);
            && d.delta.Some? && IsSignedMoney(d.delta.value, b - a) && SignedAmount(d.delta.value) == Some(b - a)
            && d.unavailable.None?
            && (d.relative.Some? <==> a > 0) && (a > 0 ==> IsRelative(d.relative.value, a, b))
            && (d.relativeUnavailable == if a == 0 then Some("zero_baseline") else None)
  {
    MoneySigned(a, b);
    if a > 0 {
      RelativeIs(a, b);
    }
    hide Money, SignedAmount, IsSignedMoney, IsRelative, Gcd;
  }

  /** The signed difference a change shows, if it shows one. */
  function DeltaOf(c: Change): Option<int> {
    if c.delta.Some? then SignedAmount(c.delta.value) else None
  }

  /** The same as a number, zero when none is shown. */
  function Delta(c: Change): int { DeltaOf(c).GetOr(0) }
}
