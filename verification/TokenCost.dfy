/** Exact pricing of normalized token records: overflow-checked 64-bit amounts,
    totals by call, stage and rate card, and a canonical form of the input. */
module TokenCost {
  import opened Wrappers
  import opened ProviderUsage
  import opened Decimals
  import opened Ordered
  import opened Totals

  // ----- Input -----

  datatype RateInput = RateInput(rateId: string, provider: string, model: string, perMillion: Quad<Option<string>>)

  datatype CallInput = CallInput(callId: string, stage: string, rateId: string, attempt: int, outcome: string,
                                 tokens: Quad<Option<int>>)

  datatype CostInput = CostInput(schema: string, currency: string, rates: seq<RateInput>, calls: seq<CallInput>)

  datatype Rate = Rate(provider: string, model: string, prices: Values)

  datatype Call = Call(stage: string, rateId: string, attempt: nat, outcome: string, tokens: Values)

  /** A validated input: rates and calls by id. */
  datatype Ledger = Ledger(currency: string, rates: map<string, Rate>, calls: map<string, Call>)

  const SCHEMA := "qbrain-cost-input-v1"
  const STAGES := {"main", "embedding", "summary", "extraction", "rerank", "other"}
  const OUTCOMES := {"success", "failure", "unknown"}
  const RATE_LIMIT: nat := 64
  const CALL_LIMIT: nat := 512

  predicate IdChar(c: char) {
    'a' <= c <= 'z' || 'A' <= c <= 'Z' || '0' <= c <= '9' || c in {'_', '-', '.', ':'}
  }

  function Id(s: string): Outcome {
    Need(0 < |s| <= 64 && forall c | c in s :: IdChar(c), "cost_identifier")
  }

  predicate Currency(s: string) { |s| == 3 && forall c | c in s :: 'A' <= c <= 'Z' }

  function RateOf(s: Option<string>): Result<Count> {
    if s.None? then Ok(None) else
    var n :- RateUnits(s.value);
    Ok(Some(n))
  }

  function Prices(q: Quad<Option<string>>): Result<Values> {
    var a :- RateOf(q.uncached);
    var b :- RateOf(q.cacheRead);
    var c :- RateOf(q.cacheWrite);
    var d :- RateOf(q.output);
    Ok(Quad(a, b, c, d))
  }

  function TokenCount(n: Option<int>): Result<Count> {
    if n.None? then Ok(None)
    else if 0 <= n.value <= TOKEN_CAP then Ok(Some(n.value))
    else Err("cost_quantity")
  }

  function Tokens(q: Quad<Option<int>>): Result<Values> {
    var a :- TokenCount(q.uncached);
    var b :- TokenCount(q.cacheRead);
    var c :- TokenCount(q.cacheWrite);
    var d :- TokenCount(q.output);
    Ok(Quad(a, b, c, d))
  }

  function ReadRate(r: RateInput): Result<Rate> {
    var key := Id(r.rateId);
    :- key;
    :- Id(r.provider);
    :- Id(r.model);
    var prices :- Prices(r.perMillion);
    Ok(Rate(r.provider, r.model, prices))
  }

  function ReadCall(c: CallInput): Result<Call> {
    var key := Id(c.callId);
    :- key;
    :- Id(c.stage);
    :- Id(c.rateId);
    :- Id(c.outcome);
    :- Need(0 <= c.attempt <= 100, "cost_quantity");
    var tokens :- Tokens(c.tokens);
    :- Need(c.attempt >= 1, "cost_attempt");
    :- Need(c.stage in STAGES, "cost_stage");
    :- Need(c.outcome in OUTCOMES, "cost_outcome");
    Ok(Call(c.stage, c.rateId, c.attempt, c.outcome, tokens))
  }

  /** Reads every item into a map by id, refusing a repeated id. */
  function ReadAll<I, O>(items: seq<I>, key: I -> string, read: I -> Result<O>, duplicate: string,
                         i: nat, seen: map<string, O>): Result<map<string, O>>
    requires i <= |items|
    decreases |items| - i
  {
    if i == |items| then Ok(seen) else
    var value :- read(items[i]);
    :- Need(key(items[i]) !in seen, duplicate);
    ReadAll(items, key, read, duplicate, i + 1, seen[key(items[i]) := value])
  }

  function RateKey(r: RateInput): string { r.rateId }

  function CallKey(c: CallInput): string { c.callId }

  function ReadRates(rs: seq<RateInput>): Result<map<string, Rate>> {
    ReadAll(rs, RateKey, ReadRate, "cost_duplicate_rate", 0, map[])
  }

  function ReadCalls(cs: seq<CallInput>): Result<map<string, Call>> {
    ReadAll(cs, CallKey, ReadCall, "cost_duplicate_call", 0, map[])
  }

  function ReadLedger(input: CostInput): Result<Ledger> {
    var known := input.schema == SCHEMA;
    :- Need(known, "cost_schema");
    :- Need(Currency(input.currency), "cost_currency");
    :- Need(|input.rates| <= RATE_LIMIT, "cost_rate_count");
    :- Need(|input.calls| <= CALL_LIMIT, "cost_call_count");
    var rates :- ReadRates(input.rates);
    var calls :- ReadCalls(input.calls);
    Ok(Ledger(input.currency, rates, calls))
  }

  // ----- Exact costs -----

  /** No price is needed for a known zero; otherwise both factors must be known. */
  function Cost(tokens: Count, price: Count): Count {
    if tokens.None? then None
    else if tokens.value == 0 then Some(0)
    else if price.None? then None
    else Some(tokens.value * price.value)
  }

  const UNPRICED: Values := Quad(None, None, None, None)

  function PricesFor(c: Call, rates: map<string, Rate>): Values {
    if c.rateId in rates then rates[c.rateId].prices else UNPRICED
  }

  function Costs(c: Call, rates: map<string, Rate>): Values {
    var p := PricesFor(c, rates);
    Quad(Cost(c.tokens.uncached, p.uncached), Cost(c.tokens.cacheRead, p.cacheRead),
         Cost(c.tokens.cacheWrite, p.cacheWrite), Cost(c.tokens.output, p.output))
  }

  function KnownSum(v: Values): nat {
    v.uncached.GetOr(0) + v.cacheRead.GetOr(0) + v.cacheWrite.GetOr(0) + v.output.GetOr(0)
  }

  function One(b: bool): nat { if b then 1 else 0 }

  function Gaps(v: Values): nat {
    One(v.uncached.None?) + One(v.cacheRead.None?) + One(v.cacheWrite.None?) + One(v.output.None?)
  }

  function KnownTokens(t: Values): Quad<nat> {
    Quad(t.uncached.GetOr(0), t.cacheRead.GetOr(0), t.cacheWrite.GetOr(0), t.output.GetOr(0))
  }

  function UnknownTokens(t: Values): Quad<nat> {
    Quad(One(t.uncached.None?), One(t.cacheRead.None?), One(t.cacheWrite.None?), One(t.output.None?))
  }

  /** What one call adds to a total. */
  function Part(c: Call, subtotal: nat, gaps: nat): Total {
    Total(1, One(c.outcome == "failure"), One(c.outcome == "unknown"), One(c.attempt > 1), subtotal, gaps,
          KnownTokens(c.tokens), UnknownTokens(c.tokens))
  }

  function PartOf(c: Call, rates: map<string, Rate>): Total {
    Part(c, KnownSum(Costs(c, rates)), Gaps(Costs(c, rates)))
  }

  function PartsOf(l: Ledger): Parts {
    map k | k in l.calls :: PartOf(l.calls[k], l.rates)
  }

  function StageOf(l: Ledger): map<string, string> { map k | k in l.calls :: l.calls[k].stage }

  function RateIdOf(l: Ledger): map<string, string> { map k | k in l.calls :: l.calls[k].rateId }

  // ----- Report -----

  datatype TokenSummary = TokenSummary(known: nat, unknownCalls: nat, total: Count)

  datatype Summary = Summary(calls: nat, failed: nat, unknownOutcomes: nat, retries: nat, knownSubtotal: string,
                             totalEstimate: Option<string>, complete: bool, unknownComponents: nat,
                             tokens: Quad<TokenSummary>)

  datatype Component = Component(tokens: Count, rate: Option<string>, cost: Option<string>, missing: Option<string>)

  datatype Row = Row(callId: string, call: Call, components: Quad<Component>, knownSubtotal: string,
                     totalEstimate: Option<string>, complete: bool, unknownComponents: nat)

  datatype Group = Group(key: string, card: Option<(string, string)>, summary: Summary)

  datatype Report = Report(currency: string, canonical: CostInput, summary: Summary,
                           byStage: seq<Group>, byRate: seq<Group>, rows: seq<Row>)

  function Money(n: nat): string { Decimal(n, 12) }

  function Tally(known: nat, unknown: nat): TokenSummary {
    TokenSummary(known, unknown, if unknown == 0 then Some(known) else None)
  }

  function Print(t: Total): Summary {
    Summary(t.calls, t.failed, t.unknownOutcomes, t.retries, Money(t.known),
            if t.missing == 0 then Some(Money(t.known)) else None, t.missing == 0, t.missing,
            Quad(Tally(t.tokens.uncached, t.unknownTokens.uncached),
                 Tally(t.tokens.cacheRead, t.unknownTokens.cacheRead),
                 Tally(t.tokens.cacheWrite, t.unknownTokens.cacheWrite),
                 Tally(t.tokens.output, t.unknownTokens.output)))
  }

  function PrintRate(price: Count): Option<string> {
    if price.Some? then Some(Decimal(price.value, 6)) else None
  }

  function ComponentOf(tokens: Count, price: Count, cardKnown: bool): Component {
    var cost := Cost(tokens, price);
    Component(tokens, PrintRate(price), if cost.Some? then Some(Money(cost.value)) else None,
              if cost.Some? then None
              else if tokens.None? then Some("usage_unknown")
              else Some(if cardKnown then "rate_unknown" else "rate_card_missing"))
  }

  function RowOf(key: string, c: Call, rates: map<string, Rate>): Row {
    var p, v, known := PricesFor(c, rates), Costs(c, rates), c.rateId in rates;
    Row(key, c,
        Quad(ComponentOf(c.tokens.uncached, p.uncached, known), ComponentOf(c.tokens.cacheRead, p.cacheRead, known),
             ComponentOf(c.tokens.cacheWrite, p.cacheWrite, known), ComponentOf(c.tokens.output, p.output, known)),
        Money(KnownSum(v)), if Gaps(v) == 0 then Some(Money(KnownSum(v))) else None, Gaps(v) == 0, Gaps(v))
  }

  function CardOf(rates: map<string, Rate>, key: string): Option<(string, string)> {
    if key in rates then Some((rates[key].provider, rates[key].model)) else None
  }

  function RateText(key: string, r: Rate): RateInput {
    RateInput(key, r.provider, r.model, Quad(PrintRate(r.prices.uncached), PrintRate(r.prices.cacheRead),
                                             PrintRate(r.prices.cacheWrite), PrintRate(r.prices.output)))
  }

  function CallText(key: string, c: Call): CallInput {
    CallInput(key, c.stage, c.rateId, c.attempt, c.outcome,
              Quad(c.tokens.uncached, c.tokens.cacheRead, c.tokens.cacheWrite, c.tokens.output))
  }

  /** The normalized input the report is bound to: ids in order, rates printed in full. */
  function Canonical(l: Ledger): CostInput {
    var rs, cs := Sorted(l.rates.Keys), Sorted(l.calls.Keys);
    SortedMembers(l.rates.Keys);
    SortedMembers(l.calls.Keys);
    CostInput(SCHEMA, l.currency,
              seq(|rs|, i requires 0 <= i < |rs| => RateText(rs[i], l.rates[rs[i]])),
              seq(|cs|, i requires 0 <= i < |cs| => CallText(cs[i], l.calls[cs[i]])))
  }

  function Groups(totals: Parts, rates: map<string, Rate>): seq<Group> {
    var ks := Sorted(totals.Keys);
    SortedMembers(totals.Keys);
    seq(|ks|, i requires 0 <= i < |ks| => Group(ks[i], CardOf(rates, ks[i]), Print(totals[ks[i]])))
  }

  function Rows(l: Ledger): seq<Row> {
    var ks := Sorted(l.calls.Keys);
    SortedMembers(l.calls.Keys);
    seq(|ks|, i requires 0 <= i < |ks| => RowOf(ks[i], l.calls[ks[i]], l.rates))
  }

  ghost function TotalOf(l: Ledger, ids: set<string>): Total
    requires ids <= l.calls.Keys
  {
    SumOver(PartsOf(l), ids)
  }

  /** The report in exact arithmetic.  It fails only when the true total does not fit. */
  ghost function Price(l: Ledger): Result<Report> {
    var total := TotalOf(l, l.calls.Keys);
    if total.known > U64_MAX then Err("cost_overflow") else
    Ok(Report(l.currency, Canonical(l), Print(total),
              Groups(ClassTotals(PartsOf(l), StageOf(l), l.calls.Keys), map[]),
              Groups(ClassTotals(PartsOf(l), RateIdOf(l), l.calls.Keys), l.rates),
              Rows(l)))
  }

  ghost function ReportOf(input: CostInput): Result<Report> {
    var l :- ReadLedger(input);
    Price(l)
  }

  // ----- Checked accumulation -----

  predicate QuadFits(q: Quad<nat>) {
    q.uncached <= U64_MAX && q.cacheRead <= U64_MAX && q.cacheWrite <= U64_MAX && q.output <= U64_MAX
  }

  predicate Fits(t: Total) {
    t.calls <= U64_MAX && t.known <= U64_MAX && t.missing <= U64_MAX && QuadFits(t.tokens)
  }

  /** Running totals in checked 64-bit arithmetic. */
  class Aggregate {
    var calls: nat
    var failed: nat
    var unknownOutcomes: nat
    var retries: nat
    var known: nat
    var missing: nat
    var tokens: Quad<nat>
    var unknownTokens: Quad<nat>

    constructor ()
      ensures View() == ZERO
    {
      calls, failed, unknownOutcomes, retries, known, missing := 0, 0, 0, 0, 0, 0;
      tokens, unknownTokens := NONE, NONE;
    }

    function View(): Total
      reads this
    {
      Total(calls, failed, unknownOutcomes, retries, known, missing, tokens, unknownTokens)
    }

    /** Adds the known tokens bucket by bucket, counting the unknown ones. */
    method IncludeTokens(t: Values) returns (r: Result<Unit>)
      requires Fits(View())
      modifies this`tokens, this`unknownTokens
      ensures var sum := AddQuads(old(tokens), KnownTokens(t));
              r == if QuadFits(sum) then Ok(Unit) else Err("cost_overflow")
      ensures r.Ok? ==> tokens == AddQuads(old(tokens), KnownTokens(t))
      ensures r.Ok? ==> unknownTokens == AddQuads(old(unknownTokens), UnknownTokens(t))
    {
      var uncached :- Add(tokens.uncached, t.uncached.GetOr(0));
      var cacheRead :- Add(tokens.cacheRead, t.cacheRead.GetOr(0));
      var cacheWrite :- Add(tokens.cacheWrite, t.cacheWrite.GetOr(0));
      var output :- Add(tokens.output, t.output.GetOr(0));
      tokens := Quad(uncached, cacheRead, cacheWrite, output);
      unknownTokens := AddQuads(unknownTokens, UnknownTokens(t));
      r := Ok(Unit);
    }

    /** Adds one call, or reports an overflow; it fails only when the exact sum does not fit. */
    method Include(c: Call, subtotal: nat, gaps: nat) returns (r: Result<Unit>)
      requires Fits(View())
      modifies this
      ensures r == if Fits(old(View()).Plus(Part(c, subtotal, gaps))) then Ok(Unit) else Err("cost_overflow")
      ensures r.Ok? ==> View() == old(View()).Plus(Part(c, subtotal, gaps))
    {
      hide Add;
      calls :- Add(calls, 1);
      failed := failed + One(c.outcome == "failure");
      unknownOutcomes := unknownOutcomes + One(c.outcome == "unknown");
      retries := retries + One(c.attempt > 1);
      known :- Add(known, subtotal);
      missing :- Add(missing, gaps);
      r := IncludeTokens(c.tokens);
    }
  }

  datatype Bucket = Uncached | CacheRead | CacheWrite | Output

  const BUCKETS := [Uncached, CacheRead, CacheWrite, Output]

  function At<T>(q: Quad<T>, b: Bucket): T {
    match b
    case Uncached => q.uncached
    case CacheRead => q.cacheRead
    case CacheWrite => q.cacheWrite
    case Output => q.output
  }

  function KnownTo(v: Values, n: nat): nat
    requires n <= 4
  {
    if n == 0 then 0 else KnownTo(v, n - 1) + At(v, BUCKETS[n - 1]).GetOr(0)
  }

  function GapsTo(v: Values, n: nat): nat
    requires n <= 4
  {
    if n == 0 then 0 else GapsTo(v, n - 1) + One(At(v, BUCKETS[n - 1]).None?)
  }

  lemma AllBuckets(v: Values)
    ensures KnownTo(v, 4) == KnownSum(v) && GapsTo(v, 4) == Gaps(v)
    ensures forall n | 0 <= n <= 4 :: KnownTo(v, n) <= KnownSum(v)
  {
    assert KnownTo(v, 1) == v.uncached.GetOr(0);
    assert KnownTo(v, 2) == KnownTo(v, 1) + v.cacheRead.GetOr(0);
    assert KnownTo(v, 3) == KnownTo(v, 2) + v.cacheWrite.GetOr(0);
    assert GapsTo(v, 1) == One(v.uncached.None?);
    assert GapsTo(v, 2) == GapsTo(v, 1) + One(v.cacheRead.None?);
    assert GapsTo(v, 3) == GapsTo(v, 2) + One(v.cacheWrite.None?);
  }

  /** One call's known cost and unknown components. */
  datatype Subtotal = Subtotal(known: nat, gaps: nat)

  /** Prices the four buckets of one call in checked arithmetic. */
  method PriceCall(c: Call, rates: map<string, Rate>) returns (r: Result<Subtotal>)
    ensures var v := Costs(c, rates);
            r == if KnownSum(v) <= U64_MAX then Ok(Subtotal(KnownSum(v), Gaps(v))) else Err("cost_overflow")
  {
    hide Add, Multiply;
    ghost var v := Costs(c, rates);
    AllBuckets(v);
    var known: nat, gaps := 0, 0;
    for i := 0 to 4
      invariant known == KnownTo(v, i) <= U64_MAX && gaps == GapsTo(v, i)
    {
      var tokens, price := At(c.tokens, BUCKETS[i]), At(PricesFor(c, rates), BUCKETS[i]);
      assert At(v, BUCKETS[i]) == Cost(tokens, price);
      var cost: Count := None;
      if tokens.Some? {
        if tokens.value == 0 {
          cost := Some(0);
        } else if price.Some? {
          var product :- Multiply(tokens.value, price.value);
          cost := Some(product);
        }
      }
      if cost.Some? {
        known :- Add(known, cost.value);
      } else {
        gaps := gaps + 1;
      }
    }
    r := Ok(Subtotal(known, gaps));
  }

  // ----- Pricing a ledger -----

  /** What `ReadLedger` guarantees. */
  predicate Valid(l: Ledger) {
    |l.calls| <= CALL_LIMIT && forall k | k in l.calls :: WithinCap(l.calls[k].tokens)
  }

  /** The totals of at most 512 capped calls can only overflow in money. */
  ghost predicate Bounded(t: Total, n: nat) {
    && t.calls <= n && t.missing <= 4 * n
    && t.tokens.uncached <= n * TOKEN_CAP && t.tokens.cacheRead <= n * TOKEN_CAP
    && t.tokens.cacheWrite <= n * TOKEN_CAP && t.tokens.output <= n * TOKEN_CAP
  }

  lemma {:induction false} TotalsBounded(l: Ledger, ids: set<string>)
    requires Valid(l) && ids <= l.calls.Keys
    ensures Bounded(TotalOf(l, ids), |ids|)
    decreases |ids|
  {
    hide SumOver;
    if ids == {} {
      SumEmpty(PartsOf(l));
    } else {
      var x :| x in ids;
      TotalsBounded(l, ids - {x});
      SumInsert(PartsOf(l), ids - {x}, x);
      assert (ids - {x}) + {x} == ids;
      PartBounded(l, x);
    }
  }

  lemma PartBounded(l: Ledger, x: string)
    requires Valid(l) && x in l.calls
    ensures Bounded(PartsOf(l)[x], 1)
  {
  }

  lemma SizeBound(a: set<string>, b: set<string>)
    requires a <= b
    ensures |a| <= |b|
  {
    assert a + (b - a) == b;
  }

  /** Totals of a ledger fit exactly when their money does. */
  lemma FitsIsMoney(l: Ledger, ids: set<string>)
    requires Valid(l) && ids <= l.calls.Keys
    ensures Fits(TotalOf(l, ids)) <==> TotalOf(l, ids).known <= U64_MAX
  {
    TotalsBounded(l, ids);
    SizeBound(ids, l.calls.Keys);
    hide SumOver;
  }

  /** The running totals of one grouping, as values. */
  ghost function Views(totals: map<string, Aggregate>): Parts
    reads totals.Values
  {
    map k | k in totals :: totals[k].View()
  }

  /** Each group has an aggregate of its own. */
  ghost predicate Separate(totals: map<string, Aggregate>) {
    forall j, k :: j in totals && k in totals && j != k ==> totals[j] != totals[k]
  }

  function Before(totals: map<string, Aggregate>, key: string): Total
    reads totals.Values
  {
    if key in totals then totals[key].View() else ZERO
  }

  /** Adds a call to the total of its group, which starts at zero. */
  method IncludeIn(totals: map<string, Aggregate>, key: string, c: Call, subtotal: nat, gaps: nat)
    returns (r: Result<map<string, Aggregate>>)
    requires Separate(totals) && Fits(Before(totals, key))
    modifies totals.Values
    ensures r.Ok? <==> Fits(old(Before(totals, key)).Plus(Part(c, subtotal, gaps)))
    ensures r.Ok? ==> Separate(r.value) && fresh(r.value.Values - totals.Values)
    ensures r.Ok? ==>
              Views(r.value) == old(Views(totals))[key := old(Before(totals, key)).Plus(Part(c, subtotal, gaps))]
    ensures r.Err? ==> r.code == "cost_overflow"
  {
    hide Total.Plus, Part, Fits;
    var after := totals;
    if key !in totals {
      ZeroFits();
      var none := new Aggregate();
      after := totals[key := none];
    }
    var _ :- after[key].Include(c, subtotal, gaps);
    r := Ok(after);
  }

  lemma ZeroFits()
    ensures Fits(ZERO)
  {
  }

  lemma ClassStep(m: Parts, class_: map<string, string>, rest: set<string>, x: string)
    requires rest + {x} <= m.Keys && rest + {x} <= class_.Keys && x !in rest
    ensures var c, u := class_[x], ClassTotals(m, class_, rest);
            ClassTotals(m, class_, rest + {x}) == u[c := (if c in u then u[c] else ZERO).Plus(m[x])]
  {
    hide Total.Plus;
    ClassInsert(m, class_, rest, x);
  }

  /** A group never totals more than the whole, so it fits whenever the whole does. */
  lemma GroupFits(l: Ledger, class_: map<string, string>, ids: set<string>, c: string)
    requires Valid(l) && ids <= l.calls.Keys && ids <= class_.Keys && Fits(TotalOf(l, ids))
    requires c in ClassTotals(PartsOf(l), class_, ids)
    ensures Totals.AtMost(ClassTotals(PartsOf(l), class_, ids)[c], TotalOf(l, ids))
    ensures Fits(ClassTotals(PartsOf(l), class_, ids)[c])
  {
    var g := InClass(class_, ids, c);
    SumSubset(PartsOf(l), g, ids);
    hide SumOver;
  }

  /** More calls never cost less. */
  lemma MoneyGrows(l: Ledger, ids: set<string>)
    requires ids <= l.calls.Keys
    ensures TotalOf(l, ids).known <= TotalOf(l, l.calls.Keys).known
  {
    SumSubset(PartsOf(l), ids, l.calls.Keys);
    hide SumOver;
  }

  /** What including one more call does to every total. */
  lemma OneMore(l: Ledger, done: set<string>, k: string)
    requires Valid(l) && done <= l.calls.Keys && k in l.calls && k !in done
    ensures TotalOf(l, done + {k}) == TotalOf(l, done).Plus(PartOf(l.calls[k], l.rates))
    ensures Fits(TotalOf(l, done + {k})) <==> TotalOf(l, done + {k}).known <= U64_MAX
    ensures TotalOf(l, done + {k}).known <= TotalOf(l, l.calls.Keys).known
    ensures KnownSum(Costs(l.calls[k], l.rates)) <= TotalOf(l, done + {k}).known
    ensures var c := l.calls[k]; PartOf(c, l.rates) == Part(c, KnownSum(Costs(c, l.rates)), Gaps(Costs(c, l.rates)))
  {
    SumInsert(PartsOf(l), done, k);
    FitsIsMoney(l, done + {k});
    MoneyGrows(l, done + {k});
    hide SumOver;
  }

  ghost predicate Tracks(totals: map<string, Aggregate>, l: Ledger, class_: map<string, string>, done: set<string>)
    reads totals.Values
    requires done <= l.calls.Keys && done <= class_.Keys
  {
    Separate(totals) && Views(totals) == ClassTotals(PartsOf(l), class_, done)
  }

  /** Includes one call in its group, which fits because the whole does. */
  method IncludeCall(totals: map<string, Aggregate>, ghost l: Ledger, ghost class_: map<string, string>,
                     ghost done: set<string>, ghost k: string, key: string, c: Call, subtotal: nat, gaps: nat)
    returns (after: map<string, Aggregate>)
    requires Valid(l) && done + {k} <= l.calls.Keys && done + {k} <= class_.Keys && k !in done
    requires Tracks(totals, l, class_, done) && class_[k] == key && c == l.calls[k]
    requires Part(c, subtotal, gaps) == PartOf(c, l.rates) && Fits(TotalOf(l, done)) && Fits(TotalOf(l, done + {k}))
    modifies totals.Values
    ensures Tracks(after, l, class_, done + {k})
    ensures fresh(after.Values - totals.Values)
  {
    hide Total.Plus, PartOf, Part, Fits, ClassTotals, TotalOf;
    var parts := PartsOf(l);
    ClassStep(parts, class_, done, k);
    GroupFits(l, class_, done + {k}, key);
    if key in totals {
      assert Views(totals)[key] == totals[key].View();
      GroupFits(l, class_, done, key);
    } else {
      ZeroFits();
    }
    var r := IncludeIn(totals, key, c, subtotal, gaps);
    assert r.Ok?;
    after := r.value;
  }

  /** One summary per group, in key order. */
  method PrintGroups(totals: map<string, Aggregate>, rates: map<string, Rate>) returns (groups: seq<Group>)
    ensures groups == Groups(Views(totals), rates)
  {
    hide Print, CardOf, Sorted;
    ghost var views := Views(totals);
    assert views.Keys == totals.Keys;
    var ks := Sorted(totals.Keys);
    SortedMembers(totals.Keys);
    groups := [];
    for i := 0 to |ks|
      invariant |groups| == i
      invariant forall j :: 0 <= j < i ==> groups[j] == Group(ks[j], CardOf(rates, ks[j]), Print(views[ks[j]]))
    {
      groups := groups + [Group(ks[i], CardOf(rates, ks[i]), Print(totals[ks[i]].View()))];
    }
  }

  /** The overall total and the totals by stage and by rate card. */
  datatype Books = Books(total: Aggregate, stages: map<string, Aggregate>, rates: map<string, Aggregate>)
  {
    ghost function Objects(): set<object> { {total} + stages.Values + rates.Values }

    /** No aggregate is shared between the books. */
    ghost predicate Apart() {
      stages.Values !! rates.Values && total !in stages.Values + rates.Values
    }

    ghost predicate Hold(l: Ledger, done: set<string>)
      reads Objects()
      requires done <= l.calls.Keys
    {
      && Apart()
      && total.View() == TotalOf(l, done) && Fits(TotalOf(l, done))
      && StageOf(l).Keys == l.calls.Keys == RateIdOf(l).Keys
      && Tracks(stages, l, StageOf(l), done) && Tracks(rates, l, RateIdOf(l), done)
    }
  }

  /** Includes one priced call in its stage and in its rate card. */
  method IncludeInGroups(stages: map<string, Aggregate>, rates: map<string, Aggregate>, l: Ledger,
                         ghost done: set<string>, k: string, cost: Subtotal)
    returns (stages': map<string, Aggregate>, rates': map<string, Aggregate>)
    requires Valid(l) && done <= l.calls.Keys && k in l.calls && k !in done && stages.Values !! rates.Values
    requires StageOf(l).Keys == l.calls.Keys == RateIdOf(l).Keys
    requires Tracks(stages, l, StageOf(l), done) && Tracks(rates, l, RateIdOf(l), done)
    requires cost == Subtotal(KnownSum(Costs(l.calls[k], l.rates)), Gaps(Costs(l.calls[k], l.rates)))
    requires Fits(TotalOf(l, done)) && Fits(TotalOf(l, done + {k}))
    modifies stages.Values + rates.Values
    ensures Tracks(stages', l, StageOf(l), done + {k}) && Tracks(rates', l, RateIdOf(l), done + {k})
    ensures fresh(stages'.Values - stages.Values) && fresh(rates'.Values - rates.Values) &&
            stages'.Values !! rates'.Values
  {
    hide Total.Plus, Part, PartOf, Fits, TotalOf, StageOf, RateIdOf, Costs, KnownSum, Gaps, Tracks;
    var c := l.calls[k];
    OneMore(l, done, k);
    ClassesAre(l, k);
    stages' := IncludeCall(stages, l, StageOf(l), done, k, c.stage, c, cost.known, cost.gaps);
    rates' := IncludeCall(rates, l, RateIdOf(l), done, k, c.rateId, c, cost.known, cost.gaps);
  }

  /** Includes one priced call in all three books, or reports an overflow of the whole. */
  method IncludeEverywhere(books: Books, l: Ledger, ghost done: set<string>, k: string, cost: Subtotal)
    returns (r: Result<Books>)
    requires Valid(l) && done <= l.calls.Keys && k in l.calls && k !in done && books.Hold(l, done)
    requires cost == Subtotal(KnownSum(Costs(l.calls[k], l.rates)), Gaps(Costs(l.calls[k], l.rates)))
    modifies books.Objects()
    ensures r.Ok? <==> Fits(TotalOf(l, done + {k}))
    ensures r.Err? ==> r.code == "cost_overflow"
    ensures r.Ok? ==> r.value.Hold(l, done + {k}) && fresh(r.value.Objects() - books.Objects())
  {
    hide Total.Plus, Part, PartOf, Fits, TotalOf, StageOf, RateIdOf, Costs, KnownSum, Gaps, Tracks;
    OneMore(l, done, k);
    var _ :- books.total.Include(l.calls[k], cost.known, cost.gaps);
    var stages, rates := IncludeInGroups(books.stages, books.rates, l, done, k, cost);
    r := Ok(Books(books.total, stages, rates));
  }

  lemma ClassesAre(l: Ledger, k: string)
    requires k in l.calls
    ensures StageOf(l).Keys == l.calls.Keys == RateIdOf(l).Keys
    ensures StageOf(l)[k] == l.calls[k].stage && RateIdOf(l)[k] == l.calls[k].rateId
  {
  }

  method OpenBooks(ghost l: Ledger) returns (books: Books)
    ensures books.Hold(l, {}) && fresh(books.Objects())
  {
    var total := new Aggregate();
    NothingPriced(l);
    NoGroups(l, StageOf(l));
    NoGroups(l, RateIdOf(l));
    hide Fits, TotalOf, StageOf, RateIdOf, Tracks;
    books := Books(total, map[], map[]);
  }

  datatype Priced = Priced(books: Books, rows: seq<Row>)

  /** Prices every call in key order; the first overflow met means the whole does not fit. */
  method PriceCalls(l: Ledger) returns (r: Result<Priced>)
    requires Valid(l)
    ensures r.Ok? <==> TotalOf(l, l.calls.Keys).known <= U64_MAX
    ensures r.Ok? ==> r.value.rows == Rows(l) && r.value.books.Hold(l, l.calls.Keys)
    ensures r.Err? ==> r.code == "cost_overflow"
  {
    hide Fits, Costs, RowOf, StageOf, RateIdOf, TotalOf, Rows, KnownSum, Gaps, Books.Hold, Elements, Sorted;
    var ids := l.calls.Keys;
    var ks := Sorted(ids);
    var books := OpenBooks(l);
    var rows: seq<Row> := [];
    RowCount(l);
    AllKeys(ids);
    FitsIsMoney(l, ids);
    for i := 0 to |ks|
      invariant Elements(ks[..i]) <= ids && rows == Rows(l)[..i]
      invariant books.Hold(l, Elements(ks[..i])) && fresh(books.Objects())
      invariant i == |ks| ==> Fits(TotalOf(l, ids))
    {
      ghost var done := Elements(ks[..i]);
      NextKey(ids, i);
      NextRow(l, i);
      OneMore(l, done, ks[i]);
      var cost :- PriceCall(l.calls[ks[i]], l.rates);
      rows := rows + [RowOf(ks[i], l.calls[ks[i]], l.rates)];
      books :- IncludeEverywhere(books, l, done, ks[i], cost);
    }
    assert rows == Rows(l);
    r := Ok(Priced(books, rows));
  }

  lemma RowCount(l: Ledger)
    ensures |Rows(l)| == |l.calls|
    ensures l.calls.Keys == {} ==> Fits(TotalOf(l, l.calls.Keys))
  {
  }

  /** Prices a validated ledger in checked 64-bit arithmetic: the result is the exact
      report, and the only failure is a true total that does not fit. */
  method PriceLedger(l: Ledger) returns (r: Result<Report>)
    requires Valid(l)
    ensures r == Price(l)
  {
    hide Canonical, Print, StageOf, RateIdOf, TotalOf, Rows, Price, Groups, Books.Hold;
    PriceIs(l);
    var priced :- PriceCalls(l);
    var Priced(books, rows) := priced;
    HoldViews(books, l);
    var byStage := PrintGroups(books.stages, map[]);
    var byRate := PrintGroups(books.rates, l.rates);
    r := Ok(Report(l.currency, Canonical(l), Print(books.total.View()), byStage, byRate, rows));
  }

  lemma HoldViews(books: Books, l: Ledger)
    requires books.Hold(l, l.calls.Keys)
    ensures var ids := l.calls.Keys;
            && StageOf(l).Keys == ids == RateIdOf(l).Keys
            && books.total.View() == TotalOf(l, ids) && Fits(TotalOf(l, ids))
            && Views(books.stages) == ClassTotals(PartsOf(l), StageOf(l), ids)
            && Views(books.rates) == ClassTotals(PartsOf(l), RateIdOf(l), ids)
  {
    hide ClassTotals, Fits, TotalOf, Views, Separate;
  }

  lemma NoGroups(l: Ledger, class_: map<string, string>)
    requires ClassTotals(PartsOf(l), class_, {}) == map[]
    ensures Tracks(map[], l, class_, {})
  {
    hide ClassTotals;
  }

  lemma NextRow(l: Ledger, i: nat)
    requires i < |l.calls| && Sorted(l.calls.Keys)[i] in l.calls
    ensures var k := Sorted(l.calls.Keys)[i];
            |Rows(l)| == |l.calls| && Rows(l)[..i + 1] == Rows(l)[..i] + [RowOf(k, l.calls[k], l.rates)]
  {
    hide RowOf, Sorted;
  }

  lemma PriceIs(l: Ledger)
    requires Valid(l)
    ensures |Rows(l)| == |l.calls|
    ensures TotalOf(l, l.calls.Keys).known > U64_MAX ==> Price(l) == Err("cost_overflow")
    ensures Fits(TotalOf(l, l.calls.Keys)) ==>
              Price(l) == Ok(Report(l.currency, Canonical(l), Print(TotalOf(l, l.calls.Keys)),
                Groups(ClassTotals(PartsOf(l), StageOf(l), l.calls.Keys), map[]),
                Groups(ClassTotals(PartsOf(l), RateIdOf(l), l.calls.Keys), l.rates), Rows(l)))
  {
    hide RowOf, Canonical, Print, Groups, ClassTotals, TotalOf;
  }

  lemma NothingPriced(l: Ledger)
    ensures TotalOf(l, {}) == ZERO && Fits(ZERO)
    ensures StageOf(l).Keys == l.calls.Keys == RateIdOf(l).Keys
    ensures ClassTotals(PartsOf(l), StageOf(l), {}) == map[] == ClassTotals(PartsOf(l), RateIdOf(l), {})
  {
    assert ClassTotals(PartsOf(l), StageOf(l), {}).Keys == {};
    assert ClassTotals(PartsOf(l), RateIdOf(l), {}).Keys == {};
  }

  // ----- Reading is by content: order does not matter, and nothing is lost -----

  /** Every item reads, and no id occurs twice. */
  ghost predicate Readable<I, O>(items: seq<I>, key: I -> string, read: I -> Result<O>, i: nat) {
    && (forall j :: i <= j < |items| ==> read(items[j]).Ok?)
    && (forall j, k :: i <= j < k < |items| ==> key(items[j]) != key(items[k]))
  }

  /** `m` is `seen` and the items from `i` on. */
  ghost predicate Holds<I, O(!new)>(items: seq<I>, key: I -> string, read: I -> Result<O>, i: nat,
                                    seen: map<string, O>, m: map<string, O>)
  {
    && (forall j :: i <= j < |items| ==> key(items[j]) in m && read(items[j]) == Ok(m[key(items[j])]))
    && (forall k :: k in seen ==> k in m && m[k] == seen[k])
    && (forall k :: k in m ==> k in seen || exists j :: i <= j < |items| && key(items[j]) == k)
  }

  lemma {:induction false} ReadAllIs<I, O(!new)>(items: seq<I>, key: I -> string, read: I -> Result<O>,
                                                 duplicate: string, i: nat, seen: map<string, O>)
    requires i <= |items|
    ensures ReadAll(items, key, read, duplicate, i, seen).Ok? <==>
              Readable(items, key, read, i) && forall j :: i <= j < |items| ==> key(items[j]) !in seen
    ensures ReadAll(items, key, read, duplicate, i, seen).Ok? ==>
              Holds(items, key, read, i, seen, ReadAll(items, key, read, duplicate, i, seen).value)
    decreases |items| - i
  {
    if i < |items| && read(items[i]).Ok? && key(items[i]) !in seen {
      var next := seen[key(items[i]) := read(items[i]).value];
      ReadAllIs(items, key, read, duplicate, i + 1, next);
    }
  }

  /** Items with distinct keys read as the map that holds their values. */
  lemma ReadsAs<I, O(!new)>(items: seq<I>, key: I -> string, read: I -> Result<O>, duplicate: string, m: map<string, O>)
    requires forall j :: 0 <= j < |items| ==> key(items[j]) in m && read(items[j]) == Ok(m[key(items[j])])
    requires forall j, k :: 0 <= j < k < |items| ==> key(items[j]) != key(items[k])
    requires forall k :: k in m ==> exists j :: 0 <= j < |items| && key(items[j]) == k
    ensures ReadAll(items, key, read, duplicate, 0, map[]) == Ok(m)
  {
    hide ReadAll;
    ReadAllIs(items, key, read, duplicate, 0, map[]);
    assert ReadAll(items, key, read, duplicate, 0, map[]).value == m;
  }

  lemma ReadsWhole(input: CostInput, l: Ledger)
    requires input.schema == SCHEMA && input.currency == l.currency && Currency(l.currency)
    requires |input.rates| <= RATE_LIMIT && |input.calls| <= CALL_LIMIT
    requires ReadRates(input.rates) == Ok(l.rates) && ReadCalls(input.calls) == Ok(l.calls)
    ensures ReadLedger(input) == Ok(l)
  {
    hide ReadRates, ReadCalls, Currency;
  }

  lemma Occurs<I>(items: seq<I>, i: nat)
    requires i < |items|
    ensures multiset(items) == multiset(items[..i]) + multiset{items[i]} + multiset(items[i + 1..])
  {
    assert items == items[..i] + [items[i]] + items[i + 1..];
  }

  /** An element occurs twice exactly when it stands at two positions. */
  lemma OccursTwice<I>(items: seq<I>, x: I)
    ensures multiset(items)[x] >= 2 <==> exists i, j :: 0 <= i < j < |items| && items[i] == x == items[j]
  {
    if x in items {
      var i :| 0 <= i < |items| && items[i] == x && forall k :: 0 <= k < i ==> items[k] != x by {
        FirstOccurrence(items, x);
      }
      Occurs(items, i);
      assert x !in items[..i];
      if multiset(items)[x] >= 2 {
        assert x in items[i + 1..];
        var j :| 0 <= j < |items| - i - 1 && items[i + 1..][j] == x;
        assert items[i + 1 + j] == x;
      }
      if j, k :| 0 <= j < k < |items| && items[j] == x == items[k] {
        assert items[i + 1..][k - i - 1] == x;
      }
    }
  }

  lemma {:induction false} FirstOccurrence<I>(items: seq<I>, x: I)
    requires x in items
    ensures exists i :: 0 <= i < |items| && items[i] == x && forall k :: 0 <= k < i ==> items[k] != x
  {
    if items[0] != x {
      FirstOccurrence(items[1..], x);
      var i :| 0 <= i < |items| - 1 && items[1..][i] == x && forall k :: 0 <= k < i ==> items[1..][k] != x;
      assert items[i + 1] == x;
      forall k | 0 <= k < i + 1 ensures items[k] != x {
        if k > 0 {
          assert items[k] == items[1..][k - 1];
        }
      }
    }
  }

  lemma ReadablePermutes<I, O>(items: seq<I>, other: seq<I>, key: I -> string, read: I -> Result<O>)
    requires Readable(items, key, read, 0) && multiset(items) == multiset(other)
    ensures Readable(other, key, read, 0)
  {
    forall j | 0 <= j < |other| ensures other[j] in items && read(other[j]).Ok? {
      assert other[j] in multiset(items);
    }
    forall j, k | 0 <= j < k < |other| ensures key(other[j]) != key(other[k]) {
      var p :| 0 <= p < |items| && items[p] == other[j];
      var q :| 0 <= q < |items| && items[q] == other[k];
      OccursTwice(other, other[j]);
      OccursTwice(items, other[j]);
    }
  }

  lemma SameMap<I, O(!new)>(items: seq<I>, other: seq<I>, key: I -> string, read: I -> Result<O>,
                            m: map<string, O>, m': map<string, O>)
    requires multiset(items) == multiset(other)
    requires Holds(items, key, read, 0, map[], m) && Holds(other, key, read, 0, map[], m')
    ensures m == m'
  {
    forall k | k in m ensures k in m' && m'[k] == m[k] {
      var j :| 0 <= j < |items| && key(items[j]) == k;
      assert items[j] in multiset(other);
      var i :| 0 <= i < |other| && other[i] == items[j];
    }
    forall k | k in m' ensures k in m {
      var j :| 0 <= j < |other| && key(other[j]) == k;
      assert other[j] in multiset(items);
      var i :| 0 <= i < |items| && items[i] == other[j];
    }
  }

  lemma ReadAllPermutes<I, O(!new)>(items: seq<I>, other: seq<I>, key: I -> string, read: I -> Result<O>,
                                    duplicate: string)
    requires multiset(items) == multiset(other) && ReadAll(items, key, read, duplicate, 0, map[]).Ok?
    ensures ReadAll(other, key, read, duplicate, 0, map[]) == ReadAll(items, key, read, duplicate, 0, map[])
  {
    hide ReadAll, Readable, Holds;
    ReadAllIs(items, key, read, duplicate, 0, map[]);
    ReadAllIs(other, key, read, duplicate, 0, map[]);
    ReadablePermutes(items, other, key, read);
    SameMap(items, other, key, read, ReadAll(items, key, read, duplicate, 0, map[]).value,
            ReadAll(other, key, read, duplicate, 0, map[]).value);
  }

  predicate Permuted(a: CostInput, b: CostInput) {
    && a.schema == b.schema && a.currency == b.currency
    && multiset(a.rates) == multiset(b.rates) && multiset(a.calls) == multiset(b.calls)
  }

  lemma SameSize<I>(a: seq<I>, b: seq<I>)
    requires multiset(a) == multiset(b)
    ensures |a| == |b|
  {
    assert |multiset(a)| == |a| && |multiset(b)| == |b|;
  }

  /** Reordering rates and calls changes neither the ledger nor the report. */
  lemma OrderDoesNotMatter(a: CostInput, b: CostInput)
    requires Permuted(a, b) && ReadLedger(a).Ok?
    ensures ReadLedger(b) == ReadLedger(a) && ReportOf(b) == ReportOf(a)
  {
    hide ReadAll, Price, ReadRate, ReadCall;
    SameSize(a.rates, b.rates);
    SameSize(a.calls, b.calls);
    ReadAllPermutes(a.rates, b.rates, RateKey, ReadRate, "cost_duplicate_rate");
    ReadAllPermutes(a.calls, b.calls, CallKey, ReadCall, "cost_duplicate_call");
  }

  // ----- The canonical form -----

  predicate PriceCapped(p: Values) {
    && p.uncached.GetOr(0) <= RATE_CAP && p.cacheRead.GetOr(0) <= RATE_CAP
    && p.cacheWrite.GetOr(0) <= RATE_CAP && p.output.GetOr(0) <= RATE_CAP
  }

  predicate GoodRate(key: string, r: Rate) {
    Id(key).Pass? && Id(r.provider).Pass? && Id(r.model).Pass? && PriceCapped(r.prices)
  }

  predicate GoodCall(key: string, c: Call) {
    && Id(key).Pass? && Id(c.stage).Pass? && Id(c.rateId).Pass? && Id(c.outcome).Pass?
    && 1 <= c.attempt <= 100 && WithinCap(c.tokens) && c.stage in STAGES && c.outcome in OUTCOMES
  }

  /** What `ReadLedger` guarantees. */
  ghost predicate WellFormed(l: Ledger) {
    && Currency(l.currency) && |l.rates| <= RATE_LIMIT && |l.calls| <= CALL_LIMIT
    && (forall k :: k in l.rates ==> GoodRate(k, l.rates[k]))
    && (forall k :: k in l.calls ==> GoodCall(k, l.calls[k]))
  }

  lemma RateReads(r: RateInput)
    requires ReadRate(r).Ok?
    ensures GoodRate(r.rateId, ReadRate(r).value)
  {
    hide RateUnits, Id;
    RateCapped(r.perMillion.uncached);
    RateCapped(r.perMillion.cacheRead);
    RateCapped(r.perMillion.cacheWrite);
    RateCapped(r.perMillion.output);
  }

  lemma RateCapped(s: Option<string>)
    ensures RateOf(s).Ok? ==> RateOf(s).value.GetOr(0) <= RATE_CAP
  {
  }

  lemma CallReads(c: CallInput)
    requires ReadCall(c).Ok?
    ensures GoodCall(c.callId, ReadCall(c).value)
  {
    hide Id;
  }

  lemma {:induction false} HeldSize<I, O(!new)>(items: seq<I>, key: I -> string, read: I -> Result<O>,
                                                duplicate: string, i: nat, seen: map<string, O>)
    requires i <= |items| && ReadAll(items, key, read, duplicate, i, seen).Ok?
    ensures |ReadAll(items, key, read, duplicate, i, seen).value| == |seen| + |items| - i
    decreases |items| - i
  {
    if i < |items| {
      HeldSize(items, key, read, duplicate, i + 1, seen[key(items[i]) := read(items[i]).value]);
    }
  }

  lemma RatesAreGood(rs: seq<RateInput>)
    requires ReadRates(rs).Ok?
    ensures var m := ReadRates(rs).value; |m| == |rs| && forall k :: k in m ==> GoodRate(k, m[k])
  {
    hide ReadAll, GoodRate, ReadRate;
    ReadAllIs(rs, RateKey, ReadRate, "cost_duplicate_rate", 0, map[]);
    HeldSize(rs, RateKey, ReadRate, "cost_duplicate_rate", 0, map[]);
    var m := ReadRates(rs).value;
    forall k | k in m ensures GoodRate(k, m[k]) {
      var j :| 0 <= j < |rs| && RateKey(rs[j]) == k;
      RateReads(rs[j]);
    }
  }

  lemma CallsAreGood(cs: seq<CallInput>)
    requires ReadCalls(cs).Ok?
    ensures var m := ReadCalls(cs).value; |m| == |cs| && forall k :: k in m ==> GoodCall(k, m[k])
  {
    hide ReadAll, GoodCall, ReadCall;
    ReadAllIs(cs, CallKey, ReadCall, "cost_duplicate_call", 0, map[]);
    HeldSize(cs, CallKey, ReadCall, "cost_duplicate_call", 0, map[]);
    var m := ReadCalls(cs).value;
    forall k | k in m ensures GoodCall(k, m[k]) {
      var j :| 0 <= j < |cs| && CallKey(cs[j]) == k;
      CallReads(cs[j]);
    }
  }

  /** Reading only ever yields well-formed ledgers. */
  lemma ReadIsWellFormed(input: CostInput)
    requires ReadLedger(input).Ok?
    ensures WellFormed(ReadLedger(input).value)
  {
    hide ReadRates, ReadCalls, GoodRate, GoodCall, Currency;
    RatesAreGood(input.rates);
    CallsAreGood(input.calls);
  }

  lemma WellFormedIsValid(l: Ledger)
    requires WellFormed(l)
    ensures Valid(l)
  {
    hide GoodRate, Currency, Id, WithinCap;
  }

  lemma PriceTextReads(p: Count)
    requires p.GetOr(0) <= RATE_CAP
    ensures RateOf(PrintRate(p)) == Ok(p)
  {
    if p.Some? {
      RateRoundTrip(p.value);
    }
    hide RateUnits, Decimal;
  }

  lemma RateTextReads(key: string, r: Rate)
    requires GoodRate(key, r)
    ensures ReadRate(RateText(key, r)) == Ok(r)
  {
    hide RateOf, PrintRate, Id;
    PriceTextReads(r.prices.uncached);
    PriceTextReads(r.prices.cacheRead);
    PriceTextReads(r.prices.cacheWrite);
    PriceTextReads(r.prices.output);
  }

  lemma CallTextReads(key: string, c: Call)
    requires GoodCall(key, c)
    ensures ReadCall(CallText(key, c)) == Ok(c)
  {
    hide Id;
  }

  /** Items that spell out a map in key order read back as that map. */
  lemma ReadsBack<I, O(!new)>(m: map<string, O>, items: seq<I>, key: I -> string, read: I -> Result<O>,
                              duplicate: string)
    requires |items| == |m|
    requires forall j :: 0 <= j < |items| ==>
      var k := Sorted(m.Keys)[j]; k in m && key(items[j]) == k && read(items[j]) == Ok(m[k])
    ensures ReadAll(items, key, read, duplicate, 0, map[]) == Ok(m)
  {
    hide Sorted, ReadAll, Below;
    var ks := Sorted(m.Keys);
    ReadAllIs(items, key, read, duplicate, 0, map[]);
    forall j, k | 0 <= j < k < |items| ensures key(items[j]) != key(items[k]) {
      SortedOrder(m.Keys, j, k);
    }
    var got := ReadAll(items, key, read, duplicate, 0, map[]);
    assert got.Ok?;
    forall k | k in m ensures k in got.value && got.value[k] == m[k] {
      SortedMembers(m.Keys);
      var j :| 0 <= j < |ks| && ks[j] == k;
      assert key(items[j]) == k;
    }
    forall k | k in got.value ensures k in m {
      var j :| 0 <= j < |items| && key(items[j]) == k;
    }
    assert got.value == m;
  }

  lemma CanonicalRates(l: Ledger)
    requires WellFormed(l)
    ensures ReadRates(Canonical(l).rates) == Ok(l.rates)
  {
    var rs, ks := Canonical(l).rates, Sorted(l.rates.Keys);
    CanonicalAt(l);
    hide Sorted, ReadAll, ReadRate, RateText, GoodRate, Canonical, GoodCall;
    forall j | 0 <= j < |rs| ensures ReadRate(rs[j]) == Ok(l.rates[ks[j]]) && RateKey(rs[j]) == ks[j] {
      RateTextReads(ks[j], l.rates[ks[j]]);
      RateTextKey(ks[j], l.rates[ks[j]]);
    }
    ReadsBack(l.rates, rs, RateKey, ReadRate, "cost_duplicate_rate");
  }

  lemma RateTextKey(key: string, r: Rate)
    ensures RateKey(RateText(key, r)) == key
  {
  }

  lemma CallTextKey(key: string, c: Call)
    ensures CallKey(CallText(key, c)) == key
  {
  }

  lemma CanonicalAt(l: Ledger)
    ensures var rs, cs, rk, ck := Canonical(l).rates, Canonical(l).calls, Sorted(l.rates.Keys), Sorted(l.calls.Keys);
            && |rs| == |rk| == |l.rates| && |cs| == |ck| == |l.calls|
            && (forall j :: 0 <= j < |rs| ==> rk[j] in l.rates && rs[j] == RateText(rk[j], l.rates[rk[j]]))
            && (forall j :: 0 <= j < |cs| ==> ck[j] in l.calls && cs[j] == CallText(ck[j], l.calls[ck[j]]))
  {
    SortedMembers(l.rates.Keys);
    SortedMembers(l.calls.Keys);
    hide Sorted, RateText, CallText;
  }

  lemma CanonicalCalls(l: Ledger)
    requires WellFormed(l)
    ensures ReadCalls(Canonical(l).calls) == Ok(l.calls)
  {
    var cs, ks := Canonical(l).calls, Sorted(l.calls.Keys);
    CanonicalAt(l);
    hide Sorted, ReadAll, ReadCall, CallText, GoodRate, Canonical, GoodCall;
    forall j | 0 <= j < |cs| ensures ReadCall(cs[j]) == Ok(l.calls[ks[j]]) && CallKey(cs[j]) == ks[j] {
      CallTextReads(ks[j], l.calls[ks[j]]);
      CallTextKey(ks[j], l.calls[ks[j]]);
    }
    ReadsBack(l.calls, cs, CallKey, ReadCall, "cost_duplicate_call");
  }

  lemma CanonicalHead(l: Ledger)
    ensures Canonical(l).schema == SCHEMA && Canonical(l).currency == l.currency
  {
    hide Sorted;
  }

  /** The canonical form reads back as the same ledger, so reporting it again
      gives the same report; it is what any accepted input normalizes to. */
  lemma CanonicalReports(input: CostInput)
    requires ReadLedger(input).Ok?
    ensures var l := ReadLedger(input).value;
            ReadLedger(Canonical(l)) == Ok(l) && ReportOf(Canonical(l)) == ReportOf(input)
  {
    hide Sorted, Canonical, RateText, CallText, Price, ReadRates, ReadCalls, Currency, GoodRate, GoodCall;
    var l := ReadLedger(input).value;
    ReadIsWellFormed(input);
    CanonicalRates(l);
    CanonicalCalls(l);
    CanonicalAt(l);
    CanonicalHead(l);
  }
}
