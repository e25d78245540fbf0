/** Whole cost reports: reading an input and pricing it, and what the printed
    figures then promise, read back as numbers. */
module CostReports {
  import opened Wrappers
  import opened ProviderUsage
  import opened Decimals
  import opened Ordered
  import opened Totals
  import opened TokenCost

  // ----- The report as the program runs it -----

  method LoadPrice(text: Option<string>) returns (r: Result<Count>)
    ensures r == RateOf(text)
  {
    hide RateUnits;
    if text.None? {
      return Ok(None);
    }
    var units :- ParseRate(text.value);
    r := Ok(Some(units));
  }

  method LoadPrices(q: Quad<Option<string>>) returns (r: Result<Values>)
    ensures r == Prices(q)
  {
    hide RateOf;
    var uncached :- LoadPrice(q.uncached);
    var cacheRead :- LoadPrice(q.cacheRead);
    var cacheWrite :- LoadPrice(q.cacheWrite);
    var output :- LoadPrice(q.output);
    r := Ok(Quad(uncached, cacheRead, cacheWrite, output));
  }

  method LoadRates(items: seq<RateInput>) returns (r: Result<map<string, Rate>>)
    ensures r == ReadRates(items)
  {
    hide Prices, Id;
    var rates: map<string, Rate> := map[];
    for i := 0 to |items|
      invariant ReadAll(items, RateKey, ReadRate, "cost_duplicate_rate", i, rates) == ReadRates(items)
    {
      var card := items[i];
      :- Id(card.rateId);
      :- Id(card.provider);
      :- Id(card.model);
      var prices :- LoadPrices(card.perMillion);
      :- Need(card.rateId !in rates, "cost_duplicate_rate");
      rates := rates[card.rateId := Rate(card.provider, card.model, prices)];
    }
    r := Ok(rates);
  }

  method LoadCalls(items: seq<CallInput>) returns (r: Result<map<string, Call>>)
    ensures r == ReadCalls(items)
  {
    hide ReadCall;
    var calls: map<string, Call> := map[];
    for i := 0 to |items|
      invariant ReadAll(items, CallKey, ReadCall, "cost_duplicate_call", i, calls) == ReadCalls(items)
    {
      var call :- ReadCall(items[i]);
      :- Need(items[i].callId !in calls, "cost_duplicate_call");
      calls := calls[items[i].callId := call];
    }
    r := Ok(calls);
  }

  method MakeReport(input: CostInput) returns (r: Result<Report>)
    ensures r == ReportOf(input)
  {
    hide ReadRates, ReadCalls, Price, Currency, WellFormed, Valid;
    :- Need(input.schema == SCHEMA, "cost_schema");
    :- Need(Currency(input.currency), "cost_currency");
    :- Need(|input.rates| <= RATE_LIMIT, "cost_rate_count");
    :- Need(|input.calls| <= CALL_LIMIT, "cost_call_count");
    var rates :- LoadRates(input.rates);
    var calls :- LoadCalls(input.calls);
    ReadIsWellFormed(input);
    WellFormedIsValid(Ledger(input.currency, rates, calls));
    r := PriceLedger(Ledger(input.currency, rates, calls));
  }

  // ----- Printed figures, read back -----

  /** The amount a printed figure denotes, at twelve decimals, if it denotes one. */
  function AmountOf(text: string): Option<nat> { UnitsOf(text, 12) }

  /** `text` shows exactly `n`, at twelve decimals. */
  ghost predicate IsMoney(text: string, n: nat) { Denotes(text, 12, n) }

  lemma MoneyIs(n: nat)
    ensures IsMoney(Money(n), n) && AmountOf(Money(n)) == Some(n)
  {
    DecimalDenotes(n, 12);
  }

  /** The figures of a summary whose subtotal denotes an amount. */
  function Figures(s: Summary): Total {
    Total(s.calls, s.failed, s.unknownOutcomes, s.retries, AmountOf(s.knownSubtotal).GetOr(0), s.unknownComponents,
          Quad(s.tokens.uncached.known, s.tokens.cacheRead.known, s.tokens.cacheWrite.known, s.tokens.output.known),
          Quad(s.tokens.uncached.unknownCalls, s.tokens.cacheRead.unknownCalls, s.tokens.cacheWrite.unknownCalls,
               s.tokens.output.unknownCalls))
  }

  /** The figures a row shows: one call with its outcome, its subtotal and its tokens. */
  function RowFigures(r: Row): Total {
    var c := r.components;
    Total(1, if r.call.outcome == "failure" then 1 else 0, if r.call.outcome == "unknown" then 1 else 0,
          if r.call.attempt >= 2 then 1 else 0, AmountOf(r.knownSubtotal).GetOr(0), r.unknownComponents,
          Quad(c.uncached.tokens.GetOr(0), c.cacheRead.tokens.GetOr(0), c.cacheWrite.tokens.GetOr(0),
               c.output.tokens.GetOr(0)),
          Quad(Unreported(c.uncached), Unreported(c.cacheRead), Unreported(c.cacheWrite), Unreported(c.output)))
  }

  function Unreported(c: Component): nat { if c.tokens.Some? then 0 else 1 }

  function SumGroups(gs: seq<Group>): Total {
    if gs == [] then ZERO else SumGroups(gs[..|gs| - 1]).Plus(Figures(gs[|gs| - 1].summary))
  }

  function SumRows(rs: seq<Row>): Total {
    if rs == [] then ZERO else SumRows(rs[..|rs| - 1]).Plus(RowFigures(rs[|rs| - 1]))
  }

  predicate TokensTotal(t: TokenSummary) { t.total == if t.unknownCalls == 0 then Some(t.known) else None }

  /** The subtotal denotes an amount, and is the estimate exactly when nothing is unknown;
      likewise a bucket has a total exactly when no call leaves it unknown. */
  predicate SummaryLegible(s: Summary) {
    && AmountOf(s.knownSubtotal).Some? && (s.complete <==> s.unknownComponents == 0)
    && s.totalEstimate == (if s.unknownComponents == 0 then Some(s.knownSubtotal) else None)
    && TokensTotal(s.tokens.uncached) && TokensTotal(s.tokens.cacheRead) && TokensTotal(s.tokens.cacheWrite)
    && TokensTotal(s.tokens.output)
  }

  /** Every summary and every row of the report is legible. */
  ghost predicate Legible(r: Report) {
    && SummaryLegible(r.summary)
    && (forall g :: g in r.byStage + r.byRate ==> SummaryLegible(g.summary))
    && (forall row :: row in r.rows ==> AmountOf(row.knownSubtotal).Some?)
  }

  lemma FiguresReadBack(t: Total)
    ensures Figures(Print(t)) == t && SummaryLegible(Print(t))
  {
    hide Money, AmountOf;
    MoneyIs(t.known);
  }

  lemma RowReadsBack(k: string, c: Call, rates: map<string, Rate>)
    ensures RowFigures(RowOf(k, c, rates)) == PartOf(c, rates) && AmountOf(RowOf(k, c, rates).knownSubtotal).Some?
  {
    hide Money, AmountOf, Costs;
    MoneyIs(KnownSum(Costs(c, rates)));
  }

  lemma GroupAt(totals: Parts, rates: map<string, Rate>, i: nat)
    requires i < |totals|
    ensures var k := Sorted(totals.Keys)[i];
            |Groups(totals, rates)| == |totals| && k in totals && Groups(totals, rates)[i].summary == Print(totals[k])
  {
    hide Print, Sorted;
    SortedMembers(totals.Keys);
  }

  lemma {:induction false} GroupsSum(totals: Parts, rates: map<string, Rate>, i: nat)
    requires i <= |totals|
    ensures |Groups(totals, rates)| == |totals|
    ensures Elements(Sorted(totals.Keys)[..i]) <= totals.Keys
    ensures SumGroups(Groups(totals, rates)[..i]) == SumOver(totals, Elements(Sorted(totals.Keys)[..i]))
  {
    hide Groups, Print, Sorted, Figures, Total.Plus, Elements;
    var gs, ks := Groups(totals, rates), Sorted(totals.Keys);
    GroupCount(totals, rates);
    AllKeys(totals.Keys);
    if i == 0 {
      SumEmpty(totals);
    } else {
      GroupsSum(totals, rates, i - 1);
      NextKey(totals.Keys, i - 1);
      GroupAt(totals, rates, i - 1);
      FiguresReadBack(totals[ks[i - 1]]);
      SumInsert(totals, Elements(ks[..i - 1]), ks[i - 1]);
      assert gs[..i][..i - 1] == gs[..i - 1];
    }
  }

  lemma GroupCount(totals: Parts, rates: map<string, Rate>)
    ensures |Groups(totals, rates)| == |totals|
  {
    hide Print, Sorted;
  }

  /** A grouping of the calls adds up to the whole. */
  lemma GroupingAddsUp(l: Ledger, class_: map<string, string>, cards: map<string, Rate>)
    requires l.calls.Keys == class_.Keys
    ensures SumGroups(Groups(ClassTotals(PartsOf(l), class_, l.calls.Keys), cards)) == TotalOf(l, l.calls.Keys)
  {
    hide SumGroups, Groups, SumOver, Sorted, PartOf, Elements, ClassTotals;
    PartsKeys(l);
    var ids, t := l.calls.Keys, ClassTotals(PartsOf(l), class_, l.calls.Keys);
    ClassesAddUp(PartsOf(l), class_, ids);
    GroupsSum(t, cards, |t|);
    AllKeys(t.Keys);
    assert Groups(t, cards)[..|t|] == Groups(t, cards);
  }

  lemma RowAt(l: Ledger, i: nat)
    requires i < |l.calls|
    ensures var k := Sorted(l.calls.Keys)[i];
            |Rows(l)| == |l.calls| && k in l.calls && Rows(l)[i] == RowOf(k, l.calls[k], l.rates)
  {
    hide RowOf, Sorted;
    SortedMembers(l.calls.Keys);
  }

  lemma {:induction false} RowsSum(l: Ledger, i: nat)
    requires i <= |l.calls|
    ensures |Rows(l)| == |l.calls| && Elements(Sorted(l.calls.Keys)[..i]) <= l.calls.Keys
    ensures SumRows(Rows(l)[..i]) == TotalOf(l, Elements(Sorted(l.calls.Keys)[..i]))
  {
    hide RowOf, Rows, Sorted, Elements, RowFigures, Total.Plus, PartOf, Costs, KnownSum;
    var rs, ks := Rows(l), Sorted(l.calls.Keys);
    RowTotal(l);
    AllKeys(l.calls.Keys);
    if i == 0 {
      SumEmpty(PartsOf(l));
    } else {
      RowsSum(l, i - 1);
      NextKey(l.calls.Keys, i - 1);
      RowAt(l, i - 1);
      var k := ks[i - 1];
      RowReadsBack(k, l.calls[k], l.rates);
      SumInsert(PartsOf(l), Elements(ks[..i - 1]), k);
      assert rs[..i][..i - 1] == rs[..i - 1];
    }
  }

  lemma RowTotal(l: Ledger)
    ensures |Rows(l)| == |l.calls|
  {
    hide RowOf, Sorted;
  }

  lemma PricedReport(l: Ledger)
    requires Price(l).Ok?
    ensures var r, ids := Price(l).value, l.calls.Keys;
            && TotalOf(l, ids).known <= U64_MAX && StageOf(l).Keys == ids == RateIdOf(l).Keys
            && r.summary == Print(TotalOf(l, ids)) && r.rows == Rows(l)
            && r.byStage == Groups(ClassTotals(PartsOf(l), StageOf(l), ids), map[])
            && r.byRate == Groups(ClassTotals(PartsOf(l), RateIdOf(l), ids), l.rates)
  {
    hide Print, Rows, Groups, ClassTotals, SumOver, Canonical;
  }

  lemma GroupsLegible(totals: Parts, cards: map<string, Rate>)
    ensures forall g :: g in Groups(totals, cards) ==> SummaryLegible(g.summary)
  {
    hide Print, Sorted, SummaryLegible, Groups;
    GroupCount(totals, cards);
    var gs := Groups(totals, cards);
    forall i | 0 <= i < |gs| ensures SummaryLegible(gs[i].summary) {
      GroupAt(totals, cards, i);
      FiguresReadBack(totals[Sorted(totals.Keys)[i]]);
    }
  }

  lemma RowsLegible(l: Ledger)
    ensures forall row :: row in Rows(l) ==> AmountOf(row.knownSubtotal).Some?
  {
    hide RowOf, Rows, Sorted, AmountOf;
    RowTotal(l);
    var rs := Rows(l);
    forall i | 0 <= i < |rs| ensures AmountOf(rs[i].knownSubtotal).Some? {
      RowAt(l, i);
      RowReadsBack(Sorted(l.calls.Keys)[i], l.calls[Sorted(l.calls.Keys)[i]], l.rates);
    }
  }

  lemma PricedLegible(l: Ledger)
    requires Price(l).Ok?
    ensures Legible(Price(l).value)
  {
    hide Price, Groups, Rows, Print, AmountOf, SummaryLegible, TotalOf, ClassTotals;
    PricedReport(l);
    FiguresReadBack(TotalOf(l, l.calls.Keys));
    GroupsLegible(ClassTotals(PartsOf(l), StageOf(l), l.calls.Keys), map[]);
    GroupsLegible(ClassTotals(PartsOf(l), RateIdOf(l), l.calls.Keys), l.rates);
    RowsLegible(l);
  }

  /** Conservation: calls, failures, retries, known cost, unknown components and the
      tokens of every bucket, added up over the stages, over the rate cards or over
      the rows of the printed report, each give the figures of its summary. */
  lemma ReportConserves(input: CostInput)
    requires ReportOf(input).Ok?
    ensures var r := ReportOf(input).value;
            Legible(r) && SumGroups(r.byStage) == SumGroups(r.byRate) == SumRows(r.rows) == Figures(r.summary)
  {
    hide ReadRates, ReadCalls, Price, Currency, Figures, SumGroups, SumRows, Print, Groups, Rows, Legible;
    hide StageOf, RateIdOf, ClassTotals, TotalOf, Elements, Sorted;
    var l := ReadLedger(input).value;
    PricedReport(l);
    PricedLegible(l);
    GroupingAddsUp(l, StageOf(l), map[]);
    GroupingAddsUp(l, RateIdOf(l), l.rates);
    FiguresReadBack(TotalOf(l, l.calls.Keys));
    RowsSum(l, |l.calls|);
    AllKeys(l.calls.Keys);
    assert Rows(l)[..|l.calls|] == Rows(l);
  }

  // ----- Overflow is exact -----

  /** Tokens times price; nothing while one of them is unknown. */
  function Product(tokens: Option<int>, price: Count): nat {
    if tokens.Some? && tokens.value > 0 && price.Some? then tokens.value * price.value else 0
  }

  /** What a call as listed costs by the prices of its rate card. */
  function CallCost(c: CallInput, rates: map<string, Rate>): nat {
    if c.rateId !in rates then 0
    else
      var p := rates[c.rateId].prices;
      Product(c.tokens.uncached, p.uncached) + Product(c.tokens.cacheRead, p.cacheRead)
      + Product(c.tokens.cacheWrite, p.cacheWrite) + Product(c.tokens.output, p.output)
  }

  lemma CallCostIs(c: CallInput, rates: map<string, Rate>)
    requires ReadCall(c).Ok?
    ensures CallCost(c, rates) == KnownSum(Costs(ReadCall(c).value, rates))
  {
    CallIsRead(c);
    var call := ReadCall(c).value;
    hide ReadCall;
    ProductIs(call.tokens.uncached, PricesFor(call, rates).uncached);
    ProductIs(call.tokens.cacheRead, PricesFor(call, rates).cacheRead);
    ProductIs(call.tokens.cacheWrite, PricesFor(call, rates).cacheWrite);
    ProductIs(call.tokens.output, PricesFor(call, rates).output);
    hide Product, Cost;
  }

  lemma ProductIs(tokens: Count, price: Count)
    ensures Product(tokens, price) == Cost(tokens, price).GetOr(0) && Product(tokens, None) == 0
  {
  }

  /** The sum of tokens times price over everything listed in the input, in unbounded arithmetic. */
  function ExactCost(calls: seq<CallInput>, rates: map<string, Rate>): nat {
    if calls == [] then 0 else ExactCost(calls[..|calls| - 1], rates) + CallCost(calls[|calls| - 1], rates)
  }

  function Ids(calls: seq<CallInput>): seq<string> {
    seq(|calls|, i requires 0 <= i < |calls| => calls[i].callId)
  }

  /** What reading the calls gives, item by item. */
  lemma CallsRead(input: CostInput)
    requires ReadLedger(input).Ok?
    ensures var cs, m := input.calls, ReadLedger(input).value.calls;
            && (forall j :: 0 <= j < |cs| ==> cs[j].callId in m && ReadCall(cs[j]) == Ok(m[cs[j].callId]))
            && (forall j, k :: 0 <= j < k < |cs| ==> cs[j].callId != cs[k].callId)
            && Elements(Ids(cs)) == m.Keys
  {
    hide ReadCall, ReadAll, ReadRates, Currency;
    var cs, m := input.calls, ReadLedger(input).value.calls;
    ReadAllIs(cs, CallKey, ReadCall, "cost_duplicate_call", 0, map[]);
    forall j | 0 <= j < |cs| ensures cs[j].callId in m && ReadCall(cs[j]) == Ok(m[cs[j].callId]) {
      assert CallKey(cs[j]) in m;
    }
    forall j, k | 0 <= j < k < |cs| ensures cs[j].callId != cs[k].callId {
      assert CallKey(cs[j]) != CallKey(cs[k]);
    }
    forall k | k in m ensures k in Elements(Ids(cs)) {
      var j :| 0 <= j < |cs| && CallKey(cs[j]) == k;
      assert Ids(cs)[j] == k;
    }
  }

  lemma {:induction false} CostSoFar(input: CostInput, i: nat)
    requires ReadLedger(input).Ok? && i <= |input.calls|
    ensures var l := ReadLedger(input).value; var done := Elements(Ids(input.calls)[..i]);
            done <= l.calls.Keys && ExactCost(input.calls[..i], l.rates) == TotalOf(l, done).known
  {
    hide ReadLedger, ReadCall, Costs, KnownSum, PartsOf, SumOver, CallCost;
    var l, cs, ids := ReadLedger(input).value, input.calls, Ids(input.calls);
    CallsRead(input);
    if i == 0 {
      assert ids[..0] == [] && Elements(ids[..0]) == {};
      SumEmpty(PartsOf(l));
    } else {
      CostSoFar(input, i - 1);
      ElementsStep(ids, i - 1);
      var done, k := Elements(ids[..i - 1]), ids[i - 1];
      PartsKeys(l);
      SumInsert(PartsOf(l), done, k);
      PartKnown(l, k);
      CallCostIs(cs[i - 1], l.rates);
      assert cs[..i][..i - 1] == cs[..i - 1];
    }
  }

  lemma PartsKeys(l: Ledger)
    ensures PartsOf(l).Keys == l.calls.Keys
  {
  }

  lemma PartKnown(l: Ledger, k: string)
    requires k in l.calls
    ensures PartsOf(l)[k].known == KnownSum(Costs(l.calls[k], l.rates))
  {
  }

  /** A validated input fails only by overflowing, and exactly when the unbounded sum
      of its known costs does not fit in 64 bits.  Otherwise the printed total and
      every printed subtotal denote exactly that sum and its parts. */
  lemma OverflowIsExact(input: CostInput)
    requires ReadLedger(input).Ok?
    ensures var l, r := ReadLedger(input).value, ReportOf(input);
            && (r == Err("cost_overflow") <==> ExactCost(input.calls, l.rates) > 18_446_744_073_709_551_615)
            && (r.Ok? <==> ExactCost(input.calls, l.rates) <= 18_446_744_073_709_551_615)
            && (r.Ok? ==> r.value.currency == input.currency)
            && (r.Ok? ==> IsMoney(r.value.summary.knownSubtotal, ExactCost(input.calls, l.rates)))
  {
    var l := ReadLedger(input).value;
    hide ReadLedger, ExactCost, TotalOf, IsMoney, Price, Money, ReadCall, Elements;
    CostSoFar(input, |input.calls|);
    CallsRead(input);
    assert input.calls[..|input.calls|] == input.calls;
    assert Ids(input.calls)[..|input.calls|] == Ids(input.calls);
    PriceDecides(l);
    CurrencyRead(input);
    MoneyIs(TotalOf(l, l.calls.Keys).known);
  }

  lemma CurrencyRead(input: CostInput)
    requires ReadLedger(input).Ok?
    ensures ReadLedger(input).value.currency == input.currency
  {
    hide ReadRates, ReadCalls, Currency;
  }

  lemma PriceDecides(l: Ledger)
    ensures var total := TotalOf(l, l.calls.Keys).known;
            && (total > U64_MAX ==> Price(l) == Err("cost_overflow"))
            && (total <= U64_MAX ==>
                  && Price(l).Ok? && Price(l).value.summary.knownSubtotal == Money(total)
                  && Price(l).value.currency == l.currency)
  {
    hide SumOver, Canonical, Groups, ClassTotals, Rows, Decimal;
  }

  /** A component shows its tokens, its price and tokens times price, or why there is
      no cost: a known zero costs nothing, anything else needs both factors. */
  ghost predicate ShowsExactly(shown: Component, tokens: Count, price: Count, cardKnown: bool) {
    var free := tokens == Some(0);
    && shown.tokens == tokens && IsRateText(shown.rate, price)
    && (shown.cost.Some? <==> free || (tokens.Some? && price.Some?))
    && (free ==> IsMoney(shown.cost.value, 0))
    && (!free && shown.cost.Some? ==> IsMoney(shown.cost.value, tokens.value * price.value))
    && shown.missing == (if shown.cost.Some? then None
                         else if tokens.None? then Some("usage_unknown")
                         else if cardKnown then Some("rate_unknown") else Some("rate_card_missing"))
  }

  /** A known price is shown with six decimals, an unknown one not at all. */
  ghost predicate IsRateText(text: Option<string>, price: Count) {
    (text.Some? <==> price.Some?) && (text.Some? ==> Denotes(text.value, 6, price.value))
  }

  lemma RateTextIs(price: Count)
    ensures IsRateText(PrintRate(price), price)
  {
    if price.Some? {
      DecimalDenotes(price.value, 6);
    }
    hide Decimal, Denotes;
  }

  lemma ComponentExact(tokens: Count, price: Count, known: bool)
    ensures ShowsExactly(ComponentOf(tokens, price, known), tokens, price, known)
  {
    RateTextIs(price);
    hide IsMoney, Money, IsRateText, PrintRate;
    if Cost(tokens, price).Some? {
      MoneyIs(Cost(tokens, price).value);
    }
  }

  /** The amount a component's printed cost denotes, nothing if it has none. */
  function Shown(c: Component): nat { if c.cost.Some? then AmountOf(c.cost.value).GetOr(0) else 0 }

  function Uncosted(c: Component): nat { if c.cost.Some? then 0 else 1 }

  /** A row's subtotal denotes the sum of its printed component costs, and its gaps are
      the components without one. */
  ghost predicate RowAddsUp(r: Row) {
    var c := r.components;
    && IsMoney(r.knownSubtotal, Shown(c.uncached) + Shown(c.cacheRead) + Shown(c.cacheWrite) + Shown(c.output))
    && r.unknownComponents == Uncosted(c.uncached) + Uncosted(c.cacheRead) + Uncosted(c.cacheWrite) + Uncosted(c.output)
    && (r.complete <==> r.unknownComponents == 0)
    && r.totalEstimate == (if r.complete then Some(r.knownSubtotal) else None)
  }

  lemma ShownIs(tokens: Count, price: Count, known: bool)
    ensures var shown := ComponentOf(tokens, price, known);
            && Shown(shown) == Cost(tokens, price).GetOr(0) && Uncosted(shown) == One(Cost(tokens, price).None?)
  {
    hide Money, AmountOf, PrintRate;
    if Cost(tokens, price).Some? {
      MoneyIs(Cost(tokens, price).value);
    }
  }

  lemma RowSums(k: string, c: Call, rates: map<string, Rate>)
    ensures RowAddsUp(RowOf(k, c, rates))
  {
    hide Money, IsMoney, ComponentOf, Cost, Shown, Uncosted;
    var p, known := PricesFor(c, rates), c.rateId in rates;
    MoneyIs(KnownSum(Costs(c, rates)));
    ShownIs(c.tokens.uncached, p.uncached, known);
    ShownIs(c.tokens.cacheRead, p.cacheRead, known);
    ShownIs(c.tokens.cacheWrite, p.cacheWrite, known);
    ShownIs(c.tokens.output, p.output, known);
  }

  /** A row shows, bucket by bucket, its call's tokens and the prices of the card with the
      call's rate id, what they cost, and their sum. */
  ghost predicate RowShows(r: Row, k: string, c: Call, rates: map<string, Rate>) {
    var known := c.rateId in rates;
    var p := if known then rates[c.rateId].prices else Quad(None, None, None, None);
    && r.callId == k && r.call == c && RowAddsUp(r)
    && ShowsExactly(r.components.uncached, c.tokens.uncached, p.uncached, known)
    && ShowsExactly(r.components.cacheRead, c.tokens.cacheRead, p.cacheRead, known)
    && ShowsExactly(r.components.cacheWrite, c.tokens.cacheWrite, p.cacheWrite, known)
    && ShowsExactly(r.components.output, c.tokens.output, p.output, known)
  }

  lemma RowIs(l: Ledger, k: string)
    requires k in l.calls
    ensures RowShows(RowOf(k, l.calls[k], l.rates), k, l.calls[k], l.rates)
  {
    hide ShowsExactly, ComponentOf, Cost, RowAddsUp, Money;
    var c, known := l.calls[k], l.calls[k].rateId in l.rates;
    var p := PricesFor(c, l.rates);
    RowSums(k, c, l.rates);
    ComponentExact(c.tokens.uncached, p.uncached, known);
    ComponentExact(c.tokens.cacheRead, p.cacheRead, known);
    ComponentExact(c.tokens.cacheWrite, p.cacheWrite, known);
    ComponentExact(c.tokens.output, p.output, known);
  }

  /** There is one row for each call, in call-id order; each shows its call's tokens,
      prices and exact component costs, and a subtotal that is the sum of those costs. */
  lemma RowsAreExact(l: Ledger)
    requires Price(l).Ok?
    ensures var rows := Price(l).value.rows;
            && |rows| == |l.calls|
            && (forall i :: 0 <= i < |rows| ==>
                  && rows[i].callId in l.calls
                  && RowShows(rows[i], rows[i].callId, l.calls[rows[i].callId], l.rates))
            && (forall i, j :: 0 <= i < j < |rows| ==>
                  Below(rows[i].callId, rows[j].callId) && rows[i].callId != rows[j].callId)
  {
    hide Price, Rows, Sorted, RowShows, RowOf, TotalOf, Below;
    PricedReport(l);
    RowTotal(l);
    var rows, ks := Price(l).value.rows, Sorted(l.calls.Keys);
    forall i | 0 <= i < |rows|
      ensures rows[i].callId == ks[i] && ks[i] in l.calls && RowShows(rows[i], ks[i], l.calls[ks[i]], l.rates)
    {
      RowAt(l, i);
      RowIs(l, ks[i]);
      RowKey(rows[i], ks[i], l.calls[ks[i]], l.rates);
    }
    forall i, j | 0 <= i < j < |rows| ensures Below(ks[i], ks[j]) && ks[i] != ks[j] {
      SortedOrder(l.calls.Keys, i, j);
    }
  }

  lemma RowKey(r: Row, k: string, c: Call, rates: map<string, Rate>)
    requires RowShows(r, k, c, rates)
    ensures r.callId == k
  {
    hide ShowsExactly, RowAddsUp;
  }

  // ----- What the ledger holds -----

  /** A price left out is unknown, and any other is the number its text spells. */
  ghost predicate PriceRead(text: Option<string>, price: Count) {
    if text.None? then price.None?
    else price.Some? && exists w, f :: SpellsRate(text.value, w, f, price.value)
  }

  lemma PriceReads(text: Option<string>)
    ensures RateOf(text).Ok? ==> PriceRead(text, RateOf(text).value)
  {
    if text.Some? && RateUnits(text.value).Ok? {
      RateIff(text.value, RateUnits(text.value).value);
    }
    hide RateUnits, SpellsRate;
  }

  /** A rate card as listed. */
  ghost predicate CardRead(r: RateInput, card: Rate) {
    && card.provider == r.provider && card.model == r.model
    && PriceRead(r.perMillion.uncached, card.prices.uncached)
    && PriceRead(r.perMillion.cacheRead, card.prices.cacheRead)
    && PriceRead(r.perMillion.cacheWrite, card.prices.cacheWrite)
    && PriceRead(r.perMillion.output, card.prices.output)
  }

  ghost predicate CallRead(c: CallInput, call: Call) {
    && call.stage == c.stage && call.rateId == c.rateId && call.attempt == c.attempt && call.outcome == c.outcome
    && call.tokens.uncached == c.tokens.uncached && call.tokens.cacheRead == c.tokens.cacheRead
    && call.tokens.cacheWrite == c.tokens.cacheWrite && call.tokens.output == c.tokens.output
  }

  /** The ledger holds exactly the listed cards and calls, member by member, under their own ids. */
  lemma LedgerHolds(input: CostInput)
    requires ReadLedger(input).Ok?
    ensures var l := ReadLedger(input).value;
            && l.currency == input.currency
            && (forall i :: 0 <= i < |input.rates| ==>
                  input.rates[i].rateId in l.rates && CardRead(input.rates[i], l.rates[input.rates[i].rateId]))
            && (forall i :: 0 <= i < |input.calls| ==>
                  input.calls[i].callId in l.calls && CallRead(input.calls[i], l.calls[input.calls[i].callId]))
            && |l.rates| == |input.rates| && |l.calls| == |input.calls|
  {
    hide ReadRate, ReadCall, ReadAll, Currency, CardRead, CallRead, GoodRate, GoodCall;
    var l := ReadLedger(input).value;
    RatesAreGood(input.rates);
    CallsAreGood(input.calls);
    ReadAllIs(input.rates, RateKey, ReadRate, "cost_duplicate_rate", 0, map[]);
    ReadAllIs(input.calls, CallKey, ReadCall, "cost_duplicate_call", 0, map[]);
    forall i | 0 <= i < |input.rates|
      ensures input.rates[i].rateId in l.rates && CardRead(input.rates[i], l.rates[input.rates[i].rateId])
    {
      assert RateKey(input.rates[i]) in l.rates;
      CardIsRead(input.rates[i]);
    }
    forall i | 0 <= i < |input.calls|
      ensures input.calls[i].callId in l.calls && CallRead(input.calls[i], l.calls[input.calls[i].callId])
    {
      assert CallKey(input.calls[i]) in l.calls;
      CallIsRead(input.calls[i]);
    }
  }

  lemma CardIsRead(r: RateInput)
    requires ReadRate(r).Ok?
    ensures CardRead(r, ReadRate(r).value)
  {
    hide Id, RateOf, PriceRead;
    PriceReads(r.perMillion.uncached);
    PriceReads(r.perMillion.cacheRead);
    PriceReads(r.perMillion.cacheWrite);
    PriceReads(r.perMillion.output);
  }

  lemma CallIsRead(c: CallInput)
    requires ReadCall(c).Ok?
    ensures CallRead(c, ReadCall(c).value)
  {
    hide Id;
  }

  predicate IsName(s: string) {
    && 1 <= |s| <= 64
    && forall c | c in s :: 'A' <= c <= 'Z' || 'a' <= c <= 'z' || '0' <= c <= '9' || c in "_-.:"
  }

  ghost predicate IsPrice(text: Option<string>) {
    text.Some? ==> exists w, f, n: nat :: SpellsRate(text.value, w, f, n)
  }

  ghost predicate CardFits(r: RateInput) {
    && IsName(r.rateId) && IsName(r.provider) && IsName(r.model)
    && IsPrice(r.perMillion.uncached) && IsPrice(r.perMillion.cacheRead) && IsPrice(r.perMillion.cacheWrite)
    && IsPrice(r.perMillion.output)
  }

  predicate TokensFit(n: Option<int>) { n.Some? ==> 0 <= n.value <= 1_000_000_000 }

  predicate CallFits(c: CallInput) {
    && IsName(c.callId) && IsName(c.rateId) && 1 <= c.attempt <= 100
    && c.stage in {"main", "embedding", "summary", "extraction", "rerank", "other"}
    && c.outcome in {"success", "failure", "unknown"}
    && TokensFit(c.tokens.uncached) && TokensFit(c.tokens.cacheRead) && TokensFit(c.tokens.cacheWrite)
    && TokensFit(c.tokens.output)
  }

  /** What an input has to be: at most 64 cards and 512 calls, each well formed, no id twice. */
  ghost predicate InputFits(input: CostInput) {
    && input.schema == "qbrain-cost-input-v1"
    && |input.currency| == 3 && (forall c | c in input.currency :: 'A' <= c <= 'Z')
    && |input.rates| <= 64 && |input.calls| <= 512
    && (forall i :: 0 <= i < |input.rates| ==> CardFits(input.rates[i]))
    && (forall i :: 0 <= i < |input.calls| ==> CallFits(input.calls[i]))
    && (forall i, j :: 0 <= i < j < |input.rates| ==> input.rates[i].rateId != input.rates[j].rateId)
    && (forall i, j :: 0 <= i < j < |input.calls| ==> input.calls[i].callId != input.calls[j].callId)
  }

  lemma NameIs(s: string)
    ensures Id(s).Pass? <==> IsName(s)
  {
  }

  lemma PriceIs(text: Option<string>)
    ensures RateOf(text).Ok? <==> IsPrice(text)
  {
    hide RateUnits, SpellsRate;
    if text.Some? {
      forall n: nat ensures RateUnits(text.value) == Ok(n) <==> exists w, f :: SpellsRate(text.value, w, f, n) {
        RateIff(text.value, n);
      }
      if w, f, n: nat :| SpellsRate(text.value, w, f, n) {
        assert RateUnits(text.value) == Ok(n);
      }
      if RateUnits(text.value).Ok? {
        var n := RateUnits(text.value).value;
        assert RateUnits(text.value) == Ok(n);
      }
    }
  }

  lemma CardReadsIff(r: RateInput)
    ensures ReadRate(r).Ok? <==> CardFits(r)
  {
    hide Id, IsName, RateOf, IsPrice;
    NameIs(r.rateId);
    NameIs(r.provider);
    NameIs(r.model);
    PriceIs(r.perMillion.uncached);
    PriceIs(r.perMillion.cacheRead);
    PriceIs(r.perMillion.cacheWrite);
    PriceIs(r.perMillion.output);
  }

  lemma CallReadsIff(c: CallInput)
    ensures ReadCall(c).Ok? <==> CallFits(c)
  {
    hide Id, IsName;
    NameIs(c.callId);
    NameIs(c.rateId);
    LabelsAreNames();
  }

  lemma LabelsAreNames()
    ensures forall s | s in STAGES + OUTCOMES :: Id(s).Pass?
  {
  }

  /** An input is read exactly when it fits. */
  lemma LedgerReadsIff(input: CostInput)
    ensures ReadLedger(input).Ok? <==> InputFits(input)
  {
    hide ReadRate, ReadCall, ReadAll, CardFits, CallFits;
    ReadAllIs(input.rates, RateKey, ReadRate, "cost_duplicate_rate", 0, map[]);
    ReadAllIs(input.calls, CallKey, ReadCall, "cost_duplicate_call", 0, map[]);
    forall r ensures ReadRate(r).Ok? <==> CardFits(r) {
      CardReadsIff(r);
    }
    forall c ensures ReadCall(c).Ok? <==> CallFits(c) {
      CallReadsIff(c);
    }
  }

  // ----- Groups and completeness -----

  /** A group shows the exact total of a class that has calls. */
  ghost predicate GroupExact(g: Group, l: Ledger, class_: map<string, string>, cards: map<string, Rate>)
    requires class_.Keys == l.calls.Keys
  {
    var calls := InClass(class_, l.calls.Keys, g.key);
    calls != {} && g.card == CardOf(cards, g.key) && g.summary == Print(TotalOf(l, calls))
  }

  ghost predicate InKeyOrder(gs: seq<Group>) {
    forall i, j :: 0 <= i < j < |gs| ==> Below(gs[i].key, gs[j].key) && gs[i].key != gs[j].key
  }

  ghost predicate HasGroup(gs: seq<Group>, key: string) {
    exists i :: 0 <= i < |gs| && gs[i].key == key
  }

  /** The groups are the classes in increasing order, each with its exact total. */
  ghost predicate GroupsExact(gs: seq<Group>, l: Ledger, class_: map<string, string>, cards: map<string, Rate>)
    requires class_.Keys == l.calls.Keys
  {
    && (forall i :: 0 <= i < |gs| ==> GroupExact(gs[i], l, class_, cards))
    && InKeyOrder(gs)
    && (forall k :: k in l.calls ==> HasGroup(gs, class_[k]))
  }

  lemma ClassIs(l: Ledger, class_: map<string, string>, c: string)
    requires class_.Keys == l.calls.Keys && c in ClassTotals(PartsOf(l), class_, l.calls.Keys)
    ensures InClass(class_, l.calls.Keys, c) != {}
    ensures ClassTotals(PartsOf(l), class_, l.calls.Keys)[c] == TotalOf(l, InClass(class_, l.calls.Keys, c))
  {
    hide SumOver, PartOf;
    var x :| x in l.calls.Keys && class_[x] == c;
    assert x in InClass(class_, l.calls.Keys, c);
  }

  lemma ClassKeys(l: Ledger, class_: map<string, string>)
    requires class_.Keys == l.calls.Keys
    ensures forall k :: k in l.calls ==> class_[k] in ClassTotals(PartsOf(l), class_, l.calls.Keys)
  {
    hide SumOver, PartOf;
  }

  lemma GroupIs(totals: Parts, cards: map<string, Rate>, i: nat)
    requires i < |totals|
    ensures var k, gs := Sorted(totals.Keys)[i], Groups(totals, cards);
            |gs| == |totals| && k in totals && gs[i] == Group(k, CardOf(cards, k), Print(totals[k]))
  {
    hide Print, Sorted, CardOf;
    SortedMembers(totals.Keys);
  }

  lemma GroupsInOrder(totals: Parts, cards: map<string, Rate>)
    ensures var gs := Groups(totals, cards); InKeyOrder(gs) && forall k :: k in totals ==> HasGroup(gs, k)
  {
    hide Print, Sorted, CardOf, Below, Groups;
    var gs, ks := Groups(totals, cards), Sorted(totals.Keys);
    GroupCount(totals, cards);
    forall i | 0 <= i < |gs| ensures gs[i].key == ks[i] {
      GroupIs(totals, cards, i);
    }
    forall i, j | 0 <= i < j < |gs| ensures Below(gs[i].key, gs[j].key) && gs[i].key != gs[j].key {
      SortedOrder(totals.Keys, i, j);
    }
    SortedMembers(totals.Keys);
    forall k | k in totals ensures HasGroup(gs, k) {
      var i :| 0 <= i < |ks| && ks[i] == k;
      assert gs[i].key == k;
    }
  }

  lemma GroupsAre(l: Ledger, class_: map<string, string>, cards: map<string, Rate>)
    requires class_.Keys == l.calls.Keys
    ensures GroupsExact(Groups(ClassTotals(PartsOf(l), class_, l.calls.Keys), cards), l, class_, cards)
  {
    hide Print, Sorted, TotalOf, CardOf, PartsOf, ClassTotals, Groups, InClass, InKeyOrder, HasGroup;
    PartsKeys(l);
    var t := ClassTotals(PartsOf(l), class_, l.calls.Keys);
    var gs, ks := Groups(t, cards), Sorted(t.Keys);
    GroupCount(t, cards);
    forall i | 0 <= i < |gs| ensures GroupExact(gs[i], l, class_, cards) {
      GroupIs(t, cards, i);
      ClassIs(l, class_, ks[i]);
    }
    ClassKeys(l, class_);
    GroupsInOrder(t, cards);
  }

  predicate Costed(tokens: Count, price: Count) { tokens == Some(0) || (tokens.Some? && price.Some?) }

  /** Every component of the call has a cost: its tokens are known, and are zero or have
      a known price on the call's card. */
  predicate FullyPriced(c: Call, rates: map<string, Rate>) {
    var p := if c.rateId in rates then rates[c.rateId].prices else Quad(None, None, None, None);
    && Costed(c.tokens.uncached, p.uncached) && Costed(c.tokens.cacheRead, p.cacheRead)
    && Costed(c.tokens.cacheWrite, p.cacheWrite) && Costed(c.tokens.output, p.output)
  }

  lemma PricedIs(c: Call, rates: map<string, Rate>)
    ensures Gaps(Costs(c, rates)) == 0 <==> FullyPriced(c, rates)
  {
  }

  lemma {:induction false} NoneMissing(l: Ledger, ids: set<string>)
    requires ids <= l.calls.Keys
    ensures TotalOf(l, ids).missing == 0 <==> forall k :: k in ids ==> FullyPriced(l.calls[k], l.rates)
    decreases |ids|
  {
    hide SumOver, Costs, Gaps, FullyPriced;
    if ids == {} {
      SumEmpty(PartsOf(l));
    } else {
      var x :| x in ids;
      PricedIs(l.calls[x], l.rates);
      NoneMissing(l, ids - {x});
      SumInsert(PartsOf(l), ids - {x}, x);
      assert (ids - {x}) + {x} == ids;
    }
  }

  /** Stages and rate cards appear once each, in order, with the exact totals of exactly
      their own calls; the summary is complete, with an estimate, if and only if every
      component of every call could be priced. */
  lemma GroupsAreExact(l: Ledger)
    requires Price(l).Ok?
    ensures var r := Price(l).value;
            && StageOf(l).Keys == l.calls.Keys == RateIdOf(l).Keys
            && GroupsExact(r.byStage, l, StageOf(l), map[]) && GroupsExact(r.byRate, l, RateIdOf(l), l.rates)
            && (r.summary.complete <==> forall k :: k in l.calls ==> FullyPriced(l.calls[k], l.rates))
            && r.summary.totalEstimate == (if r.summary.complete then Some(r.summary.knownSubtotal) else None)
  {
    hide Price, TotalOf, Groups, ClassTotals, GroupsExact, FullyPriced, Rows, StageOf, RateIdOf, Decimal;
    PricedReport(l);
    GroupsAre(l, StageOf(l), map[]);
    GroupsAre(l, RateIdOf(l), l.rates);
    NoneMissing(l, l.calls.Keys);
  }
}
