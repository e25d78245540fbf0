/** Import of provider responses: each record becomes one call of the cost input,
    its usage normalized to disjoint buckets.  Whether a response's JSON text is
    within its size limit is the parameter `fits`. */
module UsageImport {
  import opened Wrappers
  import opened Json
  import opened ProviderUsage
  import opened StreamFields
  import opened Ordered
  import opened TokenCost
  import opened CostReports
  import opened Decimals
  import opened Totals

  datatype Record = Record(callId: string, stage: string, rateId: string, attempt: int, outcome: string,
                           format: string, response: Json)

  datatype ImportInput = ImportInput(schema: string, currency: string, rates: seq<RateInput>, records: seq<Record>)

  type Fits = Json -> bool

  const IMPORT_SCHEMA := "qbrain-usage-import-v1"
  const RECORD_LIMIT: nat := 128
  const CHAT_FORMAT := "openai_chat"
  const RESPONSES_FORMAT := "openai_responses"
  const ANTHROPIC_FORMAT := "anthropic_messages"
  const FORMATS := {CHAT_FORMAT, RESPONSES_FORMAT, ANTHROPIC_FORMAT}
  const TERMINAL := {Str("completed"), Str("failed"), Str("incomplete"), Str("cancelled")}

  function ProviderOf(format: string): string {
    if format == ANTHROPIC_FORMAT then "anthropic" else "openai"
  }

  predicate IsErrorEnvelope(r: Json) {
    Get(r, "error") != Null && !Has(r, "object") && Get(r, "type") != Str("message")
  }

  // ----- One record -----

  /** What a record holds: no response, an error response, or a response with an identity. */
  datatype Content = NoResponse | ErrorResponse | Identified(reference: string)

  function Heading(cards: map<string, Rate>, rec: Record): Result<Unit> {
    var first := Id(rec.callId);
    :- first;
    :- Id(rec.rateId);
    :- Id(rec.format);
    :- Id(rec.outcome);
    :- Need(rec.format in FORMATS, "usage_format");
    :- Need(rec.rateId in cards ==>
            cards[rec.rateId].provider == ProviderOf(rec.format),
            "usage_rate_provider_mismatch");
    Ok(Unit)
  }

  predicate NonEmptyString(j: Json) { j.Str? && j.s != "" }

  /** The response's model and identity. */
  function Reference(cards: map<string, Rate>, rec: Record): Result<string> {
    var model := Get(rec.response, "model");
    :- Need(NonEmptyString(model) && |model.s| <= 256, "usage_response_model");
    :- Need(rec.rateId in cards ==> cards[rec.rateId].model == model.s, "usage_rate_model_mismatch");
    :- Need(Has(rec.response, "id"), "usage_response_identity");
    var id :- OpaqueId(Get(rec.response, "id"));
    Ok(ProviderOf(rec.format) + "/" + id)
  }

  function Open(fits: Fits, cards: map<string, Rate>, rec: Record): Result<Content> {
    var _ :- Heading(cards, rec);
    var r := rec.response;
    if r.Null? then
      :- Need(rec.outcome != "success", "usage_response_missing");
      Ok(NoResponse)
    else
      :- Need(r.Obj?, "usage_response_object");
      :- Need(fits(r), "usage_response_limit");
      if IsErrorEnvelope(r) then
        :- Need(Get(r, "error").Obj? && rec.outcome != "success", "usage_error_envelope");
        :- Need(Get(r, "usage").Null?, "usage_error_envelope");
        Ok(ErrorResponse)
      else
        var reference :- Reference(cards, rec);
        Ok(Identified(reference))
  }

  predicate Finished(choice: Json) { NonEmptyString(Get(choice, "finish_reason")) }

  /** The response is of the declared kind and at its end. */
  function Kind(rec: Record): Result<Unit> {
    var r := rec.response;
    if rec.format == ANTHROPIC_FORMAT then
      :- Need(Get(r, "type") == Str("message") && Get(r, "role") == Str("assistant"), "usage_response_kind");
      :- Need(NonEmptyString(Get(r, "stop_reason")), "usage_response_nonterminal");
      Ok(Unit)
    else if rec.format == RESPONSES_FORMAT then
      :- Need(Get(r, "object") == Str("response"), "usage_response_kind");
      :- Need(Get(r, "status") in TERMINAL, "usage_response_nonterminal");
      :- Need(rec.outcome != "success" || Get(r, "status") == Str("completed"), "usage_outcome_conflict");
      Ok(Unit)
    else
      :- Need(Get(r, "object") == Str("chat.completion"), "usage_response_kind");
      var choices := Get(r, "choices");
      :- Need(choices.Arr? && choices.items != [] && forall c | c in choices.items :: Finished(c),
              "usage_response_nonterminal");
      Ok(Unit)
  }

  /** The four buckets of a response; missing usage leaves them all unknown. */
  function Usage(rec: Record): Result<Values> {
    var u := Get(rec.response, "usage");
    if u.Null? then Ok(UNPRICED)
    else if rec.format == ANTHROPIC_FORMAT then AnthropicUsage(u)
    else OpenAiUsage(u, rec.format == RESPONSES_FORMAT)
  }

  function TokensOf(rec: Record, content: Content): Result<Values> {
    if !content.Identified? then Ok(UNPRICED) else
    var _ :- Kind(rec);
    Usage(rec)
  }

  function CallFor(rec: Record, tokens: Values): CallInput {
    CallInput(rec.callId, rec.stage, rec.rateId, rec.attempt, rec.outcome,
              Quad(tokens.uncached, tokens.cacheRead, tokens.cacheWrite, tokens.output))
  }

  datatype Audit = Audit(format: string, provider: string, reference: Option<string>, complete: bool)

  function AuditOf(rec: Record, content: Content, tokens: Values): Audit {
    Audit(rec.format, ProviderOf(rec.format), if content.Identified? then Some(content.reference) else None,
          Gaps(tokens) == 0)
  }

  // ----- All records -----

  datatype State = State(calls: map<string, CallInput>, audits: map<string, Audit>, seen: set<string>)

  const START := State(map[], map[], {})

  function Step(fits: Fits, cards: map<string, Rate>, st: State, rec: Record): Result<State> {
    var content :- Open(fits, cards, rec);
    :- Need(content.Identified? ==> content.reference !in st.seen, "usage_duplicate_response");
    var tokens :- TokensOf(rec, content);
    :- Need(rec.callId !in st.calls, "cost_duplicate_call");
    Ok(State(st.calls[rec.callId := CallFor(rec, tokens)],
             st.audits[rec.callId := AuditOf(rec, content, tokens)],
             if content.Identified? then st.seen + {content.reference} else st.seen))
  }

  function Run(fits: Fits, cards: map<string, Rate>, recs: seq<Record>, i: nat, st: State): Result<State>
    requires i <= |recs|
    decreases |recs| - i
  {
    if i == |recs| then Ok(st) else
    var st' :- Step(fits, cards, st, recs[i]);
    Run(fits, cards, recs, i + 1, st')
  }

  function Bare(currency: string, rates: seq<RateInput>): CostInput {
    CostInput(SCHEMA, currency, rates, [])
  }

  /** The calls of a map, in key order. */
  function InOrder<T>(m: map<string, T>): (s: seq<T>)
    ensures |s| == |m|
  {
    var ks := Sorted(m.Keys);
    SortedMembers(m.Keys);
    seq(|ks|, i requires 0 <= i < |ks| => m[ks[i]])
  }

  /** The cost input an import produces: rate cards in canonical form, calls by id. */
  function Normal(cards: Ledger, calls: map<string, CallInput>): CostInput {
    CostInput(SCHEMA, cards.currency, Canonical(cards).rates, InOrder(calls))
  }

  datatype Imported = Imported(costInput: CostInput, report: Report, audits: seq<Audit>, complete: bool)

  predicate AllComplete(audits: map<string, Audit>) { forall k | k in audits :: audits[k].complete }

  /** An import whose schema and record count have been checked. */
  ghost function Conclude(fits: Fits, currency: string, rates: seq<RateInput>, recs: seq<Record>): Result<Imported> {
    var cards :- ReadLedger(Bare(currency, rates));
    var st :- Run(fits, cards.rates, recs, 0, START);
    var report :- ReportOf(Normal(cards, st.calls));
    Ok(Imported(Normal(cards, st.calls), report, InOrder(st.audits), AllComplete(st.audits)))
  }

  ghost function Import(fits: Fits, input: ImportInput): Result<Imported> {
    var known := input.schema == IMPORT_SCHEMA;
    :- Need(known, "usage_schema");
    :- Need(|input.records| <= RECORD_LIMIT, "usage_record_count");
    Conclude(fits, input.currency, input.rates, input.records)
  }

  /** The import loop. */
  method ImportRecords(fits: Fits, cards: map<string, Rate>, recs: seq<Record>) returns (r: Result<State>)
    ensures r == Run(fits, cards, recs, 0, START)
  {
    hide Heading, IsErrorEnvelope, Reference, Kind, Usage, AuditOf;
    var calls: map<string, CallInput>, audits: map<string, Audit>, seen: set<string> := map[], map[], {};
    for i := 0 to |recs|
      invariant Run(fits, cards, recs, i, State(calls, audits, seen)) == Run(fits, cards, recs, 0, START)
    {
      var rec := recs[i];
      var _ :- Heading(cards, rec);
      var content, tokens := NoResponse, UNPRICED;
      if rec.response.Null? {
        :- Need(rec.outcome != "success", "usage_response_missing");
      } else {
        :- Need(rec.response.Obj?, "usage_response_object");
        :- Need(fits(rec.response), "usage_response_limit");
        if IsErrorEnvelope(rec.response) {
          :- Need(Get(rec.response, "error").Obj? && rec.outcome != "success", "usage_error_envelope");
          :- Need(Get(rec.response, "usage").Null?, "usage_error_envelope");
          content := ErrorResponse;
        } else {
          var reference :- Reference(cards, rec);
          content := Identified(reference);
          :- Need(reference !in seen, "usage_duplicate_response");
          seen := seen + {reference};
          var _ :- Kind(rec);
          tokens :- Usage(rec);
        }
      }
      :- Need(rec.callId !in calls, "cost_duplicate_call");
      calls := calls[rec.callId := CallFor(rec, tokens)];
      audits := audits[rec.callId := AuditOf(rec, content, tokens)];
    }
    r := Ok(State(calls, audits, seen));
  }

  /** The whole import: rate cards first, then records, then the cost report. */
  method ImportReport(fits: Fits, input: ImportInput) returns (r: Result<Imported>)
    ensures r == Import(fits, input)
  {
    hide ReadLedger, Price, Run, Canonical, InOrder, AllComplete;
    :- Need(input.schema == IMPORT_SCHEMA, "usage_schema");
    :- Need(|input.records| <= RECORD_LIMIT, "usage_record_count");
    EmptyPrices(input.currency, input.rates);
    var _ :- MakeReport(Bare(input.currency, input.rates));
    var read := ReadLedger(Bare(input.currency, input.rates));
    var cards := read.value;
    var st :- ImportRecords(fits, cards.rates, input.records);
    var report :- MakeReport(Normal(cards, st.calls));
    r := Ok(Imported(Normal(cards, st.calls), report, InOrder(st.audits), AllComplete(st.audits)));
  }

  lemma EmptyPrices(currency: string, rates: seq<RateInput>)
    ensures ReadLedger(Bare(currency, rates)).Ok? ==> ReportOf(Bare(currency, rates)).Ok?
    ensures ReadLedger(Bare(currency, rates)).Err? ==>
              ReportOf(Bare(currency, rates)) == Err(ReadLedger(Bare(currency, rates)).code)
  {
    hide ReadLedger, Price, ExactCost;
    if ReadLedger(Bare(currency, rates)).Ok? {
      OverflowIsExact(Bare(currency, rates));
      NothingCosts(ReadLedger(Bare(currency, rates)).value.rates);
    }
  }

  lemma NothingCosts(rates: map<string, Rate>)
    ensures ExactCost([], rates) == 0
  {
  }

  // ----- A record's mapping depends on the record and the rate cards only -----

  datatype Mapped = Mapped(call: CallInput, audit: Audit)

  function MapRecord(fits: Fits, cards: map<string, Rate>, rec: Record): Result<Mapped> {
    var content :- Open(fits, cards, rec);
    var tokens :- TokensOf(rec, content);
    Ok(Mapped(CallFor(rec, tokens), AuditOf(rec, content, tokens)))
  }

  lemma StepMaps(fits: Fits, cards: map<string, Rate>, st: State, rec: Record)
    ensures Step(fits, cards, st, rec).Ok? <==>
              && MapRecord(fits, cards, rec).Ok? && rec.callId !in st.calls
              && var ref := MapRecord(fits, cards, rec).value.audit.reference; ref.Some? ==> ref.value !in st.seen
    ensures Step(fits, cards, st, rec).Ok? ==>
              var m, next := MapRecord(fits, cards, rec).value, Step(fits, cards, st, rec).value;
              && next.calls == st.calls[rec.callId := m.call] && next.audits == st.audits[rec.callId := m.audit]
              && next.seen == st.seen + RefsOf(m)
  {
    hide Open, Kind, Usage;
  }

  function RefsOf(m: Mapped): set<string> {
    if m.audit.reference.Some? then {m.audit.reference.value} else {}
  }

  /** Every record maps; no call id and no response identity occurs twice. */
  ghost predicate Importable(fits: Fits, cards: map<string, Rate>, recs: seq<Record>, i: nat) {
    && (forall j :: i <= j < |recs| ==> MapRecord(fits, cards, recs[j]).Ok?)
    && (forall j, k :: i <= j < k < |recs| ==> recs[j].callId != recs[k].callId)
    && (forall j, k :: i <= j < k < |recs| ==>
          RefsOf(MapRecord(fits, cards, recs[j]).value) !! RefsOf(MapRecord(fits, cards, recs[k]).value))
  }

  ghost predicate Fresh(fits: Fits, cards: map<string, Rate>, recs: seq<Record>, i: nat, st: State)
    requires Importable(fits, cards, recs, i)
  {
    forall j :: i <= j < |recs| ==>
      recs[j].callId !in st.calls && RefsOf(MapRecord(fits, cards, recs[j]).value) !! st.seen
  }

  /** `end` holds what `st` held and one call for each record from `i` on. */
  ghost predicate Collects(fits: Fits, cards: map<string, Rate>, recs: seq<Record>, i: nat, st: State, end: State) {
    && end.calls.Keys == end.audits.Keys
    && (forall j :: i <= j < |recs| ==>
          && recs[j].callId in end.calls
          && MapRecord(fits, cards, recs[j]) == Ok(Mapped(end.calls[recs[j].callId], end.audits[recs[j].callId])))
    && (forall k :: k in st.calls ==>
        k in end.calls && k in st.audits && end.calls[k] == st.calls[k] && end.audits[k] == st.audits[k])
    && (forall k :: k in end.calls ==> k in st.calls || exists j :: i <= j < |recs| && recs[j].callId == k)
  }

  /** The import loop succeeds exactly on importable records. */
  lemma {:induction false} RunIff(fits: Fits, cards: map<string, Rate>, recs: seq<Record>, i: nat, st: State)
    requires i <= |recs| && st.calls.Keys == st.audits.Keys
    ensures Run(fits, cards, recs, i, st).Ok? <==> Importable(fits, cards, recs, i) && Fresh(fits, cards, recs, i, st)
    ensures Run(fits, cards, recs, i, st).Ok? ==>
              Collects(fits, cards, recs, i, st, Run(fits, cards, recs, i, st).value)
    decreases |recs| - i
  {
    hide Step, MapRecord, RefsOf, Importable, Fresh, Collects;
    if i < |recs| {
      Peel(fits, cards, recs, i, st);
      if Step(fits, cards, st, recs[i]).Ok? {
        var next := Step(fits, cards, st, recs[i]).value;
        StepMaps(fits, cards, st, recs[i]);
        RunIff(fits, cards, recs, i + 1, next);
        if Run(fits, cards, recs, i + 1, next).Ok? {
          CollectOne(fits, cards, recs, i, st, Run(fits, cards, recs, i + 1, next).value);
        }
      }
    } else {
      NothingLeft(fits, cards, recs, st);
    }
  }

  lemma NothingLeft(fits: Fits, cards: map<string, Rate>, recs: seq<Record>, st: State)
    requires st.calls.Keys == st.audits.Keys
    ensures Importable(fits, cards, recs, |recs|) && Fresh(fits, cards, recs, |recs|, st)
    ensures Collects(fits, cards, recs, |recs|, st, st)
  {
  }

  /** The first record is taken exactly when it maps and is new; the rest must then be new beside it. */
  lemma Peel(fits: Fits, cards: map<string, Rate>, recs: seq<Record>, i: nat, st: State)
    requires i < |recs|
    ensures Importable(fits, cards, recs, i) && Fresh(fits, cards, recs, i, st) <==>
              && Step(fits, cards, st, recs[i]).Ok? && Importable(fits, cards, recs, i + 1)
              && Fresh(fits, cards, recs, i + 1, Step(fits, cards, st, recs[i]).value)
  {
    hide Step, MapRecord, RefsOf;
    StepMaps(fits, cards, st, recs[i]);
    if MapRecord(fits, cards, recs[i]).Ok? {
      RefFresh(MapRecord(fits, cards, recs[i]).value, st.seen);
    }
  }

  lemma CollectOne(fits: Fits, cards: map<string, Rate>, recs: seq<Record>, i: nat, st: State, end: State)
    requires i < |recs| && Step(fits, cards, st, recs[i]).Ok? && st.calls.Keys == st.audits.Keys
    requires Collects(fits, cards, recs, i + 1, Step(fits, cards, st, recs[i]).value, end)
    ensures Collects(fits, cards, recs, i, st, end)
  {
    hide Step, MapRecord, RefsOf;
    StepMaps(fits, cards, st, recs[i]);
    var next, m, id := Step(fits, cards, st, recs[i]).value, MapRecord(fits, cards, recs[i]).value, recs[i].callId;
    assert id in next.calls && end.calls[id] == m.call && end.audits[id] == m.audit;
    forall k | k in st.calls
      ensures k in end.calls && k in st.audits && end.calls[k] == st.calls[k] && end.audits[k] == st.audits[k] {
      assert k in next.calls;
    }
  }

  lemma RefFresh(m: Mapped, seen: set<string>)
    ensures RefsOf(m) !! seen <==> (m.audit.reference.Some? ==> m.audit.reference.value !in seen)
  {
  }

  // ----- Normalized usage is always admissible -----

  lemma MappedWithinCap(fits: Fits, cards: map<string, Rate>, rec: Record)
    requires MapRecord(fits, cards, rec).Ok?
    ensures Tokens(MapRecord(fits, cards, rec).value.call.tokens).Ok?
  {
    hide Open, Kind, AnthropicUsage, OpenAiUsage;
    var u := Get(rec.response, "usage");
    if AnthropicUsage(u).Ok? {
      AnthropicWithinCap(u);
    }
    if OpenAiUsage(u, rec.format == RESPONSES_FORMAT).Ok? {
      OpenAiWithinCap(u, rec.format == RESPONSES_FORMAT);
    }
  }

  /** What remains to be checked of a call when the report is made: its own labels. */
  predicate GoodLabels(rec: Record) {
    && Id(rec.stage).Pass? && 1 <= rec.attempt <= 100 && rec.stage in STAGES && rec.outcome in OUTCOMES
  }

  /** Mapped usage never stops the cost report; only the record's own labels can. */
  lemma MappedReads(fits: Fits, cards: map<string, Rate>, rec: Record)
    requires MapRecord(fits, cards, rec).Ok?
    ensures var c := MapRecord(fits, cards, rec).value.call;
            c.callId == rec.callId && (ReadCall(c).Ok? <==> GoodLabels(rec))
  {
    hide Kind, Usage, Reference, Id, Tokens, ReadCall, Heading;
    MappedWithinCap(fits, cards, rec);
    HeadingPasses(cards, rec);
    ReadsIff(MapRecord(fits, cards, rec).value.call);
  }

  lemma HeadingPasses(cards: map<string, Rate>, rec: Record)
    requires Heading(cards, rec).Ok?
    ensures Id(rec.callId).Pass? && Id(rec.rateId).Pass? && Id(rec.outcome).Pass?
  {
    hide Id;
  }

  lemma ReadsIff(c: CallInput)
    requires Tokens(c.tokens).Ok? && Id(c.callId).Pass? && Id(c.rateId).Pass? && Id(c.outcome).Pass?
    ensures ReadCall(c).Ok? <==>
              Id(c.stage).Pass? && 1 <= c.attempt <= 100 && c.stage in STAGES && c.outcome in OUTCOMES
  {
    hide Id, Tokens;
  }

  // ----- The cost input an import produces -----

  /** Calls keyed by their own id, each fit to be read. */
  ghost predicate Readies(calls: map<string, CallInput>) {
    forall k :: k in calls ==> calls[k].callId == k && ReadCall(calls[k]).Ok?
  }

  ghost function LedgerOf(cards: Ledger, calls: map<string, CallInput>): Ledger
    requires Readies(calls)
  {
    Ledger(cards.currency, cards.rates, map k | k in calls :: ReadCall(calls[k]).value)
  }

  lemma CallTextBack(c: CallInput)
    requires ReadCall(c).Ok?
    ensures CallText(c.callId, ReadCall(c).value) == c
  {
    hide Id;
  }

  lemma InOrderAt<T>(m: map<string, T>, i: nat)
    requires i < |m|
    ensures Sorted(m.Keys)[i] in m && InOrder(m)[i] == m[Sorted(m.Keys)[i]]
  {
    hide Sorted;
    SortedMembers(m.Keys);
  }

  lemma NormalRates(cards: Ledger, calls: map<string, CallInput>)
    requires WellFormed(cards)
    ensures ReadRates(Normal(cards, calls).rates) == Ok(cards.rates) && |Normal(cards, calls).rates| == |cards.rates|
  {
    CanonicalRates(cards);
    CanonicalAt(cards);
    hide Canonical, InOrder, RateText, CallText, ReadRates;
  }

  lemma NormalCalls(cards: Ledger, calls: map<string, CallInput>)
    requires Readies(calls)
    ensures ReadCalls(InOrder(calls)) == Ok(LedgerOf(cards, calls).calls)
  {
    hide ReadCall, ReadAll, Sorted, InOrder;
    var m, cs, ks := LedgerOf(cards, calls).calls, InOrder(calls), Sorted(calls.Keys);
    assert m.Keys == calls.Keys;
    assert |m| == |m.Keys|;
    forall j | 0 <= j < |cs| ensures ks[j] in m && ReadCall(cs[j]) == Ok(m[ks[j]]) && CallKey(cs[j]) == ks[j] {
      InOrderAt(calls, j);
    }
    ReadsBack(m, cs, CallKey, ReadCall, "cost_duplicate_call");
  }

  lemma NormalIsCanonical(cards: Ledger, calls: map<string, CallInput>)
    requires Readies(calls)
    ensures Canonical(LedgerOf(cards, calls)) == Normal(cards, calls)
  {
    hide ReadCall, Sorted, InOrder, RateText, CallText, Canonical, LedgerOf;
    CanonicalCallsAre(cards, calls);
    CanonicalRatesAre(cards, calls);
    CanonicalHead(LedgerOf(cards, calls));
    LedgerRates(cards, calls);
  }

  lemma CanonicalCallsAre(cards: Ledger, calls: map<string, CallInput>)
    requires Readies(calls)
    ensures Canonical(LedgerOf(cards, calls)).calls == InOrder(calls)
  {
    hide ReadCall, Sorted, InOrder, RateText, CallText, Canonical;
    var l, cs := LedgerOf(cards, calls), InOrder(calls);
    assert l.calls.Keys == calls.Keys && |l.calls| == |l.calls.Keys| == |calls|;
    CanonicalAt(l);
    forall j | 0 <= j < |cs| ensures Canonical(l).calls[j] == cs[j] {
      InOrderAt(calls, j);
      CallTextBack(cs[j]);
    }
  }

  lemma CanonicalRatesAre(cards: Ledger, calls: map<string, CallInput>)
    requires Readies(calls)
    ensures Canonical(LedgerOf(cards, calls)).rates == Canonical(cards).rates
  {
    hide Sorted, RateText, CallText;
  }

  /** The produced input reads as the imported calls, and is already in canonical form. */
  lemma NormalReads(cards: Ledger, calls: map<string, CallInput>)
    requires WellFormed(cards) && Readies(calls) && |calls| <= CALL_LIMIT
    ensures ReadLedger(Normal(cards, calls)) == Ok(LedgerOf(cards, calls))
    ensures Canonical(LedgerOf(cards, calls)) == Normal(cards, calls)
  {
    hide ReadRates, ReadCalls, ReadLedger, Canonical, Readies, InOrder, GoodRate, GoodCall, Currency;
    NormalRates(cards, calls);
    NormalCalls(cards, calls);
    NormalIsCanonical(cards, calls);
    LedgerRates(cards, calls);
    hide LedgerOf;
    ReadsWhole(Normal(cards, calls), LedgerOf(cards, calls));
  }

  lemma {:induction false} CallCount(fits: Fits, cards: map<string, Rate>, recs: seq<Record>, i: nat, st: State)
    requires i <= |recs| && Run(fits, cards, recs, i, st).Ok?
    ensures |Run(fits, cards, recs, i, st).value.calls| == |st.calls| + |recs| - i
    decreases |recs| - i
  {
    hide Open, TokensOf, AuditOf;
    if i < |recs| {
      CallCount(fits, cards, recs, i + 1, Step(fits, cards, st, recs[i]).value);
    }
  }

  ghost predicate AllGood(recs: seq<Record>) { forall j :: 0 <= j < |recs| ==> GoodLabels(recs[j]) }

  lemma CollectedReady(fits: Fits, cards: map<string, Rate>, recs: seq<Record>, end: State)
    requires Collects(fits, cards, recs, 0, START, end)
    ensures Readies(end.calls) <==> AllGood(recs)
    ensures !AllGood(recs) ==> ReadCalls(InOrder(end.calls)).Err?
  {
    hide MapRecord, ReadCall, GoodLabels, InOrder, ReadAll, Sorted;
    forall j | 0 <= j < |recs|
      ensures recs[j].callId in end.calls
      ensures end.calls[recs[j].callId].callId == recs[j].callId
      ensures ReadCall(end.calls[recs[j].callId]).Ok? <==> GoodLabels(recs[j])
    {
      MappedReads(fits, cards, recs[j]);
    }
    if !AllGood(recs) {
      var j :| 0 <= j < |recs| && !GoodLabels(recs[j]);
      SortedMembers(end.calls.Keys);
      var i :| 0 <= i < |end.calls| && Sorted(end.calls.Keys)[i] == recs[j].callId;
      InOrderAt(end.calls, i);
      var cs := InOrder(end.calls);
      ReadAllIs(cs, CallKey, ReadCall, "cost_duplicate_call", 0, map[]);
      assert !ReadCall(cs[i]).Ok?;
    }
  }

  lemma BareReads(currency: string, rates: seq<RateInput>)
    requires ReadLedger(Bare(currency, rates)).Ok?
    ensures var cards := ReadLedger(Bare(currency, rates)).value;
            WellFormed(cards) && cards.calls == map[] && cards.currency == currency &&
            ReadRates(rates) == Ok(cards.rates)
  {
    hide ReadRates, Currency, WellFormed, ReadCall;
    ReadIsWellFormed(Bare(currency, rates));
    NoCalls();
  }

  lemma NoCalls()
    ensures ReadCalls([]) == Ok(map[])
  {
  }

  /** The mapped calls in record order. */
  function CallsOf(fits: Fits, cards: map<string, Rate>, recs: seq<Record>): seq<CallInput>
    requires forall j | 0 <= j < |recs| :: MapRecord(fits, cards, recs[j]).Ok?
  {
    seq(|recs|, j requires 0 <= j < |recs| => MapRecord(fits, cards, recs[j]).value.call)
  }

  /** The cost input with the mapped calls as they came. */
  function Arrived(fits: Fits, cards: Ledger, recs: seq<Record>): CostInput
    requires forall j | 0 <= j < |recs| :: MapRecord(fits, cards.rates, recs[j]).Ok?
  {
    CostInput(SCHEMA, cards.currency, Canonical(cards).rates, CallsOf(fits, cards.rates, recs))
  }

  lemma CallsMap(fits: Fits, cards: map<string, Rate>, recs: seq<Record>, end: State)
    requires Importable(fits, cards, recs, 0) && Collects(fits, cards, recs, 0, START, end)
    ensures var cs := CallsOf(fits, cards, recs);
            && |cs| == |recs|
            && (forall j :: 0 <= j < |cs| ==>
                  recs[j].callId in end.calls && cs[j] == end.calls[recs[j].callId])
            && (forall k :: k in end.calls ==> exists j :: 0 <= j < |cs| && recs[j].callId == k)
  {
    hide MapRecord, RefsOf;
  }

  lemma ReadArrivedCalls(fits: Fits, cards: Ledger, recs: seq<Record>, end: State)
    requires Importable(fits, cards.rates, recs, 0) && Collects(fits, cards.rates, recs, 0, START, end)
    requires Readies(end.calls)
    ensures ReadCalls(CallsOf(fits, cards.rates, recs)) == Ok(LedgerOf(cards, end.calls).calls)
  {
    hide MapRecord, ReadCall, ReadAll, CallsOf, Collects, RefsOf;
    var cs, m := CallsOf(fits, cards.rates, recs), LedgerOf(cards, end.calls).calls;
    CallsMap(fits, cards.rates, recs, end);
    assert forall j :: 0 <= j < |cs| ==> CallKey(cs[j]) == recs[j].callId;
    forall k | k in m ensures exists j :: 0 <= j < |cs| && CallKey(cs[j]) == k {
      var j :| 0 <= j < |cs| && recs[j].callId == k;
      assert CallKey(cs[j]) == k;
    }
    ReadsAs(cs, CallKey, ReadCall, "cost_duplicate_call", m);
  }

  /** Sorting the calls by id changes nothing: both inputs read as the same ledger. */
  lemma ArrivedReads(fits: Fits, cards: Ledger, recs: seq<Record>, end: State)
    requires WellFormed(cards) && |recs| <= RECORD_LIMIT && Readies(end.calls)
    requires Importable(fits, cards.rates, recs, 0) && Collects(fits, cards.rates, recs, 0, START, end)
    ensures ReadLedger(Arrived(fits, cards, recs)) == Ok(LedgerOf(cards, end.calls))
  {
    hide MapRecord, ReadRates, ReadCalls, Canonical, Currency, InOrder, Collects, Readies, RefsOf, GoodRate;
    hide GoodCall, ReadLedger;
    ReadArrivedCalls(fits, cards, recs, end);
    NormalRates(cards, end.calls);
    ReadsWhole(Arrived(fits, cards, recs), LedgerOf(cards, end.calls));
  }

  /** Every record maps, no id or identity repeats, and each record's labels are admissible. */
  ghost predicate Acceptable(fits: Fits, cards: map<string, Rate>, recs: seq<Record>) {
    Importable(fits, cards, recs, 0) && AllGood(recs)
  }

  lemma AcceptableRuns(fits: Fits, cards: Ledger, recs: seq<Record>)
    requires WellFormed(cards) && |recs| <= RECORD_LIMIT && Acceptable(fits, cards.rates, recs)
    ensures var run := Run(fits, cards.rates, recs, 0, START);
            && run.Ok? && Readies(run.value.calls)
            && ReadLedger(Normal(cards, run.value.calls)) == ReadLedger(Arrived(fits, cards, recs))
                 == Ok(LedgerOf(cards, run.value.calls))
            && Canonical(LedgerOf(cards, run.value.calls)) == Normal(cards, run.value.calls)
  {
    hide ReadLedger, MapRecord, Normal, LedgerOf, Importable, AllGood, Readies, WellFormed, Arrived, Canonical;
    RunIff(fits, cards.rates, recs, 0, START);
    StartFresh(fits, cards.rates, recs);
    var run := Run(fits, cards.rates, recs, 0, START);
    CollectedReady(fits, cards.rates, recs, run.value);
    CallCount(fits, cards.rates, recs, 0, START);
    NormalReads(cards, run.value.calls);
    ArrivedReads(fits, cards, recs, run.value);
  }

  lemma RejectedFails(fits: Fits, cards: Ledger, recs: seq<Record>)
    requires !Acceptable(fits, cards.rates, recs)
    ensures var run := Run(fits, cards.rates, recs, 0, START);
            run.Ok? ==> ReadLedger(Normal(cards, run.value.calls)).Err?
  {
    hide ReadLedger, MapRecord, Normal, Importable, AllGood, Readies;
    RunIff(fits, cards.rates, recs, 0, START);
    var run := Run(fits, cards.rates, recs, 0, START);
    if run.Ok? {
      CollectedReady(fits, cards.rates, recs, run.value);
      NormalShape(cards, run.value.calls);
    }
  }

  /** The import succeeds exactly when every record maps, no call id and no response
      identity repeats, each record's own labels are admissible and the exact total of
      the mapped calls fits; with everything else in order an overflow is the only
      failure.  Usage never stops the cost report.  What the import yields reads as the
      mapped records and is already canonical: the report is bound to that very input. */
  lemma ImportIff(fits: Fits, currency: string, rates: seq<RateInput>, recs: seq<Record>)
    requires ReadLedger(Bare(currency, rates)).Ok? && |recs| <= RECORD_LIMIT
    ensures var cards := ReadLedger(Bare(currency, rates)).value;
            var out := Conclude(fits, currency, rates, recs);
            && (out.Ok? <==> Acceptable(fits, cards.rates, recs)
                             && ExactCost(CallsOf(fits, cards.rates, recs), cards.rates) <= U64_MAX)
            && (Acceptable(fits, cards.rates, recs) && out.Err? ==> out == Err("cost_overflow"))
            && (out.Ok? ==> && ReadLedger(out.value.costInput) == ReadLedger(Arrived(fits, cards, recs))
                            && out.value.report.canonical == out.value.costInput)
  {
    hide ReadLedger, MapRecord, Normal, LedgerOf, Price, ExactCost, AllGood, Readies, WellFormed, Run, Canonical;
    hide CallsOf, RefsOf;
    var cards := ReadLedger(Bare(currency, rates)).value;
    BareReads(currency, rates);
    if Acceptable(fits, cards.rates, recs) {
      AcceptableRuns(fits, cards, recs);
      var calls := Run(fits, cards.rates, recs, 0, START).value.calls;
      OverflowIsExact(Arrived(fits, cards, recs));
      PricedCanonical(LedgerOf(cards, calls));
      LedgerRates(cards, calls);
    } else {
      RejectedFails(fits, cards, recs);
    }
  }

  lemma LedgerRates(cards: Ledger, calls: map<string, CallInput>)
    requires Readies(calls)
    ensures LedgerOf(cards, calls).rates == cards.rates && LedgerOf(cards, calls).currency == cards.currency
  {
  }

  lemma PricedCanonical(l: Ledger)
    ensures Price(l).Ok? ==> Price(l).value.canonical == Canonical(l)
  {
    hide Canonical, Groups, ClassTotals, Print, Rows;
  }

  lemma NormalShape(cards: Ledger, calls: map<string, CallInput>)
    ensures Normal(cards, calls).calls == InOrder(calls)
    ensures ReadCalls(InOrder(calls)).Err? ==> ReadLedger(Normal(cards, calls)).Err?
  {
    hide Canonical, InOrder, ReadCalls, ReadRates, Currency;
  }

  lemma StartFresh(fits: Fits, cards: map<string, Rate>, recs: seq<Record>)
    ensures Importable(fits, cards, recs, 0) ==> Fresh(fits, cards, recs, 0, START)
  {
    hide MapRecord;
  }
}
