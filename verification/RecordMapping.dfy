/** What importing a response comes to, told over the record alone: when it maps, and
    which tokens, labels and identity its call then carries. */
module RecordMapping {
  import opened Wrappers
  import opened Json
  import opened ProviderUsage
  import opened StreamFields
  import opened Ordered
  import opened TokenCost
  import opened CostReports
  import opened UsageImport

  function Vendor(format: string): string { if format == "anthropic_messages" then "anthropic" else "openai" }

  predicate Labelled(cards: map<string, Rate>, rec: Record) {
    && Id(rec.callId).Pass? && Id(rec.rateId).Pass? && Id(rec.outcome).Pass?
    && rec.format in {"openai_chat", "openai_responses", "anthropic_messages"}
    && (rec.rateId in cards ==> cards[rec.rateId].provider == Vendor(rec.format))
  }

  /** A failed call without a response. */
  predicate Unanswered(rec: Record) { rec.response.Null? && rec.outcome != "success" }

  /** A failed call with an error response, which has no usage. */
  predicate Refused(fits: Fits, rec: Record) {
    && rec.response.Obj? && fits(rec.response) && rec.outcome != "success"
    && Get(rec.response, "error").Obj? && Get(rec.response, "usage").Null?
    && !Has(rec.response, "object") && Get(rec.response, "type") != Str("message")
  }

  predicate ShortText(j: Json, max: nat) { j.Str? && 0 < |j.s| <= max }

  predicate Printable(s: string) { forall c | c in s :: 33 as char <= c <= 126 as char }

  predicate SomeText(j: Json) { j.Str? && j.s != "" }

  /** The response is a whole answer of the record's kind. */
  predicate Ended(rec: Record) {
    var r := rec.response;
    match rec.format
    case "anthropic_messages" =>
      Get(r, "type") == Str("message") && Get(r, "role") == Str("assistant") && SomeText(Get(r, "stop_reason"))
    case "openai_responses" =>
      && Get(r, "object") == Str("response")
      && Get(r, "status") in {Str("completed"), Str("failed"), Str("incomplete"), Str("cancelled")}
      && (rec.outcome == "success" ==> Get(r, "status") == Str("completed"))
    case _ =>
      && Get(r, "object") == Str("chat.completion") && Get(r, "choices").Arr? && Get(r, "choices").items != []
      && forall c | c in Get(r, "choices").items :: SomeText(Get(c, "finish_reason"))
  }

  /** The normalized usage of a response that reports some. */
  function Spent(rec: Record): Result<Values> {
    match rec.format
    case "anthropic_messages" => AnthropicUsage(Get(rec.response, "usage"))
    case "openai_responses" => OpenAiUsage(Get(rec.response, "usage"), true)
    case _ => OpenAiUsage(Get(rec.response, "usage"), false)
  }

  /** A response with an identity, at its end, whose usage is missing or reads. */
  predicate Answered(fits: Fits, cards: map<string, Rate>, rec: Record) {
    var r := rec.response;
    && r.Obj? && fits(r)
    && (Get(r, "error").Null? || Has(r, "object") || Get(r, "type") == Str("message"))
    && ShortText(Get(r, "model"), 256)
    && (rec.rateId in cards ==> Get(r, "model") == Str(cards[rec.rateId].model))
    && ShortText(Get(r, "id"), 256) && Printable(Get(r, "id").s)
    && Ended(rec) && (Get(r, "usage").Null? || Spent(rec).Ok?)
  }

  lemma HeadingIs(cards: map<string, Rate>, rec: Record)
    ensures Heading(cards, rec).Ok? <==> Labelled(cards, rec)
  {
    KnownFormats();
    hide Id;
  }

  lemma KnownFormats()
    ensures forall f | f in {"openai_chat", "openai_responses", "anthropic_messages"} :: Id(f).Pass?
  {
    assert IdChar('_');
  }

  lemma ReferenceIs(cards: map<string, Rate>, rec: Record)
    ensures Reference(cards, rec).Ok? <==>
              && ShortText(Get(rec.response, "model"), 256)
              && (rec.rateId in cards ==> Get(rec.response, "model") == Str(cards[rec.rateId].model))
              && ShortText(Get(rec.response, "id"), 256) && Printable(Get(rec.response, "id").s)
    ensures Reference(cards, rec).Ok? ==>
              Reference(cards, rec).value == Vendor(rec.format) + "/" + Get(rec.response, "id").s
  {
  }

  lemma KindIs(rec: Record)
    requires rec.format in FORMATS
    ensures Kind(rec).Ok? <==> Ended(rec)
  {
  }

  lemma UsageIs(rec: Record)
    requires rec.format in FORMATS
    ensures Get(rec.response, "usage").Null? ==> Usage(rec) == Ok(Quad(None, None, None, None))
    ensures !Get(rec.response, "usage").Null? ==> Usage(rec) == Spent(rec)
  {
    hide AnthropicUsage, OpenAiUsage;
  }

  /** A record maps exactly when its labels are in order and it is unanswered, refused
      or answered. */
  lemma MapsIff(fits: Fits, cards: map<string, Rate>, rec: Record)
    ensures MapRecord(fits, cards, rec).Ok? <==>
              Labelled(cards, rec) && (Unanswered(rec) || Refused(fits, rec) || Answered(fits, cards, rec))
  {
    hide Heading, Labelled, Reference, Kind, Ended, Usage, Spent, CallFor, AuditOf, ShortText, Printable;
    HeadingIs(cards, rec);
    ReferenceIs(cards, rec);
    LabelledFormat(cards, rec);
    if Labelled(cards, rec) {
      KindIs(rec);
      UsageIs(rec);
    }
  }

  lemma LabelledFormat(cards: map<string, Rate>, rec: Record)
    ensures Labelled(cards, rec) ==> rec.format in FORMATS
  {
    hide Id;
  }

  predicate AllKnown(tokens: Quad<Option<int>>) {
    tokens.uncached.Some? && tokens.cacheRead.Some? && tokens.cacheWrite.Some? && tokens.output.Some?
  }

  /** The call of a record: its labels and, bucket by bucket, the tokens its usage comes
      to; without a usage every bucket is unknown. */
  function CallOf(rec: Record): CallInput {
    var spent := if Get(rec.response, "usage").Null? then Ok(Quad(None, None, None, None)) else Spent(rec);
    CallInput(rec.callId, rec.stage, rec.rateId, rec.attempt, rec.outcome,
              if spent.Ok? then spent.value else Quad(None, None, None, None))
  }

  /** Only an answer has an identity, and only known tokens are complete. */
  function AuditFor(rec: Record, answered: bool): Audit {
    var id := Get(rec.response, "id");
    Audit(rec.format, Vendor(rec.format),
          if answered && id.Str? then Some(Vendor(rec.format) + "/" + id.s) else None, AllKnown(CallOf(rec).tokens))
  }

  lemma MapsTo(fits: Fits, cards: map<string, Rate>, rec: Record)
    requires MapRecord(fits, cards, rec).Ok?
    ensures MapRecord(fits, cards, rec) == Ok(Mapped(CallOf(rec), AuditFor(rec, Answered(fits, cards, rec))))
    ensures !Get(rec.response, "usage").Null? ==> Spent(rec).Ok?
    ensures Answered(fits, cards, rec) ==> Get(rec.response, "id").Str?
  {
    hide Heading, Labelled, Reference, Kind, Ended, Usage, Spent, Printable;
    MapsIff(fits, cards, rec);
    HeadingIs(cards, rec);
    ReferenceIs(cards, rec);
    LabelledFormat(cards, rec);
    KindIs(rec);
    UsageIs(rec);
    hide ShortText;
  }

  // ----- Whole imports -----

  /** What an import yields: one call and one audit for each record, in call-id order,
      and complete exactly when every bucket of every call is known. */
  lemma ImportHolds(fits: Fits, currency: string, rates: seq<RateInput>, recs: seq<Record>)
    requires Conclude(fits, currency, rates, recs).Ok?
    ensures ReadLedger(Bare(currency, rates)).Ok?
    ensures var cards, out := ReadLedger(Bare(currency, rates)).value, Conclude(fits, currency, rates, recs).value;
            var calls, audits := out.costInput.calls, out.audits;
            && |calls| == |audits| == |recs|
            && (forall j :: 0 <= j < |calls| ==> FromRecord(fits, cards.rates, recs, calls[j], audits[j]))
            && (forall i, j :: 0 <= i < j < |calls| ==>
                  Below(calls[i].callId, calls[j].callId) && calls[i].callId != calls[j].callId)
            && (out.complete <==> forall j :: 0 <= j < |calls| ==> AllKnown(calls[j].tokens))
  {
    hide ReadLedger, ReportOf, MapRecord, Run, Canonical, InOrder, Sorted, Below, AllKnown, FromRecord, AllComplete;
    hide Collects;
    var cards := ReadLedger(Bare(currency, rates)).value;
    var end := Run(fits, cards.rates, recs, 0, START).value;
    RunIff(fits, cards.rates, recs, 0, START);
    CallCount(fits, cards.rates, recs, 0, START);
    CollectedKeys(fits, cards.rates, recs, end);
    SameCount(end.calls, end.audits);
    var calls, ks := InOrder(end.calls), Sorted(end.calls.Keys);
    forall j | 0 <= j < |calls|
      ensures FromRecord(fits, cards.rates, recs, calls[j], InOrder(end.audits)[j]) && calls[j].callId == ks[j]
    {
      CollectedAt(fits, cards.rates, recs, end, j);
    }
    forall i, j | 0 <= i < j < |calls| ensures Below(ks[i], ks[j]) && ks[i] != ks[j] {
      SortedOrder(end.calls.Keys, i, j);
    }
    CompleteIs(fits, cards.rates, recs, end);
  }

  lemma CollectedKeys(fits: Fits, cards: map<string, Rate>, recs: seq<Record>, end: State)
    requires Collects(fits, cards, recs, 0, START, end)
    ensures end.calls.Keys == end.audits.Keys
  {
  }

  lemma CollectedAt(fits: Fits, cards: map<string, Rate>, recs: seq<Record>, end: State, j: nat)
    requires Collects(fits, cards, recs, 0, START, end) && j < |end.calls| == |end.audits|
    ensures var k := Sorted(end.calls.Keys)[j];
            && k in end.calls && k in end.audits && InOrder(end.calls)[j] == end.calls[k]
            && InOrder(end.audits)[j] == end.audits[k] && end.calls[k].callId == k
            && FromRecord(fits, cards, recs, end.calls[k], end.audits[k])
            && (end.audits[k].complete <==> AllKnown(end.calls[k].tokens))
  {
    hide MapRecord, InOrder, Sorted;
    InOrderAt(end.calls, j);
    InOrderAt(end.audits, j);
    var k := Sorted(end.calls.Keys)[j];
    var i :| 0 <= i < |recs| && recs[i].callId == k;
    MapsTo(fits, cards, recs[i]);
  }

  lemma CompleteIs(fits: Fits, cards: map<string, Rate>, recs: seq<Record>, end: State)
    requires Collects(fits, cards, recs, 0, START, end) && |end.calls| == |end.audits|
    ensures AllComplete(end.audits) <==> forall j :: 0 <= j < |end.calls| ==> AllKnown(InOrder(end.calls)[j].tokens)
  {
    CollectedKeys(fits, cards, recs, end);
    hide MapRecord, InOrder, Sorted, AllKnown, FromRecord, Collects;
    var calls, ks := InOrder(end.calls), Sorted(end.calls.Keys);
    forall j | 0 <= j < |calls|
      ensures ks[j] in end.audits && (end.audits[ks[j]].complete <==> AllKnown(calls[j].tokens)) {
      CollectedAt(fits, cards, recs, end, j);
    }
    if k :| k in end.audits && !end.audits[k].complete {
      var j := IndexOf(end.calls, k);
      assert !AllKnown(calls[j].tokens);
    }
  }

  lemma IndexOf<T>(m: map<string, T>, k: string) returns (j: nat)
    requires k in m
    ensures j < |m| && |Sorted(m.Keys)| == |m| && Sorted(m.Keys)[j] == k
  {
    hide Sorted;
    SortedMembers(m.Keys);
    j :| 0 <= j < |Sorted(m.Keys)| && Sorted(m.Keys)[j] == k;
    assert |m| == |m.Keys|;
  }

  predicate LabelsFit(rec: Record) {
    && rec.stage in {"main", "embedding", "summary", "extraction", "rerank", "other"}
    && rec.outcome in {"success", "failure", "unknown"} && 1 <= rec.attempt <= 100
  }

  /** Every record maps under labels that fit; no call id and no response occurs twice. */
  ghost predicate Takes(fits: Fits, cards: map<string, Rate>, recs: seq<Record>) {
    && (forall j :: 0 <= j < |recs| ==>
          && Labelled(cards, recs[j]) && LabelsFit(recs[j])
          && (Unanswered(recs[j]) || Refused(fits, recs[j]) || Answered(fits, cards, recs[j])))
    && (forall j, k :: 0 <= j < k < |recs| ==> recs[j].callId != recs[k].callId)
    && (forall j, k :: 0 <= j < k < |recs| ==> !SameAnswer(fits, cards, recs[j], recs[k]))
  }

  /** Two answers of one provider under one id. */
  predicate SameAnswer(fits: Fits, cards: map<string, Rate>, a: Record, b: Record) {
    && Answered(fits, cards, a) && Answered(fits, cards, b)
    && Vendor(a.format) == Vendor(b.format) && Get(a.response, "id") == Get(b.response, "id")
  }

  function CallsFrom(recs: seq<Record>): seq<CallInput> {
    seq(|recs|, j requires 0 <= j < |recs| => CallOf(recs[j]))
  }

  lemma VendorsDiffer(a: Record, b: Record, id: string, id': string)
    ensures Vendor(a.format) + "/" + id == Vendor(b.format) + "/" + id'
            <==> Vendor(a.format) == Vendor(b.format) && id == id'
  {
    var p, q := Vendor(a.format) + "/", Vendor(b.format) + "/";
    assert (p + id)[0] == p[0] && (q + id')[0] == q[0];
    assert (p + id)[|p|..] == id && (q + id')[|q|..] == id';
  }

  lemma RefsMeet(fits: Fits, cards: map<string, Rate>, a: Record, b: Record)
    requires MapRecord(fits, cards, a).Ok? && MapRecord(fits, cards, b).Ok?
    ensures RefsOf(MapRecord(fits, cards, a).value) !! RefsOf(MapRecord(fits, cards, b).value)
            <==> !SameAnswer(fits, cards, a, b)
  {
    MapsTo(fits, cards, a);
    MapsTo(fits, cards, b);
    hide MapRecord, Answered, CallOf, AllKnown, Vendor;
    var x, y := AuditFor(a, Answered(fits, cards, a)).reference, AuditFor(b, Answered(fits, cards, b)).reference;
    var m, n := MapRecord(fits, cards, a).value, MapRecord(fits, cards, b).value;
    if x.Some? && y.Some? {
      VendorsDiffer(a, b, Get(a.response, "id").s, Get(b.response, "id").s);
      assert x.value in RefsOf(m) && y.value in RefsOf(n);
    }
  }

  lemma LabelsAre(rec: Record)
    ensures GoodLabels(rec) <==> LabelsFit(rec)
  {
    LabelsAreNames();
    hide Id;
  }

  lemma TakesIff(fits: Fits, cards: map<string, Rate>, recs: seq<Record>)
    ensures Acceptable(fits, cards, recs) <==> Takes(fits, cards, recs)
    ensures Takes(fits, cards, recs) ==>
              (forall j :: 0 <= j < |recs| ==> MapRecord(fits, cards, recs[j]).Ok?)
              && CallsOf(fits, cards, recs) == CallsFrom(recs)
  {
    hide MapRecord, Labelled, LabelsFit, GoodLabels, Unanswered, Refused, Answered, SameAnswer, RefsOf, CallOf;
    hide AuditFor;
    forall rec
      ensures MapRecord(fits, cards, rec).Ok? <==>
                Labelled(cards, rec) && (Unanswered(rec) || Refused(fits, rec) || Answered(fits, cards, rec))
      ensures GoodLabels(rec) <==> LabelsFit(rec)
    {
      MapsIff(fits, cards, rec);
      LabelsAre(rec);
    }
    if forall j :: 0 <= j < |recs| ==> MapRecord(fits, cards, recs[j]).Ok? {
      forall j, k | 0 <= j < k < |recs|
        ensures RefsOf(MapRecord(fits, cards, recs[j]).value) !! RefsOf(MapRecord(fits, cards, recs[k]).value)
                <==> !SameAnswer(fits, cards, recs[j], recs[k])
      {
        RefsMeet(fits, cards, recs[j], recs[k]);
      }
      forall j | 0 <= j < |recs| ensures CallsOf(fits, cards, recs)[j] == CallsFrom(recs)[j] {
        MapsTo(fits, cards, recs[j]);
      }
    }
  }

  /** An import succeeds exactly on at most 128 records that it takes, with cards that
      read, when the exact cost of their calls fits in 64 bits. */
  lemma ImportedIff(fits: Fits, input: ImportInput)
    ensures Import(fits, input).Ok? <==>
              && input.schema == "qbrain-usage-import-v1" && |input.records| <= 128
              && ReadLedger(CostInput("qbrain-cost-input-v1", input.currency, input.rates, [])).Ok?
              && var cards := ReadLedger(Bare(input.currency, input.rates)).value.rates;
              && Takes(fits, cards, input.records)
              && ExactCost(CallsFrom(input.records), cards) <= 18_446_744_073_709_551_615
  {
    hide ReadLedger, Conclude, Takes, ExactCost, CallsFrom, CallsOf, Acceptable;
    if ReadLedger(Bare(input.currency, input.rates)).Ok? && |input.records| <= 128 {
      var cards := ReadLedger(Bare(input.currency, input.rates)).value.rates;
      ImportIff(fits, input.currency, input.rates, input.records);
      TakesIff(fits, cards, input.records);
    } else {
      CardsFirst(fits, input);
    }
  }

  lemma CardsFirst(fits: Fits, input: ImportInput)
    ensures ReadLedger(Bare(input.currency, input.rates)).Err? ==> Import(fits, input).Err?
  {
    hide ReadLedger, Run, ReportOf;
  }

  lemma SameCount<S, T>(a: map<string, S>, b: map<string, T>)
    requires a.Keys == b.Keys
    ensures |a| == |b|
  {
    assert |a| == |a.Keys| && |b| == |b.Keys|;
  }

  ghost predicate FromRecord(fits: Fits, cards: map<string, Rate>, recs: seq<Record>, call: CallInput, audit: Audit) {
    exists i :: 0 <= i < |recs| && MapRecord(fits, cards, recs[i]) == Ok(Mapped(call, audit))
  }
}
