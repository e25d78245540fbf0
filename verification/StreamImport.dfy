/** Import of recorded streams: each stream is replayed to one response, and the
    responses are imported like any others.  JSON text parsing, UTF-8 validity and
    the size of a response's text are parameters. */
module StreamImport {
  import opened Wrappers
  import opened Json
  import opened ProviderUsage
  import opened StreamFields
  import opened Decimals
  import opened TokenCost
  import opened CostReports
  import opened UsageImport
  import Sse
  import Mapping = RecordMapping
  import opened UsageHistory
  import Chat = ChatReplay
  import Responses = ResponsesReplay
  import Anthropic = AnthropicReplay

  datatype StreamRecord = StreamRecord(callId: string, stage: string, rateId: string, attempt: int, outcome: string,
                                       format: string, stream: string)

  datatype StreamInput = StreamInput(schema: string, currency: string, rates: seq<RateInput>,
                                     records: seq<StreamRecord>)

  const STREAM_SCHEMA := "qbrain-stream-import-v1"
  const STREAM_LIMIT: nat := 32

  /** What reading a stream depends on. */
  datatype Readers = Readers(parse: Parse, utf8: string -> bool)

  function Replay(parse: Parse, format: string, events: seq<Sse.Event>): Result<Json> {
    if format == CHAT_FORMAT then
      var st :- Chat.Chat(parse, events);
      Ok(Chat.Response(st))
    else if format == RESPONSES_FORMAT then
      var st :- Responses.Responses(parse, events);
      Ok(Responses.Response(st))
    else if format == ANTHROPIC_FORMAT then
      var st :- Anthropic.Anthropic(parse, events);
      Ok(Anthropic.Response(st))
    else Err("stream_format")
  }

  /** A stream record as a response record. */
  function Convert(readers: Readers, rec: StreamRecord): Result<Record> {
    var first := Id(rec.callId);
    :- first;
    :- Id(rec.format);
    var events :- Sse.Events(rec.stream, readers.utf8);
    var response :- Replay(readers.parse, rec.format, events);
    Ok(Record(rec.callId, rec.stage, rec.rateId, rec.attempt, rec.outcome, rec.format, response))
  }

  function ConvertAll(readers: Readers, recs: seq<StreamRecord>, i: nat, done: seq<Record>, seen: set<string>)
    : Result<seq<Record>>
    requires i <= |recs|
    decreases |recs| - i
  {
    if i == |recs| then Ok(done) else
    var rec :- Convert(readers, recs[i]);
    :- Need(recs[i].callId !in seen, "cost_duplicate_call");
    ConvertAll(readers, recs, i + 1, done + [rec], seen + {recs[i].callId})
  }

  ghost function ImportStreams(readers: Readers, fits: Fits, input: StreamInput): Result<Imported> {
    var known := input.schema == STREAM_SCHEMA;
    :- Need(known, "stream_schema");
    :- Need(|input.records| <= STREAM_LIMIT, "stream_record_count");
    var recs :- ConvertAll(readers, input.records, 0, [], {});
    Import(fits, ImportInput(IMPORT_SCHEMA, input.currency, input.rates, recs))
  }

  method ReplayStream(parse: Parse, format: string, events: seq<Sse.Event>) returns (r: Result<Json>)
    ensures r == Replay(parse, format, events)
  {
    hide Chat.Chat, Responses.Responses, Anthropic.Anthropic;
    if format == CHAT_FORMAT {
      var st :- Chat.ReplayChat(parse, events);
      r := Ok(Chat.Response(st));
    } else if format == RESPONSES_FORMAT {
      var st :- Responses.ReplayResponses(parse, events);
      r := Ok(Responses.Response(st));
    } else if format == ANTHROPIC_FORMAT {
      var st :- Anthropic.ReplayAnthropic(parse, events);
      r := Ok(Anthropic.Response(st));
    } else {
      r := Err("stream_format");
    }
  }

  /** The stream import: replay every record, then import the responses. */
  method ImportStreamReport(readers: Readers, fits: Fits, input: StreamInput) returns (r: Result<Imported>)
    ensures r == ImportStreams(readers, fits, input)
  {
    hide Replay, Import, Sse.Events, Id;
    :- Need(input.schema == STREAM_SCHEMA, "stream_schema");
    :- Need(|input.records| <= STREAM_LIMIT, "stream_record_count");
    var recs: seq<Record> := [];
    var seen: set<string> := {};
    for i := 0 to |input.records|
      invariant ConvertAll(readers, input.records, i, recs, seen) == ConvertAll(readers, input.records, 0, [], {})
    {
      var rec := input.records[i];
      :- Id(rec.callId);
      :- Id(rec.format);
      var events :- Sse.ParseEvents(rec.stream, readers.utf8);
      var response :- ReplayStream(readers.parse, rec.format, events);
      recs := recs + [Record(rec.callId, rec.stage, rec.rateId, rec.attempt, rec.outcome, rec.format, response)];
      :- Need(rec.callId !in seen, "cost_duplicate_call");
      seen := seen + {rec.callId};
    }
    r := ImportReport(fits, ImportInput(IMPORT_SCHEMA, input.currency, input.rates, recs));
  }

  // ----- What an accepted replay leaves behind -----

  predicate GoodIdentity(id: Identity) {
    OpaqueId(Str(id.response)) == Ok(id.response) && 0 < |id.model| <= 256
  }

  lemma ObservedIsGood(id: Identity, j: Json)
    requires ObserveIdentity(id, j).Ok?
    ensures GoodIdentity(ObserveIdentity(id, j).value)
  {
  }

  predicate ChatSane(st: Chat.State) {
    && (st.usage.Null? || OpenAiUsage(st.usage, false).Ok?)
    && (forall i | i in st.choices :: i < 32)
    && (st.choices != map[] ==> GoodIdentity(st.id))
    && (st.ended ==> st.choices != map[] && Chat.AllFinished(st.choices))
  }

  lemma {:induction false} ChoicesBelow(items: seq<Json>, i: nat, seen: set<nat>, choices: map<nat, string>)
    requires i <= |items| && Chat.Choices(items, i, seen, choices).Ok? && forall c | c in choices :: c < 32
    ensures forall c | c in Chat.Choices(items, i, seen, choices).value :: c < 32
    decreases |items| - i
  {
    hide Chat.ChoiceFinish;
    if i < |items| {
      var index, finish := Chat.ChoiceIndex(items[i]).value, Chat.ChoiceFinish(items[i]).value;
      ChoicesBelow(items, i + 1, seen + {index}, choices[index := finish]);
    }
  }

  lemma ChatStepSane(parse: Parse, st: Chat.State, e: Sse.Event)
    requires ChatSane(st) && Chat.Step(parse, st, e).Ok?
    ensures ChatSane(Chat.Step(parse, st, e).value)
  {
    hide OpenAiUsage, Chat.Choices, Chat.ChunkHead, ObserveIdentity, GoodIdentity, Decode, Chat.AllFinished;
    if e.data != Chat.DONE {
      var j := Decode(parse, e).value;
      ObservedIsGood(st.id, j);
      var items := Get(j, "choices");
      if items.items != [] {
        ChoicesBelow(items.items, 0, {}, st.choices);
      }
    }
  }

  lemma {:induction false} ChatRunSane(parse: Parse, stream: seq<Sse.Event>, k: nat, st: Chat.State)
    requires k <= |stream| && ChatSane(st) && Chat.Run(parse, stream, k, st).Ok?
    ensures ChatSane(Chat.Run(parse, stream, k, st).value)
    decreases |stream| - k
  {
    hide ChatSane, Chat.Step;
    if k < |stream| {
      ChatStepSane(parse, st, stream[k]);
      ChatRunSane(parse, stream, k + 1, Chat.Step(parse, st, stream[k]).value);
    }
  }

  lemma {:induction false} RowsFinished(choices: map<nat, string>, i: nat)
    requires i <= 32 && Chat.AllFinished(choices)
    ensures forall c | c in Chat.Rows(choices, i) :: Finished(c)
    ensures (exists n :: i <= n < 32 && n in choices) ==> Chat.Rows(choices, i) != []
    decreases 32 - i
  {
    if i < 32 {
      RowsFinished(choices, i + 1);
    }
  }

  predicate ResponsesSane(st: Responses.State) {
    && (st.next.Some? ==> GoodIdentity(st.id))
    && (st.ended ==> st.next.Some? && Str(st.final.status) in TERMINAL
                     && (st.final.usage.Null? || OpenAiUsage(st.final.usage, true).Ok?))
  }

  lemma StatusTerminal(kind: string, r: Json)
    requires Responses.Status(kind, r).Ok? && Responses.IsTerminal(kind)
    ensures Str(Responses.Status(kind, r).value) in TERMINAL
  {
    var status := Responses.Status(kind, r).value;
    assert kind[|"response."|..] == status;
  }

  lemma RecordedUsage(u: Json, b: Bounds)
    requires Responses.Record(u, b).Ok?
    ensures u.Null? || OpenAiUsage(u, true).Ok?
  {
    hide OpenAiUsage;
  }

  lemma ResponsesStepSane(parse: Parse, st: Responses.State, e: Sse.Event)
    requires ResponsesSane(st) && Responses.Step(parse, st, e).Ok?
    ensures ResponsesSane(Responses.Step(parse, st, e).value)
  {
    hide OpenAiUsage, Responses.OutputEvent, Responses.Record, Responses.Status, ObserveIdentity;
    hide GoodIdentity, Responses.Header;
    var h := Responses.Header(parse, e).value;
    var r := Get(h.body, "response");
    if Responses.IsLifecycle(h.kind) {
      ObservedIsGood(st.id, r);
      RecordedUsage(Get(r, "usage"), st.bounds);
      if Responses.IsTerminal(h.kind) {
        StatusTerminal(h.kind, r);
      }
    }
  }

  lemma {:induction false} ResponsesRunSane(parse: Parse, stream: seq<Sse.Event>, k: nat, st: Responses.State)
    requires k <= |stream| && ResponsesSane(st) && Responses.Run(parse, stream, k, st).Ok?
    ensures ResponsesSane(Responses.Run(parse, stream, k, st).value)
    decreases |stream| - k
  {
    hide ResponsesSane, Responses.Step;
    if k < |stream| {
      ResponsesStepSane(parse, st, stream[k]);
      ResponsesRunSane(parse, stream, k + 1, Responses.Step(parse, st, stream[k]).value);
    }
  }

  predicate AnthropicSane(st: Anthropic.State) {
    (st.started ==> GoodIdentity(st.id)) && (st.ended ==> st.stop != "")
  }

  lemma AnthropicStepSane(parse: Parse, st: Anthropic.State, e: Sse.Event)
    requires AnthropicSane(st) && Anthropic.Step(parse, st, e).Ok?
    ensures AnthropicSane(Anthropic.Step(parse, st, e).value)
  {
    hide Anthropic.Header, Anthropic.BlockKind, ObserveIdentity, GoodIdentity, Anthropic.Begin, Anthropic.Apply;
    hide Anthropic.StartMessage, Anthropic.DeltaBody, Anthropic.DeltaKind, Anthropic.BlockIndex, Fields;
    var (j, kind) := Anthropic.Header(parse, e).value;
    if kind == "message_start" {
      ObservedIsGood(st.id, Get(j, "message"));
    }
  }

  lemma {:induction false} AnthropicRunSane(parse: Parse, stream: seq<Sse.Event>, k: nat, st: Anthropic.State)
    requires k <= |stream| && AnthropicSane(st) && Anthropic.Run(parse, stream, k, st).Ok?
    ensures AnthropicSane(Anthropic.Run(parse, stream, k, st).value)
    decreases |stream| - k
  {
    hide AnthropicSane, Anthropic.Step;
    if k < |stream| {
      AnthropicStepSane(parse, st, stream[k]);
      AnthropicRunSane(parse, stream, k + 1, Anthropic.Step(parse, st, stream[k]).value);
    }
  }

  // ----- Replay refines import -----

  /** The response of an accepted replay: identified, of its kind, terminal, with usage that maps. */
  predicate Sound(format: string, r: Json) {
    && r.Obj? && !IsErrorEnvelope(r)
    && NonEmptyString(Get(r, "model")) && |Get(r, "model").s| <= 256
    && OpaqueId(Get(r, "id")).Ok?
    && Kind(Record("", "", "", 1, "unknown", format, r)).Ok?
    && Usage(Record("", "", "", 1, "unknown", format, r)).Ok?
  }

  lemma ChatIsSound(parse: Parse, stream: seq<Sse.Event>)
    requires Chat.Chat(parse, stream).Ok?
    ensures Sound(CHAT_FORMAT, Chat.Response(Chat.Chat(parse, stream).value))
  {
    hide Sound, ChatSane, Chat.Step, Chat.Response, Chat.Run;
    StartsSane();
    ChatRunSane(parse, stream, 0, Chat.START);
    SaneChatIsSound(Chat.Chat(parse, stream).value);
  }

  lemma StartsSane()
    ensures ChatSane(Chat.START)
  {
  }

  lemma SaneChatIsSound(st: Chat.State)
    requires ChatSane(st) && st.ended
    ensures Sound(CHAT_FORMAT, Chat.Response(st))
  {
    hide OpenAiUsage, AnthropicUsage, OpaqueId, Finished, Chat.Rows;
    RowsFinished(st.choices, 0);
    var n :| n in st.choices;
    assert 0 <= n < 32;
  }

  lemma ResponsesIsSound(parse: Parse, stream: seq<Sse.Event>)
    requires Responses.Responses(parse, stream).Ok?
    ensures Sound(RESPONSES_FORMAT, Responses.Response(Responses.Responses(parse, stream).value))
  {
    hide OpenAiUsage, AnthropicUsage, Responses.Step, OpaqueId;
    ResponsesRunSane(parse, stream, 0, Responses.START);
  }

  lemma AnthropicIsSound(parse: Parse, stream: seq<Sse.Event>)
    requires Anthropic.Anthropic(parse, stream).Ok?
    ensures Sound(ANTHROPIC_FORMAT, Anthropic.Response(Anthropic.Anthropic(parse, stream).value))
  {
    hide OpenAiUsage, AnthropicUsage, Anthropic.Step, OpaqueId, Anthropic.FinalUsage;
    AnthropicRunSane(parse, stream, 0, Anthropic.START);
  }

  lemma ReplayIsSound(parse: Parse, format: string, stream: seq<Sse.Event>)
    requires Replay(parse, format, stream).Ok?
    ensures Sound(format, Replay(parse, format, stream).value) && format in FORMATS
  {
    hide Sound, Chat.Chat, Responses.Responses, Anthropic.Anthropic;
    hide Chat.Response, Responses.Response, Anthropic.Response;
    if format == CHAT_FORMAT {
      ChatIsSound(parse, stream);
    } else if format == RESPONSES_FORMAT {
      ResponsesIsSound(parse, stream);
    } else {
      AnthropicIsSound(parse, stream);
    }
  }

  /** All that is left to check once a stream has been replayed: facts about the
      record, its rate card and the size of the response. */
  predicate RecordFacts(fits: Fits, cards: map<string, Rate>, rec: Record) {
    && Id(rec.callId).Pass? && Id(rec.rateId).Pass? && Id(rec.outcome).Pass?
    && fits(rec.response)
    && (rec.rateId in cards ==>
          && cards[rec.rateId].provider == ProviderOf(rec.format)
          && Get(rec.response, "model") == Str(cards[rec.rateId].model))
    && (rec.format == RESPONSES_FORMAT && rec.outcome == "success" ==> Get(rec.response, "status") == Str("completed"))
  }

  /** What a replayed record maps to: its own usage under its own identity. */
  function MappedFrom(rec: Record): Mapped {
    Mapped(Mapping.CallOf(rec), Mapping.AuditFor(rec, true))
  }

  lemma SoundMaps(fits: Fits, cards: map<string, Rate>, rec: Record)
    requires Sound(rec.format, rec.response) && rec.format in FORMATS
    ensures MapRecord(fits, cards, rec).Ok? <==> RecordFacts(fits, cards, rec)
    ensures RecordFacts(fits, cards, rec) ==> MapRecord(fits, cards, rec) == Ok(MappedFrom(rec))
  {
    hide OpaqueId, OpenAiUsage, AnthropicUsage, Finished, IsErrorEnvelope, Kind, Usage, Id, Open, TokensOf;
    SameKind(Record("", "", "", 1, "unknown", rec.format, rec.response), rec);
    SoundOpens(fits, cards, rec);
    IdentifiedTokens(rec, Identified(ProviderOf(rec.format) + "/" + Get(rec.response, "id").s));
    if RecordFacts(fits, cards, rec) {
      MappedIs(fits, cards, rec);
    }
  }

  lemma MappedIs(fits: Fits, cards: map<string, Rate>, rec: Record)
    requires MapRecord(fits, cards, rec).Ok? && Get(rec.response, "id").Str?
    requires Open(fits, cards, rec) == Ok(Identified(ProviderOf(rec.format) + "/" + Get(rec.response, "id").s))
    ensures MapRecord(fits, cards, rec) == Ok(MappedFrom(rec))
  {
    Mapping.MapsTo(fits, cards, rec);
    hide Open, Mapping.CallOf, Kind, Usage, Mapping.Answered, Mapping.AllKnown;
  }

  lemma IdentifiedTokens(rec: Record, content: Content)
    requires content.Identified?
    ensures TokensOf(rec, content).Ok? <==> Kind(rec).Ok? && Usage(rec).Ok?
    ensures TokensOf(rec, content).Ok? ==> TokensOf(rec, content) == Usage(rec)
  {
    hide Kind, Usage;
  }

  lemma SoundOpens(fits: Fits, cards: map<string, Rate>, rec: Record)
    requires Sound(rec.format, rec.response) && rec.format in FORMATS
    ensures Get(rec.response, "id").Str?
    ensures Open(fits, cards, rec).Ok? <==>
              && Id(rec.callId).Pass? && Id(rec.rateId).Pass? && Id(rec.outcome).Pass? && fits(rec.response)
              && (rec.rateId in cards ==>
                    && cards[rec.rateId].provider == ProviderOf(rec.format)
                    && Get(rec.response, "model") == Str(cards[rec.rateId].model))
    ensures Open(fits, cards, rec).Ok? ==>
              Open(fits, cards, rec) == Ok(Identified(ProviderOf(rec.format) + "/" + Get(rec.response, "id").s))
  {
    FormatIds();
    hide OpaqueId, Kind, Usage, Id, IsErrorEnvelope;
  }

  lemma FormatIds()
    ensures forall f | f in FORMATS :: Id(f).Pass?
  {
    assert IdChar('_');
  }

  lemma SameKind(a: Record, b: Record)
    requires a.format == b.format && a.response == b.response && a.outcome != "success" && Kind(a).Ok?
    ensures Usage(a) == Usage(b)
    ensures Kind(b).Ok? <==> !(b.format == RESPONSES_FORMAT && b.outcome == "success" &&
                               Get(b.response, "status") != Str("completed"))
  {
    hide Finished, OpenAiUsage, AnthropicUsage;
  }

  lemma SoundHasId(format: string, r: Json)
    requires Sound(format, r)
    ensures Get(r, "id").Str?
  {
    hide Kind, Usage, IsErrorEnvelope;
  }

  /** Replay refines import: the response of an accepted stream passes every identity,
      kind, terminality and usage check of the import, which maps it exactly when the
      record's own facts hold. */
  lemma ReplayRefinesImport(parse: Parse, stream: seq<Sse.Event>, fits: Fits, cards: map<string, Rate>, rec: Record)
    requires Replay(parse, rec.format, stream) == Ok(rec.response)
    ensures MapRecord(fits, cards, rec).Ok? <==> RecordFacts(fits, cards, rec)
    ensures RecordFacts(fits, cards, rec) ==> MapRecord(fits, cards, rec) == Ok(MappedFrom(rec))
    ensures Get(rec.response, "id").Str?
  {
    hide Replay, Sound, MapRecord, RecordFacts, Usage, MappedFrom;
    ReplayIsSound(parse, rec.format, stream);
    SoundHasId(rec.format, rec.response);
    SoundMaps(fits, cards, rec);
  }

  // ----- Importing streams, whole -----

  /** Every stream replays, and no call id occurs twice. */
  ghost predicate Replayable(readers: Readers, recs: seq<StreamRecord>) {
    && (forall j :: 0 <= j < |recs| ==> Convert(readers, recs[j]).Ok?)
    && (forall j, k :: 0 <= j < k < |recs| ==> recs[j].callId != recs[k].callId)
  }

  lemma {:induction false} ConvertAllIs(readers: Readers, recs: seq<StreamRecord>, i: nat, done: seq<Record>,
                                        seen: set<string>)
    requires i <= |recs|
    ensures ConvertAll(readers, recs, i, done, seen).Ok? <==>
              && (forall j :: i <= j < |recs| ==> Convert(readers, recs[j]).Ok? && recs[j].callId !in seen)
              && (forall j, k :: i <= j < k < |recs| ==> recs[j].callId != recs[k].callId)
    ensures ConvertAll(readers, recs, i, done, seen).Ok? ==>
              var out := ConvertAll(readers, recs, i, done, seen).value;
              && |out| == |done| + |recs| - i && out[..|done|] == done
              && (forall j :: i <= j < |recs| ==> Convert(readers, recs[j]) == Ok(out[|done| + j - i]))
    decreases |recs| - i
  {
    hide Convert;
    if i < |recs| && Convert(readers, recs[i]).Ok? && recs[i].callId !in seen {
      var rec := Convert(readers, recs[i]).value;
      ConvertAllIs(readers, recs, i + 1, done + [rec], seen + {recs[i].callId});
      var all := ConvertAll(readers, recs, i + 1, done + [rec], seen + {recs[i].callId});
      if all.Ok? {
        assert all.value[..|done| + 1] == done + [rec];
        assert all.value[..|done|] == done && all.value[|done|] == rec;
      }
    }
  }

  function Converted(readers: Readers, recs: seq<StreamRecord>): seq<Record>
    requires forall j | 0 <= j < |recs| :: Convert(readers, recs[j]).Ok?
  {
    seq(|recs|, j requires 0 <= j < |recs| => Convert(readers, recs[j]).value)
  }

  ghost predicate AllFacts(fits: Fits, cards: map<string, Rate>, recs: seq<Record>) {
    forall j :: 0 <= j < |recs| ==> RecordFacts(fits, cards, recs[j])
  }

  /** No provider's response is imported twice. */
  ghost predicate OneEach(recs: seq<Record>) {
    forall j, k :: 0 <= j < k < |recs| ==> MappedFrom(recs[j]).audit.reference != MappedFrom(recs[k]).audit.reference
  }

  lemma MappedCall(rec: Record)
    ensures MappedFrom(rec).call == Mapping.CallOf(rec)
  {
  }

  lemma ConvertedMaps(readers: Readers, s: StreamRecord, fits: Fits, cards: map<string, Rate>)
    requires Convert(readers, s).Ok?
    ensures var rec := Convert(readers, s).value;
            && rec.callId == s.callId && (MapRecord(fits, cards, rec).Ok? <==> RecordFacts(fits, cards, rec))
            && (RecordFacts(fits, cards, rec) ==> MapRecord(fits, cards, rec) == Ok(MappedFrom(rec)))
            && MappedFrom(rec).audit.reference.Some?
  {
    hide Replay, MapRecord, RecordFacts, Usage, MappedFrom, Sse.Events;
    var events := Sse.Events(s.stream, readers.utf8).value;
    ReplayRefinesImport(readers.parse, events, fits, cards, Convert(readers, s).value);
    HasReference(Convert(readers, s).value);
  }

  lemma ReferencesOf(m: Mapped, n: Mapped)
    requires m.audit.reference.Some? && n.audit.reference.Some?
    ensures RefsOf(m) !! RefsOf(n) <==> m.audit.reference != n.audit.reference
  {
    if m.audit.reference == n.audit.reference {
      assert m.audit.reference.value in RefsOf(m) * RefsOf(n);
    }
  }

  lemma ReplayedImportable(readers: Readers, streams: seq<StreamRecord>, fits: Fits, cards: map<string, Rate>)
    requires Replayable(readers, streams)
    ensures var recs := Converted(readers, streams);
            && (Importable(fits, cards, recs, 0) <==> AllFacts(fits, cards, recs) && OneEach(recs))
            && (AllFacts(fits, cards, recs) ==>
                  && (forall j :: 0 <= j < |recs| ==> MapRecord(fits, cards, recs[j]).Ok?)
                  && CallsOf(fits, cards, recs) == Mapping.CallsFrom(recs))
  {
    hide Convert, MapRecord, RecordFacts, MappedFrom, RefsOf;
    var recs := Converted(readers, streams);
    forall j | 0 <= j < |recs|
      ensures recs[j].callId == streams[j].callId &&
              (MapRecord(fits, cards, recs[j]).Ok? <==> RecordFacts(fits, cards, recs[j]))
      ensures RecordFacts(fits, cards, recs[j]) ==>
                MapRecord(fits, cards, recs[j]) == Ok(MappedFrom(recs[j])) && MappedFrom(recs[j]).audit.reference.Some?
    {
      ConvertedMaps(readers, streams[j], fits, cards);
    }
    if AllFacts(fits, cards, recs) {
      forall j, k | 0 <= j < k < |recs|
        ensures RefsOf(MappedFrom(recs[j])) !! RefsOf(MappedFrom(recs[k]))
                <==> MappedFrom(recs[j]).audit.reference != MappedFrom(recs[k]).audit.reference
      {
        ReferencesOf(MappedFrom(recs[j]), MappedFrom(recs[k]));
      }
      hide Mapping.CallOf;
      forall j | 0 <= j < |recs| ensures CallsOf(fits, cards, recs)[j] == Mapping.CallsFrom(recs)[j] {
        MappedCall(recs[j]);
      }
      assert CallsOf(fits, cards, recs) == Mapping.CallsFrom(recs);
    }
  }

  lemma HasReference(rec: Record)
    requires Get(rec.response, "id").Str?
    ensures MappedFrom(rec).audit.reference.Some?
  {
  }

  lemma ConvertedIs(readers: Readers, recs: seq<StreamRecord>)
    ensures ConvertAll(readers, recs, 0, [], {}).Ok? <==> Replayable(readers, recs)
    ensures Replayable(readers, recs) ==> ConvertAll(readers, recs, 0, [], {}) == Ok(Converted(readers, recs))
  {
    hide Convert, ConvertAll;
    ConvertAllIs(readers, recs, 0, [], {});
    if Replayable(readers, recs) {
      assert ConvertAll(readers, recs, 0, [], {}).value == Converted(readers, recs);
    }
  }

  /** A stream import succeeds exactly when there are at most 32 streams, all of them
      replay under distinct call ids, the cards read, every record's own facts and labels
      hold, no response is imported twice, and the exact total of the replayed usage fits. */
  lemma StreamsImportIff(readers: Readers, fits: Fits, input: StreamInput)
    ensures ImportStreams(readers, fits, input).Ok? <==>
              && input.schema == "qbrain-stream-import-v1" && |input.records| <= 32
              && Replayable(readers, input.records) && ReadLedger(Bare(input.currency, input.rates)).Ok?
              && var cards := ReadLedger(Bare(input.currency, input.rates)).value.rates;
              var recs := Converted(readers, input.records);
              && AllFacts(fits, cards, recs) && OneEach(recs) && AllGood(recs)
              && ExactCost(Mapping.CallsFrom(recs), cards) <= 18_446_744_073_709_551_615
  {
    hide ConvertAll, Conclude, ReadLedger, Importable, AllFacts, OneEach, AllGood, Mapping.CallsFrom, CallsOf;
    hide Convert, MapRecord, ExactCost;
    ConvertedIs(readers, input.records);
    if Replayable(readers, input.records) && |input.records| <= 32 {
      var recs := Converted(readers, input.records);
      Mapping.CardsFirst(fits, ImportInput(IMPORT_SCHEMA, input.currency, input.rates, recs));
      if ReadLedger(Bare(input.currency, input.rates)).Ok? {
        var cards := ReadLedger(Bare(input.currency, input.rates)).value;
        ReplayedImportable(readers, input.records, fits, cards.rates);
        ImportIff(fits, input.currency, input.rates, recs);
      }
    }
  }

  /** A stream record converts exactly when its ids are well formed, its stream parses,
      and the events replay in the format it names. */
  lemma ConvertIff(readers: Readers, rec: StreamRecord)
    ensures Convert(readers, rec).Ok? <==>
              && IsName(rec.callId) && rec.format in {"openai_chat", "openai_responses", "anthropic_messages"}
              && Sse.Events(rec.stream, readers.utf8).Ok?
              && Replay(readers.parse, rec.format, Sse.Events(rec.stream, readers.utf8).value).Ok?
    ensures Convert(readers, rec).Ok? ==>
              Convert(readers, rec).value ==
              Record(rec.callId, rec.stage, rec.rateId, rec.attempt, rec.outcome, rec.format,
                     Replay(readers.parse, rec.format, Sse.Events(rec.stream, readers.utf8).value).value)
  {
    hide Sse.Events, Chat.Chat, Responses.Responses, Anthropic.Anthropic, Id, IsName;
    FormatIds();
    NameIs(rec.callId);
  }

  /** Each format is replayed by its own machine. */
  lemma ReplayIff(parse: Parse, format: string, events: seq<Sse.Event>)
    ensures Replay(parse, format, events).Ok? <==>
              || (format == "openai_chat" && Chat.Chat(parse, events).Ok?)
              || (format == "openai_responses" && Responses.Responses(parse, events).Ok?)
              || (format == "anthropic_messages" && Anthropic.Anthropic(parse, events).Ok?)
  {
    hide Chat.Chat, Responses.Responses, Anthropic.Anthropic, Chat.Response, Responses.Response, Anthropic.Response;
  }
}
