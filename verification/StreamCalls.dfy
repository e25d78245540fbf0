/** From a recorded stream to the tokens of the imported call: what each bucket of the
    call is, in the members the stream itself reports. */
module StreamCalls {
  import opened Wrappers
  import opened Json
  import opened ProviderUsage
  import opened Sse
  import opened StreamFields
  import opened EventFields
  import opened TokenCost
  import opened UsageImport
  import opened RecordMapping
  import Streams = StreamImport
  import Snapshots = OpenAiSnapshots
  import Derivation = AnthropicDerivation
  import History = AnthropicHistory
  import Chat = ChatEvents
  import Responses = ResponsesEvents
  import Anthropic = AnthropicEvents

  /** The record holds the response of a replayed stream, and maps to `call`. */
  ghost predicate Imports(parse: Parse, stream: seq<Event>, fits: Fits, cards: map<string, Rate>, rec: Record,
                          call: CallInput) {
    && Streams.Replay(parse, rec.format, stream) == Ok(rec.response)
    && MapRecord(fits, cards, rec).Ok? && MapRecord(fits, cards, rec).value.call == call
  }

  /** The call of a Chat stream spends what its usage chunk reports. */
  lemma ChatCall(parse: Parse, stream: seq<Event>, fits: Fits, cards: map<string, Rate>, rec: Record, call: CallInput)
    requires rec.format == "openai_chat" && Imports(parse, stream, fits, cards, rec, call)
    ensures |stream| >= 2 && Snapshots.Normalizes(Chat.FinalUsage(parse, stream), false, call.tokens)
  {
    hide Streams.Replay, MapRecord, OpenAiUsage, AnthropicUsage, Answered, Chat.FinalUsage, Snapshots.Normalizes;
    MapsTo(fits, cards, rec);
    Chat.ChatReply(parse, stream);
    SpentIs(rec, call.tokens, false);
  }

  /** The call of a Responses stream spends what its terminal snapshot reports. */
  lemma ResponsesCall(parse: Parse, stream: seq<Event>, fits: Fits, cards: map<string, Rate>, rec: Record,
                      call: CallInput)
    requires rec.format == "openai_responses" && Imports(parse, stream, fits, cards, rec, call)
    ensures stream != []
    ensures var last := Body(parse, stream[|stream| - 1]);
            Snapshots.Normalizes(Get(Get(last, "response"), "usage"), true, call.tokens)
  {
    hide Streams.Replay, MapRecord, OpenAiUsage, AnthropicUsage, Answered, Body, Snapshots.Normalizes;
    MapsTo(fits, cards, rec);
    Responses.ResponsesReply(parse, stream);
    SpentIs(rec, call.tokens, true);
    assert "usage" in rec.response.fields;
  }

  lemma SpentIs(rec: Record, tokens: Quad<Option<int>>, responses: bool)
    requires rec.format == if responses then "openai_responses" else "openai_chat"
    requires var u := Get(rec.response, "usage");
             if u.Null? then tokens == Quad(None, None, None, None) else Spent(rec).Ok? && tokens == Spent(rec).value
    ensures Snapshots.Normalizes(Get(rec.response, "usage"), responses, tokens)
  {
    var u := Get(rec.response, "usage");
    if u.Null? {
      NothingReported(responses);
    } else {
      Snapshots.BucketsAreReported(u, responses);
    }
    hide OpenAiUsage, AnthropicUsage;
  }

  lemma NothingReported(responses: bool)
    ensures Snapshots.Normalizes(Null, responses, Quad(None, None, None, None))
  {
    forall x: Snapshots.Counter ensures Reported(Null, Snapshots.PathOf(responses, x)).None? {
      NullAt(Snapshots.PathOf(responses, x));
    }
  }

  /** The call of an Anthropic stream spends what its updates, folded, report last; its
      output is unknown unless a message delta settled it. */
  lemma AnthropicCall(parse: Parse, stream: seq<Event>, fits: Fits, cards: map<string, Rate>, rec: Record,
                      call: CallInput)
    requires rec.format == "anthropic_messages" && Imports(parse, stream, fits, cards, rec, call)
    ensures var us := Anthropic.UsageUpdates(parse, stream, |stream|);
            var last := History.Fold(us, |us|);
            && Derivation.Normalizes(last, call.tokens.(output := Reported(last, ["output_tokens"])))
            && call.tokens.output ==
                 if Anthropic.OutputSettled(parse, stream) then Reported(last, ["output_tokens"]) else None
  {
    hide Streams.Replay, MapRecord, OpenAiUsage, AnthropicUsage, Answered, Body, Anthropic.StartedAs;
    hide Anthropic.ReasonIn, Anthropic.UsageUpdates, Anthropic.OutputSettled, History.Fold, Derivation.Normalizes;
    MapsTo(fits, cards, rec);
    Anthropic.AnthropicReply(parse, stream);
    var us := Anthropic.UsageUpdates(parse, stream, |stream|);
    var u, last, settled := Get(rec.response, "usage"), History.Fold(us, |us|), Anthropic.OutputSettled(parse, stream);
    assert forall key: string :: Get(u, key) == if key == "output_tokens" && !settled then Null else Get(last, key);
    if u.Null? {
      NothingSpent();
    } else {
      Derivation.BucketsAreReported(u);
    }
    assert Derivation.Normalizes(u, call.tokens);
    SameButOutput(u, last, settled, call.tokens);
  }

  lemma NothingSpent()
    ensures Derivation.Normalizes(Null, Quad(None, None, None, None))
  {
    forall x: History.Tally ensures Reported(Null, History.PathOf(x)).None? {
      NullAt(History.PathOf(x));
    }
  }

  lemma SameButOutput(u: Json, last: Json, settled: bool, tokens: Quad<Option<int>>)
    requires forall key: string :: Get(u, key) == if key == "output_tokens" && !settled then Null else Get(last, key)
    requires Derivation.Normalizes(u, tokens)
    ensures Derivation.Normalizes(last, tokens.(output := Reported(last, ["output_tokens"])))
    ensures tokens.output == if settled then Reported(last, ["output_tokens"]) else None
  {
    assert History.PathOf(History.Output) == ["output_tokens"];
    hide Reported, History.PathOf;
    forall x: History.Tally
      ensures Reported(u, History.PathOf(x)) ==
              if x == History.Output && !settled then None else Reported(last, History.PathOf(x))
    {
      SameAt(u, last, settled, x);
    }
  }

  lemma SameAt(u: Json, last: Json, settled: bool, x: History.Tally)
    requires forall key: string :: Get(u, key) == if key == "output_tokens" && !settled then Null else Get(last, key)
    ensures Reported(u, History.PathOf(x)) ==
            if x == History.Output && !settled then None else Reported(last, History.PathOf(x))
  {
    hide Reported;
    ReadsAt(u, x);
    ReadsAt(last, x);
  }

  lemma ReadsAt(u: Json, x: History.Tally)
    ensures var p := History.PathOf(x);
            Reported(u, p) == if |p| == 1 then Known(u, p[0]) else Known(Get(u, p[0]), p[1])
  {
    var p := History.PathOf(x);
    if |p| == 1 {
      ReportedIsKnown(u, p[0], "");
    } else {
      ReportedIsKnown(u, p[0], p[1]);
    }
  }
}
