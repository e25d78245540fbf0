/** Anthropic streams on the wire: which events the replay takes, member by member, and
    what the response of an accepted stream holds. */
module AnthropicEvents {
  import opened Wrappers
  import opened Json
  import opened ProviderUsage
  import opened Sse
  import opened StreamFields
  import opened EventFields
  import opened AnthropicReplay
  import Streams = StreamImport
  import History = AnthropicHistory

  // ----- What an event looks like -----

  /** The event is an object of the given type, under that name or none, with no other
      members than those. */
  predicate IsEvent(parse: Parse, e: Event, kind: string, members: set<string>) {
    var j := Body(parse, e);
    j.Obj? && Get(j, "type") == Str(kind) && e.name in {"", kind} && j.fields.Keys <= members
  }

  /** An opening message: no content yet and no reason to stop. */
  predicate MessageShape(m: Json) {
    && m.Obj? && Identifies(m) && Get(m, "type") == Str("message") && Get(m, "role") == Str("assistant")
    && Get(m, "content") == Arr([]) && Get(m, "stop_reason").Null?
  }

  predicate BlockShape(b: Json) {
    && b.Obj? && Get(b, "type").Str?
    && match Get(b, "type").s
       case "text" => Get(b, "text").Str?
       case "thinking" => Get(b, "thinking").Str? && (Has(b, "signature") ==> Get(b, "signature").Str?)
       case "redacted_thinking" => Get(b, "data").Str?
       case "tool_use" => IsToken(Get(b, "id")) && IsText(Get(b, "name"), 256) && Get(b, "input").Obj?
       case _ => false
  }

  predicate PieceShape(d: Json) {
    && d.Obj? && IsText(Get(d, "type"), 64)
    && match Get(d, "type").s
       case "text_delta" => Get(d, "text").Str?
       case "thinking_delta" => Get(d, "thinking").Str?
       case "signature_delta" => Get(d, "signature").Str?
       case _ => Get(d, "partial_json").Str?
  }

  /** What a message delta may say about the end of the message. */
  predicate EndingShape(d: Json) {
    && d.Obj? && d.fields.Keys <= {"stop_reason", "stop_sequence"}
    && (Get(d, "stop_reason").Null? || IsText(Get(d, "stop_reason"), 64))
    && (Get(d, "stop_sequence").Null? || Get(d, "stop_sequence").Str?)
  }

  predicate IsStart(parse: Parse, e: Event) {
    IsEvent(parse, e, "message_start", {"type", "message"}) && MessageShape(Get(Body(parse, e), "message"))
  }

  predicate IsOpening(parse: Parse, e: Event) {
    var j := Body(parse, e);
    && IsEvent(parse, e, "content_block_start", {"type", "index", "content_block"})
    && IsCount(Get(j, "index"), 4095) && BlockShape(Get(j, "content_block"))
  }

  predicate IsPiece(parse: Parse, e: Event) {
    var j := Body(parse, e);
    && IsEvent(parse, e, "content_block_delta", {"type", "index", "delta"})
    && IsCount(Get(j, "index"), 4095) && PieceShape(Get(j, "delta"))
  }

  predicate IsClosing(parse: Parse, e: Event) {
    IsEvent(parse, e, "content_block_stop", {"type", "index"}) && IsCount(Get(Body(parse, e), "index"), 4095)
  }

  predicate IsMessageDelta(parse: Parse, e: Event) {
    && IsEvent(parse, e, "message_delta", {"type", "delta", "usage"})
    && EndingShape(Get(Body(parse, e), "delta"))
  }

  /** What the replay reads in an event it takes. */
  predicate Reads(v: View, j: Json) {
    match v
    case Start(id, usage) =>
      var m := Get(j, "message");
      Get(m, "id") == Str(id.response) && Get(m, "model") == Str(id.model) && Get(m, "usage") == usage
    case Open(index, kind) => Get(j, "index") == Int(index) && Get(Get(j, "content_block"), "type") == Str(kind)
    case Delta(index, kind) => Get(j, "index") == Int(index) && Get(Get(j, "delta"), "type") == Str(kind)
    case Close(index) => Get(j, "index") == Int(index)
    case MessageDelta(reason, report) =>
      && report == (if Has(j, "usage") then Report(Get(j, "usage")) else NoReport)
      && reason == (match Get(Get(j, "delta"), "stop_reason")
                    case Str(s) => Given(s)
                    case _ => if Has(Get(j, "delta"), "stop_reason") then Cleared else Silent)
    case _ => true
  }

  lemma HeaderIs(parse: Parse, e: Event)
    ensures var j := Body(parse, e);
            && (Header(parse, e).Ok? <==> j.Obj? && IsText(Get(j, "type"), 128) && e.name in {"", Get(j, "type").s})
            && (Header(parse, e).Ok? ==> Header(parse, e).value == (j, Get(j, "type").s))
  {
    DecodeIs(parse, e);
    TextIs(Body(parse, e), "type", 128);
    hide Decode, Body, Text, IsText;
  }

  lemma BlockIs(j: Json)
    ensures BlockKind(j).Ok? <==> BlockShape(Get(j, "content_block"))
    ensures BlockKind(j).Ok? ==> Str(BlockKind(j).value) == Get(Get(j, "content_block"), "type")
  {
    var b := Get(j, "content_block");
    TextIs(b, "type", 64);
    TextIs(b, "name", 256);
    TokenIs(Get(b, "id"));
    hide Text, OpaqueId, IsToken;
  }

  lemma PieceIs(j: Json)
    ensures DeltaKind(j).Ok? && DeltaBody(j, DeltaKind(j).value).Pass? <==>
              j.Obj? && j.fields.Keys <= {"type", "index", "delta"} && PieceShape(Get(j, "delta"))
    ensures DeltaKind(j).Ok? ==> Str(DeltaKind(j).value) == Get(Get(j, "delta"), "type")
  {
    TextIs(Get(j, "delta"), "type", 64);
    hide Text;
  }

  lemma BlockViewIs(j: Json, kind: string)
    requires j.Obj?
    ensures var v, counted := BlockView(j, kind), IsCount(Get(j, "index"), 4095);
            && (kind == "content_block_start" ==>
                  (v.Open? <==> j.fields.Keys <= {"type", "index", "content_block"} && counted
                                && BlockShape(Get(j, "content_block"))))
            && (kind == "content_block_stop" ==> (v.Close? <==> j.fields.Keys <= {"type", "index"} && counted))
            && (kind == "content_block_delta" ==>
                  (v.Delta? <==> j.fields.Keys <= {"type", "index", "delta"} && counted && PieceShape(Get(j, "delta"))))
            && (v.Open? ==> kind == "content_block_start" && Int(v.index) == Get(j, "index")
                            && Str(v.kind) == Get(Get(j, "content_block"), "type"))
            && (v.Close? ==> kind == "content_block_stop" && Int(v.index) == Get(j, "index"))
            && (v.Delta? ==> kind !in {"content_block_start", "content_block_stop"} && Int(v.index) == Get(j, "index")
                             && Str(v.kind) == Get(Get(j, "delta"), "type"))
  {
    CountIs(Get(j, "index"), 4095);
    BlockIs(j);
    PieceIs(j);
    hide Integer, BlockKind, BlockShape, DeltaKind, DeltaBody, PieceShape;
  }

  lemma StartViewIs(j: Json)
    requires j.Obj?
    ensures var v, m := StartView(j), Get(j, "message");
            && (v.Start? <==> j.fields.Keys <= {"type", "message"} && MessageShape(m))
            && (v.Start? || v.Bad?)
            && (v.Start? ==> Reads(v, j))
  {
    IdentityIs(Get(j, "message"));
    hide IdentityOf, Identifies;
  }

  lemma MessageDeltaViewIs(j: Json)
    requires j.Obj?
    ensures var v, d := MessageDeltaView(j), Get(j, "delta");
            && (v.MessageDelta? <==> j.fields.Keys <= {"type", "delta", "usage"} && EndingShape(d))
            && (v.MessageDelta? || v.Bad?)
            && (v.MessageDelta? ==> Reads(v, j))
  {
    TextIs(Get(j, "delta"), "stop_reason", 64);
    hide Text;
  }

  /** An event of a known kind with the right name is read by its kind. */
  lemma HeaderKind(parse: Parse, e: Event, kind: string, members: set<string>)
    requires kind in KINDS
    ensures var j := Body(parse, e);
            IsEvent(parse, e, kind, members) <==>
              Header(parse, e) == Ok((j, kind)) && j.Obj? && j.fields.Keys <= members
  {
    hide Header, Body;
    HeaderIs(parse, e);
    KindIsText(Get(Body(parse, e), "type"));
  }

  /** Which events the replay takes, and what it reads in each. */
  lemma ViewIs(parse: Parse, e: Event)
    ensures var v, j := ViewOf(parse, e), Body(parse, e);
            && (v.Ping? <==> IsEvent(parse, e, "ping", {"type"}))
            && (v.Start? <==> IsStart(parse, e))
            && (v.Open? <==> IsOpening(parse, e))
            && (v.Delta? <==> IsPiece(parse, e))
            && (v.Close? <==> IsClosing(parse, e))
            && (v.MessageDelta? <==> IsMessageDelta(parse, e))
            && (v.Stop? <==> IsEvent(parse, e, "message_stop", {"type"}))
            && Reads(v, j)
  {
    hide Header, Body, IsEvent, BlockView, StartView, MessageDeltaView, EndingShape, MessageShape, BlockShape;
    hide PieceShape, IsCount;
    HeaderKind(parse, e, "ping", {"type"});
    HeaderKind(parse, e, "message_start", {"type", "message"});
    HeaderKind(parse, e, "content_block_start", {"type", "index", "content_block"});
    HeaderKind(parse, e, "content_block_delta", {"type", "index", "delta"});
    HeaderKind(parse, e, "content_block_stop", {"type", "index"});
    HeaderKind(parse, e, "message_delta", {"type", "delta", "usage"});
    HeaderKind(parse, e, "message_stop", {"type"});
    HeaderIs(parse, e);
    var j := Body(parse, e);
    if j.Obj? && Get(j, "type").Str? {
      BlockViewIs(j, Get(j, "type").s);
      StartViewIs(j);
      MessageDeltaViewIs(j);
      ViewKinds(j, Get(j, "type").s);
    }
  }

  const KINDS := {"ping", "message_start", "content_block_start", "content_block_delta", "content_block_stop",
                  "message_delta", "message_stop"}

  lemma KindIsText(j: Json)
    ensures j.Str? && j.s in KINDS ==> IsText(j, 128)
  {
  }

  /** Text goes to text blocks, thinking and its signature to thinking blocks, and pieces
      of tool input to tool blocks; nothing else fits. */
  lemma FitsIs(piece: string, block: string)
    ensures Fits(piece, block) <==>
              (piece, block) in {("text_delta", "text"), ("thinking_delta", "thinking"),
                                 ("signature_delta", "thinking"), ("input_json_delta", "tool_use")}
  {
  }

  // ----- What the response holds -----

  function TypeOf(j: Json): Json { Get(j, "type") }

  /** The usage updates of the first `k` events: the opening message's, unless null, and
      those of the message deltas. */
  function UsageUpdates(parse: Parse, stream: seq<Event>, k: nat): seq<Json>
    requires k <= |stream|
  {
    if k == 0 then []
    else
      var j, before := Body(parse, stream[k - 1]), UsageUpdates(parse, stream, k - 1);
      if TypeOf(j) == Str("message_start") && !Get(Get(j, "message"), "usage").Null?
      then before + [Get(Get(j, "message"), "usage")]
      else if TypeOf(j) == Str("message_delta") && Has(j, "usage") then before + [Get(j, "usage")]
      else before
  }

  /** A message delta that settles the output count. */
  predicate SettlesOutput(j: Json) {
    && TypeOf(j) == Str("message_delta") && Has(j, "usage")
    && (Get(j, "usage").Null? || Has(Get(j, "usage"), "output_tokens"))
  }

  ghost predicate OutputSettled(parse: Parse, stream: seq<Event>) {
    exists k: nat :: k < |stream| && SettlesOutput(Body(parse, stream[k]))
  }

  lemma TypesAre(parse: Parse, e: Event)
    requires !ViewOf(parse, e).Bad?
    ensures var v, t := ViewOf(parse, e), TypeOf(Body(parse, e));
            && (v.Start? <==> t == Str("message_start")) && (v.MessageDelta? <==> t == Str("message_delta"))
            && Reads(v, Body(parse, e))
  {
    hide ViewOf, Body, Reads, MessageShape, BlockShape, PieceShape, EndingShape, IsCount;
    ViewIs(parse, e);
  }

  lemma UpdateIs(parse: Parse, e: Event)
    requires !ViewOf(parse, e).Bad?
    ensures var v, j := ViewOf(parse, e), Body(parse, e);
            && UpdateOf(v) == (if TypeOf(j) == Str("message_start") && !Get(Get(j, "message"), "usage").Null?
                               then Some(Get(Get(j, "message"), "usage"))
                               else if TypeOf(j) == Str("message_delta") && Has(j, "usage") then Some(Get(j, "usage"))
                               else None)
            && (Reports(v) <==> SettlesOutput(j))
  {
    hide ViewOf, Body;
    TypesAre(parse, e);
  }

  lemma {:induction false} UpdatesAre(parse: Parse, stream: seq<Event>, k: nat)
    requires k <= |stream| && forall m :: 0 <= m < |stream| ==> !ViewOf(parse, stream[m]).Bad?
    ensures Updates(Views(parse, stream), k) == UsageUpdates(parse, stream, k)
  {
    hide ViewOf, Body, UpdateOf;
    if k > 0 {
      UpdatesAre(parse, stream, k - 1);
      UpdateIs(parse, stream[k - 1]);
    }
  }

  lemma NoneBad(vs: seq<View>)
    requires Complete(vs)
    ensures forall m :: 0 <= m < |vs| ==> !vs[m].Bad?
  {
    hide BlockOrder, AllClose, DeltasLast, OneReason, HasReason;
    var s: nat :| Framed(vs, s);
  }

  /** The one event that starts the message. */
  ghost predicate Starts(parse: Parse, stream: seq<Event>, s: nat) {
    && s < |stream| && TypeOf(Body(parse, stream[s])) == Str("message_start")
    && forall k :: 0 <= k < |stream| && k != s ==> TypeOf(Body(parse, stream[k])) != Str("message_start")
  }

  /** A message delta that gives a reason to stop. */
  predicate GivesReason(j: Json) { TypeOf(j) == Str("message_delta") && Get(Get(j, "delta"), "stop_reason").Str? }

  ghost predicate ReasonIn(parse: Parse, stream: seq<Event>, reason: Json) {
    && (exists k: nat :: k < |stream| && GivesReason(Body(parse, stream[k])))
    && (forall k :: 0 <= k < |stream| && GivesReason(Body(parse, stream[k])) ==>
          Get(Get(Body(parse, stream[k]), "delta"), "stop_reason") == reason)
  }

  /** The id and model are those of the opening message. */
  ghost predicate StartedAs(parse: Parse, stream: seq<Event>, id: Json, model: Json) {
    exists s: nat :: Starts(parse, stream, s) && Get(Get(Body(parse, stream[s]), "message"), "id") == id
                     && Get(Get(Body(parse, stream[s]), "message"), "model") == model
  }

  lemma StartIs(parse: Parse, stream: seq<Event>, id: Identity)
    requires exists s: nat :: Framed(Views(parse, stream), s) && id == Views(parse, stream)[s].id
    ensures StartedAs(parse, stream, Str(id.response), Str(id.model))
  {
    hide ViewOf, Body;
    var vs := Views(parse, stream);
    var s: nat :| Framed(vs, s) && id == vs[s].id;
    FramedStart(vs, s);
    hide Framed;
    forall k | 0 <= k < |stream| ensures TypeOf(Body(parse, stream[k])) == Str("message_start") <==> k == s {
      TypesAre(parse, stream[k]);
    }
    TypesAre(parse, stream[s]);
  }

  lemma FramedStart(vs: seq<View>, s: nat)
    requires Framed(vs, s)
    ensures forall k :: 0 <= k < |vs| ==> !vs[k].Bad? && (vs[k].Start? <==> k == s)
  {
  }

  lemma ReasonIs(parse: Parse, stream: seq<Event>, stop: string)
    requires var vs := Views(parse, stream);
             && HasReason(vs, |vs|) && (forall m :: 0 <= m < |vs| ==> !vs[m].Bad?)
             && forall m :: 0 <= m < |vs| && vs[m].MessageDelta? && vs[m].reason.Given? ==> vs[m].reason.reason == stop
    ensures ReasonIn(parse, stream, Str(stop))
  {
    hide ViewOf, Body;
    var vs := Views(parse, stream);
    forall k | 0 <= k < |stream|
      ensures GivesReason(Body(parse, stream[k])) <==> vs[k].MessageDelta? && vs[k].reason.Given?
      ensures GivesReason(Body(parse, stream[k])) ==>
                Get(Get(Body(parse, stream[k]), "delta"), "stop_reason") == Str(vs[k].reason.reason)
    {
      TypesAre(parse, stream[k]);
    }
    var m :| 0 <= m < |vs| && vs[m].MessageDelta? && vs[m].reason.Given?;
    assert GivesReason(Body(parse, stream[m]));
  }

  lemma SettledIs(parse: Parse, stream: seq<Event>)
    requires forall m :: 0 <= m < |stream| ==> !ViewOf(parse, stream[m]).Bad?
    ensures OutputReported(Views(parse, stream), |stream|) <==> OutputSettled(parse, stream)
  {
    hide ViewOf, Body, Reports, SettlesOutput;
    forall k | 0 <= k < |stream| ensures Reports(Views(parse, stream)[k]) <==> SettlesOutput(Body(parse, stream[k])) {
      UpdateIs(parse, stream[k]);
    }
  }

  /** The final usage: the updates folded, the last writer of each counter winning, and
      the output count unknown unless a message delta settled it. */
  ghost predicate FinalUsageIs(parse: Parse, stream: seq<Event>, usage: Json) {
    var us := UsageUpdates(parse, stream, |stream|);
    forall key: string :: Get(usage, key) ==
      if key == "output_tokens" && !OutputSettled(parse, stream) then Null else Get(History.Fold(us, |us|), key)
  }

  lemma UsageIs(parse: Parse, stream: seq<Event>, st: State)
    requires forall m :: 0 <= m < |stream| ==> !ViewOf(parse, stream[m]).Bad?
    requires var us := Updates(Views(parse, stream), |stream|); st.ledger.usage == History.Fold(us, |us|)
    requires st.finalOutput == OutputReported(Views(parse, stream), |stream|)
    ensures FinalUsageIs(parse, stream, FinalUsage(st))
  {
    hide ViewOf, Body, History.Fold, UsageUpdates, OutputSettled, OutputReported, Updates;
    UpdatesAre(parse, stream, |stream|);
    SettledIs(parse, stream);
  }

  /** What replaying an accepted Anthropic stream gives, in the stream's own members. */
  lemma AnthropicReply(parse: Parse, stream: seq<Event>)
    requires Streams.Replay(parse, "anthropic_messages", stream).Ok?
    ensures var r := Streams.Replay(parse, "anthropic_messages", stream).value;
            && r.Obj? && r.fields.Keys == {"id", "model", "type", "role", "stop_reason", "usage"}
            && Get(r, "type") == Str("message") && Get(r, "role") == Str("assistant")
            && StartedAs(parse, stream, Get(r, "id"), Get(r, "model"))
            && ReasonIn(parse, stream, Get(r, "stop_reason"))
            && FinalUsageIs(parse, stream, Get(r, "usage"))
  {
    hide ViewOf, Body, Complete, ReasonIn, FinalUsageIs, Starts, Anthropic, History.Fold, History.FeasibleAt, Updates;
    hide OutputReported, FinalUsage, History.Mirrors, Framed, StartedAs;
    var vs, st := Views(parse, stream), Anthropic(parse, stream).value;
    AnthropicAcceptsComplete(parse, stream);
    NoneBad(vs);
    CompleteHasReason(vs);
    ReasonIs(parse, stream, st.stop);
    UsageIs(parse, stream, st);
    StartIs(parse, stream, st.id);
  }

  lemma CompleteHasReason(vs: seq<View>)
    requires Complete(vs)
    ensures HasReason(vs, |vs|)
  {
    hide BlockOrder, AllClose, DeltasLast, OneReason, HasReason, Framed;
  }
}
