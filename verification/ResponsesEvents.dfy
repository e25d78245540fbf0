/** Responses streams on the wire: which events the replay takes, member by member, and
    what the response of an accepted stream holds. */
module ResponsesEvents {
  import opened Wrappers
  import opened Json
  import opened ProviderUsage
  import opened Sse
  import opened StreamFields
  import opened EventFields
  import opened ResponsesReplay
  import Streams = StreamImport

  // ----- What an event looks like -----

  /** A numbered event of the given type, under that name or none. */
  predicate IsEvent(parse: Parse, e: Event, kind: string) {
    var j := Body(parse, e);
    j.Obj? && Get(j, "type") == Str(kind) && e.name in {"", kind} && IsCount(Get(j, "sequence_number"), 4097)
  }

  const LIFECYCLE := {"response.created", "response.in_progress", "response.completed", "response.failed",
                      "response.incomplete"}

  /** The status a lifecycle event may report. */
  predicate StatusFits(kind: string, status: Json) {
    match kind
    case "response.created" => status in {Str("queued"), Str("in_progress")}
    case "response.in_progress" => status == Str("in_progress")
    case "response.completed" => status == Str("completed")
    case "response.failed" => status == Str("failed")
    case "response.incomplete" => status == Str("incomplete")
    case _ => false
  }

  predicate SnapshotShape(kind: string, r: Json) {
    r.Obj? && Identifies(r) && Get(r, "object") == Str("response") && StatusFits(kind, Get(r, "status"))
  }

  /** The part of an output event that depends on its kind. */
  predicate ContentShape(j: Json, kind: string) {
    match kind
    case "response.output_item.added" | "response.output_item.done" =>
      var item := Get(j, "item");
      && item.Obj? && IsToken(Get(item, "id"))
      && Get(item, "type") in {Str("message"), Str("function_call"), Str("reasoning")}
    case "response.output_text.delta" | "response.refusal.delta" | "response.function_call_arguments.delta"
       | "response.reasoning_summary_text.delta" | "response.reasoning_text.delta" =>
      IsToken(Get(j, "item_id")) && Get(j, "delta").Str?
    case "response.output_text.done" | "response.reasoning_summary_text.done" | "response.reasoning_text.done" =>
      IsToken(Get(j, "item_id")) && Get(j, "text").Str?
    case "response.function_call_arguments.done" => IsToken(Get(j, "item_id")) && Get(j, "arguments").Str?
    case "response.refusal.done" => IsToken(Get(j, "item_id")) && Get(j, "refusal").Str?
    case "response.content_part.added" | "response.content_part.done"
       | "response.reasoning_summary_part.added" | "response.reasoning_summary_part.done" =>
      var part := Get(j, "part");
      && IsToken(Get(j, "item_id")) && part.Obj?
      && Get(part, "type") in {Str("output_text"), Str("refusal"), Str("summary_text"), Str("reasoning_text")}
    case _ => false
  }

  predicate OutputShape(j: Json, kind: string) {
    && ContentShape(j, kind) && !Has(j, "usage") && IsCount(Get(j, "output_index"), 4095)
    && (Has(j, "response_id") ==> Get(j, "response_id").Str?)
  }

  /** A snapshot of the response. */
  predicate IsSnapshot(parse: Parse, e: Event) {
    var j := Body(parse, e);
    exists kind | kind in LIFECYCLE :: IsEvent(parse, e, kind) && SnapshotShape(kind, Get(j, "response"))
  }

  const OUTPUTS := {"response.output_item.added", "response.output_item.done", "response.output_text.delta",
                    "response.refusal.delta", "response.function_call_arguments.delta",
                    "response.reasoning_summary_text.delta", "response.reasoning_text.delta",
                    "response.output_text.done", "response.reasoning_summary_text.done",
                    "response.reasoning_text.done", "response.function_call_arguments.done",
                    "response.refusal.done", "response.content_part.added", "response.content_part.done",
                    "response.reasoning_summary_part.added", "response.reasoning_summary_part.done"}

  /** A piece of output. */
  predicate IsOutput(parse: Parse, e: Event) {
    var j := Body(parse, e);
    exists kind | kind in OUTPUTS :: IsEvent(parse, e, kind) && OutputShape(j, kind)
  }

  lemma HeaderIs(parse: Parse, e: Event)
    ensures var j := Body(parse, e);
            && (Header(parse, e).Ok? <==> && j.Obj? && IsText(Get(j, "type"), 128) && e.name in {"", Get(j, "type").s}
                                          && IsCount(Get(j, "sequence_number"), 4097))
            && (Header(parse, e).Ok? ==>
                  Header(parse, e).value == Envelope(j, Get(j, "type").s, Get(j, "sequence_number").n))
  {
    DecodeIs(parse, e);
    TextIs(Body(parse, e), "type", 128);
    CountIs(Get(Body(parse, e), "sequence_number"), 4097);
    hide Decode, Body, Text, IsText, Integer;
  }

  lemma StatusIs(kind: string, r: Json)
    requires kind in LIFECYCLE
    ensures Status(kind, r).Ok? <==> StatusFits(kind, Get(r, "status"))
    ensures Status(kind, r).Ok? ==> Get(r, "status") == Str(Status(kind, r).value)
  {
    TextIs(r, "status", 64);
    hide Text;
    if Get(r, "status").Str? {
      var s := Get(r, "status").s;
      assert ("response." + s)[9..] == s;
    }
    assert "response.completed"[9..] == "completed" && "response.failed"[9..] == "failed";
    assert "response.incomplete"[9..] == "incomplete";
  }

  lemma ItemIs(j: Json, kind: string)
    requires kind in ITEM_EVENTS
    ensures ItemBody(j, kind).Ok? <==> ContentShape(j, kind)
  {
    TextIs(Get(j, "item"), "type", 64);
    TokenIs(Get(Get(j, "item"), "id"));
    hide Text, OpaqueId, IsToken;
  }

  lemma DeltaIs(j: Json, kind: string)
    requires kind in DELTA_EVENTS
    ensures ItemBody(j, kind).Ok? <==> ContentShape(j, kind)
  {
    TokenIs(Get(j, "item_id"));
    hide Text, OpaqueId, IsToken;
  }

  lemma DoneIs(j: Json, kind: string)
    requires kind in TEXT_EVENTS + OTHER_EVENTS
    ensures ItemBody(j, kind).Ok? <==> ContentShape(j, kind)
  {
    TokenIs(Get(j, "item_id"));
    hide Text, OpaqueId, IsToken;
  }

  lemma PartIs(j: Json, kind: string)
    requires kind in PART_EVENTS
    ensures ItemBody(j, kind).Ok? <==> ContentShape(j, kind)
  {
    TextIs(Get(j, "part"), "type", 64);
    TokenIs(Get(j, "item_id"));
    hide Text, OpaqueId, IsToken;
  }

  lemma ContentIs(j: Json, kind: string)
    requires kind in OUTPUTS
    ensures ItemBody(j, kind).Ok? <==> ContentShape(j, kind)
  {
    hide ItemBody, ContentShape;
    if kind in ITEM_EVENTS {
      ItemIs(j, kind);
    } else if kind in DELTA_EVENTS {
      DeltaIs(j, kind);
    } else if kind in PART_EVENTS {
      PartIs(j, kind);
    } else {
      DoneIs(j, kind);
    }
  }

  lemma NoContent(j: Json, kind: string)
    ensures kind in ITEM_EVENTS + DELTA_EVENTS + TEXT_EVENTS + PART_EVENTS + OTHER_EVENTS <==> kind in OUTPUTS
    ensures ContentShape(j, kind) ==> kind in OUTPUTS
  {
  }

  lemma OutputIs(j: Json, kind: string, response: string)
    ensures OutputEvent(j, kind, response).Ok? <==>
              OutputShape(j, kind) && (Has(j, "response_id") ==> Get(j, "response_id") == Str(response))
  {
    NoContent(j, kind);
    CountIs(Get(j, "output_index"), 4095);
    if kind in OUTPUTS {
      ContentIs(j, kind);
    }
    hide ItemBody, ContentShape, Integer;
  }

  lemma EventIs(parse: Parse, e: Event, kind: string)
    requires kind in LIFECYCLE + OUTPUTS
    ensures IsEvent(parse, e, kind) <==> Header(parse, e).Ok? && Header(parse, e).value.kind == kind
    ensures IsEvent(parse, e, kind) ==>
              var h, j := Header(parse, e).value, Body(parse, e);
              h.body == j && Get(j, "sequence_number") == Int(h.seqNo)
  {
    hide Header, Body;
    HeaderIs(parse, e);
    assert |kind| <= 128;
  }

  /** What the replay reads in an event it takes. */
  predicate Reads(v: View, j: Json) {
    match v
    case Snapshot(phase, seqNo, id, usage) =>
      var r := Get(j, "response");
      && Get(j, "sequence_number") == Int(seqNo) && Get(r, "usage") == usage
      && Get(r, "id") == Str(id.response) && Get(r, "model") == Str(id.model) && Get(r, "object") == Str("response")
      && (match phase
          case Created => Get(j, "type") == Str("response.created")
          case InProgress => Get(j, "type") == Str("response.in_progress")
          case Terminal(status) =>
            && Get(r, "status") == Str(status)
            && Get(j, "type") in {Str("response.completed"), Str("response.failed"), Str("response.incomplete")})
    case Output(seqNo, response) =>
      && Get(j, "sequence_number") == Int(seqNo)
      && (if response.Some? then Get(j, "response_id") == Str(response.value) else !Has(j, "response_id"))
    case Bad => true
  }

  lemma SnapshotIs(parse: Parse, e: Event, kind: string)
    requires kind in LIFECYCLE && IsEvent(parse, e, kind)
    ensures var v, j := ViewOf(parse, e), Body(parse, e);
            && !v.Output? && (v.Snapshot? <==> SnapshotShape(kind, Get(j, "response"))) && Reads(v, j)
  {
    hide Header, Body, IdentityOf, Identifies, Status, StatusFits, OutputEvent;
    EventIs(parse, e, kind);
    StatusIs(kind, Get(Body(parse, e), "response"));
    IdentityIs(Get(Body(parse, e), "response"));
    hide IsEvent;
    KindOf(parse, e, kind);
  }

  lemma KindOf(parse: Parse, e: Event, kind: string)
    requires IsEvent(parse, e, kind)
    ensures Get(Body(parse, e), "type") == Str(kind)
  {
  }

  lemma OutputIsNoSnapshot(kind: string)
    ensures kind in OUTPUTS ==> !IsLifecycle(kind)
    ensures IsLifecycle(kind) <==> kind in LIFECYCLE
  {
  }

  lemma OutputViewIs(parse: Parse, e: Event, kind: string)
    requires kind in OUTPUTS && IsEvent(parse, e, kind)
    ensures var v, j := ViewOf(parse, e), Body(parse, e);
            && !v.Snapshot? && (v.Output? <==> OutputShape(j, kind)) && Reads(v, j)
  {
    hide Header, Body, Status, OutputEvent, ContentShape, IsLifecycle, IsEvent;
    EventIs(parse, e, kind);
    OutputIsNoSnapshot(kind);
    var id := Get(Body(parse, e), "response_id");
    OutputIs(Body(parse, e), kind, if id.Str? then id.s else "");
  }

  lemma OtherIsBad(parse: Parse, e: Event)
    requires Header(parse, e).Ok? && Header(parse, e).value.kind !in LIFECYCLE + OUTPUTS
    ensures ViewOf(parse, e).Bad?
  {
    hide Header, OutputEvent, Status;
    var j, kind := Header(parse, e).value.body, Header(parse, e).value.kind;
    var id := Get(j, "response_id");
    OutputIs(j, kind, if id.Str? then id.s else "");
    NoContent(j, kind);
    hide OutputShape;
  }

  /** Which events the replay takes, and what it reads in each. */
  lemma ViewIs(parse: Parse, e: Event)
    ensures var v := ViewOf(parse, e);
            && (v.Snapshot? <==> IsSnapshot(parse, e)) && (v.Output? <==> IsOutput(parse, e))
            && Reads(v, Body(parse, e))
  {
    hide ViewOf, Header, Body, IsEvent, SnapshotShape, OutputShape, Reads;
    HeaderBad(parse, e);
    forall kind | kind in LIFECYCLE + OUTPUTS
      ensures IsEvent(parse, e, kind) <==> Header(parse, e).Ok? && Header(parse, e).value.kind == kind
    {
      EventIs(parse, e, kind);
    }
    if Header(parse, e).Ok? {
      var kind := Header(parse, e).value.kind;
      if kind in LIFECYCLE {
        SnapshotIs(parse, e, kind);
      } else if kind in OUTPUTS {
        OutputViewIs(parse, e, kind);
      } else {
        OtherIsBad(parse, e);
      }
    }
  }

  lemma HeaderBad(parse: Parse, e: Event)
    ensures Header(parse, e).Err? ==> ViewOf(parse, e).Bad?
    ensures Reads(Bad, Body(parse, e))
  {
  }

  // ----- What the response holds -----

  /** The last event's snapshot settles the state. */
  lemma LastSettles(parse: Parse, stream: seq<Event>)
    requires Responses(parse, stream).Ok?
    ensures stream != []
    ensures var st, last := Responses(parse, stream).value, Body(parse, stream[|stream| - 1]);
            var r := Get(last, "response");
            && Get(r, "id") == Str(st.id.response) && Get(r, "model") == Str(st.id.model)
            && Get(r, "object") == Str("response")
            && Get(r, "status") == Str(st.final.status) && Get(r, "usage") == st.final.usage
            && Get(last, "type") in {Str("response.completed"), Str("response.failed"), Str("response.incomplete")}
  {
    hide ViewOf, Body, Responses, Usages, Complete;
    var vs := Views(parse, stream);
    ResponsesAcceptsComplete(parse, stream);
    LastIsAbout(vs);
    ViewIs(parse, stream[|stream| - 1]);
    hide IsSnapshot, IsOutput;
  }

  lemma LastIsAbout(vs: seq<View>)
    requires Complete(vs)
    ensures vs != [] && About(vs[|vs| - 1], vs[0].id)
  {
  }

  /** What replaying an accepted Responses stream gives: the identity, status and usage
      of the last event's own snapshot, whatever was reported before. */
  lemma ResponsesReply(parse: Parse, stream: seq<Event>)
    requires Streams.Replay(parse, "openai_responses", stream).Ok?
    ensures stream != []
    ensures var r := Streams.Replay(parse, "openai_responses", stream).value;
            var last := Body(parse, stream[|stream| - 1]);
            && r.Obj? && r.fields.Keys == {"id", "model", "object", "status", "usage"}
            && (forall key :: key in r.fields ==> r.fields[key] == Get(Get(last, "response"), key))
            && Get(last, "type") in {Str("response.completed"), Str("response.failed"), Str("response.incomplete")}
  {
    hide Body, Responses;
    LastSettles(parse, stream);
  }
}
