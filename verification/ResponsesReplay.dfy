/** The Responses stream: contiguous sequence numbers, lifecycle snapshots of one
    response, cumulative usage, and one terminal event at the end. */
module ResponsesReplay {
  import opened Wrappers
  import opened Json
  import opened Sse
  import opened StreamFields
  import opened ProviderUsage
  import opened UsageHistory
  import opened OpenAiHistory

  /** What the terminal event settles. */
  datatype Final = Final(status: string, usage: Json)

  datatype State = State(id: Identity, next: Option<nat>, origin: nat, ended: bool, final: Final, bounds: Bounds)

  const NO_FINAL := Final("", Null)
  const START := State(UNSEEN, None, 0, false, NO_FINAL, map[])

  const CREATED := "response.created"
  const IN_PROGRESS := "response.in_progress"

  predicate IsLifecycle(kind: string) {
    kind in {CREATED, IN_PROGRESS, "response.completed", "response.failed", "response.incomplete"}
  }

  const ITEM_EVENTS := {"response.output_item.added", "response.output_item.done"}
  const DELTA_EVENTS := {"response.output_text.delta", "response.refusal.delta",
                         "response.function_call_arguments.delta", "response.reasoning_summary_text.delta",
                         "response.reasoning_text.delta"}
  const TEXT_EVENTS := {"response.output_text.done", "response.reasoning_summary_text.done",
                        "response.reasoning_text.done"}
  const PART_EVENTS := {"response.content_part.added", "response.content_part.done",
                        "response.reasoning_summary_part.added", "response.reasoning_summary_part.done"}
  const OTHER_EVENTS := {"response.function_call_arguments.done", "response.refusal.done"}

  /** The body of an output event; content is checked for shape only. */
  function ItemBody(j: Json, kind: string): Result<Unit> {
    var body := if kind in ITEM_EVENTS then Get(j, "item") else Get(j, "part");
    if kind in ITEM_EVENTS then
      :- Need(body.Obj?, "stream_field_type");
      var item :- Text(body, "type", 64);
      :- Need(item in {"message", "function_call", "reasoning"}, "stream_content_unsupported");
      :- Need(Has(body, "id"), "stream_field_type");
      var _ :- OpaqueId(Get(body, "id"));
      Ok(Unit)
    else
      :- Need(Has(j, "item_id"), "stream_field_type");
      var _ :- OpaqueId(Get(j, "item_id"));
      if kind in DELTA_EVENTS then
        :- StringField(j, "delta");
        Ok(Unit)
      else if kind == "response.function_call_arguments.done" then
        :- StringField(j, "arguments");
        Ok(Unit)
      else if kind == "response.refusal.done" then
        :- StringField(j, "refusal");
        Ok(Unit)
      else if kind in TEXT_EVENTS then
        :- StringField(j, "text");
        Ok(Unit)
      else
        :- Need(body.Obj?, "stream_field_type");
        var part :- Text(body, "type", 64);
        :- Need(part in {"output_text", "refusal", "summary_text", "reasoning_text"}, "stream_content_unsupported");
        Ok(Unit)
  }

  function OutputEvent(j: Json, kind: string, response: string): Result<Unit> {
    var known := kind in ITEM_EVENTS + DELTA_EVENTS + TEXT_EVENTS + PART_EVENTS + OTHER_EVENTS;
    :- Need(known, "stream_event_unsupported");
    :- Need(!Has(j, "usage"), "stream_usage_position");
    :- Need(Has(j, "response_id") ==> Get(j, "response_id") == Str(response), "stream_identity_changed");
    :- Need(Has(j, "output_index"), "stream_field_type");
    var _ :- Integer(Get(j, "output_index"), 4095);
    ItemBody(j, kind)
  }

  /** An event with its type and sequence number. */
  datatype Envelope = Envelope(body: Json, kind: string, seqNo: nat)

  function Header(parse: Parse, e: Event): Result<Envelope> {
    var j :- Decode(parse, e);
    var kind :- Text(j, "type", 128);
    :- EventName(e, kind);
    :- Need(Has(j, "sequence_number"), "stream_sequence");
    var seqNo :- Integer(Get(j, "sequence_number"), EVENT_LIMIT + 1);
    Ok(Envelope(j, kind, seqNo))
  }

  function Status(kind: string, r: Json): Result<string> {
    var status :- Text(r, "status", 64);
    :- Need(if kind == CREATED then status in {"queued", "in_progress"}
            else if kind == IN_PROGRESS then status == "in_progress"
            else kind == "response." + status, "stream_status");
    Ok(status)
  }

  predicate IsTerminal(kind: string) { IsLifecycle(kind) && kind != CREATED && kind != IN_PROGRESS }

  function Record(u: Json, b: Bounds): Result<Bounds> {
    if u.Null? then Ok(b) else AcceptOpenAi(u, b)
  }

  function Step(parse: Parse, st: State, e: Event): Result<State> {
    var live := !st.ended;
    :- Need(live, "stream_after_terminal");
    var Envelope(j, kind, seqNo) :- Header(parse, e);
    :- Need(st.next.None? ==> kind == CREATED && seqNo <= 1, "stream_sequence_origin");
    var origin := if st.next.None? then seqNo else st.origin;
    :- Need(seqNo == st.next.GetOr(seqNo), "stream_sequence");
    var next := Some(seqNo + 1);
    if IsLifecycle(kind) then
      :- Need(kind == CREATED ==> seqNo == origin, "stream_repeated_start");
      :- Need(IsObject(j, "response"), "stream_field_type");
      var r := Get(j, "response");
      var id :- ObserveIdentity(st.id, r);
      :- Need(Get(r, "object") == Str("response"), "stream_response_kind");
      var status :- Status(kind, r);
      var u := Get(r, "usage");
      var bounds :- Record(u, st.bounds);
      if IsTerminal(kind) then Ok(State(id, next, origin, true, Final(status, u), bounds))
      else Ok(State(id, next, origin, false, NO_FINAL, bounds))
    else
      var _ :- OutputEvent(j, kind, st.id.response);
      Ok(st.(next := next, origin := origin))
  }

  function Run(parse: Parse, stream: seq<Event>, k: nat, st: State): Result<State>
    requires k <= |stream|
    decreases |stream| - k
  {
    if k == |stream| then Ok(st) else
    var st' :- Step(parse, st, stream[k]);
    Run(parse, stream, k + 1, st')
  }

  function Response(st: State): Json {
    Obj(map["id" := Str(st.id.response), "model" := Str(st.id.model), "object" := Str("response"),
            "status" := Str(st.final.status), "usage" := st.final.usage])
  }

  function Responses(parse: Parse, stream: seq<Event>): Result<State> {
    var st :- Run(parse, stream, 0, START);
    :- Need(st.ended, "stream_missing_terminal");
    Ok(st)
  }

  lemma RunStep(parse: Parse, stream: seq<Event>, k: nat, st: State)
    requires k <= |stream|
    ensures Run(parse, stream, k, st) ==
              if k == |stream| then Ok(st)
              else if Step(parse, st, stream[k]).Err? then Err(Step(parse, st, stream[k]).code)
              else Run(parse, stream, k + 1, Step(parse, st, stream[k]).value)
  {
    hide Step;
  }

  /** The replay loop over a whole stream. */
  method ReplayResponses(parse: Parse, stream: seq<Event>) returns (r: Result<State>)
    ensures r == Responses(parse, stream)
  {
    hide Header, OutputEvent, Status, Record, ObserveIdentity, Run;
    var id, next, origin, ended, final := UNSEEN, None, 0, false, NO_FINAL;
    var bounds: Bounds := map[];
    for k := 0 to |stream|
      invariant Run(parse, stream, k, State(id, next, origin, ended, final, bounds)) == Run(parse, stream, 0, START)
      invariant !ended ==> final == NO_FINAL
    {
      RunStep(parse, stream, k, State(id, next, origin, ended, final, bounds));
      :- Need(!ended, "stream_after_terminal");
      var h :- Header(parse, stream[k]);
      var j, kind, seqNo := h.body, h.kind, h.seqNo;
      if next.None? {
        :- Need(kind == CREATED && seqNo <= 1, "stream_sequence_origin");
        origin, next := seqNo, Some(seqNo);
      }
      :- Need(seqNo == next.value, "stream_sequence");
      next := Some(next.value + 1);
      if IsLifecycle(kind) {
        :- Need(kind == CREATED ==> seqNo == origin, "stream_repeated_start");
        :- Need(IsObject(j, "response"), "stream_field_type");
        var snapshot := Get(j, "response");
        id :- ObserveIdentity(id, snapshot);
        :- Need(Get(snapshot, "object") == Str("response"), "stream_response_kind");
        var status :- Status(kind, snapshot);
        ended := IsTerminal(kind);
        var u := Get(snapshot, "usage");
        bounds :- Record(u, bounds);
        if ended {
          final := Final(status, u);
        }
      } else {
        var _ :- OutputEvent(j, kind, id.response);
      }
    }
    RunStep(parse, stream, |stream|, State(id, next, origin, ended, final, bounds));
    :- Need(ended, "stream_missing_terminal");
    r := Ok(State(id, next, origin, ended, final, bounds));
  }

  // ----- What an event says, whatever came before it -----

  datatype Phase = Created | InProgress | Terminal(status: string)

  datatype View =
    | Snapshot(phase: Phase, seqNo: nat, id: Identity, usage: Json)
    | Output(seqNo: nat, response: Option<string>)
    | Bad

  function PhaseOf(kind: string, status: string): Phase {
    if kind == CREATED then Created else if kind == IN_PROGRESS then InProgress else Terminal(status)
  }

  function ViewOf(parse: Parse, e: Event): View {
    var h := Header(parse, e);
    if h.Err? then Bad else
    var Envelope(j, kind, seqNo) := h.value;
    if IsLifecycle(kind) then
      var r := Get(j, "response");
      if r.Obj? && IdentityOf(r).Ok? && Get(r, "object") == Str("response") && Status(kind, r).Ok? then
        Snapshot(PhaseOf(kind, Status(kind, r).value), seqNo, IdentityOf(r).value, Get(r, "usage"))
      else Bad
    else
      match Get(j, "response_id")
      case Str(s) => if OutputEvent(j, kind, s).Ok? then Output(seqNo, Some(s)) else Bad
      case _ => if OutputEvent(j, kind, "").Ok? then Output(seqNo, None) else Bad
  }

  predicate Allowed(st: State, v: View) {
    !st.ended &&
    match v
    case Bad => false
    case Output(seqNo, response) =>
      st.next == Some(seqNo) && response.GetOr(st.id.response) == st.id.response
    case Snapshot(phase, seqNo, id, usage) =>
      && (if st.next.None? then phase.Created? && seqNo <= 1
          else seqNo == st.next.value && (phase.Created? ==> seqNo == st.origin))
      && (st.id.response == "" || st.id == id)
      && Record(usage, st.bounds).Ok?
  }

  function Next(st: State, v: View): State {
    match v
    case Bad => st
    case Output(seqNo, _) => st.(next := Some(seqNo + 1))
    case Snapshot(phase, seqNo, id, usage) =>
      State(id, Some(seqNo + 1), if st.next.None? then seqNo else st.origin, phase.Terminal?,
            if phase.Terminal? then Final(phase.status, usage) else NO_FINAL,
            if Record(usage, st.bounds).Ok? then Record(usage, st.bounds).value else st.bounds)
  }

  lemma OutputEventIs(j: Json, kind: string, response: string)
    ensures OutputEvent(j, kind, response).Ok? <==>
              match Get(j, "response_id")
              case Str(s) => s == response && OutputEvent(j, kind, s).Ok?
              case _ => OutputEvent(j, kind, "").Ok?
  {
    hide ItemBody;
  }

  lemma StepIs(parse: Parse, st: State, e: Event)
    requires st.next.None? ==> st.id == UNSEEN
    ensures Step(parse, st, e).Ok? <==> Allowed(st, ViewOf(parse, e))
    ensures Step(parse, st, e).Ok? ==> Step(parse, st, e).value == Next(st, ViewOf(parse, e))
  {
    hide Header, OutputEvent, Status, Record, IdentityOf, ObserveIdentity;
    var h := Header(parse, e);
    if h.Ok? {
      OutputEventIs(h.value.body, h.value.kind, st.id.response);
    }
  }

  // ----- The accepted streams -----

  ghost predicate FromTheStart(v: View) { v.Snapshot? && v.phase.Created? && v.seqNo <= 1 }

  predicate SeqOf(v: View, n: nat) { (v.Snapshot? || v.Output?) && v.seqNo == n }

  /** An event of the response `id`. */
  predicate About(v: View, id: Identity) {
    match v
    case Snapshot(_, _, i, _) => i == id
    case Output(_, response) => response.GetOr(id.response) == id.response
    case Bad => false
  }

  predicate IsEnd(v: View) { v.Snapshot? && v.phase.Terminal? }

  /** The snapshots that report usage, in order. */
  function Usages(vs: seq<View>, k: nat): seq<Json>
    requires k <= |vs|
  {
    if k == 0 then []
    else if vs[k - 1].Snapshot? && !vs[k - 1].usage.Null? then Usages(vs, k - 1) + [vs[k - 1].usage]
    else Usages(vs, k - 1)
  }

  /** A complete stream: created once and first, numbered without a gap from zero
      or one, all about one response, and ended by its only terminal event. */
  ghost predicate Complete(vs: seq<View>) {
    && vs != [] && FromTheStart(vs[0])
    && (forall k :: 0 <= k < |vs| ==> SeqOf(vs[k], vs[0].seqNo + k) && About(vs[k], vs[0].id))
    && (forall k :: 0 < k < |vs| ==> !(vs[k].Snapshot? && vs[k].phase.Created?))
    && (forall k :: 0 <= k < |vs| ==> (IsEnd(vs[k]) <==> k == |vs| - 1))
  }

  ghost predicate Inv(vs: seq<View>, k: nat, st: State)
    requires k <= |vs|
  {
    if k == 0 then st == START
    else
      && FromTheStart(vs[0]) && st.origin == vs[0].seqNo && st.next == Some(vs[0].seqNo + k)
      && st.id == vs[0].id && st.id.response != ""
      && (forall m :: 0 <= m < k ==> SeqOf(vs[m], vs[0].seqNo + m) && About(vs[m], vs[0].id))
      && (forall m :: 0 < m < k ==> !(vs[m].Snapshot? && vs[m].phase.Created?))
      && (forall m :: 0 <= m < k - 1 ==> !IsEnd(vs[m]))
      && (st.ended <==> IsEnd(vs[k - 1]))
      && (st.ended ==> st.final == Final(vs[k - 1].phase.status, vs[k - 1].usage))
  }

  lemma InvNext(vs: seq<View>, k: nat, st: State)
    requires k < |vs| && Inv(vs, k, st) && Allowed(st, vs[k]) && (vs[k].Snapshot? ==> vs[k].id.response != "")
    ensures Inv(vs, k + 1, Next(st, vs[k]))
  {
    hide Record;
  }

  lemma CompleteAllows(vs: seq<View>, k: nat, st: State)
    requires k < |vs| && Inv(vs, k, st) && Complete(vs)
    requires vs[k].Snapshot? ==> Record(vs[k].usage, st.bounds).Ok?
    ensures Allowed(st, vs[k])
  {
    hide Record;
    assert SeqOf(vs[k], vs[0].seqNo + k) && About(vs[k], vs[0].id);
  }

  lemma {:induction false} UsagesGrow(vs: seq<View>, k: nat, n: nat)
    requires k <= n <= |vs|
    ensures Usages(vs, k) <= Usages(vs, n)
    decreases n - k
  {
    if k < n {
      UsagesGrow(vs, k + 1, n);
    }
  }

  /** The usage an event reports is the next one of the run. */
  lemma RecordIsRun(vs: seq<View>, k: nat, b: Bounds)
    requires k < |vs| && vs[k].Snapshot?
    ensures var us, i := Usages(vs, |vs|), |Usages(vs, k)|;
            && i <= |Usages(vs, k + 1)| <= |us|
            && AcceptRun(us, i, b) ==
                 (var r := Record(vs[k].usage, b);
                  if r.Ok? then AcceptRun(us, |Usages(vs, k + 1)|, r.value) else Err(r.code))
  {
    hide AcceptOpenAi, Usages;
    UsagesGrow(vs, k, |vs|);
    UsagesGrow(vs, k + 1, |vs|);
    UsagesNext(vs, k);
    if !vs[k].usage.Null? {
      assert Usages(vs, k + 1)[|Usages(vs, k)|] == vs[k].usage;
    }
  }

  lemma UsagesNext(vs: seq<View>, k: nat)
    requires k < |vs| && vs[k].Snapshot?
    ensures Usages(vs, k + 1) == Usages(vs, k) + if vs[k].usage.Null? then [] else [vs[k].usage]
  {
  }

  function Views(parse: Parse, stream: seq<Event>): (vs: seq<View>)
    ensures |vs| == |stream| && forall k :: 0 <= k < |vs| ==> vs[k] == ViewOf(parse, stream[k])
  {
    seq(|stream|, k requires 0 <= k < |stream| => ViewOf(parse, stream[k]))
  }

  lemma ViewHasId(parse: Parse, e: Event)
    ensures var v := ViewOf(parse, e); v.Snapshot? ==> v.id.response != ""
  {
    hide Header, OutputEvent, Status;
  }

  lemma NextBounds(st: State, v: View)
    requires Allowed(st, v)
    ensures v.Snapshot? ==> Record(v.usage, st.bounds) == Ok(Next(st, v).bounds)
    ensures !v.Snapshot? ==> Next(st, v).bounds == st.bounds
  {
    hide Record;
  }

  lemma NoUsage(vs: seq<View>, k: nat)
    requires k < |vs| && !vs[k].Snapshot?
    ensures Usages(vs, k + 1) == Usages(vs, k)
  {
  }

  lemma {:induction false} RunIff(parse: Parse, stream: seq<Event>, k: nat, st: State)
    requires k <= |stream| && Inv(Views(parse, stream), k, st)
    requires |Usages(Views(parse, stream), k)| <= |Usages(Views(parse, stream), |stream|)|
    ensures var vs := Views(parse, stream);
            var history := AcceptRun(Usages(vs, |vs|), |Usages(vs, k)|, st.bounds);
            && (Complete(vs) && history.Ok? ==> Run(parse, stream, k, st).Ok?)
            && (Run(parse, stream, k, st).Ok? ==>
                  Inv(vs, |vs|, Run(parse, stream, k, st).value) &&
                  history == Ok(Run(parse, stream, k, st).value.bounds))
    decreases |stream| - k
  {
    hide Inv, Step, Allowed, ViewOf, Complete, Next, Record, AcceptRun, Usages;
    var vs := Views(parse, stream);
    if k < |stream| {
      var v := vs[k];
      ViewHasId(parse, stream[k]);
      StartsUnseen(vs, k, st);
      StepIs(parse, st, stream[k]);
      UsagesGrow(vs, k + 1, |vs|);
      if v.Snapshot? {
        RecordIsRun(vs, k, st.bounds);
      } else {
        NoUsage(vs, k);
      }
      if Complete(vs) && (v.Snapshot? ==> Record(v.usage, st.bounds).Ok?) {
        CompleteAllows(vs, k, st);
      }
      if Allowed(st, v) {
        InvNext(vs, k, st);
        NextBounds(st, v);
        RunIff(parse, stream, k + 1, Next(st, v));
      }
    } else {
      RunEnds(parse, stream, st);
      HistoryEnds(Usages(vs, |vs|), st.bounds);
    }
  }

  lemma StartsUnseen(vs: seq<View>, k: nat, st: State)
    requires k <= |vs| && Inv(vs, k, st)
    ensures st.next.None? ==> st.id == UNSEEN
  {
  }

  lemma RunEnds(parse: Parse, stream: seq<Event>, st: State)
    ensures Run(parse, stream, |stream|, st) == Ok(st)
  {
  }

  lemma HistoryEnds(us: seq<Json>, b: Bounds)
    ensures AcceptRun(us, |us|, b) == Ok(b)
  {
  }

  lemma EndIsComplete(vs: seq<View>, st: State)
    requires Inv(vs, |vs|, st)
    ensures st.ended <==> Complete(vs)
    ensures st.ended ==>
              var last := vs[|vs| - 1];
              st.id == vs[0].id && st.origin == vs[0].seqNo && st.final == Final(last.phase.status, last.usage)
  {
  }

  /** The replay accepts exactly the complete streams whose reported usage can be
      completed, snapshot by snapshot, above everything reported before; its
      result is the terminal event's own status and usage. */
  lemma ResponsesAcceptsComplete(parse: Parse, stream: seq<Event>)
    ensures var vs := Views(parse, stream);
            Responses(parse, stream).Ok? <==>
              Complete(vs) && var us := Usages(vs, |vs|); forall k :: 0 <= k < |us| ==> FeasibleAt(us, k)
    ensures Responses(parse, stream).Ok? ==>
              var vs, st := Views(parse, stream), Responses(parse, stream).value;
              var last := vs[|vs| - 1];
              && IsEnd(last) && st.final == Final(last.phase.status, last.usage)
              && st.id == vs[0].id && st.origin == vs[0].seqNo
              && IsHistory(Usages(vs, |vs|), st.bounds)
  {
    hide ViewOf, Run, Usages, AcceptRun, FeasibleAt, IsHistory;
    var vs := Views(parse, stream);
    var us := Usages(vs, |vs|);
    RunIsFeasible(us);
    NoneYet(vs);
    RunIff(parse, stream, 0, START);
    var run := Run(parse, stream, 0, START);
    if run.Ok? {
      EndIsComplete(vs, run.value);
    }
    hide Complete, Inv;
  }

  lemma NoneYet(vs: seq<View>)
    ensures Inv(vs, 0, START) && |Usages(vs, 0)| == 0
  {
  }
}
