/** The Anthropic Messages stream: one start, content blocks opened in order and
    each closed once, cumulative message deltas, and one stop at the end. */
module AnthropicReplay {
  import opened Wrappers
  import opened Json
  import opened Sse
  import opened StreamFields
  import opened ProviderUsage
  import opened UsageHistory
  import History = AnthropicHistory

  type Ledger = History.Ledger

  datatype State = State(ledger: Ledger, id: Identity, started: bool, delta: bool, ended: bool,
                         finalOutput: bool, stop: string, active: map<nat, string>, used: set<nat>)

  const START := State(History.EMPTY, UNSEEN, false, false, false, false, "", map[], {})

  /** The kind of an opening block. */
  function BlockKind(j: Json): (r: Result<string>)
    ensures r.Ok? ==> r.value != ""
  {
    var b := Get(j, "content_block");
    :- Need(b.Obj?, "stream_field_type");
    var kind :- Text(b, "type", 64);
    :- Need(kind in {"text", "thinking", "redacted_thinking", "tool_use"}, "stream_content_unsupported");
    if kind == "text" then
      :- StringField(b, "text");
      Ok(kind)
    else if kind == "thinking" then
      :- StringField(b, "thinking");
      :- Need(Has(b, "signature") ==> Get(b, "signature").Str?, "stream_field_type");
      Ok(kind)
    else if kind == "redacted_thinking" then
      :- StringField(b, "data");
      Ok(kind)
    else
      :- Need(Has(b, "id"), "stream_field_type");
      var _ :- OpaqueId(Get(b, "id"));
      var _ :- Text(b, "name", 256);
      :- Need(IsObject(b, "input"), "stream_field_type");
      Ok(kind)
  }

  /** Which deltas a block accepts. */
  predicate Fits(delta: string, block: string) {
    || (delta == "text_delta" && block == "text")
    || (delta in {"thinking_delta", "signature_delta"} && block == "thinking")
    || (delta == "input_json_delta" && block == "tool_use")
  }

  function DeltaKind(j: Json): Result<string> {
    var known := {"type", "index", "delta"};
    :- Fields(j, known);
    :- Need(IsObject(j, "delta"), "stream_field_type");
    Text(Get(j, "delta"), "type", 64)
  }

  function DeltaBody(j: Json, delta: string): Outcome {
    StringField(Get(j, "delta"),
      if delta == "text_delta" then "text" else if delta == "thinking_delta" then "thinking"
      else if delta == "signature_delta" then "signature" else "partial_json")
  }

  /** Id and usage of the opening message. */
  function StartMessage(m: Json): Result<Unit> {
    var role := Get(m, "type") == Str("message") && Get(m, "role") == Str("assistant");
    :- Need(role, "stream_response_kind");
    :- Need(Get(m, "content") == Arr([]), "stream_anthropic_initial_content");
    :- Need(Get(m, "stop_reason").Null?, "stream_status");
    Ok(Unit)
  }

  /** How a message delta speaks about the stop reason. */
  datatype Reason = Silent | Cleared | Given(reason: string)

  function ReasonOf(d: Json): Result<Reason> {
    if !Has(d, "stop_reason") then Ok(Silent)
    else if Get(d, "stop_reason").Null? then Ok(Cleared)
    else
      var reason :- Text(d, "stop_reason", 64);
      Ok(Given(reason))
  }

  function Agreed(stop: string, r: Reason): Outcome {
    match r
    case Silent => Pass
    case Cleared => Need(stop == "", "stream_stop_changed")
    case Given(reason) => Need(stop == "" || stop == reason, "stream_stop_changed")
  }

  function StopAfter(stop: string, r: Reason): string {
    if r.Given? then r.reason else stop
  }

  function DeltaHead(j: Json): Result<Json> {
    var d := Get(j, "delta");
    :- Need(d.Obj?, "stream_field_type");
    :- Fields(d, {"stop_reason", "stop_sequence"});
    Ok(d)
  }

  predicate StopSequence(d: Json) { Has(d, "stop_sequence") ==> StringOrNull(d, "stop_sequence") }

  /** The usage after a message delta that may carry an update. */
  function Apply(ledger: Ledger, j: Json): Result<Ledger> {
    if !Has(j, "usage") then Ok(ledger) else History.Update(ledger, Get(j, "usage"))
  }

  predicate ReportsOutput(j: Json) {
    Has(j, "usage") && (Get(j, "usage").Null? || Has(Get(j, "usage"), "output_tokens"))
  }

  function Begin(ledger: Ledger, u: Json): Result<Ledger> {
    if u.Null? then Ok(ledger) else History.Update(ledger, u)
  }

  function OnStart(st: State, j: Json): Result<State> {
    var known := {"type", "message"};
    :- Fields(j, known);
    :- Need(!st.started, "stream_repeated_start");
    var m := Get(j, "message");
    :- Need(m.Obj?, "stream_field_type");
    var id :- ObserveIdentity(st.id, m);
    var _ :- StartMessage(m);
    var ledger :- Begin(st.ledger, Get(m, "usage"));
    Ok(st.(id := id, ledger := ledger, started := true))
  }

  function OnOpen(st: State, j: Json): Result<State> {
    var known := {"type", "index", "content_block"};
    :- Fields(j, known);
    :- Need(!st.delta && Has(j, "index"), "stream_block_order");
    var index :- Integer(Get(j, "index"), 4095);
    :- Need(index == |st.used| && index !in st.used, "stream_block_index");
    var kind :- BlockKind(j);
    Ok(st.(used := st.used + {index}, active := st.active[index := kind]))
  }

  function BlockIndex(st: State, j: Json): (r: Result<nat>)
    ensures r.Ok? ==> r.value in st.active
  {
    var ordered := !st.delta && Has(j, "index");
    :- Need(ordered, "stream_block_order");
    var index :- Integer(Get(j, "index"), 4095);
    :- Need(index in st.active, "stream_block_index");
    Ok(index)
  }

  function OnClose(st: State, j: Json): Result<State> {
    var index :- BlockIndex(st, j);
    :- Fields(j, {"type", "index"});
    Ok(st.(active := st.active - {index}))
  }

  function OnDelta(st: State, j: Json): Result<State> {
    var index :- BlockIndex(st, j);
    var delta :- DeltaKind(j);
    :- Need(Fits(delta, st.active[index]), "stream_delta_type");
    :- DeltaBody(j, delta);
    Ok(st)
  }

  function OnMessageDelta(st: State, j: Json): Result<State> {
    var known := {"type", "delta", "usage"};
    :- Fields(j, known);
    :- Need(st.active == map[], "stream_unclosed_block");
    var d :- DeltaHead(j);
    var reason :- ReasonOf(d);
    :- Agreed(st.stop, reason);
    :- Need(StopSequence(d), "stream_field_type");
    var ledger :- Apply(st.ledger, j);
    Ok(st.(ledger := ledger, delta := true, stop := StopAfter(st.stop, reason),
           finalOutput := st.finalOutput || ReportsOutput(j)))
  }

  function OnStop(st: State, j: Json): Result<State> {
    var known := {"type"};
    :- Fields(j, known);
    :- Need(st.delta && st.active == map[] && st.stop != "", "stream_anthropic_nonterminal");
    Ok(st.(ended := true))
  }

  function Header(parse: Parse, e: Event): Result<(Json, string)> {
    var j :- Decode(parse, e);
    var kind :- Text(j, "type", 128);
    :- EventName(e, kind);
    Ok((j, kind))
  }

  function Step(parse: Parse, st: State, e: Event): Result<State> {
    var live := !st.ended;
    :- Need(live, "stream_after_terminal");
    var (j, kind) :- Header(parse, e);
    if kind == "ping" then
      :- Fields(j, {"type"});
      Ok(st)
    else if kind == "message_start" then OnStart(st, j)
    else if !st.started then Err("stream_missing_start")
    else if kind == "content_block_start" then OnOpen(st, j)
    else if kind == "content_block_stop" then OnClose(st, j)
    else if kind == "content_block_delta" then OnDelta(st, j)
    else if kind == "message_delta" then OnMessageDelta(st, j)
    else if kind == "message_stop" then OnStop(st, j)
    else Err("stream_event_unsupported")
  }

  function Run(parse: Parse, stream: seq<Event>, k: nat, st: State): Result<State>
    requires k <= |stream|
    decreases |stream| - k
  {
    if k == |stream| then Ok(st) else
    var st' :- Step(parse, st, stream[k]);
    Run(parse, stream, k + 1, st')
  }

  /** An initial output count is not final. */
  function FinalUsage(st: State): Json {
    if st.finalOutput then st.ledger.usage else Obj(FieldsOf(st.ledger.usage)["output_tokens" := Null])
  }

  function Response(st: State): Json {
    Obj(map["id" := Str(st.id.response), "model" := Str(st.id.model), "type" := Str("message"),
            "role" := Str("assistant"), "stop_reason" := Str(st.stop), "usage" := FinalUsage(st)])
  }

  function Anthropic(parse: Parse, stream: seq<Event>): Result<State> {
    var st :- Run(parse, stream, 0, START);
    :- Need(st.started && st.ended, "stream_missing_terminal");
    var _ :- AnthropicUsage(FinalUsage(st));
    Ok(st)
  }

  /** The replay loop over a whole stream. */
  method ReplayAnthropic(parse: Parse, stream: seq<Event>) returns (r: Result<State>)
    ensures r == Anthropic(parse, stream)
  {
    hide Header, Fields, BlockKind, DeltaKind, DeltaBody, Fits, DeltaHead, ReasonOf, StopSequence;
    hide Apply, Begin, StartMessage, ObserveIdentity, ReportsOutput, AnthropicUsage;
    var ledger, id, started, delta, ended, finalOutput := History.EMPTY, UNSEEN, false, false, false, false;
    var stop: string := "";
    var active: map<nat, string> := map[];
    var used: set<nat> := {};
    for k := 0 to |stream|
      invariant Run(parse, stream, k, State(ledger, id, started, delta, ended, finalOutput, stop, active, used)) ==
                Run(parse, stream, 0, START)
    {
      :- Need(!ended, "stream_after_terminal");
      var h :- Header(parse, stream[k]);
      var (j, kind) := h;
      if kind == "ping" {
        :- Fields(j, {"type"});
        continue;
      }
      if kind == "message_start" {
        :- Fields(j, {"type", "message"});
        :- Need(!started, "stream_repeated_start");
        var m := Get(j, "message");
        :- Need(m.Obj?, "stream_field_type");
        id :- ObserveIdentity(id, m);
        var _ :- StartMessage(m);
        ledger :- Begin(ledger, Get(m, "usage"));
        started := true;
        continue;
      }
      :- Need(started, "stream_missing_start");
      if kind == "content_block_start" {
        :- Fields(j, {"type", "index", "content_block"});
        :- Need(!delta && Has(j, "index"), "stream_block_order");
        var index :- Integer(Get(j, "index"), 4095);
        :- Need(index == |used| && index !in used, "stream_block_index");
        used := used + {index};
        var block :- BlockKind(j);
        active := active[index := block];
      } else if kind == "content_block_delta" || kind == "content_block_stop" {
        :- Need(!delta && Has(j, "index"), "stream_block_order");
        var index :- Integer(Get(j, "index"), 4095);
        :- Need(index in active, "stream_block_index");
        if kind == "content_block_stop" {
          :- Fields(j, {"type", "index"});
          active := active - {index};
        } else {
          var d :- DeltaKind(j);
          :- Need(Fits(d, active[index]), "stream_delta_type");
          :- DeltaBody(j, d);
        }
      } else if kind == "message_delta" {
        :- Fields(j, {"type", "delta", "usage"});
        :- Need(active == map[], "stream_unclosed_block");
        var d :- DeltaHead(j);
        var reason :- ReasonOf(d);
        :- Agreed(stop, reason);
        stop := StopAfter(stop, reason);
        :- Need(StopSequence(d), "stream_field_type");
        ledger :- Apply(ledger, j);
        finalOutput := finalOutput || ReportsOutput(j);
        delta := true;
      } else if kind == "message_stop" {
        :- Fields(j, {"type"});
        :- Need(delta && active == map[] && stop != "", "stream_anthropic_nonterminal");
        ended := true;
      } else {
        return Err("stream_event_unsupported");
      }
    }
    :- Need(started && ended, "stream_missing_terminal");
    var st := State(ledger, id, started, delta, ended, finalOutput, stop, active, used);
    var _ :- AnthropicUsage(FinalUsage(st));
    r := Ok(st);
  }

  // ----- What an event says, whatever came before it -----

  /** What an event says about usage. */
  datatype Report = NoReport | Report(usage: Json)

  datatype View =
    | Ping
    | Start(id: Identity, usage: Json)
    | Open(index: nat, kind: string)
    | Delta(index: nat, kind: string)
    | Close(index: nat)
    | MessageDelta(reason: Reason, report: Report)
    | Stop
    | Bad

  predicate IsBlock(v: View) { v.Open? || v.Delta? || v.Close? }

  function BlockView(j: Json, kind: string): View {
    if !Has(j, "index") || Integer(Get(j, "index"), 4095).Err? then Bad else
    var index := Integer(Get(j, "index"), 4095).value;
    if kind == "content_block_start" then
      if Fields(j, {"type", "index", "content_block"}).Pass? && BlockKind(j).Ok?
      then Open(index, BlockKind(j).value) else Bad
    else if kind == "content_block_stop" then
      if Fields(j, {"type", "index"}).Pass? then Close(index) else Bad
    else if DeltaKind(j).Ok? && DeltaBody(j, DeltaKind(j).value).Pass? then Delta(index, DeltaKind(j).value)
    else Bad
  }

  function StartView(j: Json): View {
    var m := Get(j, "message");
    if Fields(j, {"type", "message"}).Pass? && m.Obj? && IdentityOf(m).Ok? && StartMessage(m).Ok? then
      Start(IdentityOf(m).value, Get(m, "usage"))
    else Bad
  }

  function MessageDeltaView(j: Json): View {
    if Fields(j, {"type", "delta", "usage"}).Fail? || DeltaHead(j).Err? then Bad else
    var d := DeltaHead(j).value;
    if ReasonOf(d).Err? || !StopSequence(d) then Bad
    else MessageDelta(ReasonOf(d).value, if Has(j, "usage") then Report(Get(j, "usage")) else NoReport)
  }

  function ViewOf(parse: Parse, e: Event): View {
    var h := Header(parse, e);
    if h.Err? then Bad else
    var (j, kind) := h.value;
    if kind == "ping" then if Fields(j, {"type"}).Pass? then Ping else Bad
    else if kind == "message_start" then StartView(j)
    else if kind in {"content_block_start", "content_block_stop", "content_block_delta"} then BlockView(j, kind)
    else if kind == "message_delta" then MessageDeltaView(j)
    else if kind == "message_stop" then if Fields(j, {"type"}).Pass? then Stop else Bad
    else Bad
  }

  /** The update a view makes to the usage, if any. */
  function UpdateOf(v: View): Option<Json> {
    match v
    case Start(_, u) => if u.Null? then None else Some(u)
    case MessageDelta(_, Report(u)) => Some(u)
    case _ => None
  }

  function Record(v: View, ledger: Ledger): Result<Ledger> {
    var u := UpdateOf(v);
    if u.None? then Ok(ledger) else History.Update(ledger, u.value)
  }

  predicate Reports(v: View) {
    v.MessageDelta? && v.report.Report? && (v.report.usage.Null? || Has(v.report.usage, "output_tokens"))
  }

  predicate Allowed(st: State, v: View) {
    && !st.ended
    && Record(v, st.ledger).Ok?
    && match v
       case Ping => true
       case Start(id, _) => !st.started && (st.id.response == "" || st.id == id)
       case Open(index, _) => st.started && !st.delta && index == |st.used| && index !in st.used
       case Delta(index, kind) => st.started && !st.delta && index in st.active && Fits(kind, st.active[index])
       case Close(index) => st.started && !st.delta && index in st.active
       case MessageDelta(reason, _) => st.started && st.active == map[] && Agreed(st.stop, reason).Pass?
       case Stop => st.started && st.delta && st.active == map[] && st.stop != ""
       case Bad => false
  }

  function Next(st: State, v: View): State {
    var ledger := if Record(v, st.ledger).Ok? then Record(v, st.ledger).value else st.ledger;
    match v
    case Start(id, _) => st.(id := id, ledger := ledger, started := true)
    case Open(index, kind) => st.(used := st.used + {index}, active := st.active[index := kind])
    case Close(index) => st.(active := st.active - {index})
    case MessageDelta(reason, _) =>
      st.(ledger := ledger, delta := true, stop := StopAfter(st.stop, reason),
          finalOutput := st.finalOutput || Reports(v))
    case Stop => st.(ended := true)
    case _ => st
  }

  lemma StartIs(st: State, j: Json)
    ensures !st.ended ==> (OnStart(st, j).Ok? <==> Allowed(st, StartView(j)))
    ensures OnStart(st, j).Ok? ==> OnStart(st, j).value == Next(st, StartView(j))
  {
    hide Fields, StartMessage, IdentityOf, ObserveIdentity, History.Update;
  }

  lemma BlockIs(st: State, j: Json, kind: string)
    requires st.started && kind in {"content_block_start", "content_block_stop", "content_block_delta"}
    ensures var next := if kind == "content_block_start" then OnOpen(st, j)
                        else if kind == "content_block_stop" then OnClose(st, j) else OnDelta(st, j);
            && (!st.ended ==> (next.Ok? <==> Allowed(st, BlockView(j, kind))))
            && (next.Ok? ==> next.value == Next(st, BlockView(j, kind)))
  {
    hide Fields, BlockKind, DeltaKind, DeltaBody, Fits, History.Update, Agreed;
  }

  lemma MessageDeltaIs(st: State, j: Json)
    requires st.started
    ensures !st.ended ==> (OnMessageDelta(st, j).Ok? <==> Allowed(st, MessageDeltaView(j)))
    ensures OnMessageDelta(st, j).Ok? ==> OnMessageDelta(st, j).value == Next(st, MessageDeltaView(j))
  {
    hide Fields, DeltaHead, ReasonOf, StopSequence, History.Update, Agreed;
  }

  lemma PlainIs(st: State, j: Json)
    ensures Allowed(st, Ping) <==> !st.ended
    ensures !Allowed(st, Bad) && Next(st, Ping) == st
    ensures st.started && !st.ended ==>
              (OnStop(st, j).Ok? <==> Fields(j, {"type"}).Pass? && Allowed(st, Stop))
    ensures OnStop(st, j).Ok? ==> OnStop(st, j).value == Next(st, Stop)
  {
    hide Fields, History.Update, Agreed;
  }

  lemma OutsideIs(st: State, v: View)
    requires st.ended || (!st.started && !v.Ping? && !v.Start?)
    ensures !Allowed(st, v)
  {
    hide History.Update, Agreed, Fits;
  }

  lemma StepIs(parse: Parse, st: State, e: Event)
    ensures Step(parse, st, e).Ok? <==> Allowed(st, ViewOf(parse, e))
    ensures Step(parse, st, e).Ok? ==> Step(parse, st, e).value == Next(st, ViewOf(parse, e))
  {
    hide Header, Fields, OnStart, OnOpen, OnClose, OnDelta, OnMessageDelta, StartView, BlockView, MessageDeltaView;
    hide OnStop, Allowed, Next;
    var h := Header(parse, e);
    PlainIs(st, Null);
    if st.ended {
      OutsideIs(st, ViewOf(parse, e));
    } else if h.Ok? {
      var (j, kind) := h.value;
      PlainIs(st, j);
      StartIs(st, j);
      ViewKinds(j, kind);
      if !st.started && kind !in {"ping", "message_start"} {
        OutsideIs(st, ViewOf(parse, e));
      }
      if st.started {
        MessageDeltaIs(st, j);
        if kind in {"content_block_start", "content_block_stop", "content_block_delta"} {
          BlockIs(st, j, kind);
        }
      }
    }
  }

  lemma ViewKinds(j: Json, kind: string)
    ensures BlockView(j, kind).Bad? || IsBlock(BlockView(j, kind))
    ensures MessageDeltaView(j).Bad? || MessageDeltaView(j).MessageDelta?
  {
    hide Fields, DeltaHead, ReasonOf, StopSequence, BlockKind, DeltaKind, DeltaBody;
  }

  // ----- The accepted streams -----

  /** How many blocks the first `k` events open. */
  function Opened(vs: seq<View>, k: nat): nat
    requires k <= |vs|
  {
    if k == 0 then 0 else Opened(vs, k - 1) + if vs[k - 1].Open? then 1 else 0
  }

  /** Block `i` of kind `kind` was opened before event `k` and not closed since. */
  ghost predicate IsOpen(vs: seq<View>, k: nat, i: nat, kind: string)
    requires k <= |vs|
  {
    exists o :: 0 <= o < k && OpenSince(vs, o, k, i, kind)
  }

  ghost predicate OpenSince(vs: seq<View>, o: nat, k: nat, i: nat, kind: string)
    requires o < k <= |vs|
  {
    vs[o] == Open(i, kind) && forall m :: o < m < k ==> vs[m] != Close(i)
  }

  /** Blocks open as 0, 1, 2, ..., and deltas and closes fall inside their open block. */
  ghost predicate BlockOrder(vs: seq<View>, k: nat)
    requires k < |vs|
  {
    match vs[k]
    case Open(i, _) => i == Opened(vs, k)
    case Close(i) => exists kind :: IsOpen(vs, k, i, kind)
    case Delta(i, d) => exists kind :: IsOpen(vs, k, i, kind) && Fits(d, kind)
    case _ => true
  }

  /** Every opened block is closed later. */
  ghost predicate AllClose(vs: seq<View>) {
    forall o :: 0 <= o < |vs| && vs[o].Open? ==> exists m :: o < m < |vs| && vs[m] == Close(vs[o].index)
  }

  /** No block event after the first message delta. */
  ghost predicate DeltasLast(vs: seq<View>, k: nat)
    requires k <= |vs|
  {
    forall m, j :: 0 <= m < j < k && vs[m].MessageDelta? ==> !IsBlock(vs[j])
  }

  /** The stop reason, once given, is repeated or left alone. */
  ghost predicate OneReason(vs: seq<View>, k: nat)
    requires k <= |vs|
  {
    forall m, j :: 0 <= m < j < k && vs[m].MessageDelta? && vs[m].reason.Given? && vs[j].MessageDelta? ==>
      vs[j].reason == Silent || vs[j].reason == vs[m].reason
  }

  ghost predicate HasReason(vs: seq<View>, k: nat)
    requires k <= |vs|
  {
    exists m :: 0 <= m < k && vs[m].MessageDelta? && vs[m].reason.Given?
  }

  /** One start, after nothing but pings, and one stop, at the very end. */
  ghost predicate Framed(vs: seq<View>, s: nat) {
    && s < |vs| && vs[s].Start?
    && (forall m :: 0 <= m < s ==> vs[m] == Ping)
    && (forall m :: s < m < |vs| ==> !vs[m].Start? && !vs[m].Bad?)
    && (forall m :: 0 <= m < |vs| ==> (vs[m] == Stop <==> m == |vs| - 1))
  }

  ghost predicate Complete(vs: seq<View>) {
    && (exists s: nat :: Framed(vs, s))
    && (forall k :: 0 <= k < |vs| ==> BlockOrder(vs, k))
    && AllClose(vs) && DeltasLast(vs, |vs|) && OneReason(vs, |vs|) && HasReason(vs, |vs|)
  }

  // ----- What the state remembers -----

  ghost predicate FrameInv(vs: seq<View>, k: nat, st: State)
    requires k <= |vs|
  {
    && (forall m :: 0 <= m < k ==> !vs[m].Bad? && (vs[m] == Stop ==> m == k - 1))
    && (st.ended <==> k > 0 && vs[k - 1] == Stop)
    && (!st.started ==> st.id == UNSEEN && forall m :: 0 <= m < k ==> vs[m] == Ping)
    && (st.started ==> exists s :: 0 <= s < k && StartedAt(vs, s, k, st.id))
  }

  ghost predicate StartedAt(vs: seq<View>, s: nat, k: nat, id: Identity)
    requires s < k <= |vs|
  {
    && vs[s].Start? && vs[s].id == id
    && (forall m :: 0 <= m < s ==> vs[m] == Ping)
    && (forall m :: s < m < k ==> !vs[m].Start?)
  }

  function Indices(n: nat): (s: set<nat>)
    ensures forall i: nat :: i in s <==> i < n
    ensures |s| == n
  {
    if n == 0 then {} else Indices(n - 1) + {n - 1}
  }

  /** The active blocks are exactly the open ones. */
  ghost predicate ActiveInv(vs: seq<View>, k: nat, active: map<nat, string>)
    requires k <= |vs|
  {
    && (forall i: nat :: i in active ==> i < Opened(vs, k) && IsOpen(vs, k, i, active[i]))
    && (forall i: nat, kind :: IsOpen(vs, k, i, kind) ==> i in active && active[i] == kind)
  }

  ghost predicate BlockInv(vs: seq<View>, k: nat, st: State)
    requires k <= |vs|
  {
    && st.used == Indices(Opened(vs, k))
    && ActiveInv(vs, k, st.active)
    && (forall m :: 0 <= m < k ==> BlockOrder(vs, m))
  }

  ghost predicate DeltaInv(vs: seq<View>, k: nat, st: State)
    requires k <= |vs|
  {
    && DeltasLast(vs, k) && OneReason(vs, k)
    && (st.delta <==> exists m :: 0 <= m < k && vs[m].MessageDelta?)
    && (st.delta ==> st.active == map[])
    && (st.stop != "" <==> HasReason(vs, k))
    && (forall m :: 0 <= m < k && vs[m].MessageDelta? && vs[m].reason.Given? ==> vs[m].reason.reason == st.stop)
    && (st.ended ==> st.delta && st.stop != "")
  }

  lemma FrameNext(vs: seq<View>, k: nat, st: State)
    requires k < |vs| && FrameInv(vs, k, st) && Allowed(st, vs[k])
    ensures FrameInv(vs, k + 1, Next(st, vs[k]))
  {
    hide History.Update, Fits, Agreed;
    var st' := Next(st, vs[k]);
    if st.started {
      var s :| 0 <= s < k && StartedAt(vs, s, k, st.id);
      assert StartedAt(vs, s, k + 1, st'.id);
    } else if st'.started {
      assert StartedAt(vs, k, k + 1, st'.id);
    }
  }

  lemma DeltaNext(vs: seq<View>, k: nat, st: State)
    requires k < |vs| && DeltaInv(vs, k, st) && Allowed(st, vs[k])
    requires vs[k].MessageDelta? && vs[k].reason.Given? ==> vs[k].reason.reason != ""
    ensures DeltaInv(vs, k + 1, Next(st, vs[k]))
  {
    hide History.Update, Fits;
  }

  /** How one more event changes what is open. */
  lemma OpenNext(vs: seq<View>, k: nat, i: nat, kind: string)
    requires k < |vs|
    ensures IsOpen(vs, k + 1, i, kind) <==> vs[k] == Open(i, kind) || (IsOpen(vs, k, i, kind) && vs[k] != Close(i))
  {
    if IsOpen(vs, k + 1, i, kind) {
      var o :| 0 <= o < k + 1 && OpenSince(vs, o, k + 1, i, kind);
      if o < k {
        assert OpenSince(vs, o, k, i, kind);
      }
    }
    if vs[k] == Open(i, kind) {
      assert OpenSince(vs, k, k + 1, i, kind);
    } else if IsOpen(vs, k, i, kind) && vs[k] != Close(i) {
      var o :| 0 <= o < k && OpenSince(vs, o, k, i, kind);
      assert OpenSince(vs, o, k + 1, i, kind);
    }
  }

  function ActiveAfter(active: map<nat, string>, v: View): map<nat, string> {
    match v
    case Open(i, kind) => active[i := kind]
    case Close(i) => active - {i}
    case _ => active
  }

  lemma ActiveNext(vs: seq<View>, k: nat, active: map<nat, string>)
    requires k < |vs| && ActiveInv(vs, k, active) && (vs[k].Open? ==> vs[k].index == Opened(vs, k))
    ensures ActiveInv(vs, k + 1, ActiveAfter(active, vs[k]))
  {
    hide IsOpen;
    var n, v, after := k + 1, vs[k], ActiveAfter(active, vs[k]);
    forall i: nat, kind
      ensures IsOpen(vs, n, i, kind) <==> v == Open(i, kind) || (IsOpen(vs, k, i, kind) && v != Close(i))
    {
      OpenNext(vs, k, i, kind);
    }
    forall i: nat, kind | IsOpen(vs, n, i, kind) ensures i in after && after[i] == kind {
      if v != Open(i, kind) {
        assert IsOpen(vs, k, i, kind) && i in active && active[i] == kind;
      }
    }
    forall i | i in after ensures i < Opened(vs, n) && IsOpen(vs, n, i, after[i]) {
      if i in active {
        assert IsOpen(vs, k, i, active[i]);
      }
    }
  }

  /** An allowed block event is in order. */
  lemma AllowedInOrder(vs: seq<View>, k: nat, st: State)
    requires k < |vs| && st.used == Indices(Opened(vs, k)) && ActiveInv(vs, k, st.active) && Allowed(st, vs[k])
    ensures BlockOrder(vs, k)
  {
    hide History.Update, Fits, Agreed, IsOpen, Indices;
  }

  lemma NextBlocks(st: State, v: View)
    requires Allowed(st, v)
    ensures Next(st, v).active == ActiveAfter(st.active, v)
    ensures Next(st, v).used == st.used + if v.Open? then {|st.used|} else {}
  {
    hide History.Update, Fits, Agreed;
  }

  lemma IndicesNext(n: nat)
    ensures |Indices(n)| == n && Indices(n + 1) == Indices(n) + {n}
  {
  }

  lemma OpenedNext(vs: seq<View>, k: nat)
    requires k < |vs|
    ensures Opened(vs, k + 1) == Opened(vs, k) + if vs[k].Open? then 1 else 0
  {
  }

  lemma BlockNext(vs: seq<View>, k: nat, st: State)
    requires k < |vs| && BlockInv(vs, k, st) && Allowed(st, vs[k])
    ensures BlockInv(vs, k + 1, Next(st, vs[k]))
  {
    hide Allowed, Next, BlockOrder, ActiveInv, ActiveAfter, Indices, Opened;
    IndicesNext(Opened(vs, k));
    OpenedNext(vs, k);
    AllowedInOrder(vs, k, st);
    OpensInOrder(vs, k);
    NextBlocks(st, vs[k]);
    ActiveNext(vs, k, st.active);
  }

  lemma OpensInOrder(vs: seq<View>, k: nat)
    requires k < |vs| && BlockOrder(vs, k)
    ensures vs[k].Open? ==> vs[k].index == Opened(vs, k)
  {
  }

  ghost predicate Inv(vs: seq<View>, k: nat, st: State)
    requires k <= |vs|
  {
    FrameInv(vs, k, st) && BlockInv(vs, k, st) && DeltaInv(vs, k, st)
  }

  // ----- Complete streams are accepted -----

  lemma OpenWillClose(vs: seq<View>, k: nat, i: nat, kind: string)
    requires k <= |vs| && IsOpen(vs, k, i, kind) && AllClose(vs)
    ensures exists m :: k <= m < |vs| && vs[m] == Close(i)
  {
    var o :| 0 <= o < k && OpenSince(vs, o, k, i, kind);
    assert vs[o].Open?;
    var m :| o < m < |vs| && vs[m] == Close(vs[o].index);
    assert m >= k;
  }

  /** Before a message delta or the end, every block has been closed. */
  lemma NothingOpen(vs: seq<View>, k: nat, active: map<nat, string>)
    requires k < |vs| && ActiveInv(vs, k, active) && AllClose(vs)
    requires forall m :: k <= m < |vs| ==> !vs[m].Close?
    ensures active == map[]
  {
    if active != map[] {
      var i :| i in active;
      OpenWillClose(vs, k, i, active[i]);
    }
  }

  lemma FrameAllows(vs: seq<View>, k: nat, st: State, s: nat)
    requires k < |vs| && FrameInv(vs, k, st) && Framed(vs, s)
    ensures !st.ended && !vs[k].Bad?
    ensures vs[k].Start? ==> !st.started && st.id == UNSEEN
    ensures vs[k] != Ping && !vs[k].Start? ==> st.started
  {
    if st.started {
      var t :| 0 <= t < k && StartedAt(vs, t, k, st.id);
      assert t == s;
    }
  }

  lemma ReasonAllows(vs: seq<View>, k: nat, st: State)
    requires k < |vs| && DeltaInv(vs, k, st) && OneReason(vs, |vs|) && vs[k].MessageDelta?
    ensures Agreed(st.stop, vs[k].reason).Pass?
  {
    if st.stop != "" {
      assert HasReason(vs, k);
      var m :| 0 <= m < k && vs[m].MessageDelta? && vs[m].reason.Given?;
      assert vs[m].reason.reason == st.stop;
    }
  }

  lemma StopAllows(vs: seq<View>, st: State)
    requires vs != [] && vs[|vs| - 1] == Stop && DeltaInv(vs, |vs| - 1, st) && HasReason(vs, |vs|)
    ensures st.delta && st.stop != ""
  {
    var m :| 0 <= m < |vs| && vs[m].MessageDelta? && vs[m].reason.Given?;
    assert m < |vs| - 1;
    assert HasReason(vs, |vs| - 1);
  }

  lemma BlockAllows(vs: seq<View>, k: nat, st: State)
    requires k < |vs| && BlockInv(vs, k, st) && BlockOrder(vs, k)
    ensures vs[k].Open? ==> vs[k].index == |st.used| && vs[k].index !in st.used
    ensures vs[k].Close? ==> vs[k].index in st.active
    ensures vs[k].Delta? ==> vs[k].index in st.active && Fits(vs[k].kind, st.active[vs[k].index])
  {
    hide IsOpen, Fits;
  }

  lemma DeltaAllows(vs: seq<View>, k: nat, st: State)
    requires k < |vs| && DeltaInv(vs, k, st) && DeltasLast(vs, |vs|) && IsBlock(vs[k])
    ensures !st.delta
  {
  }

  /** In a complete stream every step is allowed, as far as usage is. */
  lemma CompleteAllows(vs: seq<View>, k: nat, st: State)
    requires k < |vs| && Inv(vs, k, st) && Complete(vs) && Record(vs[k], st.ledger).Ok?
    ensures Allowed(st, vs[k])
  {
    hide FrameInv, BlockInv, DeltaInv, BlockOrder, OneReason, HasReason, Record, Fits, Agreed, AllClose;
    var v := vs[k];
    var s: nat :| Framed(vs, s);
    FrameAllows(vs, k, st, s);
    assert BlockOrder(vs, k);
    BlockAllows(vs, k, st);
    if IsBlock(v) {
      DeltaAllows(vs, k, st);
    } else if v.MessageDelta? {
      ReasonAllows(vs, k, st);
      InvActive(vs, k, st);
      assert forall m :: k <= m < |vs| ==> !vs[m].Close?;
      NothingOpen(vs, k, st.active);
    } else if v == Stop {
      assert k == |vs| - 1;
      StopAllows(vs, st);
      InvActive(vs, k, st);
      NothingOpen(vs, k, st.active);
    }
  }

  lemma InvActive(vs: seq<View>, k: nat, st: State)
    requires k <= |vs| && BlockInv(vs, k, st)
    ensures ActiveInv(vs, k, st.active)
  {
  }

  // ----- Accepted streams are complete -----

  lemma EndCloses(vs: seq<View>, active: map<nat, string>)
    requires ActiveInv(vs, |vs|, active) && active == map[]
    ensures AllClose(vs)
  {
    forall o | 0 <= o < |vs| && vs[o].Open? ensures exists m :: o < m < |vs| && vs[m] == Close(vs[o].index) {
      var i, kind := vs[o].index, vs[o].kind;
      if forall m :: o < m < |vs| ==> vs[m] != Close(i) {
        assert OpenSince(vs, o, |vs|, i, kind);
        assert IsOpen(vs, |vs|, i, kind);
        assert false;
      }
    }
  }

  lemma EndFrames(vs: seq<View>, st: State) returns (s: nat)
    requires FrameInv(vs, |vs|, st) && st.started && st.ended
    ensures Framed(vs, s) && st.id == vs[s].id
  {
    s :| 0 <= s < |vs| && StartedAt(vs, s, |vs|, st.id);
  }

  lemma EndIsComplete(vs: seq<View>, st: State)
    requires Inv(vs, |vs|, st) && st.started && st.ended
    ensures Complete(vs) && exists s: nat :: Framed(vs, s) && st.id == vs[s].id
    ensures forall m :: 0 <= m < |vs| && vs[m].MessageDelta? && vs[m].reason.Given? ==> vs[m].reason.reason == st.stop
  {
    hide ActiveInv, BlockOrder, AllClose, OneReason, HasReason, DeltasLast;
    var s := EndFrames(vs, st);
    EndCloses(vs, st.active);
  }

  lemma CompleteEnds(vs: seq<View>, st: State)
    requires Inv(vs, |vs|, st) && Complete(vs)
    ensures st.started && st.ended
  {
    hide BlockInv, DeltaInv, BlockOrder, AllClose, OneReason, HasReason, DeltasLast;
    var s: nat :| Framed(vs, s);
    assert vs[s].Start?;
  }

  // ----- Usage over the whole stream -----

  /** The usage updates of a stream, in order. */
  function Updates(vs: seq<View>, k: nat): seq<Json>
    requires k <= |vs|
  {
    if k == 0 then []
    else
      var u := UpdateOf(vs[k - 1]);
      if u.Some? then Updates(vs, k - 1) + [u.value] else Updates(vs, k - 1)
  }

  lemma {:induction false} UpdatesGrow(vs: seq<View>, k: nat, n: nat)
    requires k <= n <= |vs|
    ensures Updates(vs, k) <= Updates(vs, n)
    decreases n - k
  {
    if k < n {
      UpdatesGrow(vs, k + 1, n);
    }
  }

  /** The update an event makes is the next one of the run. */
  lemma RecordIsReplay(vs: seq<View>, k: nat, ledger: Ledger)
    requires k < |vs|
    ensures var us, i := Updates(vs, |vs|), |Updates(vs, k)|;
            && i <= |Updates(vs, k + 1)| <= |us|
            && History.Replay(us, i, ledger) ==
                 (var r := Record(vs[k], ledger);
                  if r.Ok? then History.Replay(us, |Updates(vs, k + 1)|, r.value) else Err(r.code))
  {
    UpdatesGrow(vs, k, |vs|);
    UpdatesGrow(vs, k + 1, |vs|);
    hide History.Update;
    if UpdateOf(vs[k]).Some? {
      assert Updates(vs, k + 1)[|Updates(vs, k)|] == UpdateOf(vs[k]).value;
    }
  }

  /** Whether any message delta reported output. */
  ghost predicate OutputReported(vs: seq<View>, k: nat)
    requires k <= |vs|
  {
    exists m :: 0 <= m < k && Reports(vs[m])
  }

  lemma NextRest(vs: seq<View>, k: nat, st: State)
    requires k < |vs| && Allowed(st, vs[k])
    ensures Record(vs[k], st.ledger) == Ok(Next(st, vs[k]).ledger)
    ensures st.finalOutput == OutputReported(vs, k) ==> Next(st, vs[k]).finalOutput == OutputReported(vs, k + 1)
  {
    hide History.Update, Fits, Agreed;
    assert OutputReported(vs, k + 1) <==> OutputReported(vs, k) || Reports(vs[k]);
  }

  function Views(parse: Parse, stream: seq<Event>): (vs: seq<View>)
    ensures |vs| == |stream| && forall k :: 0 <= k < |vs| ==> vs[k] == ViewOf(parse, stream[k])
  {
    seq(|stream|, k requires 0 <= k < |stream| => ViewOf(parse, stream[k]))
  }

  lemma ReasonIsGiven(parse: Parse, e: Event)
    ensures var v := ViewOf(parse, e); v.MessageDelta? && v.reason.Given? ==> v.reason.reason != ""
  {
    hide Header, Fields, StopSequence, DeltaHead;
  }

  lemma InvNext(vs: seq<View>, k: nat, st: State)
    requires k < |vs| && Inv(vs, k, st) && Allowed(st, vs[k])
    requires vs[k].MessageDelta? && vs[k].reason.Given? ==> vs[k].reason.reason != ""
    ensures Inv(vs, k + 1, Next(st, vs[k]))
  {
    hide FrameInv, BlockInv, DeltaInv, Allowed, Next;
    FrameNext(vs, k, st);
    BlockNext(vs, k, st);
    DeltaNext(vs, k, st);
  }

  lemma {:induction false} RunIff(parse: Parse, stream: seq<Event>, k: nat, st: State)
    requires k <= |stream| && Inv(Views(parse, stream), k, st)
    requires st.finalOutput == OutputReported(Views(parse, stream), k)
    requires |Updates(Views(parse, stream), k)| <= |Updates(Views(parse, stream), |stream|)|
    ensures var vs := Views(parse, stream);
            var history := History.Replay(Updates(vs, |vs|), |Updates(vs, k)|, st.ledger);
            && (Complete(vs) && history.Ok? ==> Run(parse, stream, k, st).Ok?)
            && (Run(parse, stream, k, st).Ok? ==>
                  var end := Run(parse, stream, k, st).value;
                  Inv(vs, |vs|, end) && history == Ok(end.ledger) && end.finalOutput == OutputReported(vs, |vs|))
    decreases |stream| - k
  {
    hide Inv, Step, Allowed, ViewOf, Complete, Next, Record, History.Replay, Updates, OutputReported;
    var vs := Views(parse, stream);
    if k < |stream| {
      var v := vs[k];
      StepIs(parse, st, stream[k]);
      ReasonIsGiven(parse, stream[k]);
      RecordIsReplay(vs, k, st.ledger);
      AllowedRecords(st, v);
      if Complete(vs) && Record(v, st.ledger).Ok? {
        CompleteAllows(vs, k, st);
      }
      if Allowed(st, v) {
        InvNext(vs, k, st);
        NextRest(vs, k, st);
        RunIff(parse, stream, k + 1, Next(st, v));
      }
    } else {
      RunEnds(parse, stream, st);
      HistoryEnds(Updates(vs, |vs|), st.ledger);
    }
  }

  lemma AllowedRecords(st: State, v: View)
    ensures Allowed(st, v) ==> Record(v, st.ledger).Ok?
  {
  }

  lemma RunEnds(parse: Parse, stream: seq<Event>, st: State)
    ensures Run(parse, stream, |stream|, st) == Ok(st)
  {
  }

  lemma HistoryEnds(us: seq<Json>, ledger: Ledger)
    ensures History.Replay(us, |us|, ledger) == Ok(ledger)
  {
  }

  lemma StartInv(vs: seq<View>)
    ensures Inv(vs, 0, START) && Updates(vs, 0) == [] && !OutputReported(vs, 0)
  {
  }

  // ----- The final usage -----

  lemma UpdateAccepted(ledger: Ledger, u: Json)
    requires History.Update(ledger, u).Ok?
    ensures AnthropicUsage(History.Update(ledger, u).value.usage).Ok?
  {
    if u.Null? {
      ForgottenAccepted();
    }
    hide AnthropicUsage, Observe, History.AnthropicBounds, Merge;
  }

  lemma ForgottenAccepted()
    ensures AnthropicUsage(History.FORGOTTEN).Ok? && AnthropicUsage(History.EMPTY.usage).Ok?
  {
    var f, e := History.FORGOTTEN, History.EMPTY.usage;
    History.AnthropicUsageIs(f);
    History.AnthropicUsageIs(e);
    assert f.fields.Keys == {"input_tokens", "cache_read_input_tokens", "cache_creation_input_tokens", "output_tokens"};
    hide AnthropicUsage;
  }

  lemma {:induction false} ReplayAccepted(us: seq<Json>, i: nat, ledger: Ledger)
    requires i <= |us| && AnthropicUsage(ledger.usage).Ok? && History.Replay(us, i, ledger).Ok?
    ensures AnthropicUsage(History.Replay(us, i, ledger).value.usage).Ok?
    decreases |us| - i
  {
    hide AnthropicUsage, History.Update;
    if i < |us| {
      UpdateAccepted(ledger, us[i]);
      ReplayAccepted(us, i + 1, History.Update(ledger, us[i]).value);
    }
  }

  /** Forgetting the output count never makes an accepted usage inconsistent. */
  lemma WithoutOutput(u: Json)
    requires AnthropicUsage(u).Ok?
    ensures AnthropicUsage(Obj(FieldsOf(u)["output_tokens" := Null])).Ok?
  {
    hide AnthropicUsage, History.AnthropicShape, History.SelfConsistent, FieldsOf;
    var v := Obj(FieldsOf(u)["output_tokens" := Null]);
    History.AnthropicUsageIs(u);
    History.AnthropicUsageIs(v);
    ShapeWithoutOutput(u);
    ConsistentWithoutOutput(u);
  }

  lemma MembersWithoutOutput(u: Json)
    requires u.Obj?
    ensures var v := Obj(FieldsOf(u)["output_tokens" := Null]);
            && v.fields.Keys == u.fields.Keys + {"output_tokens"} && Get(v, "output_tokens") == Null
            && forall k: string :: k != "output_tokens" ==> Get(v, k) == Get(u, k)
  {
  }

  lemma ShapeWithoutOutput(u: Json)
    requires History.AnthropicShape(u)
    ensures History.AnthropicShape(Obj(FieldsOf(u)["output_tokens" := Null]))
  {
    MembersWithoutOutput(u);
    var v := Obj(FieldsOf(u)["output_tokens" := Null]);
    hide FieldsOf;
    assert forall k: string :: k != "output_tokens" ==> CountShape(v, k) == CountShape(u, k);
  }

  lemma ConsistentWithoutOutput(u: Json)
    requires History.AnthropicShape(u) && History.SelfConsistent(History.ReadSnapshot(u))
    ensures History.SelfConsistent(History.ReadSnapshot(Obj(FieldsOf(u)["output_tokens" := Null])))
  {
    MembersWithoutOutput(u);
    hide FieldsOf;
  }

  /** An accepted history leaves a usage that stands on its own, final or not. */
  lemma HistoryAccepted(us: seq<Json>, st: State)
    requires History.Replay(us, 0, History.EMPTY) == Ok(st.ledger)
    ensures AnthropicUsage(FinalUsage(st)).Ok?
  {
    hide AnthropicUsage, History.Replay;
    ForgottenAccepted();
    ReplayAccepted(us, 0, History.EMPTY);
    WithoutOutput(st.ledger.usage);
  }

  /** The replay accepts exactly the complete streams whose usage can be completed,
      update by update, above everything reported before.  The final usage is the
      last-writer fold of the updates, and its output is forgotten unless some
      message delta reported it. */
  lemma AnthropicAcceptsComplete(parse: Parse, stream: seq<Event>)
    ensures var vs := Views(parse, stream);
            Anthropic(parse, stream).Ok? <==>
              Complete(vs) && var us := Updates(vs, |vs|); forall k :: 0 <= k < |us| ==> History.FeasibleAt(us, k)
    ensures Anthropic(parse, stream).Ok? ==>
              var vs, st := Views(parse, stream), Anthropic(parse, stream).value;
              var us := Updates(vs, |vs|);
              && st.ledger.usage == History.Fold(us, |us|)
              && IsHistory(us, st.ledger.bounds) && History.Mirrors(st.ledger)
              && st.finalOutput == OutputReported(vs, |vs|)
              && (!OutputReported(vs, |vs|) ==> Get(FinalUsage(st), "output_tokens") == Null)
              && (OutputReported(vs, |vs|) ==> FinalUsage(st) == History.Fold(us, |us|))
              && (exists s: nat :: Framed(vs, s) && st.id == vs[s].id)
              && forall m :: 0 <= m < |vs| && vs[m].MessageDelta? && vs[m].reason.Given? ==>
                   vs[m].reason.reason == st.stop
  {
    hide ViewOf, Run, Inv, Complete, Updates, OutputReported, AnthropicUsage, IsHistory, Framed;
    hide History.Replay, History.FeasibleAt, History.Mirrors, History.Fold;
    var vs := Views(parse, stream);
    var us := Updates(vs, |vs|);
    History.ReplayIsFeasible(us);
    StartInv(vs);
    RunIff(parse, stream, 0, START);
    var run := Run(parse, stream, 0, START);
    if run.Ok? {
      HistoryAccepted(us, run.value);
      if run.value.started && run.value.ended {
        EndIsComplete(vs, run.value);
      }
      if Complete(vs) {
        CompleteEnds(vs, run.value);
      }
    }
  }

  lemma {:induction false} OpenedGrows(vs: seq<View>, k: nat, n: nat)
    requires k <= n <= |vs|
    ensures Opened(vs, k) <= Opened(vs, n)
    decreases n - k
  {
    if k < n {
      OpenedGrows(vs, k, n - 1);
    }
  }

  /** In a complete stream a block is closed exactly once. */
  lemma ClosesOnce(vs: seq<View>, i: nat, m: nat, n: nat)
    requires Complete(vs) && m <= n < |vs| && vs[m] == Close(i) && vs[n] == Close(i)
    ensures m == n
  {
    hide AllClose, DeltasLast, OneReason, HasReason, Framed;
    assert BlockOrder(vs, m) && BlockOrder(vs, n);
    var kind :| IsOpen(vs, m, i, kind);
    var o :| 0 <= o < m && OpenSince(vs, o, m, i, kind);
    var kind' :| IsOpen(vs, n, i, kind');
    var o' :| 0 <= o' < n && OpenSince(vs, o', n, i, kind');
    assert BlockOrder(vs, o) && BlockOrder(vs, o');
    if m < o' {
      OpenedGrows(vs, o + 1, o');
    }
  }

  /** The opening message's usage is taken as it stands: merging into nothing changes nothing. */
  lemma FirstUsageIsTaken(u: Json)
    requires u.Obj? && Begin(History.EMPTY, u).Ok?
    ensures Begin(History.EMPTY, u).value.usage == u
  {
    MergeIntoNothing(u);
    hide Merge, AnthropicUsage, Observe, History.AnthropicBounds;
  }
}
