/** The Chat stream: chunks of choices, at most one usage chunk, then `[DONE]`. */
module ChatReplay {
  import opened Wrappers
  import opened Json
  import opened ProviderUsage
  import opened Sse
  import opened StreamFields

  const DONE := "[DONE]"

  datatype State = State(id: Identity, choices: map<nat, string>, usage: Json, tail: bool, ended: bool, count: nat)

  const START := State(UNSEEN, map[], Null, false, false, 0)

  predicate AllFinished(choices: map<nat, string>) {
    forall i | i in choices :: choices[i] != ""
  }

  function ChoiceIndex(c: Json): Result<nat> {
    var known := {"index", "delta", "finish_reason", "logprobs"};
    :- Fields(c, known);
    :- Need(Has(c, "index"), "stream_chat_index");
    Integer(Get(c, "index"), 31)
  }

  const REASONS := {"stop", "length", "tool_calls", "content_filter", "function_call"}

  /** The finish reason, empty while the choice stays open. */
  function ChoiceFinish(c: Json): (r: Result<string>)
    ensures r.Ok? ==> r.value == "" || r.value in REASONS
  {
    var d := Get(c, "delta");
    :- Need(IsObject(c, "delta"), "stream_field_type");
    :- Fields(d, {"role", "content", "refusal", "tool_calls", "function_call"});
    :- Need(Has(d, "content") ==> StringOrNull(d, "content"), "stream_field_type");
    :- Need(Has(d, "refusal") ==> StringOrNull(d, "refusal"), "stream_field_type");
    :- Need(Has(d, "role") ==> Get(d, "role") == Str("assistant"), "stream_chat_role");
    :- Need(Has(d, "tool_calls") ==> Get(d, "tool_calls").Arr?, "stream_field_type");
    :- Need(Has(d, "function_call") ==> IsObject(d, "function_call"), "stream_field_type");
    :- Need(Has(c, "logprobs") ==> Get(c, "logprobs").Null? || IsObject(c, "logprobs"), "stream_field_type");
    :- Need(Has(c, "finish_reason"), "stream_field_type");
    if Get(c, "finish_reason").Null? then Ok("") else
    var finish :- Text(c, "finish_reason", 64);
    if finish in REASONS then Ok(finish) else Err("stream_chat_finish_reason")
  }

  function Choices(items: seq<Json>, i: nat, seen: set<nat>, choices: map<nat, string>): Result<map<nat, string>>
    requires i <= |items|
    decreases |items| - i
  {
    if i == |items| then Ok(choices) else
    var index :- ChoiceIndex(items[i]);
    :- Need(index !in seen, "stream_chat_duplicate_choice");
    :- Need(index in choices ==> choices[index] == "", "stream_chat_choice_closed");
    var finish :- ChoiceFinish(items[i]);
    Choices(items, i + 1, seen + {index}, choices[index := finish])
  }

  /** The parts of a chunk that do not depend on the state. */
  function ChunkHead(j: Json): Result<Unit> {
    var known := {"id", "object", "created", "model", "choices", "usage", "system_fingerprint", "service_tier"};
    :- Fields(j, known);
    :- Need(Get(j, "object") == Str("chat.completion.chunk"), "stream_response_kind");
    Ok(Unit)
  }

  /** The usage chunk: no choices, everything finished. */
  function OnUsage(st: State, id: Identity, j: Json): Result<State> {
    var ready := st.choices != map[] && IsObject(j, "usage");
    :- Need(ready, "stream_chat_usage_tail");
    :- Need(AllFinished(st.choices), "stream_chat_unfinished_choice");
    var _ :- OpenAiUsage(Get(j, "usage"), false);
    Ok(st.(id := id, usage := Get(j, "usage"), tail := true, count := st.count + 1))
  }

  function OnChoices(st: State, id: Identity, j: Json, items: seq<Json>): Result<State> {
    var silent := Get(j, "usage").Null?;
    :- Need(silent, "stream_chat_usage_position");
    var choices :- Choices(items, 0, {}, st.choices);
    Ok(st.(id := id, choices := choices, count := st.count + 1))
  }

  function OnChunk(st: State, j: Json): Result<State> {
    var _ :- ChunkHead(j);
    var id :- ObserveIdentity(st.id, j);
    var items := Get(j, "choices");
    :- Need(items.Arr? && |items.items| <= 32, "stream_chat_choices");
    if items.items == [] then OnUsage(st, id, j) else OnChoices(st, id, j, items.items)
  }

  function OnDone(st: State): Result<State> {
    var seen := st.choices != map[];
    :- Need(seen, "stream_chat_choices");
    :- Need(AllFinished(st.choices), "stream_chat_unfinished_choice");
    Ok(st.(ended := true, count := st.count + 1))
  }

  function Step(parse: Parse, st: State, e: Event): Result<State> {
    var live := !st.ended;
    :- Need(live, "stream_after_terminal");
    :- Need(e.name == "" || e.name == "message", "stream_event_mismatch");
    if e.data == DONE then OnDone(st)
    else
      :- Need(!st.tail, "stream_chat_after_usage");
      var j :- Decode(parse, e);
      OnChunk(st, j)
  }

  function Run(parse: Parse, stream: seq<Event>, k: nat, st: State): Result<State>
    requires k <= |stream|
    decreases |stream| - k
  {
    if k == |stream| then Ok(st) else
    var st' :- Step(parse, st, stream[k]);
    Run(parse, stream, k + 1, st')
  }

  /** Choices in index order. */
  function Rows(choices: map<nat, string>, i: nat): seq<Json>
    requires i <= 32
    decreases 32 - i
  {
    if i == 32 then []
    else (if i in choices then [Obj(map["index" := Int(i), "finish_reason" := Str(choices[i])])] else [])
         + Rows(choices, i + 1)
  }

  function Response(st: State): Json {
    Obj(map["id" := Str(st.id.response), "model" := Str(st.id.model), "object" := Str("chat.completion"),
            "choices" := Arr(Rows(st.choices, 0)), "usage" := st.usage])
  }

  function Chat(parse: Parse, stream: seq<Event>): Result<State> {
    var st :- Run(parse, stream, 0, START);
    :- Need(st.ended, "stream_missing_terminal");
    Ok(st)
  }

  /** One chunk's choices, marking the choice map in place. */
  method MarkChoices(items: seq<Json>, before: map<nat, string>) returns (r: Result<map<nat, string>>)
    ensures r == Choices(items, 0, {}, before)
  {
    hide ChoiceIndex, ChoiceFinish;
    var choices := before;
    var seen: set<nat> := {};
    for i := 0 to |items|
      invariant Choices(items, i, seen, choices) == Choices(items, 0, {}, before)
    {
      ghost var was := choices;
      var index :- ChoiceIndex(items[i]);
      :- Need(index !in seen, "stream_chat_duplicate_choice");
      seen := seen + {index};
      if index !in choices {
        choices := choices[index := ""];
      }
      :- Need(choices[index] == "", "stream_chat_choice_closed");
      var finish :- ChoiceFinish(items[i]);
      if finish != "" {
        choices := choices[index := finish];
      }
      assert choices == was[index := finish];
    }
    r := Ok(choices);
  }

  lemma RunStep(parse: Parse, stream: seq<Event>, k: nat, st: State)
    requires k <= |stream|
    ensures Run(parse, stream, k, st) ==
              if k == |stream| then Ok(st)
              else if Step(parse, st, stream[k]).Err? then Err(Step(parse, st, stream[k]).code)
              else Run(parse, stream, k + 1, Step(parse, st, stream[k]).value)
  {
    hide Step;
  }

  /** The replay loop over a whole stream. */
  method ReplayChat(parse: Parse, stream: seq<Event>) returns (r: Result<State>)
    ensures r == Chat(parse, stream)
  {
    hide OpenAiUsage, Choices, ChunkHead, AllFinished, ObserveIdentity, Decode, Run;
    var id, choices, usage, tail, ended := UNSEEN, map[], Null, false, false;
    for k := 0 to |stream|
      invariant Run(parse, stream, k, State(id, choices, usage, tail, ended, k)) == Run(parse, stream, 0, START)
    {
      var e := stream[k];
      RunStep(parse, stream, k, State(id, choices, usage, tail, ended, k));
      :- Need(!ended, "stream_after_terminal");
      :- Need(e.name == "" || e.name == "message", "stream_event_mismatch");
      if e.data == DONE {
        :- Need(choices != map[], "stream_chat_choices");
        :- Need(AllFinished(choices), "stream_chat_unfinished_choice");
        ended := true;
        continue;
      }
      :- Need(!tail, "stream_chat_after_usage");
      var j :- Decode(parse, e);
      var _ :- ChunkHead(j);
      id :- ObserveIdentity(id, j);
      var items := Get(j, "choices");
      :- Need(items.Arr? && |items.items| <= 32, "stream_chat_choices");
      if items.items == [] {
        :- Need(choices != map[] && IsObject(j, "usage"), "stream_chat_usage_tail");
        :- Need(AllFinished(choices), "stream_chat_unfinished_choice");
        var _ :- OpenAiUsage(Get(j, "usage"), false);
        usage, tail := Get(j, "usage"), true;
        continue;
      }
      :- Need(Get(j, "usage").Null?, "stream_chat_usage_position");
      choices :- MarkChoices(items.items, choices);
    }
    RunStep(parse, stream, |stream|, State(id, choices, usage, tail, ended, |stream|));
    :- Need(ended, "stream_missing_terminal");
    r := Ok(State(id, choices, usage, tail, ended, |stream|));
  }

  // ----- What an event says, whatever came before it -----

  datatype View =
    | Done
    | Chunk(id: Identity, marks: map<nat, string>)
    | Usage(id: Identity, usage: Json)
    | Bad

  /** The choices of one chunk, each index once. */
  function Marks(items: seq<Json>, i: nat): Option<map<nat, string>>
    requires i <= |items|
    decreases |items| - i
  {
    if i == |items| then Some(map[]) else
    var index, finish, rest := ChoiceIndex(items[i]), ChoiceFinish(items[i]), Marks(items, i + 1);
    if index.Ok? && finish.Ok? && rest.Some? && index.value !in rest.value then
      Some(rest.value[index.value := finish.value])
    else None
  }

  function UsageView(id: Identity, j: Json): View {
    var u := Get(j, "usage");
    if u.Obj? && OpenAiUsage(u, false).Ok? then Usage(id, u) else Bad
  }

  function ChoicesView(id: Identity, j: Json, items: seq<Json>): View {
    var marks := Marks(items, 0);
    if Get(j, "usage").Null? && marks.Some? then Chunk(id, marks.value) else Bad
  }

  function ChunkView(j: Json): View {
    if ChunkHead(j).Err? || IdentityOf(j).Err? then Bad else
    var id, items := IdentityOf(j).value, Get(j, "choices");
    if !items.Arr? || |items.items| > 32 then Bad
    else if items.items == [] then UsageView(id, j)
    else ChoicesView(id, j, items.items)
  }

  function ViewOf(parse: Parse, e: Event): View {
    if e.name != "" && e.name != "message" then Bad
    else if e.data == DONE then Done
    else
      var j := Decode(parse, e);
      if j.Err? then Bad else ChunkView(j.value)
  }

  predicate Open(choices: map<nat, string>, marks: map<nat, string>) {
    forall i | i in marks :: i in choices ==> choices[i] == ""
  }

  lemma {:induction false} ChoicesAre(items: seq<Json>, i: nat, seen: set<nat>, choices: map<nat, string>)
    requires i <= |items| && seen <= choices.Keys
    ensures Choices(items, i, seen, choices).Ok? <==>
              Marks(items, i).Some? && Marks(items, i).value.Keys !! seen && Open(choices, Marks(items, i).value)
    ensures Choices(items, i, seen, choices).Ok? ==>
              Choices(items, i, seen, choices).value == choices + Marks(items, i).value
    decreases |items| - i
  {
    hide ChoiceIndex, ChoiceFinish;
    if i < |items| {
      var index, finish := ChoiceIndex(items[i]), ChoiceFinish(items[i]);
      if index.Ok? && finish.Ok? && index.value !in seen {
        ChoicesAre(items, i + 1, seen + {index.value}, choices[index.value := finish.value]);
      }
    }
  }

  /** The step conditions, in terms of what the event says. */
  predicate Allowed(st: State, v: View) {
    !st.ended &&
    match v
    case Bad => false
    case Done => st.choices != map[] && AllFinished(st.choices)
    case Chunk(id, marks) => !st.tail && Belongs(st, id) && Open(st.choices, marks)
    case Usage(id, _) =>
      !st.tail && Belongs(st, id) && st.choices != map[] && AllFinished(st.choices)
  }

  function Next(st: State, v: View): State {
    match v
    case Bad => st
    case Done => st.(ended := true, count := st.count + 1)
    case Chunk(id, marks) => st.(id := id, choices := st.choices + marks, count := st.count + 1)
    case Usage(id, usage) => st.(id := id, usage := usage, tail := true, count := st.count + 1)
  }

  predicate Belongs(st: State, id: Identity) { st.id.response == "" || st.id == id }

  lemma UsageIs(st: State, id: Identity, j: Json)
    requires !st.ended && !st.tail && Belongs(st, id)
    ensures OnUsage(st, id, j).Ok? <==> Allowed(st, UsageView(id, j))
    ensures OnUsage(st, id, j).Ok? ==> OnUsage(st, id, j).value == Next(st, UsageView(id, j))
  {
    hide OpenAiUsage, AllFinished, Open;
  }

  lemma ChoicesIs(st: State, id: Identity, j: Json, items: seq<Json>)
    requires !st.ended && !st.tail && Belongs(st, id)
    ensures OnChoices(st, id, j, items).Ok? <==> Allowed(st, ChoicesView(id, j, items))
    ensures OnChoices(st, id, j, items).Ok? ==> OnChoices(st, id, j, items).value == Next(st, ChoicesView(id, j, items))
  {
    ChoicesAre(items, 0, {}, st.choices);
    hide Choices, Marks, AllFinished, Open;
  }

  lemma StrangerIsBad(st: State, j: Json)
    requires ChunkHead(j).Ok? && IdentityOf(j).Ok? && !Belongs(st, IdentityOf(j).value)
    ensures !Allowed(st, ChunkView(j))
  {
    hide ChunkHead, IdentityOf, OpenAiUsage, Marks, AllFinished, Open;
  }

  lemma ChunkIs(st: State, j: Json)
    requires !st.ended && !st.tail
    ensures OnChunk(st, j).Ok? <==> Allowed(st, ChunkView(j))
    ensures OnChunk(st, j).Ok? ==> OnChunk(st, j).value == Next(st, ChunkView(j))
  {
    hide ChunkHead, IdentityOf, OnUsage, OnChoices, UsageView, ChoicesView, AllFinished, Open;
    var id, items := IdentityOf(j), Get(j, "choices");
    if ChunkHead(j).Ok? && id.Ok? && Belongs(st, id.value) && items.Arr? {
      UsageIs(st, id.value, j);
      ChoicesIs(st, id.value, j, items.items);
    } else if ChunkHead(j).Ok? && id.Ok? && !Belongs(st, id.value) {
      StrangerIsBad(st, j);
    }
  }

  lemma DoneIs(st: State)
    requires !st.ended
    ensures OnDone(st).Ok? <==> Allowed(st, Done)
    ensures OnDone(st).Ok? ==> OnDone(st).value == Next(st, Done)
  {
    hide AllFinished;
  }

  lemma TailTakesNoChunk(st: State, j: Json)
    requires st.tail
    ensures !Allowed(st, ChunkView(j))
  {
    hide ChunkHead, IdentityOf, OpenAiUsage, Marks, AllFinished, Open;
  }

  lemma StepIs(parse: Parse, st: State, e: Event)
    ensures Step(parse, st, e).Ok? <==> Allowed(st, ViewOf(parse, e))
    ensures Step(parse, st, e).Ok? ==> Step(parse, st, e).value == Next(st, ViewOf(parse, e))
  {
    hide Decode, OnChunk, OnDone, ChunkView, AllFinished, Open;
    if !st.ended {
      DoneIs(st);
      var j := Decode(parse, e);
      if j.Ok? {
        if st.tail {
          TailTakesNoChunk(st, j.value);
        } else {
          ChunkIs(st, j.value);
        }
      }
    }
  }

  /** Facts about every view. */
  predicate Sound(v: View) {
    && (v.Chunk? ==> v.marks != map[] && (forall i | i in v.marks :: i < 32) && v.id.response != "")
    && (v.Usage? ==> v.id.response != "" && v.usage.Obj?)
  }

  lemma {:induction false} MarksBound(items: seq<Json>, i: nat)
    requires i <= |items| && Marks(items, i).Some?
    ensures forall k | k in Marks(items, i).value :: k < 32
    ensures i < |items| ==> Marks(items, i).value != map[]
    decreases |items| - i
  {
    if i < |items| {
      MarksBound(items, i + 1);
      assert ChoiceIndex(items[i]).value in Marks(items, i).value;
    }
  }

  lemma ViewIsSound(parse: Parse, e: Event)
    ensures Sound(ViewOf(parse, e))
  {
    var j := Decode(parse, e);
    if j.Ok? && Get(j.value, "choices").Arr? {
      var items := Get(j.value, "choices").items;
      if items != [] && Marks(items, 0).Some? {
        MarksBound(items, 0);
      }
    }
    hide Marks, OpenAiUsage, ChunkHead;
  }

  // ----- The accepted streams -----

  predicate Mentions(v: View, i: nat) { v.Chunk? && i in v.marks }

  predicate Finishes(v: View, i: nat) { v.Chunk? && i in v.marks && v.marks[i] != "" }

  /** A complete stream: chunks of one response, at most one usage chunk right
      before the closing `[DONE]`, and every choice finished exactly once, by the
      last chunk that mentions it. */
  ghost predicate Complete(vs: seq<View>) {
    var n := |vs|;
    && n >= 2 && vs[n - 1].Done?
    && (forall k :: 0 <= k < n - 1 ==> vs[k].Chunk? || vs[k].Usage?)
    && (forall k, m :: 0 <= k < m < n - 1 ==> vs[k].id == vs[m].id)
    && (forall k :: 0 <= k < n - 1 && vs[k].Usage? ==> 0 < k == n - 2)
    && (forall k, i :: 0 <= k < n && Mentions(vs[k], i) ==> exists m :: 0 <= m < n && Finishes(vs[m], i))
    && (forall k, m, i :: 0 <= k < m < n && Finishes(vs[k], i) ==> !Mentions(vs[m], i))
  }

  ghost predicate Shaped(vs: seq<View>, k: nat, st: State)
    requires k <= |vs|
  {
    && (forall m :: 0 <= m < k ==> !vs[m].Bad? && (vs[m].Done? ==> m == k - 1))
    && (st.ended <==> k > 0 && vs[k - 1].Done?)
    && (forall m :: 0 <= m < k && vs[m].Usage? ==>
          st.tail && 0 < m && st.usage == vs[m].usage && (if st.ended then m == k - 2 else m == k - 1))
    && (st.tail ==> if st.ended then k >= 2 && vs[k - 2].Usage? else k >= 1 && vs[k - 1].Usage?)
    && (if st.tail then st.usage != Null else st.usage == Null)
    && (st.ended || st.tail ==> st.choices != map[] && AllFinished(st.choices))
    && st.count == k
  }

  ghost predicate SameId(vs: seq<View>, k: nat, st: State)
    requires k <= |vs|
  {
    && (k == 0 ==> st.id == UNSEEN)
    && (k > 0 && st.id == UNSEEN ==> vs[0].Done? || vs[0].Bad?)
    && (forall m :: 0 <= m < k && (vs[m].Chunk? || vs[m].Usage?) ==> vs[m].id == st.id && st.id.response != "")
  }

  /** The choice map holds exactly the indices mentioned so far. */
  ghost predicate Mentioned(vs: seq<View>, k: nat, choices: map<nat, string>)
    requires k <= |vs|
  {
    && (forall m, i :: 0 <= m < k && Mentions(vs[m], i) ==> i in choices)
    && (forall i :: i in choices ==> exists m :: 0 <= m < k && Mentions(vs[m], i))
  }

  /** A choice is closed with the reason of the one chunk that finished it. */
  ghost predicate Finished(vs: seq<View>, k: nat, choices: map<nat, string>)
    requires k <= |vs|
  {
    && (forall m, i :: 0 <= m < k && Finishes(vs[m], i) ==> i in choices && choices[i] == vs[m].marks[i])
    && (forall i :: i in choices && choices[i] != "" ==> exists m :: 0 <= m < k && Finishes(vs[m], i))
  }

  /** After a choice is finished it is not mentioned again. */
  ghost predicate NoneAfter(vs: seq<View>, k: nat)
    requires k <= |vs|
  {
    forall m, j, i :: 0 <= m < j < k && Finishes(vs[m], i) ==> !Mentions(vs[j], i)
  }

  function ChoicesAfter(choices: map<nat, string>, v: View): map<nat, string> {
    if v.Chunk? then choices + v.marks else choices
  }

  lemma MentionedNext(vs: seq<View>, k: nat, choices: map<nat, string>)
    requires k < |vs| && Mentioned(vs, k, choices)
    ensures Mentioned(vs, k + 1, ChoicesAfter(choices, vs[k]))
  {
    forall i | i in ChoicesAfter(choices, vs[k]) ensures exists m :: 0 <= m < k + 1 && Mentions(vs[m], i) {
      if i in choices {
        var m :| 0 <= m < k && Mentions(vs[m], i);
      } else {
        assert Mentions(vs[k], i);
      }
    }
  }

  lemma FinishedNext(vs: seq<View>, k: nat, choices: map<nat, string>)
    requires k < |vs| && Finished(vs, k, choices) && NoneAfter(vs, k)
    requires vs[k].Chunk? ==> Open(choices, vs[k].marks)
    ensures Finished(vs, k + 1, ChoicesAfter(choices, vs[k])) && NoneAfter(vs, k + 1)
  {
    var v, after := vs[k], ChoicesAfter(choices, vs[k]);
    forall m, i | 0 <= m < k && Finishes(vs[m], i) ensures !Mentions(v, i) {
      assert choices[i] == vs[m].marks[i];
    }
    forall i | i in after && after[i] != "" ensures exists m :: 0 <= m < k + 1 && Finishes(vs[m], i) {
      if Mentions(v, i) {
        assert Finishes(vs[k], i);
      } else {
        var m :| 0 <= m < k && Finishes(vs[m], i);
      }
    }
  }

  ghost predicate Inv(vs: seq<View>, k: nat, st: State)
    requires k <= |vs|
  {
    Shaped(vs, k, st) && SameId(vs, k, st) && Mentioned(vs, k, st.choices) && Finished(vs, k, st.choices) &&
    NoneAfter(vs, k)
  }

  lemma ShapedNext(vs: seq<View>, k: nat, st: State)
    requires k < |vs| && Shaped(vs, k, st) && SameId(vs, k, st) && Allowed(st, vs[k]) && Sound(vs[k])
    requires Mentioned(vs, k, st.choices)
    ensures Shaped(vs, k + 1, Next(st, vs[k])) && SameId(vs, k + 1, Next(st, vs[k]))
  {
  }

  lemma InvNext(vs: seq<View>, k: nat, st: State)
    requires k < |vs| && Inv(vs, k, st) && Allowed(st, vs[k]) && Sound(vs[k])
    ensures Inv(vs, k + 1, Next(st, vs[k]))
  {
    ShapedNext(vs, k, st);
    MentionedNext(vs, k, st.choices);
    FinishedNext(vs, k, st.choices);
    hide Shaped, SameId, Mentioned, Finished, NoneAfter, AllFinished, Open;
  }

  function Views(parse: Parse, stream: seq<Event>): (vs: seq<View>)
    ensures |vs| == |stream| && forall k :: 0 <= k < |vs| ==> vs[k] == ViewOf(parse, stream[k])
  {
    seq(|stream|, k requires 0 <= k < |stream| => ViewOf(parse, stream[k]))
  }

  lemma StartInv(vs: seq<View>)
    ensures Inv(vs, 0, START)
  {
  }

  lemma SomeMention(vs: seq<View>, k: nat, choices: map<nat, string>) returns (m: nat)
    requires k <= |vs| && Mentioned(vs, k, choices) && choices != map[]
    ensures m < k && vs[m].Chunk?
  {
    var i :| i in choices;
    m :| 0 <= m < k && Mentions(vs[m], i);
  }

  lemma AllMentionedFinish(vs: seq<View>, k: nat, choices: map<nat, string>)
    requires k <= |vs| && Mentioned(vs, k, choices) && Finished(vs, k, choices) && AllFinished(choices)
    ensures forall m, i :: 0 <= m < k && Mentions(vs[m], i) ==> exists f :: 0 <= f < k && Finishes(vs[f], i)
  {
    forall m, i | 0 <= m < k && Mentions(vs[m], i) ensures exists f :: 0 <= f < k && Finishes(vs[f], i) {
      assert i in choices && choices[i] != "";
    }
  }

  lemma EndedIsComplete(vs: seq<View>, st: State)
    requires Inv(vs, |vs|, st) && st.ended
    ensures Complete(vs)
    ensures st.id == vs[0].id && st.count == |vs|
    ensures st.usage == (if vs[|vs| - 2].Usage? then vs[|vs| - 2].usage else Null)
  {
    var n := |vs|;
    AllMentionedFinish(vs, n, st.choices);
    var m := SomeMention(vs, n, st.choices);
    hide Mentioned, Finished, AllFinished, Mentions, Finishes;
    assert n >= 2;
    assert forall k :: 0 <= k < n - 1 ==> (vs[k].Chunk? || vs[k].Usage?) && vs[k].id == st.id;
    assert st.tail ==> vs[n - 2].Usage?;
  }

  lemma OpenInComplete(vs: seq<View>, k: nat, choices: map<nat, string>)
    requires k < |vs| && Finished(vs, k, choices) && NoneAfter(vs, |vs|) && vs[k].Chunk?
    ensures Open(choices, vs[k].marks)
  {
    forall i | i in vs[k].marks && i in choices ensures choices[i] == "" {
      if choices[i] != "" {
        var m :| 0 <= m < k && Finishes(vs[m], i);
        assert Mentions(vs[k], i);
      }
    }
  }

  /** Before a usage chunk or the end, a complete stream has finished every choice. */
  lemma ClosedInComplete(vs: seq<View>, k: nat, choices: map<nat, string>)
    requires 0 < k < |vs| && Mentioned(vs, k, choices) && Finished(vs, k, choices)
    requires vs[0].Chunk? && vs[0].marks != map[]
    requires forall m :: k <= m < |vs| ==> !vs[m].Chunk?
    requires forall m, i :: 0 <= m < |vs| && Mentions(vs[m], i) ==> exists f :: 0 <= f < |vs| && Finishes(vs[f], i)
    ensures choices != map[] && AllFinished(choices)
  {
    var i :| i in vs[0].marks;
    assert Mentions(vs[0], i);
    forall i | i in choices ensures choices[i] != "" {
      var m :| 0 <= m < k && Mentions(vs[m], i);
      var f :| 0 <= f < |vs| && Finishes(vs[f], i);
      assert f < k;
    }
  }

  /** In a complete stream every step is allowed. */
  lemma CompleteAllows(vs: seq<View>, k: nat, st: State)
    requires k < |vs| && Inv(vs, k, st) && Complete(vs) && Sound(vs[0])
    ensures Allowed(st, vs[k])
  {
    assert NoneAfter(vs, |vs|);
    hide Mentioned, Finished, NoneAfter, Open, AllFinished;
    assert !st.ended && (vs[k].Done? || !st.tail) && !vs[k].Bad?;
    assert !vs[k].Done? ==> st.id.response == "" || st.id == vs[k].id;
    if vs[k].Chunk? {
      OpenInComplete(vs, k, st.choices);
    } else {
      assert vs[0].Chunk? && k > 0;
      ClosedInComplete(vs, k, st.choices);
    }
  }

  lemma {:induction false} RunIff(parse: Parse, stream: seq<Event>, k: nat, st: State)
    requires k <= |stream| && Inv(Views(parse, stream), k, st)
    ensures Complete(Views(parse, stream)) ==> Run(parse, stream, k, st).Ok?
    ensures Run(parse, stream, k, st).Ok? ==> Inv(Views(parse, stream), |stream|, Run(parse, stream, k, st).value)
    decreases |stream| - k
  {
    hide Inv, Step, Allowed, ViewOf, Complete, Sound, Next;
    var vs := Views(parse, stream);
    if k < |stream| {
      ViewIsSound(parse, stream[0]);
      ViewIsSound(parse, stream[k]);
      StepIs(parse, st, stream[k]);
      if Complete(vs) {
        CompleteAllows(vs, k, st);
      }
      if Allowed(st, vs[k]) {
        InvNext(vs, k, st);
        RunIff(parse, stream, k + 1, Next(st, vs[k]));
      }
    }
  }

  /** The replay accepts exactly the complete streams; it reports each index with
      the reason that finished it, and the usage of the usage chunk if there is one. */
  lemma ChatAcceptsComplete(parse: Parse, stream: seq<Event>)
    ensures Chat(parse, stream).Ok? <==> Complete(Views(parse, stream))
    ensures Chat(parse, stream).Ok? ==>
              var vs, st := Views(parse, stream), Chat(parse, stream).value;
              && Mentioned(vs, |vs|, st.choices) && Finished(vs, |vs|, st.choices)
              && st.usage == (if vs[|vs| - 2].Usage? then vs[|vs| - 2].usage else Null)
              && st.id == vs[0].id && st.count == |stream|
  {
    hide ViewOf, Run, Inv, Complete, Mentioned, Finished;
    var vs := Views(parse, stream);
    StartInv(vs);
    RunIff(parse, stream, 0, START);
    var run := Run(parse, stream, 0, START);
    if run.Ok? {
      if run.value.ended {
        EndedIsComplete(vs, run.value);
      }
      InvGives(vs, run.value);
    }
  }

  lemma InvGives(vs: seq<View>, st: State)
    requires Inv(vs, |vs|, st)
    ensures Mentioned(vs, |vs|, st.choices) && Finished(vs, |vs|, st.choices)
    ensures Complete(vs) ==> st.ended
  {
    hide Mentioned, Finished, NoneAfter, AllFinished;
  }

  /** `row` is the choice with index `n`. */
  predicate IsRow(row: Json, choices: map<nat, string>, n: nat) {
    n in choices && row == Obj(map["index" := Int(n), "finish_reason" := Str(choices[n])])
  }

  /** The indices seen, in increasing order. */
  function Listed(choices: map<nat, string>, i: nat): seq<nat>
    requires i <= 32
    decreases 32 - i
  {
    if i == 32 then [] else (if i in choices then [i] else []) + Listed(choices, i + 1)
  }

  lemma {:induction false} ListedOnce(choices: map<nat, string>, i: nat)
    requires i <= 32
    ensures var ns := Listed(choices, i);
            && (forall n: nat :: n in ns <==> i <= n < 32 && n in choices)
            && (forall j, k :: 0 <= j < k < |ns| ==> ns[j] < ns[k])
    decreases 32 - i
  {
    if i < 32 {
      ListedOnce(choices, i + 1);
      var rest := Listed(choices, i + 1);
      assert Listed(choices, i) == (if i in choices then [i] else []) + rest;
      assert forall k :: 0 <= k < |rest| ==> rest[k] in rest;
    }
  }

  lemma {:induction false} RowsAreListed(choices: map<nat, string>, i: nat)
    requires i <= 32
    ensures var rows, ns := Rows(choices, i), Listed(choices, i);
            |rows| == |ns| && forall j :: 0 <= j < |rows| ==> IsRow(rows[j], choices, ns[j])
    decreases 32 - i
  {
    if i < 32 {
      RowsAreListed(choices, i + 1);
    }
  }

  /** The response lists every index seen exactly once, in increasing order, each with
      its finish reason. */
  lemma ChoicesListedOnce(choices: map<nat, string>)
    requires forall n | n in choices :: n < 32
    ensures var rows, ns := Rows(choices, 0), Listed(choices, 0);
            && |rows| == |ns| && (forall j :: 0 <= j < |rows| ==> IsRow(rows[j], choices, ns[j]))
            && (forall n: nat :: n in ns <==> n in choices) && (forall j, k :: 0 <= j < k < |ns| ==> ns[j] < ns[k])
  {
    hide Rows, Listed, IsRow;
    ListedOnce(choices, 0);
    RowsAreListed(choices, 0);
  }
}
