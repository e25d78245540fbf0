/** Chat streams on the wire: which events the replay takes, member by member, and what
    the response of an accepted stream holds. */
module ChatEvents {
  import opened Wrappers
  import opened Json
  import opened ProviderUsage
  import opened Sse
  import opened StreamFields
  import opened ChatReplay
  import opened EventFields
  import Streams = StreamImport

  // ----- What a chunk looks like -----

  predicate DeltaShape(d: Json) {
    && d.Obj? && d.fields.Keys <= {"role", "content", "refusal", "tool_calls", "function_call"}
    && (Has(d, "role") ==> Get(d, "role") == Str("assistant"))
    && (Has(d, "content") ==> Get(d, "content").Str? || Get(d, "content").Null?)
    && (Has(d, "refusal") ==> Get(d, "refusal").Str? || Get(d, "refusal").Null?)
    && (Has(d, "tool_calls") ==> Get(d, "tool_calls").Arr?)
    && (Has(d, "function_call") ==> Get(d, "function_call").Obj?)
  }

  const FINISHES := {"stop", "length", "tool_calls", "content_filter", "function_call"}

  /** A choice: its index, its delta, and a finish reason that may be null. */
  predicate ChoiceShape(c: Json) {
    && c.Obj? && c.fields.Keys <= {"index", "delta", "finish_reason", "logprobs"}
    && Get(c, "index").Int? && 0 <= Get(c, "index").n < 32
    && DeltaShape(Get(c, "delta"))
    && (Has(c, "logprobs") ==> Get(c, "logprobs").Null? || Get(c, "logprobs").Obj?)
    && Has(c, "finish_reason")
    && (Get(c, "finish_reason").Null? || (Get(c, "finish_reason").Str? && Get(c, "finish_reason").s in FINISHES))
  }

  function IndexIn(c: Json): int { match Get(c, "index") case Int(n) => n case _ => 0 }

  function FinishIn(c: Json): string { match Get(c, "finish_reason") case Str(s) => s case _ => "" }

  /** Every choice well shaped, no index twice. */
  ghost predicate ChoicesShape(items: seq<Json>) {
    && (forall k :: 0 <= k < |items| ==> ChoiceShape(items[k]))
    && (forall j, k :: 0 <= j < k < |items| ==> IndexIn(items[j]) != IndexIn(items[k]))
  }

  /** `marks` gives the indices of the choices, each with its finish reason. */
  ghost predicate MarksFor(items: seq<Json>, marks: map<nat, string>) {
    && (forall k :: 0 <= k < |items| ==>
          IndexIn(items[k]) >= 0 && IndexIn(items[k]) in marks && marks[IndexIn(items[k])] == FinishIn(items[k]))
    && (forall i :: i in marks ==> exists k :: 0 <= k < |items| && IndexIn(items[k]) == i)
  }

  const CHUNK_MEMBERS :=
    {"id", "object", "created", "model", "choices", "usage", "system_fingerprint", "service_tier"}

  predicate ChunkShape(j: Json) {
    && j.Obj? && j.fields.Keys <= CHUNK_MEMBERS && Get(j, "object") == Str("chat.completion.chunk")
    && Identifies(j) && Get(j, "choices").Arr? && |Get(j, "choices").items| <= 32
  }

  lemma ChoiceIs(c: Json)
    ensures ChoiceIndex(c).Ok? && ChoiceFinish(c).Ok? <==> ChoiceShape(c)
    ensures ChoiceShape(c) ==> ChoiceIndex(c).value == IndexIn(c) && ChoiceFinish(c).value == FinishIn(c)
  {
  }

  lemma {:induction false} MarksAre(items: seq<Json>, i: nat)
    requires i <= |items|
    ensures Marks(items, i).Some? <==> ChoicesShape(items[i..])
    ensures Marks(items, i).Some? ==> MarksFor(items[i..], Marks(items, i).value)
    decreases |items| - i
  {
    hide ChoiceShape, ChoiceIndex, ChoiceFinish, IndexIn, FinishIn;
    if i < |items| {
      MarksAre(items, i + 1);
      ChoiceIs(items[i]);
      IndexInRange(items[i]);
      assert items[i..] == [items[i]] + items[i + 1..];
      MarksStep(items[i], items[i + 1..], Marks(items, i + 1));
    } else {
      assert items[i..] == [];
    }
  }

  lemma IndexInRange(c: Json)
    ensures ChoiceShape(c) ==> 0 <= IndexIn(c) < 32
  {
  }

  lemma MarksStep(c: Json, rest: seq<Json>, marks: Option<map<nat, string>>)
    requires marks.Some? <==> ChoicesShape(rest)
    requires marks.Some? ==> MarksFor(rest, marks.value)
    requires ChoiceShape(c) ==> IndexIn(c) >= 0
    ensures ChoicesShape([c] + rest) <==> ChoiceShape(c) && marks.Some? && IndexIn(c) !in marks.value
    ensures ChoicesShape([c] + rest) ==> MarksFor([c] + rest, marks.value[IndexIn(c) := FinishIn(c)])
  {
    hide ChoiceShape, IndexIn, FinishIn;
    ShapeCons(c, rest);
    hide ChoicesShape;
    if marks.Some? {
      if IndexIn(c) in marks.value {
        var k :| 0 <= k < |rest| && IndexIn(rest[k]) == IndexIn(c);
      } else if ChoiceShape(c) {
        MarksCons(c, rest, marks.value);
      }
    }
  }

  lemma ShapeCons(c: Json, rest: seq<Json>)
    ensures ChoicesShape([c] + rest) <==>
              ChoiceShape(c) && ChoicesShape(rest) && forall k :: 0 <= k < |rest| ==> IndexIn(c) != IndexIn(rest[k])
  {
    hide ChoiceShape, IndexIn;
    var all := [c] + rest;
    assert all[0] == c && forall k :: 0 <= k < |rest| ==> all[k + 1] == rest[k];
    if ChoicesShape(all) {
      forall k | 0 <= k < |rest| ensures ChoiceShape(rest[k]) && IndexIn(c) != IndexIn(rest[k]) {
        assert all[k + 1] == rest[k];
      }
      forall j, k | 0 <= j < k < |rest| ensures IndexIn(rest[j]) != IndexIn(rest[k]) {
        assert all[j + 1] == rest[j] && all[k + 1] == rest[k];
      }
    }
  }

  lemma MarksCons(c: Json, rest: seq<Json>, marks: map<nat, string>)
    requires MarksFor(rest, marks) && IndexIn(c) >= 0 && IndexIn(c) !in marks
    ensures MarksFor([c] + rest, marks[IndexIn(c) := FinishIn(c)])
  {
    hide IndexIn, FinishIn;
    var all, more := [c] + rest, marks[IndexIn(c) := FinishIn(c)];
    forall i | i in more ensures exists k :: 0 <= k < |all| && IndexIn(all[k]) == i {
      if i in marks {
        var k :| 0 <= k < |rest| && IndexIn(rest[k]) == i;
        assert IndexIn(all[k + 1]) == i;
      } else {
        assert IndexIn(all[0]) == i;
      }
    }
  }

  /** An event the replay takes closes the stream, carries choices, or carries usage. */
  lemma ViewIs(parse: Parse, e: Event)
    ensures var v, j := ViewOf(parse, e), Body(parse, e);
            && (v.Done? <==> e.name in {"", "message"} && e.data == "[DONE]")
            && (v.Chunk? <==> IsChunk(parse, e))
            && (v.Usage? <==> IsUsage(parse, e))
            && (v.Chunk? ==> MarksFor(Items(j), v.marks))
            && (v.Usage? ==> v.usage == Get(j, "usage"))
            && (v.Chunk? || v.Usage? ==> Get(j, "id") == Str(v.id.response) && Get(j, "model") == Str(v.id.model))
  {
    hide Marks, OpenAiUsage, Identifies, IdentityOf, ChoicesShape, MarksFor, Decode, Body;
    DecodeIs(parse, e);
    var j := Body(parse, e);
    if j.Obj? {
      IdentityIs(j);
      if Get(j, "choices").Arr? {
        var items := Get(j, "choices").items;
        MarksAre(items, 0);
        assert items[0..] == items;
      }
    }
  }

  function Items(j: Json): seq<Json> { match Get(j, "choices") case Arr(items) => items case _ => [] }

  /** Choices without usage. */
  ghost predicate IsChunk(parse: Parse, e: Event) {
    var j := Body(parse, e);
    && e.name in {"", "message"} && e.data != "[DONE]"
    && ChunkShape(j) && Items(j) != [] && ChoicesShape(Items(j)) && Get(j, "usage").Null?
  }

  /** Usage without choices. */
  ghost predicate IsUsage(parse: Parse, e: Event) {
    var j := Body(parse, e);
    && e.name in {"", "message"} && e.data != "[DONE]"
    && ChunkShape(j) && Items(j) == [] && Get(j, "usage").Obj? && OpenAiUsage(Get(j, "usage"), false).Ok?
  }

  // ----- What the response holds -----

  /** Choice `c` occurs in event `k`. */
  ghost predicate ChoiceAt(parse: Parse, stream: seq<Event>, k: nat, c: Json) {
    k < |stream| && stream[k].data != "[DONE]" && c in Items(Body(parse, stream[k]))
  }

  /** The row is a finished choice of the stream. */
  ghost predicate RowFrom(parse: Parse, stream: seq<Event>, row: Json) {
    exists k: nat, c :: ChoiceAt(parse, stream, k, c) && Get(c, "finish_reason").Str?
                        && row == Obj(map["index" := Get(c, "index"), "finish_reason" := Get(c, "finish_reason")])
  }

  ghost predicate HasRow(rows: seq<Json>, index: Json) { exists row :: row in rows && Get(row, "index") == index }

  /** Every choice of the stream once, in index order, with the reason that finished it. */
  ghost predicate ListsChoices(parse: Parse, stream: seq<Event>, rows: seq<Json>) {
    && (forall row :: row in rows ==> RowFrom(parse, stream, row))
    && (forall k: nat, c :: ChoiceAt(parse, stream, k, c) ==> HasRow(rows, Get(c, "index")))
    && (forall i, j :: 0 <= i < j < |rows| ==> IndexIn(rows[i]) < IndexIn(rows[j]))
  }

  /** A finished choice is one of the stream's. */
  lemma FinishedHere(parse: Parse, stream: seq<Event>, k: nat, i: nat)
    requires k < |stream| && Finishes(ViewOf(parse, stream[k]), i)
    ensures RowFrom(parse, stream, Obj(map["index" := Int(i),
                                           "finish_reason" := Str(ViewOf(parse, stream[k]).marks[i])]))
  {
    hide ViewOf, Body, DeltaShape;
    ViewIs(parse, stream[k]);
    var items := Items(Body(parse, stream[k]));
    var n :| 0 <= n < |items| && IndexIn(items[n]) == i;
    var c := items[n];
    assert ChoiceShape(c);
    assert ChoiceAt(parse, stream, k, c);
    assert Get(c, "index") == Int(i) && Get(c, "finish_reason") == Str(ViewOf(parse, stream[k]).marks[i]);
  }

  /** A choice of the stream is mentioned by its event. */
  lemma MentionedHere(parse: Parse, stream: seq<Event>, k: nat, c: Json)
    requires ChoiceAt(parse, stream, k, c) && (ViewOf(parse, stream[k]).Chunk? || ViewOf(parse, stream[k]).Usage?)
    ensures Get(c, "index").Int? && Get(c, "index").n >= 0 && Mentions(ViewOf(parse, stream[k]), Get(c, "index").n)
  {
    hide ViewOf, Body, DeltaShape;
    ViewIs(parse, stream[k]);
    var items := Items(Body(parse, stream[k]));
    var n :| 0 <= n < |items| && items[n] == c;
    assert ChoiceShape(items[n]);
  }

  lemma ChosenFrom(parse: Parse, stream: seq<Event>, choices: map<nat, string>, i: nat)
    requires var vs := Views(parse, stream);
             Complete(vs) && Mentioned(vs, |vs|, choices) && Finished(vs, |vs|, choices) && i in choices
    ensures i < 32
    ensures RowFrom(parse, stream, Obj(map["index" := Int(i), "finish_reason" := Str(choices[i])]))
  {
    hide ViewOf, RowFrom;
    var vs := Views(parse, stream);
    var k :| 0 <= k < |vs| && Mentions(vs[k], i);
    ViewIsSound(parse, stream[k]);
    var m :| 0 <= m < |vs| && Finishes(vs[m], i);
    FinishedHere(parse, stream, m, i);
  }

  lemma RowsListed(parse: Parse, stream: seq<Event>, choices: map<nat, string>)
    requires var vs := Views(parse, stream);
             Complete(vs) && Mentioned(vs, |vs|, choices) && Finished(vs, |vs|, choices)
    ensures ListsChoices(parse, stream, Rows(choices, 0))
  {
    hide ViewOf, RowFrom, Complete, Mentioned, Finished, Rows, Listed, ChoiceAt;
    forall i | i in choices
      ensures i < 32 && RowFrom(parse, stream, Obj(map["index" := Int(i), "finish_reason" := Str(choices[i])]))
    {
      ChosenFrom(parse, stream, choices, i);
    }
    ChoicesListedOnce(choices);
    var rows, ns := Rows(choices, 0), Listed(choices, 0);
    forall k: nat, c | ChoiceAt(parse, stream, k, c) ensures HasRow(rows, Get(c, "index")) {
      AnyMention(parse, stream, choices, k, c);
      var j :| 0 <= j < |ns| && ns[j] == Get(c, "index").n;
      assert rows[j] in rows;
    }
  }

  lemma AnyMention(parse: Parse, stream: seq<Event>, choices: map<nat, string>, k: nat, c: Json)
    requires var vs := Views(parse, stream); Complete(vs) && Mentioned(vs, |vs|, choices)
    requires ChoiceAt(parse, stream, k, c)
    ensures Get(c, "index").Int? && Get(c, "index").n >= 0 && Get(c, "index").n in choices
  {
    hide ViewOf;
    ViewIs(parse, stream[k]);
    MentionedHere(parse, stream, k, c);
  }

  /** The usage the stream reports, right before its end. */
  function FinalUsage(parse: Parse, stream: seq<Event>): Json
    requires |stream| >= 2
  {
    var j := Body(parse, stream[|stream| - 2]);
    if Items(j) == [] then Get(j, "usage") else Null
  }

  /** What replaying an accepted Chat stream gives, in the stream's own members. */
  lemma ChatReply(parse: Parse, stream: seq<Event>)
    requires Streams.Replay(parse, "openai_chat", stream).Ok?
    ensures |stream| >= 2
    ensures var r, first := Streams.Replay(parse, "openai_chat", stream).value, Body(parse, stream[0]);
            && r.Obj? && r.fields.Keys == {"id", "model", "object", "choices", "usage"}
            && Get(r, "object") == Str("chat.completion")
            && Get(r, "id") == Get(first, "id") && Get(r, "model") == Get(first, "model")
            && Get(r, "usage") == FinalUsage(parse, stream)
            && Get(r, "choices").Arr? && ListsChoices(parse, stream, Get(r, "choices").items)
  {
    hide ViewOf, Body, Mentioned, Finished, Rows, ListsChoices, Chat;
    var vs, st := Views(parse, stream), Chat(parse, stream).value;
    ChatAcceptsComplete(parse, stream);
    RowsListed(parse, stream, st.choices);
    ViewIs(parse, stream[0]);
    ViewIs(parse, stream[|stream| - 2]);
  }
}
