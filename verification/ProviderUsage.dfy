/** Provider usage records, normalized to four disjoint token buckets.  Every
    counter may be absent or null, which means unknown. */
module ProviderUsage {
  import opened Wrappers
  import opened Json

  const TOKEN_CAP: nat := 1_000_000_000

  type Count = Option<nat>

  /** One entry per billing bucket. */
  datatype Quad<+T> = Quad(uncached: T, cacheRead: T, cacheWrite: T, output: T)

  type Values = Quad<Count>

  function Fields(j: Json, allowed: set<string>): Outcome {
    if !j.Obj? then Fail("usage_object") else Need(j.fields.Keys <= allowed, "usage_fields")
  }

  function CountOf(j: Json, key: string): (r: Result<Count>)
    ensures r.Ok? && r.value.Some? ==> Get(j, key) == Int(r.value.value) && r.value.value <= TOKEN_CAP
  {
    match Get(j, key)
    case Null => Ok(None)
    case Int(n) => if 0 <= n <= TOKEN_CAP then Ok(Some(n)) else Err("usage_quantity")
    case _ => Err("usage_quantity")
  }

  function Detail(j: Json, key: string): Result<Json> {
    match Get(j, key)
    case Null => Ok(Obj(map[]))
    case Obj(_) => Ok(j.fields[key])
    case _ => Err("usage_detail_object")
  }

  function Subset(part: Count, whole: Count): Outcome {
    Need(part.Some? && whole.Some? ==> part.value <= whole.value, "usage_inconsistent")
  }

  function Equality(actual: Count, expected: Count): Outcome {
    Need(actual.Some? && expected.Some? ==> actual.value == expected.value, "usage_inconsistent")
  }

  // Two counts are at most 2 * TOKEN_CAP together, so the checked 64-bit
  // addition of the program cannot fail here and is plain addition.
  function Sum(a: Count, b: Count): Count {
    if a.Some? && b.Some? then Some(a.value + b.value) else None
  }

  function ZeroAudio(d: Json): Outcome {
    if !Has(d, "audio_tokens") then Pass else
    match CountOf(d, "audio_tokens")
    case Err(code) => Fail(code)
    case Ok(n) => Need(n == Some(0), "usage_audio_unsupported")
  }

  function SubsetOf(d: Json, key: string, whole: Count): Outcome {
    match CountOf(d, key)
    case Err(code) => Fail(code)
    case Ok(n) => Subset(n, whole)
  }

  /** Details lie inside the inclusive output.  Members are visited in name order. */
  function OpenAiOutputDetails(d: Json, output: Count): Result<Unit> {
    var known := {"reasoning_tokens", "accepted_prediction_tokens", "rejected_prediction_tokens", "audio_tokens"};
    :- Fields(d, known);
    :- SubsetOf(d, "accepted_prediction_tokens", output);
    :- SubsetOf(d, "audio_tokens", output);
    :- SubsetOf(d, "reasoning_tokens", output);
    :- SubsetOf(d, "rejected_prediction_tokens", output);
    :- ZeroAudio(d);
    Ok(Unit)
  }

  function AnthropicOutputDetails(d: Json, output: Count): Result<Unit> {
    var known := {"thinking_tokens"};
    :- Fields(d, known);
    :- SubsetOf(d, "thinking_tokens", output);
    Ok(Unit)
  }

  function Max(a: nat, b: nat): nat { if a < b then b else a }

  /** The member names of the two OpenAI usage dialects. */
  datatype Names = Names(input: string, output: string, inputDetails: string, outputDetails: string)

  const RESPONSES := Names("input_tokens", "output_tokens", "input_tokens_details", "output_tokens_details")
  const CHAT := Names("prompt_tokens", "completion_tokens", "prompt_tokens_details", "completion_tokens_details")

  function NamesOf(responses: bool): Names {
    if responses then RESPONSES else CHAT
  }

  /** Cache read and cache write, from the input details. */
  function CacheDetails(u: Json, key: string): Result<(Count, Count)> {
    var d :- Detail(u, key);
    :- Fields(d, {"cached_tokens", "cache_write_tokens", "audio_tokens"});
    :- ZeroAudio(d);
    var read :- CountOf(d, "cached_tokens");
    var write :- CountOf(d, "cache_write_tokens");
    Ok((read, write))
  }

  function CacheFits(read: Count, write: Count, input: Count): Outcome {
    var both := Sum(read, write);
    if Subset(read, input).Fail? then Subset(read, input)
    else if Subset(write, input).Fail? then Subset(write, input)
    else if Subset(both, input).Fail? then Subset(both, input)
    else Need(input.Some? ==> read.GetOr(0) + write.GetOr(0) <= input.value, "usage_inconsistent")
  }

  /** The least output the reported output and its details allow. */
  function LeastOutput(u: Json, key: string, output: Count): Result<nat> {
    var d :- Detail(u, key);
    var _ :- OpenAiOutputDetails(d, output);
    var accepted :- CountOf(d, "accepted_prediction_tokens");
    var audio :- CountOf(d, "audio_tokens");
    var reasoning :- CountOf(d, "reasoning_tokens");
    var rejected :- CountOf(d, "rejected_prediction_tokens");
    Ok(Max(Max(Max(Max(output.GetOr(0), accepted.GetOr(0)), audio.GetOr(0)), reasoning.GetOr(0)), rejected.GetOr(0)))
  }

  function TotalFits(total: Count, input: Count, output: Count, leastInput: nat, leastOutput: nat): Outcome {
    if total.Some? && leastInput + leastOutput > total.value then Fail("usage_inconsistent")
    else Equality(total, Sum(input, output))
  }

  // Only a reported zero total input proves both cache buckets zero.
  function Partition(input: Count, output: Count, read: Count, write: Count): Values
    requires CacheFits(read, write, input).Pass?
  {
    var empty := input == Some(0);
    var r, w := if empty then Some(0) else read, if empty then Some(0) else write;
    Quad(if input.Some? && r.Some? && w.Some? then Some(input.value - r.value - w.value) else None, r, w, output)
  }

  function OpenAiUsage(u: Json, responses: bool): Result<Values> {
    var k := NamesOf(responses);
    :- Fields(u, {k.input, k.output, "total_tokens", k.inputDetails, k.outputDetails});
    var input :- CountOf(u, k.input);
    var output :- CountOf(u, k.output);
    var total :- CountOf(u, "total_tokens");
    var (read, write) :- CacheDetails(u, k.inputDetails);
    :- CacheFits(read, write, input);
    var leastOutput :- LeastOutput(u, k.outputDetails, output);
    :- TotalFits(total, input, output, input.GetOr(read.GetOr(0) + write.GetOr(0)), leastOutput);
    Ok(Partition(input, output, read, write))
  }

  // Both counters or neither, at most one of them positive, together the cache write.
  function CacheLifetimes(u: Json, write: Count): Result<Count> {
    if Get(u, "cache_creation").Null? then Ok(write) else
    var d :- Detail(u, "cache_creation");
    :- Fields(d, {"ephemeral_5m_input_tokens", "ephemeral_1h_input_tokens"});
    var a :- CountOf(d, "ephemeral_5m_input_tokens");
    var b :- CountOf(d, "ephemeral_1h_input_tokens");
    :- Need(a.Some? && b.Some?, "usage_cache_ttl_incomplete");
    :- Equality(write, Sum(a, b));
    :- Need(!(a.value > 0 && b.value > 0), "usage_mixed_cache_ttl");
    :- Need(a.value + b.value <= TOKEN_CAP, "usage_quantity");
    Ok(Sum(a, b))
  }

  function ToolRequests(u: Json): Result<Unit> {
    var d :- Detail(u, "server_tool_use");
    :- Fields(d, {"web_search_requests", "web_fetch_requests"});
    var _ :- CountOf(d, "web_fetch_requests");
    var _ :- CountOf(d, "web_search_requests");
    Ok(Unit)
  }

  predicate Metadata(u: Json, key: string) {
    Get(u, key).Null? || (Get(u, key).Str? && |Get(u, key).s| <= 128)
  }

  function AnthropicUsage(u: Json): Result<Values> {
    var known := {"input_tokens", "output_tokens", "cache_read_input_tokens", "cache_creation_input_tokens",
                  "cache_creation", "output_tokens_details", "server_tool_use", "iterations",
                  "inference_geo", "service_tier", "speed"};
    :- Fields(u, known);
    var input :- CountOf(u, "input_tokens");
    var read :- CountOf(u, "cache_read_input_tokens");
    var write :- CountOf(u, "cache_creation_input_tokens");
    var output :- CountOf(u, "output_tokens");
    var od :- Detail(u, "output_tokens_details");
    var _ :- AnthropicOutputDetails(od, output);
    :- Need(Get(u, "iterations") in {Null, Arr([])}, "usage_iterations_unsupported");
    var created :- CacheLifetimes(u, write);
    var _ :- ToolRequests(u);
    :- Need(Metadata(u, "inference_geo") && Metadata(u, "service_tier") && Metadata(u, "speed"), "usage_metadata");
    Ok(Quad(input, read, created, output))
  }

  // ----- Reading counters -----

  /** The number reported at `p`, if there is one. */
  function Reported(u: Json, p: Path): Count {
    match At(u, p)
    case Int(n) => if n >= 0 then Some(n) else None
    case _ => None
  }

  /** The count held by member `key`, if it holds one. */
  function Known(j: Json, key: string): Count {
    match Get(j, key)
    case Int(n) => if n >= 0 then Some(n) else None
    case _ => None
  }

  lemma CountOfShape(j: Json, key: string)
    ensures CountOf(j, key) == if CountShape(j, key) then Ok(Known(j, key)) else Err("usage_quantity")
  {
  }

  /** A member that is absent, null or a count. */
  predicate CountShape(j: Json, key: string) {
    match Get(j, key)
    case Null => true
    case Int(n) => 0 <= n <= 1_000_000_000
    case _ => false
  }

  lemma ReportedIsKnown(u: Json, a: string, b: string)
    ensures Reported(u, [a]) == Known(u, a) && Reported(u, [a, b]) == Known(Get(u, a), b)
  {
    AtMember(u, a, b);
  }

  predicate AtMost(part: Count, whole: Count) { part.Some? && whole.Some? ==> part.value <= whole.value }

  predicate WithinCap(v: Values) {
    && v.uncached.GetOr(0) <= TOKEN_CAP && v.cacheRead.GetOr(0) <= TOKEN_CAP
    && v.cacheWrite.GetOr(0) <= TOKEN_CAP && v.output.GetOr(0) <= TOKEN_CAP
  }

  lemma OpenAiWithinCap(u: Json, responses: bool)
    requires OpenAiUsage(u, responses).Ok?
    ensures WithinCap(OpenAiUsage(u, responses).value)
  {
    hide Fields, CacheFits, OpenAiOutputDetails, Detail, ZeroAudio, LeastOutput, TotalFits;
    hide CountOf;
  }

  lemma AnthropicWithinCap(u: Json)
    requires AnthropicUsage(u).Ok?
    ensures WithinCap(AnthropicUsage(u).value)
  {
  }
}
