/** One Anthropic usage snapshot on its own: when it is accepted, and which of its
    buckets it determines. */
module AnthropicDerivation {
  import opened Wrappers
  import opened Json
  import opened ProviderUsage
  import opened AnthropicHistory
  import T = TokenCost

  ghost predicate Fills(c: Completion, u: Json) { c.Consistent() && c.Agrees(u) }

  function Buckets(c: Completion): Quad<nat> { Quad(c.input, c.read, c.write, c.output) }

  /** Cache writes: the two lifetimes together when both are reported. */
  function Created(s: Snapshot): Count {
    if s.fiveMinutes.Some? && s.oneHour.Some? then Some(s.fiveMinutes.value + s.oneHour.value) else s.write
  }

  function Fill(s: Snapshot, input: nat, read: nat, write: nat, output: nat): Completion {
    var split := s.fiveMinutes.Some? && s.oneHour.Some?;
    Completion(input, read, write, output, if split then s.fiveMinutes.value else write,
               if split then s.oneHour.value else 0, s.thinking.GetOr(0), s.search.GetOr(0), s.fetch.GetOr(0))
  }

  lemma FillAgrees(s: Snapshot, input: nat, read: nat, write: nat, output: nat)
    requires SelfConsistent(s) && (s.fiveMinutes.Some? <==> s.oneHour.Some?)
    requires s.input.GetOr(input) == input && s.read.GetOr(read) == read && Created(s).GetOr(write) == write
    requires s.output.GetOr(output) == output && s.thinking.GetOr(0) <= output
    ensures Fill(s, input, read, write, output).Consistent() && Agree(s, Fill(s, input, read, write, output))
  {
  }

  /** The least completion, with room added to one bucket where it is unknown. */
  function Completed(s: Snapshot, more: Quad<nat>): Completion {
    Fill(s, s.input.GetOr(more.uncached), s.read.GetOr(more.cacheRead), Created(s).GetOr(more.cacheWrite),
         s.output.GetOr(s.thinking.GetOr(0) + more.output))
  }

  lemma CompletedAgrees(s: Snapshot, more: Quad<nat>)
    requires SelfConsistent(s) && (s.fiveMinutes.Some? <==> s.oneHour.Some?)
    ensures Completed(s, more).Consistent() && Agree(s, Completed(s, more))
  {
    hide Agree, Created, Fill;
    FillAgrees(s, s.input.GetOr(more.uncached), s.read.GetOr(more.cacheRead), Created(s).GetOr(more.cacheWrite),
               s.output.GetOr(s.thinking.GetOr(0) + more.output));
  }

  lemma CompletedFills(u: Json, more: Quad<nat>)
    requires AnthropicUsage(u).Ok?
    ensures Fills(Completed(ReadSnapshot(u), more), u)
  {
    hide AnthropicUsage, AnthropicShape, ReadSnapshot, SelfConsistent, Completed, Agree, Completion.Consistent;
    AnthropicUsageIs(u);
    LifetimesPaired(u);
    CompletedAgrees(ReadSnapshot(u), more);
    AgreesIsAgree(Completed(ReadSnapshot(u), more), u);
  }

  lemma FillsIsConsistent(u: Json, c: Completion)
    requires Fills(c, u)
    ensures Agree(ReadSnapshot(u), c) && SelfConsistent(ReadSnapshot(u))
  {
    AgreesIsAgree(c, u);
    hide ReadSnapshot;
    var s := ReadSnapshot(u);
    assert s.Of(Write) == s.write && s.Of(FiveMinutes) == s.fiveMinutes && s.Of(OneHour) == s.oneHour;
    assert s.Of(Thinking) == s.thinking && s.Of(Output) == s.output;
  }

  /** A snapshot is accepted exactly when it is well-shaped and its unknown counters can be filled in. */
  lemma UsageIffCompletion(u: Json)
    ensures AnthropicUsage(u).Ok? <==> AnthropicShape(u) && exists c: Completion :: Fills(c, u)
  {
    hide AnthropicUsage, AnthropicShape, ReadSnapshot, SelfConsistent, Fills;
    AnthropicUsageIs(u);
    if AnthropicUsage(u).Ok? {
      CompletedFills(u, Quad(0, 0, 0, 0));
    } else if c: Completion :| Fills(c, u) {
      FillsIsConsistent(u, c);
    }
  }

  lemma BucketsAre(u: Json)
    requires AnthropicUsage(u).Ok?
    ensures var s := ReadSnapshot(u); AnthropicUsage(u).value == Quad(s.input, s.read, Created(s), s.output)
  {
    CountOfShape(u, "input_tokens");
    CountOfShape(u, "cache_read_input_tokens");
    CountOfShape(u, "cache_creation_input_tokens");
    CountOfShape(u, "output_tokens");
    LifetimesGive(u, Known(u, "cache_creation_input_tokens"));
    hide CountOf, CountShape, CacheLifetimes, ToolRequests, AnthropicOutputDetails, Metadata, Detail;
  }

  lemma LifetimesGive(u: Json, write: Count)
    requires CacheLifetimes(u, write).Ok?
    ensures var d := Get(u, "cache_creation");
            var a, b := Known(d, "ephemeral_5m_input_tokens"), Known(d, "ephemeral_1h_input_tokens");
            CacheLifetimes(u, write).value == if a.Some? && b.Some? then Some(a.value + b.value) else write
  {
    var d := Get(u, "cache_creation");
    CountOfShape(d, "ephemeral_5m_input_tokens");
    CountOfShape(d, "ephemeral_1h_input_tokens");
  }

  /** Where each bucket comes from: counters are reported as they stand, except that a
      cache write split by lifetime is the sum of the two. */
  ghost predicate Normalizes(u: Json, v: Quad<Option<int>>) {
    var a, b := Reported(u, PathOf(FiveMinutes)), Reported(u, PathOf(OneHour));
    && v.uncached == Reported(u, PathOf(Input)) && v.cacheRead == Reported(u, PathOf(Read))
    && v.cacheWrite == (if a.Some? && b.Some? then Some(a.value + b.value) else Reported(u, PathOf(Write)))
    && v.output == Reported(u, PathOf(Output))
  }

  lemma BucketsAreReported(u: Json)
    requires AnthropicUsage(u).Ok?
    ensures Normalizes(u, AnthropicUsage(u).value)
  {
    hide AnthropicUsage, ReadSnapshot, Reported;
    BucketsAre(u);
    var s := ReadSnapshot(u);
    forall x: Tally ensures s.Of(x) == Reported(u, PathOf(x)) {
      ReadIsReported(u, x);
    }
    assert s.Of(Input) == s.input && s.Of(Read) == s.read && s.Of(Write) == s.write && s.Of(Output) == s.output;
    assert s.Of(FiveMinutes) == s.fiveMinutes && s.Of(OneHour) == s.oneHour;
  }

  /** Every completion has the same value in this bucket. */
  ghost predicate Determined(u: Json, b: T.Bucket) {
    forall c: Completion, d: Completion :: Fills(c, u) && Fills(d, u) ==> T.At(Buckets(c), b) == T.At(Buckets(d), b)
  }

  lemma KnownIsForced(u: Json, b: T.Bucket, c: Completion)
    requires AnthropicUsage(u).Ok? && Fills(c, u) && T.At(AnthropicUsage(u).value, b).Some?
    ensures T.At(Buckets(c), b) == T.At(AnthropicUsage(u).value, b).value
  {
    BucketsAre(u);
    FillsIsConsistent(u, c);
    hide AnthropicUsage, ReadSnapshot;
    var s := ReadSnapshot(u);
    assert s.Of(Input) == s.input && s.Of(Read) == s.read && s.Of(Write) == s.write && s.Of(Output) == s.output;
    assert s.Of(FiveMinutes) == s.fiveMinutes && s.Of(OneHour) == s.oneHour;
  }

  lemma UnknownIsFree(u: Json, b: T.Bucket)
    requires AnthropicUsage(u).Ok? && T.At(AnthropicUsage(u).value, b).None?
    ensures !Determined(u, b)
  {
    BucketsAre(u);
    CompletedFills(u, Quad(0, 0, 0, 0));
    CompletedFills(u, Quad(1, 1, 1, 1));
    hide AnthropicUsage, ReadSnapshot, Fills;
    var c, d := Completed(ReadSnapshot(u), Quad(0, 0, 0, 0)), Completed(ReadSnapshot(u), Quad(1, 1, 1, 1));
    assert T.At(Buckets(c), b) != T.At(Buckets(d), b);
  }

  /** A bucket is reported exactly when every completion of the snapshot gives it the
      same value; nothing determined is left unknown. */
  lemma ReportedIffDetermined(u: Json, b: T.Bucket)
    requires AnthropicUsage(u).Ok?
    ensures T.At(AnthropicUsage(u).value, b).Some? <==> Determined(u, b)
  {
    hide AnthropicUsage, Fills;
    if T.At(AnthropicUsage(u).value, b).Some? {
      forall c: Completion, d: Completion | Fills(c, u) && Fills(d, u)
        ensures T.At(Buckets(c), b) == T.At(Buckets(d), b) {
        KnownIsForced(u, b, c);
        KnownIsForced(u, b, d);
      }
    } else {
      UnknownIsFree(u, b);
    }
  }
}
