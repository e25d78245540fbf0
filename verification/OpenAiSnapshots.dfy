/** What an OpenAI usage snapshot claims: the checks of `OpenAiUsage` accept it
    exactly when its unknown counters can be filled in. */
module OpenAiSnapshots {
  import opened Wrappers
  import opened Json
  import opened ProviderUsage

  // ----- What a snapshot claims -----

  /** The counters of an OpenAI snapshot. */
  datatype Counter =
    | Input | Output | Total | CacheRead | CacheWrite | InputAudio
    | Reasoning | Accepted | Rejected | OutputAudio

  /** The member of a usage object that reports a counter, in either dialect. */
  function Key(responses: bool, x: Counter): string {
    match x
    case Input => if responses then "input_tokens" else "prompt_tokens"
    case Output => if responses then "output_tokens" else "completion_tokens"
    case Total => "total_tokens"
    case CacheRead | CacheWrite | InputAudio => if responses then "input_tokens_details" else "prompt_tokens_details"
    case _ => if responses then "output_tokens_details" else "completion_tokens_details"
  }

  function PathOf(responses: bool, x: Counter): Path {
    match x
    case CacheRead => [Key(responses, x), "cached_tokens"]
    case CacheWrite => [Key(responses, x), "cache_write_tokens"]
    case InputAudio => [Key(responses, x), "audio_tokens"]
    case Reasoning => [Key(responses, x), "reasoning_tokens"]
    case Accepted => [Key(responses, x), "accepted_prediction_tokens"]
    case Rejected => [Key(responses, x), "rejected_prediction_tokens"]
    case OutputAudio => [Key(responses, x), "audio_tokens"]
    case _ => [Key(responses, x)]
  }

  /** Values for all the counters a snapshot may leave out. */
  datatype Completion = Completion(input: nat, output: nat, total: nat, read: nat, write: nat,
                                   reasoning: nat, accepted: nat, rejected: nat)
  {
    /** Caches are part of the input, details part of the output, and the total is both. */
    predicate Consistent() {
      && read + write <= input
      && reasoning <= output && accepted <= output && rejected <= output
      && total == input + output
    }

    function Of(x: Counter): nat {
      match x
      case Input => input
      case Output => output
      case Total => total
      case CacheRead => read
      case CacheWrite => write
      case Reasoning => reasoning
      case Accepted => accepted
      case Rejected => rejected
      case InputAudio => 0
      case OutputAudio => 0
    }

    /** Every number the snapshot reports is the completed one. */
    ghost predicate Agrees(responses: bool, u: Json) {
      forall x: Counter :: Reported(u, PathOf(responses, x)).Some? ==> Of(x) == Reported(u, PathOf(responses, x)).value
    }

    /** No number reported by `u` exceeds the completed one. */
    ghost predicate Covers(responses: bool, u: Json) {
      forall x: Counter :: Reported(u, PathOf(responses, x)).Some? ==> Of(x) >= Reported(u, PathOf(responses, x)).value
    }

    function Buckets(): Quad<nat>
      requires Consistent()
    {
      Quad(input - read - write, read, write, output)
    }
  }

  /** A detail member that is absent, null or an object of counts without audio. */
  predicate DetailShape(u: Json, key: string, counters: set<string>) {
    match Get(u, key)
    case Null => true
    case Obj(m) =>
      && m.Keys <= counters + {"audio_tokens"}
      && (forall c | c in counters :: CountShape(Get(u, key), c))
      && ("audio_tokens" in m ==> m["audio_tokens"] == Int(0))
    case _ => false
  }

  const CACHE_DETAILS := {"cached_tokens", "cache_write_tokens"}
  const OUTPUT_DETAILS := {"reasoning_tokens", "accepted_prediction_tokens", "rejected_prediction_tokens"}

  predicate OpenAiShape(u: Json, responses: bool) {
    && u.Obj?
    && u.fields.Keys <= {Key(responses, Input), Key(responses, Output), "total_tokens",
                         Key(responses, CacheRead), Key(responses, Reasoning)}
    && CountShape(u, Key(responses, Input)) && CountShape(u, Key(responses, Output)) && CountShape(u, "total_tokens")
    && DetailShape(u, Key(responses, CacheRead), CACHE_DETAILS)
    && DetailShape(u, Key(responses, Reasoning), OUTPUT_DETAILS)
  }

  // ----- The checks as arithmetic on what is known -----

  datatype Snapshot = Snapshot(input: Count, output: Count, total: Count, read: Count, write: Count,
                               reasoning: Count, accepted: Count, rejected: Count)
  {
    function Of(x: Counter): Count {
      match x
      case Input => input
      case Output => output
      case Total => total
      case CacheRead => read
      case CacheWrite => write
      case Reasoning => reasoning
      case Accepted => accepted
      case Rejected => rejected
      case InputAudio => None
      case OutputAudio => None
    }
  }

  /** Lower bounds, zero where nothing was observed. */
  datatype Floor = Floor(input: nat, output: nat, total: nat, read: nat, write: nat,
                         reasoning: nat, accepted: nat, rejected: nat)
  {
    function Of(x: Counter): nat {
      match x
      case Input => input
      case Output => output
      case Total => total
      case CacheRead => read
      case CacheWrite => write
      case Reasoning => reasoning
      case Accepted => accepted
      case Rejected => rejected
      case InputAudio => 0
      case OutputAudio => 0
    }

    function Cache(): nat { read + write }
    function Output(): nat { Max(Max(output, reasoning), Max(accepted, rejected)) }
  }

  function Read(u: Json, responses: bool): Snapshot {
    var d, od := Get(u, Key(responses, CacheRead)), Get(u, Key(responses, Reasoning));
    Snapshot(Known(u, Key(responses, Input)), Known(u, Key(responses, Output)), Known(u, "total_tokens"),
             Known(d, "cached_tokens"), Known(d, "cache_write_tokens"),
             Known(od, "reasoning_tokens"), Known(od, "accepted_prediction_tokens"),
             Known(od, "rejected_prediction_tokens"))
  }

  /** The known input: what the caches report. */
  function KnownInput(s: Snapshot): nat { s.read.GetOr(0) + s.write.GetOr(0) }

  /** The least output the snapshot allows. */
  function Least(s: Snapshot): nat {
    Max(Max(s.output.GetOr(0), s.reasoning.GetOr(0)), Max(s.accepted.GetOr(0), s.rejected.GetOr(0)))
  }

  predicate SelfConsistent(s: Snapshot) {
    && (s.input.Some? ==> KnownInput(s) <= s.input.value)
    && AtMost(s.reasoning, s.output) && AtMost(s.accepted, s.output) && AtMost(s.rejected, s.output)
    && (s.total.Some? ==> s.input.GetOr(KnownInput(s)) + Least(s) <= s.total.value)
    && (s.total.Some? && s.input.Some? && s.output.Some? ==> s.total.value == s.input.value + s.output.value)
  }

  lemma CacheDetailsRead(u: Json, key: string)
    ensures CacheDetails(u, key).Ok? <==> DetailShape(u, key, CACHE_DETAILS)
    ensures CacheDetails(u, key).Ok? ==>
              CacheDetails(u, key).value == (Known(Get(u, key), "cached_tokens"),
                                             Known(Get(u, key), "cache_write_tokens"))
  {
    var d := Detail(u, key);
    if d.Ok? {
      CountOfShape(d.value, "cached_tokens");
      CountOfShape(d.value, "cache_write_tokens");
      CountOfShape(d.value, "audio_tokens");
    }
  }

  predicate FitsOutput(od: Json, output: Count) {
    && AtMost(Known(od, "reasoning_tokens"), output)
    && AtMost(Known(od, "accepted_prediction_tokens"), output)
    && AtMost(Known(od, "rejected_prediction_tokens"), output)
  }

  function LeastKnown(od: Json, output: Count): nat {
    Max(Max(output.GetOr(0), Known(od, "reasoning_tokens").GetOr(0)),
        Max(Known(od, "accepted_prediction_tokens").GetOr(0), Known(od, "rejected_prediction_tokens").GetOr(0)))
  }

  /** The output details as members of `d`. */
  lemma OutputDetailsPass(d: Json, output: Count)
    requires d.Obj?
    ensures OpenAiOutputDetails(d, output).Ok? <==>
              && d.fields.Keys <= OUTPUT_DETAILS + {"audio_tokens"}
              && CountShape(d, "reasoning_tokens") && CountShape(d, "accepted_prediction_tokens")
              && CountShape(d, "rejected_prediction_tokens")
              && ("audio_tokens" in d.fields ==> d.fields["audio_tokens"] == Int(0))
              && FitsOutput(d, output)
  {
    CountOfShape(d, "reasoning_tokens");
    CountOfShape(d, "accepted_prediction_tokens");
    CountOfShape(d, "rejected_prediction_tokens");
    AudioIsZero(d, output);
    hide CountOf, CountShape, Known, ZeroAudio;
  }

  lemma AudioIsZero(d: Json, output: Count)
    requires d.Obj?
    ensures var zero := "audio_tokens" in d.fields ==> d.fields["audio_tokens"] == Int(0);
            && (ZeroAudio(d).Pass? <==> zero) && (zero ==> SubsetOf(d, "audio_tokens", output).Pass?)
  {
  }

  lemma OutputDetailsRead(u: Json, key: string, output: Count)
    ensures LeastOutput(u, key, output).Ok? <==> DetailShape(u, key, OUTPUT_DETAILS) && FitsOutput(Get(u, key), output)
    ensures LeastOutput(u, key, output).Ok? ==> LeastOutput(u, key, output).value == LeastKnown(Get(u, key), output)
  {
    var d := Detail(u, key);
    hide OpenAiOutputDetails, LeastOutput, FitsOutput, LeastKnown, CountOf;
    if d.Ok? {
      OutputDetailsPass(d.value, output);
      LeastOutputIs(u, key, output);
      assert d.value.Obj? && (Get(u, key).Null? ==> d.value == Obj(map[]));
      SameDetails(u, key, output);
    } else {
      NoDetails(u, key, output);
    }
  }

  lemma NoDetails(u: Json, key: string, output: Count)
    requires Detail(u, key).Err?
    ensures LeastOutput(u, key, output).Err? && !DetailShape(u, key, OUTPUT_DETAILS)
  {
  }

  /** Absent details read like empty ones. */
  lemma SameDetails(u: Json, key: string, output: Count)
    requires Detail(u, key).Ok?
    ensures var d := Detail(u, key).value;
            && d.Obj? && FitsOutput(d, output) == FitsOutput(Get(u, key), output)
            && LeastKnown(d, output) == LeastKnown(Get(u, key), output)
            && (DetailShape(u, key, OUTPUT_DETAILS) <==>
                  && d.fields.Keys <= OUTPUT_DETAILS + {"audio_tokens"}
                  && CountShape(d, "reasoning_tokens") && CountShape(d, "accepted_prediction_tokens")
                  && CountShape(d, "rejected_prediction_tokens")
                  && ("audio_tokens" in d.fields ==> d.fields["audio_tokens"] == Int(0)))
  {
    hide AtMost, Max;
  }

  lemma LeastOutputIs(u: Json, key: string, output: Count)
    requires Detail(u, key).Ok? && Detail(u, key).value.Obj?
    ensures LeastOutput(u, key, output).Ok? <==> OpenAiOutputDetails(Detail(u, key).value, output).Ok?
    ensures LeastOutput(u, key, output).Ok? ==>
              LeastOutput(u, key, output).value == LeastKnown(Detail(u, key).value, output)
  {
    var d := Detail(u, key).value;
    CountOfShape(d, "reasoning_tokens");
    CountOfShape(d, "accepted_prediction_tokens");
    CountOfShape(d, "rejected_prediction_tokens");
    CountOfShape(d, "audio_tokens");
    OutputDetailsPass(d, output);
    hide CountOf, OpenAiOutputDetails, FitsOutput;
  }

  lemma DetailsOf(u: Json, responses: bool)
    ensures var s, od := Read(u, responses), Get(u, Key(responses, Reasoning));
            && s.reasoning == Known(od, "reasoning_tokens") && s.accepted == Known(od, "accepted_prediction_tokens")
            && s.rejected == Known(od, "rejected_prediction_tokens")
  {
  }

  /** The inequality checks, taken together. */
  lemma FitsTogether(s: Snapshot, od: Json)
    requires s.reasoning == Known(od, "reasoning_tokens") && s.accepted == Known(od, "accepted_prediction_tokens")
    requires s.rejected == Known(od, "rejected_prediction_tokens")
    ensures SelfConsistent(s) <==>
              && CacheFits(s.read, s.write, s.input).Pass? && FitsOutput(od, s.output)
              && TotalFits(s.total, s.input, s.output, s.input.GetOr(KnownInput(s)), LeastKnown(od, s.output)).Pass?
  {
    hide Known;
  }

  lemma NamesAreKeys(responses: bool)
    ensures var k := NamesOf(responses);
            && k.input == Key(responses, Input) && k.output == Key(responses, Output)
            && k.inputDetails == Key(responses, CacheRead) && k.outputDetails == Key(responses, Reasoning)
  {
  }

  /** `OpenAiUsage` accepts exactly the well-shaped snapshots whose known counters fit together. */
  lemma OpenAiUsageIs(u: Json, responses: bool)
    ensures OpenAiUsage(u, responses).Ok? <==>
              OpenAiShape(u, responses) && SelfConsistent(Read(u, responses))
    ensures OpenAiUsage(u, responses).Ok? ==>
              var s := Read(u, responses);
              CacheFits(s.read, s.write, s.input).Pass? &&
              OpenAiUsage(u, responses).value == Partition(s.input, s.output, s.read, s.write)
  {
    hide CountOf, CountShape, CacheDetails, DetailShape, LeastOutput, Partition, Known, NamesOf;
    hide SelfConsistent, CacheFits, TotalFits, FitsOutput, LeastKnown;
    var k := NamesOf(responses);
    NamesAreKeys(responses);
    FitsTogether(Read(u, responses), Get(u, k.outputDetails));
    DetailsOf(u, responses);
    CountOfShape(u, k.input);
    CountOfShape(u, k.output);
    CountOfShape(u, "total_tokens");
    CacheDetailsRead(u, k.inputDetails);
    if CountShape(u, k.output) {
      OutputDetailsRead(u, k.outputDetails, Known(u, k.output));
    }
  }

  /** `Read` reads each counter at its path; audio can only be reported as zero. */
  lemma ReadIsReported(u: Json, responses: bool, x: Counter)
    requires OpenAiShape(u, responses)
    ensures Read(u, responses).Of(x) == Reported(u, PathOf(responses, x)) ||
            (Read(u, responses).Of(x).None? && Reported(u, PathOf(responses, x)) == Some(0))
    ensures x != InputAudio && x != OutputAudio ==> Read(u, responses).Of(x) == Reported(u, PathOf(responses, x))
  {
    var p := PathOf(responses, x);
    if |p| == 1 {
      ReportedIsKnown(u, p[0], "");
    } else {
      ReportedIsKnown(u, p[0], p[1]);
    }
  }

  /** What the completion must match, counter by counter. */
  predicate Matches(c: Completion, s: Snapshot) {
    && c.input == s.input.GetOr(c.input) && c.output == s.output.GetOr(c.output) && c.total == s.total.GetOr(c.total)
    && c.read == s.read.GetOr(c.read) && c.write == s.write.GetOr(c.write)
    && c.reasoning == s.reasoning.GetOr(c.reasoning) && c.accepted == s.accepted.GetOr(c.accepted)
    && c.rejected == s.rejected.GetOr(c.rejected)
  }

  lemma MatchesEach(c: Completion, s: Snapshot)
    ensures Matches(c, s) <==> forall x: Counter :: s.Of(x).Some? ==> c.Of(x) == s.Of(x).value
  {
    if forall x: Counter :: s.Of(x).Some? ==> c.Of(x) == s.Of(x).value {
      assert s.Of(Input) == s.input && s.Of(Output) == s.output && s.Of(Total) == s.total;
      assert s.Of(CacheRead) == s.read && s.Of(CacheWrite) == s.write;
      assert s.Of(Reasoning) == s.reasoning && s.Of(Accepted) == s.accepted && s.Of(Rejected) == s.rejected;
    }
  }

  lemma AgreesIsMatches(c: Completion, u: Json, responses: bool)
    requires OpenAiShape(u, responses)
    ensures c.Agrees(responses, u) <==> Matches(c, Read(u, responses))
  {
    var s := Read(u, responses);
    MatchesEach(c, s);
    forall x: Counter
      ensures (Reported(u, PathOf(responses, x)).Some? ==> c.Of(x) == Reported(u, PathOf(responses, x)).value) <==>
              (s.Of(x).Some? ==> c.Of(x) == s.Of(x).value)
    {
      ReadIsReported(u, responses, x);
    }
  }

  predicate Above(c: Completion, f: Floor) {
    && f.input <= c.input && f.output <= c.output && f.total <= c.total && f.read <= c.read && f.write <= c.write
    && f.reasoning <= c.reasoning && f.accepted <= c.accepted && f.rejected <= c.rejected
  }

  predicate Monotone(s: Snapshot, f: Floor) {
    && f.input <= s.input.GetOr(f.input) && f.output <= s.output.GetOr(f.output) && f.total <= s.total.GetOr(f.total)
    && f.read <= s.read.GetOr(f.read) && f.write <= s.write.GetOr(f.write)
    && f.reasoning <= s.reasoning.GetOr(f.reasoning) && f.accepted <= s.accepted.GetOr(f.accepted)
    && f.rejected <= s.rejected.GetOr(f.rejected)
  }

  function Raise(s: Snapshot, f: Floor): Floor {
    Floor(s.input.GetOr(f.input), s.output.GetOr(f.output), s.total.GetOr(f.total), s.read.GetOr(f.read),
          s.write.GetOr(f.write), s.reasoning.GetOr(f.reasoning), s.accepted.GetOr(f.accepted),
          s.rejected.GetOr(f.rejected))
  }

  /** The history checks, on bounds that already include the snapshot itself. */
  predicate AboveHistory(s: Snapshot, f: Floor) {
    && (s.input.Some? ==> f.Cache() <= s.input.value)
    && (s.output.Some? ==> f.Output() <= s.output.value)
    && (s.total.Some? ==> Max(f.Cache(), f.input) + f.Output() <= s.total.value)
    && (s.input.Some? && s.output.Some? ==> f.total <= s.input.value + s.output.value)
  }

  /** The least completion above `f`, spending an unexplained total on the input. */
  function Complete(s: Snapshot, f: Floor): Completion
    requires AboveHistory(s, f)
  {
    var lowInput := Max(f.Cache(), f.input);
    var output := if s.output.Some? then s.output.value
                  else if s.total.Some? && s.input.Some? && s.input.value <= s.total.value
                    then s.total.value - s.input.value
                  else if s.total.Some? then f.Output()
                  else Max(f.Output(), f.total);
    var input := if s.input.Some? then s.input.value
                 else if s.total.Some? && output <= s.total.value then s.total.value - output
                 else Max(lowInput, f.total);
    Completion(input, output, input + output, f.read, f.write, f.reasoning, f.accepted, f.rejected)
  }

  lemma CheckedIsFeasible(s: Snapshot, f: Floor)
    requires SelfConsistent(s) && Monotone(s, f) && AboveHistory(s, Raise(s, f))
    ensures var c := Complete(s, Raise(s, f)); c.Consistent() && Matches(c, s) && Above(c, f)
  {
  }

  lemma FeasibleIsConsistent(s: Snapshot, c: Completion)
    requires c.Consistent() && Matches(c, s)
    ensures SelfConsistent(s)
  {
    var cache := s.read.GetOr(0) + s.write.GetOr(0);
    var least := Max(Max(s.output.GetOr(0), s.reasoning.GetOr(0)), Max(s.accepted.GetOr(0), s.rejected.GetOr(0)));
    assert cache <= c.input && least <= c.output;
  }

  lemma FeasibleIsAbove(s: Snapshot, f: Floor, c: Completion)
    requires c.Consistent() && Matches(c, s) && Above(c, f)
    ensures Monotone(s, f) && AboveHistory(s, Raise(s, f))
  {
    var g := Raise(s, f);
    assert Monotone(s, f) && Above(c, g);
    assert g.Output() <= c.output && Max(g.Cache(), g.input) <= c.input;
  }

  // ----- One snapshot on its own -----

  const NOTHING := Floor(0, 0, 0, 0, 0, 0, 0, 0)

  lemma SelfConsistentIsAboveItself(s: Snapshot)
    requires SelfConsistent(s)
    ensures Monotone(s, NOTHING) && AboveHistory(s, Raise(s, NOTHING))
  {
    var g := Raise(s, NOTHING);
    assert g.Cache() == s.read.GetOr(0) + s.write.GetOr(0);
    assert s.output.Some? ==> g.Output() <= s.output.value;
    assert g.input == s.input.GetOr(0) && Max(g.Cache(), g.input) == s.input.GetOr(g.Cache());
  }

  /** A snapshot is accepted exactly when its unknown counters can be filled in. */
  lemma UsageIffCompletion(u: Json, responses: bool)
    ensures OpenAiUsage(u, responses).Ok? <==>
            && OpenAiShape(u, responses)
            && exists c: Completion :: c.Consistent() && c.Agrees(responses, u)
  {
    OpenAiUsageIs(u, responses);
    if OpenAiShape(u, responses) {
      var s := Read(u, responses);
      if SelfConsistent(s) {
        SelfConsistentIsAboveItself(s);
        CheckedIsFeasible(s, NOTHING);
        var c := Complete(s, Raise(s, NOTHING));
        AgreesIsMatches(c, u, responses);
      }
      if c: Completion :| c.Consistent() && c.Agrees(responses, u) {
        AgreesIsMatches(c, u, responses);
        FeasibleIsConsistent(s, c);
      }
    }
  }

  /** A known bucket is that bucket in every completion. */
  lemma BucketsAreForced(u: Json, responses: bool, c: Completion)
    requires OpenAiUsage(u, responses).Ok? && c.Consistent() && c.Agrees(responses, u)
    ensures var v, b := OpenAiUsage(u, responses).value, c.Buckets();
            && v.uncached.GetOr(b.uncached) == b.uncached && v.cacheRead.GetOr(b.cacheRead) == b.cacheRead
            && v.cacheWrite.GetOr(b.cacheWrite) == b.cacheWrite && v.output.GetOr(b.output) == b.output
  {
    OpenAiUsageIs(u, responses);
    AgreesIsMatches(c, u, responses);
  }

  /** Where each bucket comes from: the output and the caches are reported as they
      stand, except that an input of zero settles both caches, and the uncached input is
      what the caches leave of the reported input. */
  ghost predicate Normalizes(u: Json, responses: bool, v: Quad<Option<int>>) {
    var input := Reported(u, PathOf(responses, Input));
    var read, write := Reported(u, PathOf(responses, CacheRead)), Reported(u, PathOf(responses, CacheWrite));
    && v.output == Reported(u, PathOf(responses, Output))
    && v.cacheRead == (if input == Some(0) then Some(0) else read)
    && v.cacheWrite == (if input == Some(0) then Some(0) else write)
    && (v.uncached.Some? <==> input == Some(0) || (input.Some? && read.Some? && write.Some?))
    && (v.uncached.Some? ==> v.uncached.value + read.GetOr(0) + write.GetOr(0) == input.value)
  }

  lemma BucketsAreReported(u: Json, responses: bool)
    requires OpenAiUsage(u, responses).Ok?
    ensures Normalizes(u, responses, OpenAiUsage(u, responses).value)
  {
    hide OpenAiUsage, OpenAiShape, PathOf, Reported;
    OpenAiUsageIs(u, responses);
    ReadIsReported(u, responses, Input);
    ReadIsReported(u, responses, Output);
    ReadIsReported(u, responses, CacheRead);
    ReadIsReported(u, responses, CacheWrite);
  }

  /** Known buckets are disjoint parts of the inclusive counters, and add up to any reported total. */
  lemma BucketsAddUp(u: Json, responses: bool)
    requires OpenAiUsage(u, responses).Ok?
    ensures var v, s := OpenAiUsage(u, responses).value, Read(u, responses);
            v.uncached.Some? && v.cacheRead.Some? && v.cacheWrite.Some? && v.output.Some? ==>
              && s.input.Some? && s.output.Some?
              && v.uncached.value + v.cacheRead.value + v.cacheWrite.value == s.input.value
              && v.output.value == s.output.value
              && (s.total.Some? ==>
                    v.uncached.value + v.cacheRead.value + v.cacheWrite.value + v.output.value == s.total.value)
  {
    OpenAiUsageIs(u, responses);
  }
}
