/** How far the normalized OpenAI buckets go: a bucket is reported exactly when the
    snapshot determines it, except in a few cases that are spelled out here. */
module Derivation {
  import opened Wrappers
  import opened Json
  import opened ProviderUsage
  import opened OpenAiSnapshots
  import T = TokenCost

  /** The largest input the snapshot allows, if it bounds it. */
  function MaxInput(s: Snapshot): Option<int> {
    if s.input.Some? then Some(s.input.value)
    else if s.total.Some? then Some(s.total.value - Least(s))
    else None
  }

  /** The buckets that are determined but reported as unknown: when the known parts
      already exhaust the largest possible input, or when only a reported total would
      give the input or the output. */
  predicate Missed(s: Snapshot, b: T.Bucket) {
    match b
    case Uncached =>
      && s.input != Some(0) && (s.input.None? || s.read.None? || s.write.None?)
      && (MaxInput(s) == Some(KnownInput(s))
          || (s.input.None? && s.total.Some? && s.output.Some? && s.read.Some? && s.write.Some?))
    case CacheRead => s.input != Some(0) && s.read.None? && MaxInput(s) == Some(s.write.GetOr(0))
    case CacheWrite => s.input != Some(0) && s.write.None? && MaxInput(s) == Some(s.read.GetOr(0))
    case Output => s.output.None? && s.total.Some? && (s.input.Some? || s.total.value == KnownInput(s) + Least(s))
  }

  ghost predicate Fills(c: Completion, u: Json, responses: bool) {
    c.Consistent() && c.Agrees(responses, u)
  }

  /** Every completion has the same value in this bucket. */
  ghost predicate Determined(u: Json, responses: bool, b: T.Bucket) {
    forall c: Completion, d: Completion :: Fills(c, u, responses) && Fills(d, u, responses) ==>
      T.At(c.Buckets(), b) == T.At(d.Buckets(), b)
  }

  // ----- Completions by their four free choices -----

  function Fill(s: Snapshot, input: nat, output: nat, read: nat, write: nat): Completion {
    Completion(input, output, input + output, read, write,
               s.reasoning.GetOr(0), s.accepted.GetOr(0), s.rejected.GetOr(0))
  }

  predicate Choice(s: Snapshot, input: nat, output: nat, read: nat, write: nat) {
    && s.input.GetOr(input) == input && s.output.GetOr(output) == output &&
       s.total.GetOr(input + output) == input + output
    && s.read.GetOr(read) == read && s.write.GetOr(write) == write
    && read + write <= input && Least(s) <= output
  }

  lemma ChoiceFills(u: Json, responses: bool, input: nat, output: nat, read: nat, write: nat)
    requires OpenAiUsage(u, responses).Ok?
    requires var s := Read(u, responses); Choice(s, input, output, read, write)
    ensures Fills(Fill(Read(u, responses), input, output, read, write), u, responses)
  {
    OpenAiUsageIs(u, responses);
    AgreesIsMatches(Fill(Read(u, responses), input, output, read, write), u, responses);
    hide OpenAiUsage, OpenAiShape, Read, Key;
  }

  lemma FillsChoose(u: Json, responses: bool, c: Completion)
    requires OpenAiUsage(u, responses).Ok? && Fills(c, u, responses)
    ensures Choice(Read(u, responses), c.input, c.output, c.read, c.write)
  {
    OpenAiUsageIs(u, responses);
    AgreesIsMatches(c, u, responses);
    hide OpenAiUsage, OpenAiShape, Read, Key;
  }

  /** Four choices as a record, and the bucket they give. */
  datatype Choices = Choices(input: nat, output: nat, read: nat, write: nat)

  predicate Valid(s: Snapshot, c: Choices) { Choice(s, c.input, c.output, c.read, c.write) }

  function BucketOf(c: Choices, b: T.Bucket): int {
    match b
    case Uncached => c.input - c.read - c.write
    case CacheRead => c.read
    case CacheWrite => c.write
    case Output => c.output
  }

  /** With the largest input: a bounded one, or more than the caches need. */
  function Widest(s: Snapshot, read: nat, write: nat): Choices
    requires SelfConsistent(s)
  {
    var input: nat := if s.input.Some? then s.input.value
                      else if s.total.Some? then s.total.value - Least(s)
                      else KnownInput(s) + 1;
    var output := if s.output.Some? then s.output.value
                  else if s.total.Some? && input <= s.total.value then s.total.value - input
                  else Least(s);
    Choices(input, output, read, write)
  }

  lemma WidestValid(s: Snapshot, read: nat, write: nat)
    requires SelfConsistent(s) && s.read.GetOr(read) == read && s.write.GetOr(write) == write
    requires read + write <= Widest(s, read, write).input
    ensures Valid(s, Widest(s, read, write))
  {
  }

  lemma InputBounded(s: Snapshot, c: Choices)
    requires SelfConsistent(s) && Valid(s, c)
    ensures MaxInput(s).Some? ==> c.input <= MaxInput(s).value
    ensures s.read.GetOr(0) <= c.read && s.write.GetOr(0) <= c.write && KnownInput(s) <= c.input
  {
  }

  lemma MissedAgrees(s: Snapshot, b: T.Bucket, c: Choices, d: Choices)
    requires SelfConsistent(s) && Missed(s, b) && Valid(s, c) && Valid(s, d)
    ensures BucketOf(c, b) == BucketOf(d, b)
  {
    InputBounded(s, c);
    InputBounded(s, d);
  }

  /** The partition leaves this bucket unknown. */
  predicate Unknown(s: Snapshot, b: T.Bucket) {
    match b
    case Uncached => s.input != Some(0) && (s.input.None? || s.read.None? || s.write.None?)
    case CacheRead => s.input != Some(0) && s.read.None?
    case CacheWrite => s.input != Some(0) && s.write.None?
    case Output => s.output.None?
  }

  /** Two ways to fill in an undetermined bucket. */
  lemma Differ(s: Snapshot, b: T.Bucket) returns (c: Choices, d: Choices)
    requires SelfConsistent(s) && Unknown(s, b) && !Missed(s, b)
    ensures Valid(s, c) && Valid(s, d) && BucketOf(c, b) != BucketOf(d, b)
  {
    var r, w := s.read.GetOr(0), s.write.GetOr(0);
    var top := Widest(s, r, w).input;
    match b
    case CacheRead =>
      c, d := Widest(s, 0, w), Widest(s, top - w, w);
      WidestValid(s, 0, w);
      WidestValid(s, top - w, w);
    case CacheWrite =>
      c, d := Widest(s, r, 0), Widest(s, r, top - r);
      WidestValid(s, r, 0);
      WidestValid(s, r, top - r);
    case Uncached =>
      c := Widest(s, r, w);
      WidestValid(s, r, w);
      if s.read.None? {
        d := Widest(s, top - w, w);
        WidestValid(s, top - w, w);
      } else if s.write.None? {
        d := Widest(s, r, top - r);
        WidestValid(s, r, top - r);
      } else {
        var output := if s.output.Some? then s.output.value
                      else if s.total.Some? then s.total.value - r - w
                      else Least(s);
        d := Choices(r + w, output, r, w);
      }
    case Output =>
      var input: nat := if s.input.Some? then s.input.value
                        else if s.total.Some? then s.total.value - Least(s)
                        else r + w;
      c := Choices(input, Least(s), r, w);
      d := Choices(if s.total.Some? then input - 1 else input, Least(s) + 1, r, w);
  }

  lemma UnknownIs(u: Json, responses: bool, b: T.Bucket)
    requires OpenAiUsage(u, responses).Ok?
    ensures var s := Read(u, responses);
            SelfConsistent(s) && (T.At(OpenAiUsage(u, responses).value, b).None? <==> Unknown(s, b))
  {
    OpenAiUsageIs(u, responses);
    hide OpenAiUsage, OpenAiShape, Read, Key, SelfConsistent;
  }

  /** The mapping reports a bucket exactly when every completion of the snapshot gives it
      the same value, except for the missed cases, which it leaves unknown. */
  lemma ReportedIffDetermined(u: Json, responses: bool, b: T.Bucket)
    requires OpenAiUsage(u, responses).Ok?
    ensures T.At(OpenAiUsage(u, responses).value, b).Some? <==>
              Determined(u, responses, b) && !Missed(Read(u, responses), b)
  {
    hide OpenAiUsage, Read, Key, Missed, Fills, SelfConsistent, Choice, Unknown;
    UnknownIs(u, responses, b);
    var s := Read(u, responses);
    if Unknown(s, b) {
      if !Missed(s, b) {
        var c, d := Differ(s, b);
        NotDetermined(u, responses, b, c, d);
      }
    } else {
      MissedIsUnknown(s, b);
      ReportedIsDetermined(u, responses, b);
    }
  }

  lemma ReportedIsDetermined(u: Json, responses: bool, b: T.Bucket)
    requires OpenAiUsage(u, responses).Ok? && T.At(OpenAiUsage(u, responses).value, b).Some?
    ensures Determined(u, responses, b)
  {
    hide OpenAiUsage, Key;
    forall c: Completion, d: Completion | Fills(c, u, responses) && Fills(d, u, responses)
      ensures T.At(c.Buckets(), b) == T.At(d.Buckets(), b)
    {
      SameBucket(u, responses, b, c);
      SameBucket(u, responses, b, d);
    }
  }

  lemma MissedIsUnknown(s: Snapshot, b: T.Bucket)
    ensures Missed(s, b) ==> Unknown(s, b)
  {
  }

  lemma SameBucket(u: Json, responses: bool, b: T.Bucket, c: Completion)
    requires OpenAiUsage(u, responses).Ok? && Fills(c, u, responses) && T.At(OpenAiUsage(u, responses).value, b).Some?
    ensures c.Consistent() && T.At(c.Buckets(), b) == T.At(OpenAiUsage(u, responses).value, b).value
  {
    BucketsAreForced(u, responses, c);
    hide OpenAiUsage;
  }

  lemma NotDetermined(u: Json, responses: bool, b: T.Bucket, c: Choices, d: Choices)
    requires OpenAiUsage(u, responses).Ok?
    requires Valid(Read(u, responses), c) && Valid(Read(u, responses), d) &&
             BucketOf(c, b) != BucketOf(d, b)
    ensures !Determined(u, responses, b)
  {
    hide OpenAiUsage, Read, Key;
    var s := Read(u, responses);
    ChoiceFills(u, responses, c.input, c.output, c.read, c.write);
    ChoiceFills(u, responses, d.input, d.output, d.read, d.write);
    var x, y := Fill(s, c.input, c.output, c.read, c.write), Fill(s, d.input, d.output, d.read, d.write);
    assert Fills(x, u, responses) && Fills(y, u, responses);
    assert T.At(x.Buckets(), b) == BucketOf(c, b) && T.At(y.Buckets(), b) == BucketOf(d, b);
  }

  /** The missed cases are determined: nothing undetermined is counted among them. */
  lemma MissedIsDetermined(u: Json, responses: bool, b: T.Bucket)
    requires OpenAiUsage(u, responses).Ok? && Missed(Read(u, responses), b)
    ensures Determined(u, responses, b) && T.At(OpenAiUsage(u, responses).value, b).None?
  {
    hide OpenAiUsage, Read, Key, Missed, Choice, SelfConsistent;
    UnknownIs(u, responses, b);
    var s := Read(u, responses);
    MissedIsUnknown(s, b);
    hide Unknown;
    forall c: Completion, d: Completion | Fills(c, u, responses) && Fills(d, u, responses)
      ensures T.At(c.Buckets(), b) == T.At(d.Buckets(), b)
    {
      FillsChoose(u, responses, c);
      FillsChoose(u, responses, d);
      MissedAgrees(s, b, Choices(c.input, c.output, c.read, c.write), Choices(d.input, d.output, d.read, d.write));
    }
  }

  // ----- Accepted snapshots at which a bucket is missed -----

  ghost predicate Overlooked(u: Json, b: T.Bucket) {
    OpenAiUsage(u, true).Ok? && Missed(Read(u, true), b)
  }

  lemma IsOverlooked(u: Json, b: T.Bucket)
    requires OpenAiShape(u, true) && SelfConsistent(Read(u, true)) && Missed(Read(u, true), b)
    ensures Overlooked(u, b)
  {
    OpenAiUsageIs(u, true);
    hide OpenAiUsage, OpenAiShape, Read, Missed, SelfConsistent;
  }

  /** Five input tokens, all under one detail. */
  function CachedInput(key: string): Json {
    Obj(map["input_tokens" := Int(5), "input_tokens_details" := Obj(map[key := Int(5)])])
  }

  lemma CachedInputReads(key: string)
    requires key in CACHE_DETAILS
    ensures var five := Some(5);
            && OpenAiShape(CachedInput(key), true)
            && Read(CachedInput(key), true)
               == Snapshot(five, None, None, if key == "cached_tokens" then five else None,
                           if key == "cached_tokens" then None else five, None, None, None)
  {
    var u, d := CachedInput(key), Obj(map[key := Int(5)]);
    assert u.fields.Keys == {"input_tokens", "input_tokens_details"} && Get(u, "input_tokens") == Int(5);
    assert Get(u, "input_tokens_details") == d && d.fields.Keys == {key};
    assert Get(u, "output_tokens").Null? && Get(u, "output_tokens_details").Null? && Get(u, "total_tokens").Null?;
    hide CachedInput;
    CachedDetails(key);
  }

  lemma CachedDetails(key: string)
    requires key in CACHE_DETAILS
    ensures var d := Obj(map[key := Int(5)]);
            && (forall c | c in CACHE_DETAILS :: CountShape(d, c))
            && Known(d, "cached_tokens") == (if key == "cached_tokens" then Some(5) else None)
            && Known(d, "cache_write_tokens") == (if key == "cached_tokens" then None else Some(5))
  {
  }

  /** All input was read from the cache: nothing is left for the other two input buckets. */
  lemma MissedByReads()
    ensures Overlooked(CachedInput("cached_tokens"), T.Uncached)
    ensures Overlooked(CachedInput("cached_tokens"), T.CacheWrite)
  {
    hide OpenAiShape, Read, Overlooked, CachedInput;
    CachedInputReads("cached_tokens");
    IsOverlooked(CachedInput("cached_tokens"), T.Uncached);
    IsOverlooked(CachedInput("cached_tokens"), T.CacheWrite);
  }

  /** All input was written to the cache. */
  lemma MissedByWrites()
    ensures Overlooked(CachedInput("cache_write_tokens"), T.CacheRead)
  {
    hide OpenAiShape, Read, Overlooked, CachedInput;
    CachedInputReads("cache_write_tokens");
    IsOverlooked(CachedInput("cache_write_tokens"), T.CacheRead);
  }

  /** The output is the total less the input. */
  lemma MissedByTotal()
    ensures Overlooked(Obj(map["input_tokens" := Int(3), "total_tokens" := Int(8)]), T.Output)
  {
    var u := Obj(map["input_tokens" := Int(3), "total_tokens" := Int(8)]);
    assert u.fields.Keys == {"input_tokens", "total_tokens"};
    assert Read(u, true) == Snapshot(Some(3), None, Some(8), None, None, None, None, None);
    hide Overlooked;
    IsOverlooked(u, T.Output);
  }
}
