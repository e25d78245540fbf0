/** Anthropic usage: cumulative updates merged into one snapshot, checked
    against every number reported before. */
module AnthropicHistory {
  import opened Wrappers
  import opened Json
  import opened ProviderUsage
  import opened UsageHistory

  datatype Tally = Input | Read | Write | Output | FiveMinutes | OneHour | Thinking | Search | Fetch

  function PathOf(x: Tally): Path {
    match x
    case Input => ["input_tokens"]
    case Read => ["cache_read_input_tokens"]
    case Write => ["cache_creation_input_tokens"]
    case Output => ["output_tokens"]
    case FiveMinutes => ["cache_creation", "ephemeral_5m_input_tokens"]
    case OneHour => ["cache_creation", "ephemeral_1h_input_tokens"]
    case Thinking => ["output_tokens_details", "thinking_tokens"]
    case Search => ["server_tool_use", "web_search_requests"]
    case Fetch => ["server_tool_use", "web_fetch_requests"]
  }

  function Bound(b: Bounds, x: Tally): nat {
    Lower(b, PathOf(x))
  }

  /** One number per counter. */
  datatype Floor = Floor(input: nat, read: nat, write: nat, output: nat,
                         fiveMinutes: nat, oneHour: nat, thinking: nat, search: nat, fetch: nat)
  {
    function Of(x: Tally): nat {
      match x
      case Input => input
      case Read => read
      case Write => write
      case Output => output
      case FiveMinutes => fiveMinutes
      case OneHour => oneHour
      case Thinking => thinking
      case Search => search
      case Fetch => fetch
    }
  }

  function FloorOf(b: Bounds): Floor {
    Floor(Bound(b, Input), Bound(b, Read), Bound(b, Write), Bound(b, Output),
          Bound(b, FiveMinutes), Bound(b, OneHour), Bound(b, Thinking), Bound(b, Search), Bound(b, Fetch))
  }

  function AnthropicBounds(u: Json, f: Floor): Result<Unit> {
    var mixed := f.fiveMinutes != 0 && f.oneHour != 0;
    :- Need(!mixed, "usage_mixed_cache_ttl");
    var write :- CountOf(u, "cache_creation_input_tokens");
    :- Need(write.Some? ==> f.fiveMinutes + f.oneHour <= write.value, "stream_usage_lower_bound");
    // The lifetime split is itself an exact cache-write total.
    var d :- Detail(u, "cache_creation");
    var a :- CountOf(d, "ephemeral_5m_input_tokens");
    var b :- CountOf(d, "ephemeral_1h_input_tokens");
    :- Need(a.Some? && b.Some? ==> a.value + b.value >= f.write, "stream_usage_lower_bound");
    var output :- CountOf(u, "output_tokens");
    :- Need(output.Some? ==> f.thinking <= output.value, "stream_usage_lower_bound");
    Ok(Unit)
  }

  /** The merged usage so far and every number seen on the way. */
  datatype Ledger = Ledger(usage: Json, bounds: Bounds)

  const EMPTY := Ledger(Obj(map[]), map[])

  /** What an explicit null usage leaves behind. */
  const FORGOTTEN := Obj(map["input_tokens" := Null, "cache_read_input_tokens" := Null,
                             "cache_creation_input_tokens" := Null, "output_tokens" := Null])

  function Update(st: Ledger, u: Json): Result<Ledger> {
    if u.Null? then Ok(st.(usage := FORGOTTEN)) else
    if !u.Obj? then Err("usage_object") else
    var merged := Merge(st.usage, u);
    var _ :- AnthropicUsage(merged);
    var b :- Observe(u, st.bounds);
    var _ :- AnthropicBounds(merged, FloorOf(b));
    Ok(Ledger(merged, b))
  }

  // ----- What a merged snapshot claims -----

  datatype Completion = Completion(input: nat, read: nat, write: nat, output: nat,
                                   fiveMinutes: nat, oneHour: nat, thinking: nat, search: nat, fetch: nat)
  {
    /** Cache writes have one lifetime, and thinking is part of the output. */
    predicate Consistent() {
      && fiveMinutes + oneHour == write
      && (fiveMinutes == 0 || oneHour == 0)
      && thinking <= output
    }

    function Of(x: Tally): nat {
      match x
      case Input => input
      case Read => read
      case Write => write
      case Output => output
      case FiveMinutes => fiveMinutes
      case OneHour => oneHour
      case Thinking => thinking
      case Search => search
      case Fetch => fetch
    }

    ghost predicate Agrees(u: Json) {
      forall x: Tally :: Reported(u, PathOf(x)).Some? ==> Of(x) == Reported(u, PathOf(x)).value
    }

    ghost predicate OverBounds(b: Bounds) {
      forall x: Tally :: Bound(b, x) <= Of(x)
    }

    ghost predicate Covers(u: Json) {
      forall x: Tally :: Reported(u, PathOf(x)).Some? ==> Of(x) >= Reported(u, PathOf(x)).value
    }
  }

  predicate MemberShape(u: Json, key: string, counters: set<string>) {
    match Get(u, key)
    case Null => true
    case Obj(m) => m.Keys <= counters && forall c | c in counters :: CountShape(Get(u, key), c)
    case _ => false
  }

  const THINKING := {"thinking_tokens"}
  const LIFETIMES := {"ephemeral_5m_input_tokens", "ephemeral_1h_input_tokens"}
  const TOOLS := {"web_search_requests", "web_fetch_requests"}
  const MEMBERS := {"input_tokens", "output_tokens", "cache_read_input_tokens", "cache_creation_input_tokens",
                    "cache_creation", "output_tokens_details", "server_tool_use", "iterations",
                    "inference_geo", "service_tier", "speed"}

  predicate AnthropicShape(u: Json) {
    && u.Obj? && u.fields.Keys <= MEMBERS
    && CountShape(u, "input_tokens") && CountShape(u, "cache_read_input_tokens")
    && CountShape(u, "cache_creation_input_tokens") && CountShape(u, "output_tokens")
    && MemberShape(u, "output_tokens_details", THINKING)
    && MemberShape(u, "cache_creation", LIFETIMES)
    && (Get(u, "cache_creation").Obj? ==> forall c | c in LIFETIMES :: Known(Get(u, "cache_creation"), c).Some?)
    && MemberShape(u, "server_tool_use", TOOLS)
    && Get(u, "iterations") in {Null, Arr([])}
    && IsLabel(Get(u, "inference_geo")) && IsLabel(Get(u, "service_tier")) && IsLabel(Get(u, "speed"))
  }

  /** Absent, null or a text of at most 128 characters. */
  predicate IsLabel(j: Json) { j.Null? || (j.Str? && |j.s| <= 128) }

  lemma MetadataIs(u: Json, key: string)
    ensures Metadata(u, key) <==> IsLabel(Get(u, key))
  {
  }

  /** The counters, as read. */
  datatype Snapshot = Snapshot(input: Count, read: Count, write: Count, output: Count,
                               fiveMinutes: Count, oneHour: Count, thinking: Count, search: Count, fetch: Count)
  {
    function Of(x: Tally): Count {
      match x
      case Input => input
      case Read => read
      case Write => write
      case Output => output
      case FiveMinutes => fiveMinutes
      case OneHour => oneHour
      case Thinking => thinking
      case Search => search
      case Fetch => fetch
    }
  }

  function ReadSnapshot(u: Json): Snapshot {
    var d, tools := Get(u, "cache_creation"), Get(u, "server_tool_use");
    Snapshot(Known(u, "input_tokens"), Known(u, "cache_read_input_tokens"),
             Known(u, "cache_creation_input_tokens"), Known(u, "output_tokens"),
             Known(d, "ephemeral_5m_input_tokens"), Known(d, "ephemeral_1h_input_tokens"),
             Known(Get(u, "output_tokens_details"), "thinking_tokens"),
             Known(tools, "web_search_requests"), Known(tools, "web_fetch_requests"))
  }

  lemma ReadIsReported(u: Json, x: Tally)
    ensures ReadSnapshot(u).Of(x) == Reported(u, PathOf(x))
  {
    var p := PathOf(x);
    if |p| == 1 {
      ReportedIsKnown(u, p[0], "");
    } else {
      ReportedIsKnown(u, p[0], p[1]);
    }
  }

  predicate SelfConsistent(s: Snapshot) {
    && (s.fiveMinutes.Some? && s.oneHour.Some? ==>
          && (s.write.Some? ==> s.write.value == s.fiveMinutes.value + s.oneHour.value)
          && (s.fiveMinutes.value == 0 || s.oneHour.value == 0))
    && AtMost(s.thinking, s.output)
  }

  lemma LifetimesRead(u: Json, write: Count)
    ensures var d := Get(u, "cache_creation");
            var a, b := Known(d, "ephemeral_5m_input_tokens"), Known(d, "ephemeral_1h_input_tokens");
            CacheLifetimes(u, write).Ok? <==>
              && MemberShape(u, "cache_creation", LIFETIMES)
              && (d.Obj? ==> forall c | c in LIFETIMES :: Known(d, c).Some?)
              && (a.Some? && b.Some? ==>
                    (write.Some? ==> write.value == a.value + b.value) && (a.value == 0 || b.value == 0))
  {
    var d := Get(u, "cache_creation");
    CountOfShape(d, "ephemeral_5m_input_tokens");
    CountOfShape(d, "ephemeral_1h_input_tokens");
    assert Known(d, "ephemeral_5m_input_tokens").Some? && Known(d, "ephemeral_1h_input_tokens").Some? <==>
           forall c | c in LIFETIMES :: Known(d, c).Some?;
  }

  lemma ThinkingRead(u: Json, output: Count)
    ensures (Detail(u, "output_tokens_details").Ok? &&
             AnthropicOutputDetails(Detail(u, "output_tokens_details").value, output).Ok?) <==>
            MemberShape(u, "output_tokens_details", THINKING) &&
            AtMost(Known(Get(u, "output_tokens_details"), "thinking_tokens"), output)
  {
    CountOfShape(Get(u, "output_tokens_details"), "thinking_tokens");
  }

  lemma ToolsRead(u: Json)
    ensures ToolRequests(u).Ok? <==> MemberShape(u, "server_tool_use", TOOLS)
  {
    CountOfShape(Get(u, "server_tool_use"), "web_fetch_requests");
    CountOfShape(Get(u, "server_tool_use"), "web_search_requests");
  }

  lemma AnthropicUsageIs(u: Json)
    ensures AnthropicUsage(u).Ok? <==> AnthropicShape(u) && SelfConsistent(ReadSnapshot(u))
  {
    CountOfShape(u, "input_tokens");
    CountOfShape(u, "cache_read_input_tokens");
    CountOfShape(u, "cache_creation_input_tokens");
    CountOfShape(u, "output_tokens");
    LifetimesRead(u, Known(u, "cache_creation_input_tokens"));
    ThinkingRead(u, Known(u, "output_tokens"));
    ToolsRead(u);
    MetadataIs(u, "inference_geo");
    MetadataIs(u, "service_tier");
    MetadataIs(u, "speed");
    hide CountOf, CountShape, CacheLifetimes, ToolRequests, AnthropicOutputDetails, MemberShape, Metadata, IsLabel;
  }

  // ----- Exact feasibility -----

  /** The history checks, as arithmetic. */
  predicate AboveHistory(s: Snapshot, f: Floor) {
    && (f.fiveMinutes == 0 || f.oneHour == 0)
    && (s.write.Some? ==> f.fiveMinutes + f.oneHour <= s.write.value)
    && (s.fiveMinutes.Some? && s.oneHour.Some? ==> s.fiveMinutes.value + s.oneHour.value >= f.write)
    && (s.output.Some? ==> f.thinking <= s.output.value)
  }

  lemma BoundsIsAbove(u: Json, f: Floor)
    requires AnthropicShape(u)
    ensures AnthropicBounds(u, f).Ok? <==> AboveHistory(ReadSnapshot(u), f)
  {
    var d := Get(u, "cache_creation");
    CountOfShape(u, "cache_creation_input_tokens");
    CountOfShape(u, "output_tokens");
    CountOfShape(d, "ephemeral_5m_input_tokens");
    CountOfShape(d, "ephemeral_1h_input_tokens");
    assert MemberShape(u, "cache_creation", LIFETIMES);
  }

  ghost predicate Agree(s: Snapshot, c: Completion) {
    forall x: Tally :: s.Of(x).Some? ==> c.Of(x) == s.Of(x).value
  }

  ghost predicate Over(f: Floor, c: Completion) {
    forall x: Tally :: f.Of(x) <= c.Of(x)
  }

  /** Bounds that already include what the snapshot itself reports. */
  ghost predicate Includes(f: Floor, s: Snapshot) {
    forall x: Tally :: s.Of(x).Some? ==> f.Of(x) == s.Of(x).value
  }

  function Complete(s: Snapshot, f: Floor): Completion {
    var write := if s.fiveMinutes.Some? && s.oneHour.Some? then s.fiveMinutes.value + s.oneHour.value
                 else if s.write.Some? then s.write.value
                 else Max(f.write, f.fiveMinutes + f.oneHour);
    var five := if s.fiveMinutes.Some? then s.fiveMinutes.value else if f.oneHour == 0 then write else 0;
    var hour := if s.oneHour.Some? then s.oneHour.value else if f.oneHour == 0 then 0 else write;
    var output := if s.output.Some? then s.output.value else Max(f.output, f.thinking);
    Completion(f.input, f.read, write, output, five, hour, f.thinking, f.search, f.fetch)
  }

  lemma CheckedIsFeasible(s: Snapshot, f: Floor)
    requires Includes(f, s) && SelfConsistent(s) && AboveHistory(s, f) && (s.fiveMinutes.Some? <==> s.oneHour.Some?)
    ensures Complete(s, f).Consistent() && Agree(s, Complete(s, f)) && Over(f, Complete(s, f))
  {
    var c := Complete(s, f);
    assert forall x: Tally :: s.Of(x).Some? ==> f.Of(x) == s.Of(x).value;
    assert f.Of(Write) == f.write && f.Of(FiveMinutes) == f.fiveMinutes && f.Of(OneHour) == f.oneHour;
    assert f.Of(Thinking) == f.thinking && f.Of(Output) == f.output;
    assert s.Of(Write) == s.write && s.Of(FiveMinutes) == s.fiveMinutes && s.Of(OneHour) == s.oneHour;
    assert s.Of(Thinking) == s.thinking && s.Of(Output) == s.output;
  }

  lemma FeasibleIsChecked(s: Snapshot, f: Floor, c: Completion)
    requires c.Consistent() && Agree(s, c) && Over(f, c)
    ensures SelfConsistent(s) && AboveHistory(s, f)
  {
    assert s.Of(Write) == s.write && s.Of(FiveMinutes) == s.fiveMinutes && s.Of(OneHour) == s.oneHour;
    assert s.Of(Thinking) == s.thinking && s.Of(Output) == s.output;
    assert f.Of(Write) <= c.Of(Write) && f.Of(FiveMinutes) <= c.Of(FiveMinutes) && f.Of(OneHour) <= c.Of(OneHour);
    assert f.Of(Thinking) <= c.Of(Thinking);
  }

  lemma AgreesIsAgree(c: Completion, u: Json)
    ensures c.Agrees(u) <==> Agree(ReadSnapshot(u), c)
  {
    forall x: Tally ensures ReadSnapshot(u).Of(x) == Reported(u, PathOf(x)) {
      ReadIsReported(u, x);
    }
    hide Reported, PathOf, ReadSnapshot, Snapshot.Of, Completion.Of;
  }

  lemma FloorIs(b: Bounds, x: Tally)
    ensures FloorOf(b).Of(x) == Bound(b, x)
  {
  }

  lemma OverIsOverBounds(c: Completion, b: Bounds)
    ensures c.OverBounds(b) <==> Over(FloorOf(b), c)
  {
    forall x: Tally ensures FloorOf(b).Of(x) == Bound(b, x) {
      FloorIs(b, x);
    }
    hide Bound, FloorOf, Floor.Of, Completion.Of;
  }

  // ----- The merged snapshot repeats the last number at each path -----

  /** Every integer of the merged usage is the bound recorded for its path. */
  ghost predicate Mirrors(st: Ledger) {
    forall p :: At(st.usage, p).Int? ==> p in st.bounds && st.bounds[p] == At(st.usage, p).n
  }

  lemma MergeMirrors(st: Ledger, u: Json)
    requires Mirrors(st) && u.Obj? && Observe(u, st.bounds).Ok?
    ensures Mirrors(Ledger(Merge(st.usage, u), Observe(u, st.bounds).value))
  {
    var merged, b := Merge(st.usage, u), Observe(u, st.bounds).value;
    forall p | At(merged, p).Int? ensures p in b && b[p] == At(merged, p).n {
      MergeAt(st.usage, u, p);
      LeafAt(u, p);
    }
  }

  lemma UpdateMirrors(st: Ledger, u: Json)
    requires Mirrors(st) && Update(st, u).Ok?
    ensures Mirrors(Update(st, u).value)
  {
    if u.Null? {
      forall p ensures !At(FORGOTTEN, p).Int? {
        if p != [] {
          NullAt(p[1..]);
        }
      }
    } else {
      MergeMirrors(st, u);
    }
  }

  lemma LabelsHoldNothing(u: Json)
    requires AnthropicShape(u)
    ensures forall key | key in {"inference_geo", "service_tier", "speed", "iterations"} ::
              !Get(u, key).Int? && !Get(u, key).Obj?
  {
    hide CountShape, MemberShape;
  }

  lemma ShapePaths(u: Json, p: Path)
    requires AnthropicShape(u) && At(u, p).Int?
    ensures 0 <= At(u, p).n <= TOKEN_CAP
    ensures exists x: Tally :: p == PathOf(x)
  {
    LabelsHoldNothing(u);
    hide IsLabel;
    assert p != [] && At(u, p) == At(Get(u, p[0]), p[1..]);
    var v := Get(u, p[0]);
    if |p| == 1 {
      assert p == [p[0]];
      var x := if p[0] == "input_tokens" then Input else if p[0] == "cache_read_input_tokens" then Read
               else if p[0] == "cache_creation_input_tokens" then Write else Output;
      assert p == PathOf(x);
    } else {
      assert At(u, p) == At(v, p[1..]) == At(Get(v, p[1]), p[1..][1..]);
      if |p| == 2 {
        assert p == [p[0], p[1]];
        var x := if p[0] == "output_tokens_details" then Thinking
                 else if p[0] == "cache_creation" then
                   if p[1] == "ephemeral_5m_input_tokens" then FiveMinutes else OneHour
                 else if p[1] == "web_search_requests" then Search else Fetch;
        assert p == PathOf(x);
      } else {
        assert !Get(v, p[1]).Obj?;
        NullAt(p[1..][1..][1..]);
      }
    }
  }

  /** Some completion of the merged snapshot dominates everything reported before. */
  ghost predicate Feasible(merged: Json, b: Bounds) {
    exists c: Completion :: c.Consistent() && c.Agrees(merged) && c.OverBounds(b)
  }

  lemma UpdatedIsFeasible(st: Ledger, u: Json)
    requires Mirrors(st) && u.Obj? && Update(st, u).Ok?
    ensures AnthropicShape(Merge(st.usage, u)) && Feasible(Merge(st.usage, u), st.bounds)
  {
    hide AnthropicUsage, AnthropicBounds, Observe, Merge, SelfConsistent, AboveHistory, Mirrors, Update, AnthropicShape;
    hide Includes, Agree, Over, Completion.Consistent, ReadSnapshot, FloorOf, Bound, Completion.Of;
    UpdateChecks(st, u);
    var merged, b := Merge(st.usage, u), Observe(u, st.bounds).value;
    var s, f := ReadSnapshot(merged), FloorOf(b);
    AnthropicUsageIs(merged);
    BoundsIsAbove(merged, f);
    UpdateMirrors(st, u);
    MirrorsIncludes(Ledger(merged, b));
    LifetimesPaired(merged);
    CheckedIsFeasible(s, f);
    var c := Complete(s, f);
    AgreesIsAgree(c, merged);
    OverIsOverBounds(c, b);
    forall x: Tally ensures Bound(st.bounds, x) <= c.Of(x) {
      BoundGrows(st, u, x);
      assert Bound(b, x) <= c.Of(x);
    }
  }

  lemma UpdateChecks(st: Ledger, u: Json)
    requires u.Obj? && Update(st, u).Ok?
    ensures var merged := Merge(st.usage, u);
            && AnthropicUsage(merged).Ok? && Observe(u, st.bounds).Ok?
            && var b := Observe(u, st.bounds).value;
            AnthropicBounds(merged, FloorOf(b)).Ok? && Update(st, u).value == Ledger(merged, b)
  {
    hide AnthropicUsage, AnthropicBounds, Observe, Merge;
  }

  lemma BoundGrows(st: Ledger, u: Json, x: Tally)
    requires u.Obj? && Observe(u, st.bounds).Ok?
    ensures Bound(st.bounds, x) <= Bound(Observe(u, st.bounds).value, x)
  {
    ObservedAt(u, st.bounds, PathOf(x));
    hide Observe, PathOf;
  }

  lemma LifetimesPaired(u: Json)
    requires AnthropicShape(u)
    ensures ReadSnapshot(u).fiveMinutes.Some? <==> ReadSnapshot(u).oneHour.Some?
  {
    var d := Get(u, "cache_creation");
    assert d.Obj? ==> "ephemeral_5m_input_tokens" in LIFETIMES && "ephemeral_1h_input_tokens" in LIFETIMES;
  }

  lemma MirrorsIncludes(st: Ledger)
    requires Mirrors(st)
    ensures Includes(FloorOf(st.bounds), ReadSnapshot(st.usage))
  {
    forall x: Tally | ReadSnapshot(st.usage).Of(x).Some?
      ensures FloorOf(st.bounds).Of(x) == ReadSnapshot(st.usage).Of(x).value
    {
      ReadIsReported(st.usage, x);
      FloorIs(st.bounds, x);
    }
  }

  lemma FeasibleIsUpdated(st: Ledger, u: Json, c: Completion)
    requires u.Obj? && AnthropicShape(Merge(st.usage, u))
    requires c.Consistent() && c.Agrees(Merge(st.usage, u)) && c.OverBounds(st.bounds)
    ensures Update(st, u).Ok?
  {
    var merged := Merge(st.usage, u);
    FeasibleIsObserved(st, u, c);
    var b := Observe(u, st.bounds).value;
    var s, f := ReadSnapshot(merged), FloorOf(b);
    OverAfterUpdate(st, u, c);
    hide AnthropicUsage, AnthropicBounds, AnthropicShape, SelfConsistent, AboveHistory, Observe, ReadSnapshot;
    hide Completion.OverBounds, Completion.Agrees, FloorOf;
    AgreesIsAgree(c, merged);
    OverIsOverBounds(c, b);
    FeasibleIsChecked(s, f, c);
    AnthropicUsageIs(merged);
    BoundsIsAbove(merged, f);
  }

  /** What completes the merged snapshot stays above the raised bounds. */
  lemma OverAfterUpdate(st: Ledger, u: Json, c: Completion)
    requires u.Obj? && c.Agrees(Merge(st.usage, u)) && c.OverBounds(st.bounds) && Observe(u, st.bounds).Ok?
    ensures c.OverBounds(Observe(u, st.bounds).value)
  {
    hide Observe;
    forall x: Tally ensures Bound(Observe(u, st.bounds).value, x) <= c.Of(x) {
      ObservedAt(u, st.bounds, PathOf(x));
      MergeAt(st.usage, u, PathOf(x));
      assert Bound(st.bounds, x) <= c.Of(x);
    }
  }

  lemma FeasibleIsObserved(st: Ledger, u: Json, c: Completion)
    requires u.Obj? && AnthropicShape(Merge(st.usage, u)) && c.Agrees(Merge(st.usage, u)) && c.OverBounds(st.bounds)
    ensures Observe(u, st.bounds).Ok?
  {
    var merged := Merge(st.usage, u);
    forall p | p in Leaves(u)
      ensures 0 <= IntAt(u, p) <= TOKEN_CAP && !(p in st.bounds && IntAt(u, p) < st.bounds[p])
    {
      LeafAt(u, p);
      MergeAt(st.usage, u, p);
      ShapePaths(merged, p);
      var x: Tally :| p == PathOf(x);
      assert Bound(st.bounds, x) <= c.Of(x);
    }
  }

  /** The checks accept an update exactly when the merged snapshot has a
      completion that dominates everything reported before. */
  lemma UpdateIffFeasible(st: Ledger, u: Json)
    requires Mirrors(st)
    ensures Update(st, u).Ok? <==>
              u.Null? || (u.Obj? && AnthropicShape(Merge(st.usage, u)) && Feasible(Merge(st.usage, u), st.bounds))
  {
    hide AnthropicUsage, AnthropicBounds, Observe, Mirrors, AnthropicShape, Merge;
    if u.Obj? && Update(st, u).Ok? {
      UpdatedIsFeasible(st, u);
    }
    if u.Obj? && AnthropicShape(Merge(st.usage, u)) && Feasible(Merge(st.usage, u), st.bounds) {
      var c: Completion :| c.Consistent() && c.Agrees(Merge(st.usage, u)) && c.OverBounds(st.bounds);
      FeasibleIsUpdated(st, u, c);
    }
  }

  // ----- Whole runs -----

  function Replay(us: seq<Json>, i: nat, st: Ledger): Result<Ledger>
    requires i <= |us|
    decreases |us| - i
  {
    if i == |us| then Ok(st)
    else
      var st' :- Update(st, us[i]);
      Replay(us, i + 1, st')
  }

  /** The usage after the first `n` updates: each overwrites what it mentions, null forgets everything. */
  function Fold(us: seq<Json>, n: nat): Json
    requires n <= |us|
  {
    if n == 0 then EMPTY.usage
    else if us[n - 1].Null? then FORGOTTEN
    else Merge(Fold(us, n - 1), us[n - 1])
  }

  predicate Decides(u: Json, p: Path) {
    u.Null? || Writes(u, p)
  }

  /** The last update that decides a path decides its value; nothing is ever added up. */
  lemma {:induction false} LastWriter(us: seq<Json>, n: nat, p: Path)
    requires n <= |us| && !At(Fold(us, n), p).Obj?
    ensures
      || (At(Fold(us, n), p) == Null && forall j :: 0 <= j < n ==> !Decides(us[j], p))
      || exists k :: 0 <= k < n && Decides(us[k], p) && (forall j :: k < j < n ==> !Decides(us[j], p))
           && At(Fold(us, n), p) == if us[k].Null? then At(FORGOTTEN, p) else At(us[k], p)
  {
    if n == 0 {
      assert p != [];
      NullAt(p[1..]);
    } else {
      var u := us[n - 1];
      MergeAt(Fold(us, n - 1), u, p);
      if !Decides(u, p) {
        LastWriter(us, n - 1, p);
      }
    }
  }

  /** Update `k` leaves a snapshot that can be completed above every number reported so far. */
  ghost predicate FeasibleAt(us: seq<Json>, k: nat)
    requires k < |us|
  {
    !us[k].Null? ==>
    && us[k].Obj?
    && AnthropicShape(Fold(us, k + 1))
    && exists c: Completion ::
         && c.Consistent() && c.Agrees(Fold(us, k + 1))
         && forall i :: 0 <= i < k ==> c.Covers(us[i])
  }

  lemma OverBoundsIsCovers(seen: seq<Json>, b: Bounds, c: Completion)
    requires IsHistory(seen, b)
    ensures c.OverBounds(b) <==> forall i :: 0 <= i < |seen| ==> c.Covers(seen[i])
  {
    if forall i :: 0 <= i < |seen| ==> c.Covers(seen[i]) {
      forall x: Tally ensures Bound(b, x) <= c.Of(x) {
        var p := PathOf(x);
        if Lower(b, p) != 0 {
          var i :| 0 <= i < |seen| && Reported(seen[i], p) == Some(Lower(b, p));
          assert c.Covers(seen[i]);
        }
      }
    }
    if c.OverBounds(b) {
      forall i | 0 <= i < |seen| ensures c.Covers(seen[i]) {
        forall x: Tally ensures Reported(seen[i], PathOf(x)).GetOr(0) <= c.Of(x) {
          assert Bound(b, x) <= c.Of(x);
        }
      }
    }
  }

  ghost predicate Invariant(us: seq<Json>, i: nat, st: Ledger)
    requires i <= |us|
  {
    st.usage == Fold(us, i) && IsHistory(us[..i], st.bounds) && Mirrors(st)
  }

  lemma UpdateKeepsHistory(seen: seq<Json>, st: Ledger, u: Json)
    requires IsHistory(seen, st.bounds) && Update(st, u).Ok?
    ensures IsHistory(seen + [u], Update(st, u).value.bounds)
    ensures Update(st, u).value.usage == if u.Null? then FORGOTTEN else Merge(st.usage, u)
  {
    if u.Null? {
      forall p ensures Reported(u, p) == None {
        NullAt(p);
      }
      var all := seen + [u];
      forall p | Lower(st.bounds, p) != 0
        ensures exists i :: 0 <= i < |all| && Reported(all[i], p) == Some(Lower(st.bounds, p))
      {
        var i :| 0 <= i < |seen| && Reported(seen[i], p) == Some(Lower(st.bounds, p));
        assert all[i] == seen[i];
      }
    } else {
      HistoryGrows(seen, st.bounds, u);
    }
  }

  lemma FeasibleOverHistory(us: seq<Json>, i: nat, b: Bounds)
    requires i < |us| && IsHistory(us[..i], b)
    ensures FeasibleAt(us, i) <==>
              us[i].Null? || (us[i].Obj? && AnthropicShape(Fold(us, i + 1)) && Feasible(Fold(us, i + 1), b))
  {
    hide AnthropicShape, Fold, IsHistory, Completion.Covers, Completion.OverBounds, Completion.Agrees;
    forall c: Completion
      ensures c.OverBounds(b) <==> forall j :: 0 <= j < i ==> c.Covers(us[j])
    {
      OverBoundsIsCovers(us[..i], b, c);
      assert forall j :: 0 <= j < i ==> us[..i][j] == us[j];
    }
  }

  lemma StepIffFeasible(us: seq<Json>, i: nat, st: Ledger)
    requires i < |us| && Invariant(us, i, st)
    ensures Update(st, us[i]).Ok? <==> FeasibleAt(us, i)
    ensures Update(st, us[i]).Ok? ==> Invariant(us, i + 1, Update(st, us[i]).value)
  {
    hide Update, AnthropicShape, IsHistory, Mirrors, Merge, Feasible, FeasibleAt;
    var u := us[i];
    UpdateIffFeasible(st, u);
    FeasibleOverHistory(us, i, st.bounds);
    if Update(st, u).Ok? {
      UpdateKeepsHistory(us[..i], st, u);
      UpdateMirrors(st, u);
      assert us[..i] + [u] == us[..i + 1];
    }
  }

  lemma {:induction false} ReplayIffFeasible(us: seq<Json>, i: nat, st: Ledger)
    requires i <= |us| && Invariant(us, i, st)
    ensures Replay(us, i, st).Ok? <==> forall k :: i <= k < |us| ==> FeasibleAt(us, k)
    ensures Replay(us, i, st).Ok? ==> Invariant(us, |us|, Replay(us, i, st).value)
    decreases |us| - i
  {
    hide Update, Invariant, FeasibleAt;
    if i < |us| {
      StepIffFeasible(us, i, st);
      if Update(st, us[i]).Ok? {
        ReplayIffFeasible(us, i + 1, Update(st, us[i]).value);
      }
    }
  }

  lemma NothingSeen(us: seq<Json>)
    ensures Invariant(us, 0, EMPTY)
  {
    forall p ensures !At(EMPTY.usage, p).Int? {
      if p != [] {
        NullAt(p[1..]);
      }
    }
  }

  /** A run of updates is accepted exactly when after each one the merged
      snapshot has a completion above every number reported before; the bounds
      are then the maxima of the run, and repeat every number of the snapshot. */
  lemma ReplayIsFeasible(us: seq<Json>)
    ensures Replay(us, 0, EMPTY).Ok? <==> forall k :: 0 <= k < |us| ==> FeasibleAt(us, k)
    ensures Replay(us, 0, EMPTY).Ok? ==>
              var st := Replay(us, 0, EMPTY).value;
              st.usage == Fold(us, |us|) && IsHistory(us, st.bounds) && Mirrors(st)
  {
    hide IsHistory, Mirrors, FeasibleAt, Replay;
    NothingSeen(us);
    ReplayIffFeasible(us, 0, EMPTY);
    assert us[..|us|] == us;
  }
}
