/** Responses usage over a stream: the history checks accept a snapshot exactly
    when some completion of it dominates everything reported before. */
module OpenAiHistory {
  import opened Wrappers
  import opened Json
  import opened ProviderUsage
  import opened OpenAiSnapshots
  import opened UsageHistory

  /** The bound recorded for a Responses counter. */
  function Bound(b: Bounds, x: Counter): nat {
    Lower(b, PathOf(true, x))
  }

  function FloorOf(b: Bounds): Floor {
    Floor(Bound(b, Input), Bound(b, Output), Bound(b, Total), Bound(b, CacheRead), Bound(b, CacheWrite),
          Bound(b, Reasoning), Bound(b, Accepted), Bound(b, Rejected))
  }

  /** Every currently reported aggregate against all earlier numbers. */
  function OpenAiBounds(u: Json, f: Floor): Result<Unit> {
    var input :- CountOf(u, "input_tokens");
    :- Need(input.Some? ==> f.Cache() <= input.value, "stream_usage_lower_bound");
    var output :- CountOf(u, "output_tokens");
    :- Need(output.Some? ==> f.Output() <= output.value, "stream_usage_lower_bound");
    var total :- CountOf(u, "total_tokens");
    :- Need(total.Some? ==> Max(f.Cache(), f.input) + f.Output() <= total.value, "stream_usage_lower_bound");
    // A missing total cannot erase an earlier one once both parts are known.
    :- Need(input.Some? && output.Some? ==> input.value + output.value >= f.total, "stream_usage_lower_bound");
    Ok(Unit)
  }

  /** One reported Responses snapshot: its own checks, then history. */
  function AcceptOpenAi(u: Json, b: Bounds): Result<Bounds> {
    var _ :- OpenAiUsage(u, true);
    var b' :- Observe(u, b);
    var _ :- OpenAiBounds(u, FloorOf(b'));
    Ok(b')
  }

  // ----- Exact feasibility -----

  /** A well-shaped snapshot holds integers at the ten counters only. */
  lemma ShapePaths(u: Json, responses: bool, p: Path)
    requires OpenAiShape(u, responses) && At(u, p).Int?
    ensures 0 <= At(u, p).n <= TOKEN_CAP
    ensures exists x: Counter :: p == PathOf(responses, x)
  {
    assert p != [] && At(u, p) == At(Get(u, p[0]), p[1..]);
    var v := Get(u, p[0]);
    if |p| == 1 {
      assert p == [p[0]];
      var x := if p[0] == Key(responses, Input) then Input
               else if p[0] == Key(responses, Output) then Output else Total;
      assert p == PathOf(responses, x);
    } else {
      assert At(u, p) == At(v, p[1..]) == At(Get(v, p[1]), p[1..][1..]);
      if |p| == 2 {
        assert p == [p[0], p[1]];
        var x := if p[0] == Key(responses, CacheRead) then
                   if p[1] == "cached_tokens" then CacheRead
                   else if p[1] == "cache_write_tokens" then CacheWrite
                   else InputAudio
                 else if p[1] == "reasoning_tokens" then Reasoning
                 else if p[1] == "accepted_prediction_tokens" then Accepted
                 else if p[1] == "rejected_prediction_tokens" then Rejected else OutputAudio;
        assert p == PathOf(responses, x);
      } else {
        assert !Get(v, p[1]).Obj?;
        NullAt(p[1..][1..][1..]);
      }
    }
  }

  /** `f` is what `b` records; audio is only ever observed as zero. */
  ghost predicate Tracks(b: Bounds, f: Floor) {
    forall x: Counter :: Bound(b, x) == f.Of(x)
  }

  predicate NoAudio(b: Bounds) {
    Bound(b, InputAudio) == 0 && Bound(b, OutputAudio) == 0
  }

  lemma FloorTracks(b: Bounds)
    requires NoAudio(b)
    ensures Tracks(b, FloorOf(b))
  {
    forall x: Counter ensures Bound(b, x) == FloorOf(b).Of(x) {
      match x
      case _ =>
    }
  }

  lemma MonotoneEach(s: Snapshot, f: Floor)
    ensures Monotone(s, f) <==> forall x: Counter :: s.Of(x).Some? ==> f.Of(x) <= s.Of(x).value
  {
    if forall x: Counter :: s.Of(x).Some? ==> f.Of(x) <= s.Of(x).value {
      assert s.Of(Input) == s.input && s.Of(Output) == s.output && s.Of(Total) == s.total;
      assert s.Of(CacheRead) == s.read && s.Of(CacheWrite) == s.write;
      assert s.Of(Reasoning) == s.reasoning && s.Of(Accepted) == s.accepted && s.Of(Rejected) == s.rejected;
    }
  }

  lemma ObservedIsMonotone(u: Json, b: Bounds, f: Floor)
    requires OpenAiShape(u, true) && Tracks(b, f) && Observe(u, b).Ok?
    ensures Monotone(Read(u, true), f)
  {
    var s := Read(u, true);
    MonotoneEach(s, f);
    forall x: Counter ensures s.Of(x).Some? ==> f.Of(x) <= s.Of(x).value {
      ReadIsReported(u, true, x);
      ObservedAt(u, b, PathOf(true, x));
      assert Bound(b, x) == f.Of(x);
    }
  }

  lemma MonotoneIsObserved(u: Json, b: Bounds, f: Floor)
    requires OpenAiShape(u, true) && Tracks(b, f) && Monotone(Read(u, true), f)
    ensures Observe(u, b).Ok?
  {
    MonotoneEach(Read(u, true), f);
    hide OpenAiShape, Monotone, Tracks, Leaves, IntAt, Read;
    forall p | p in Leaves(u) ensures 0 <= IntAt(u, p) <= TOKEN_CAP && !(p in b && IntAt(u, p) < b[p]) {
      LeafIsMonotone(u, b, f, p);
    }
  }

  lemma LeafIsMonotone(u: Json, b: Bounds, f: Floor, p: Path)
    requires OpenAiShape(u, true) && Tracks(b, f) && Monotone(Read(u, true), f) && p in Leaves(u)
    ensures 0 <= IntAt(u, p) <= TOKEN_CAP && !(p in b && IntAt(u, p) < b[p])
  {
    MonotoneEach(Read(u, true), f);
    LeafAt(u, p);
    ShapePaths(u, true, p);
    hide OpenAiShape, Monotone, Leaves;
    var x: Counter :| p == PathOf(true, x);
    ReadIsReported(u, true, x);
    assert Bound(b, x) == f.Of(x);
  }

  lemma ObserveIsRaise(u: Json, b: Bounds, f: Floor)
    requires OpenAiShape(u, true) && Tracks(b, f) && Observe(u, b).Ok?
    ensures Tracks(Observe(u, b).value, Raise(Read(u, true), f))
  {
    var b', g := Observe(u, b).value, Raise(Read(u, true), f);
    forall x: Counter ensures Bound(b', x) == g.Of(x) {
      ReadIsReported(u, true, x);
      ObservedAt(u, b, PathOf(true, x));
      assert Bound(b, x) == f.Of(x);
      RaiseOf(Read(u, true), f, x);
    }
  }

  lemma RaiseOf(s: Snapshot, f: Floor, x: Counter)
    ensures Raise(s, f).Of(x) == s.Of(x).GetOr(f.Of(x))
  {
  }

  lemma BoundsIsAbove(u: Json, f: Floor)
    requires OpenAiShape(u, true)
    ensures OpenAiBounds(u, f).Ok? <==> AboveHistory(Read(u, true), f)
  {
    CountOfShape(u, "input_tokens");
    CountOfShape(u, "output_tokens");
    CountOfShape(u, "total_tokens");
  }

  /** Some completion of `u` agrees with it and with everything seen before. */
  ghost predicate Feasible(u: Json, b: Bounds) {
    exists c: Completion :: c.Consistent() && c.Agrees(true, u) && OverBounds(c, b)
  }

  ghost predicate OverBounds(c: Completion, b: Bounds) {
    forall x: Counter :: Bound(b, x) <= c.Of(x)
  }

  lemma OverBoundsIsAbove(c: Completion, b: Bounds, f: Floor)
    requires Tracks(b, f)
    ensures OverBounds(c, b) <==> Above(c, f)
  {
    if Above(c, f) {
      forall x: Counter ensures Bound(b, x) <= c.Of(x) {
        assert Bound(b, x) == f.Of(x);
      }
    }
    if OverBounds(c, b) {
      assert forall x: Counter :: f.Of(x) == Bound(b, x) <= c.Of(x);
      assert f.Of(Input) <= c.Of(Input) && f.Of(Output) <= c.Of(Output) && f.Of(Total) <= c.Of(Total);
      assert f.Of(CacheRead) <= c.Of(CacheRead) && f.Of(CacheWrite) <= c.Of(CacheWrite);
      assert f.Of(Reasoning) <= c.Of(Reasoning) && f.Of(Accepted) <= c.Of(Accepted) && f.Of(Rejected) <= c.Of(Rejected);
    }
  }

  /** The ad-hoc checks accept a snapshot exactly when a completion exists. */
  lemma AcceptIffFeasible(u: Json, b: Bounds)
    requires NoAudio(b)
    ensures AcceptOpenAi(u, b).Ok? <==> OpenAiShape(u, true) && Feasible(u, b)
    ensures AcceptOpenAi(u, b).Ok? ==>
              u.Obj? && AcceptOpenAi(u, b) == Observe(u, b) && NoAudio(AcceptOpenAi(u, b).value)
  {
    OpenAiUsageIs(u, true);
    FloorTracks(b);
    if OpenAiShape(u, true) {
      var s, f := Read(u, true), FloorOf(b);
      if AcceptOpenAi(u, b).Ok? {
        AcceptedIsFeasible(u, b, f);
      }
      if Feasible(u, b) {
        var c: Completion :| c.Consistent() && c.Agrees(true, u) && OverBounds(c, b);
        AgreesIsMatches(c, u, true);
        OverBoundsIsAbove(c, b, f);
        FeasibleIsConsistent(s, c);
        FeasibleIsAbove(s, f, c);
        MonotoneIsObserved(u, b, f);
        var b' := Observe(u, b).value;
        ObserveIsRaise(u, b, f);
        TracksFloor(b', Raise(s, f));
        BoundsIsAbove(u, Raise(s, f));
      }
    }
  }

  lemma TracksFloor(b: Bounds, f: Floor)
    requires Tracks(b, f)
    ensures f == FloorOf(b) && NoAudio(b)
  {
    assert forall x: Counter :: Bound(b, x) == f.Of(x);
    assert f.Of(InputAudio) == 0 && f.Of(OutputAudio) == 0;
    var g := FloorOf(b);
    assert g.Of(Input) == f.Of(Input) && g.Of(Output) == f.Of(Output) && g.Of(Total) == f.Of(Total);
    assert g.Of(CacheRead) == f.Of(CacheRead) && g.Of(CacheWrite) == f.Of(CacheWrite);
    assert g.Of(Reasoning) == f.Of(Reasoning) && g.Of(Accepted) == f.Of(Accepted) && g.Of(Rejected) == f.Of(Rejected);
  }

  lemma AcceptedIsFeasible(u: Json, b: Bounds, f: Floor)
    requires OpenAiShape(u, true) && Tracks(b, f) && AcceptOpenAi(u, b).Ok?
    ensures Feasible(u, b)
    ensures NoAudio(AcceptOpenAi(u, b).value)
  {
    var s, b' := Read(u, true), Observe(u, b).value;
    OpenAiUsageIs(u, true);
    ObservedIsMonotone(u, b, f);
    ObserveIsRaise(u, b, f);
    TracksFloor(b', Raise(s, f));
    BoundsIsAbove(u, Raise(s, f));
    CheckedIsFeasible(s, f);
    var c := Complete(s, Raise(s, f));
    AgreesIsMatches(c, u, true);
    OverBoundsIsAbove(c, b, f);
  }

  // ----- Whole runs -----

  /** Each reported snapshot of a stream in turn. */
  function AcceptRun(us: seq<Json>, i: nat, b: Bounds): Result<Bounds>
    requires i <= |us|
    decreases |us| - i
  {
    if i == |us| then Ok(b)
    else
      var b' :- AcceptOpenAi(us[i], b);
      AcceptRun(us, i + 1, b')
  }

  lemma OverBoundsIsCovers(seen: seq<Json>, b: Bounds, c: Completion)
    requires IsHistory(seen, b)
    ensures OverBounds(c, b) <==> forall i :: 0 <= i < |seen| ==> c.Covers(true, seen[i])
  {
    if forall i :: 0 <= i < |seen| ==> c.Covers(true, seen[i]) {
      forall x: Counter ensures Bound(b, x) <= c.Of(x) {
        var p := PathOf(true, x);
        if Lower(b, p) != 0 {
          var i :| 0 <= i < |seen| && Reported(seen[i], p) == Some(Lower(b, p));
          assert c.Covers(true, seen[i]);
        }
      }
    }
    if OverBounds(c, b) {
      forall i | 0 <= i < |seen| ensures c.Covers(true, seen[i]) {
        forall x: Counter ensures Reported(seen[i], PathOf(true, x)).GetOr(0) <= c.Of(x) {
          assert Bound(b, x) <= c.Of(x);
        }
      }
    }
  }

  /** Snapshot `k` can be completed above every number reported up to it. */
  ghost predicate FeasibleAt(us: seq<Json>, k: nat)
    requires k < |us|
  {
    && OpenAiShape(us[k], true)
    && exists c: Completion ::
         && c.Consistent() && c.Agrees(true, us[k])
         && forall i :: 0 <= i < k ==> c.Covers(true, us[i])
  }

  lemma StepIffFeasible(us: seq<Json>, i: nat, b: Bounds)
    requires i < |us| && IsHistory(us[..i], b) && NoAudio(b)
    ensures AcceptOpenAi(us[i], b).Ok? <==> FeasibleAt(us, i)
    ensures AcceptOpenAi(us[i], b).Ok? ==>
              IsHistory(us[..i + 1], AcceptOpenAi(us[i], b).value) && NoAudio(AcceptOpenAi(us[i], b).value)
  {
    hide OpenAiUsage, OpenAiBounds, OpenAiShape, Observe, IsHistory, NoAudio, Completion.Covers, OverBounds;
    hide Completion.Agrees;
    AcceptIffFeasible(us[i], b);
    forall c: Completion
      ensures OverBounds(c, b) <==> forall j :: 0 <= j < i ==> c.Covers(true, us[j])
    {
      OverBoundsIsCovers(us[..i], b, c);
      assert forall j :: 0 <= j < i ==> us[..i][j] == us[j];
    }
    if AcceptOpenAi(us[i], b).Ok? {
      HistoryGrows(us[..i], b, us[i]);
      assert us[..i] + [us[i]] == us[..i + 1];
    }
  }

  lemma {:induction false} RunIffFeasible(us: seq<Json>, i: nat, b: Bounds)
    requires i <= |us| && IsHistory(us[..i], b) && NoAudio(b)
    ensures AcceptRun(us, i, b).Ok? <==> forall k :: i <= k < |us| ==> FeasibleAt(us, k)
    ensures AcceptRun(us, i, b).Ok? ==> IsHistory(us, AcceptRun(us, i, b).value)
    decreases |us| - i
  {
    hide AcceptOpenAi, IsHistory, NoAudio, FeasibleAt;
    if i == |us| {
      assert us[..i] == us;
    } else {
      StepIffFeasible(us, i, b);
      if AcceptOpenAi(us[i], b).Ok? {
        RunIffFeasible(us, i + 1, AcceptOpenAi(us[i], b).value);
      }
    }
  }

  /** A run of snapshots is accepted exactly when each one has a completion
      that agrees with it and dominates everything reported before it. */
  lemma RunIsFeasible(us: seq<Json>)
    ensures AcceptRun(us, 0, map[]).Ok? <==> forall k :: 0 <= k < |us| ==> FeasibleAt(us, k)
    ensures AcceptRun(us, 0, map[]).Ok? ==> IsHistory(us, AcceptRun(us, 0, map[]).value)
  {
    RunIffFeasible(us, 0, map[]);
  }
}
