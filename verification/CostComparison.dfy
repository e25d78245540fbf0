/** Paired comparison of two priced ledgers.  Each arm's calls are divided among its
    tasks and a shared remainder; deltas are reported only when nothing is unknown. */
module CostComparison {
  import opened Wrappers
  import opened ProviderUsage
  import opened Decimals
  import opened Ordered
  import opened Totals
  import opened TokenCost
  import opened CostReports
  import opened Changes

  datatype TaskInput = TaskInput(taskId: string, digest: string, callIds: seq<string>)

  datatype ArmInput = ArmInput(armLabel: string, conditions: string, ledgerComplete: bool, costInput: CostInput,
                               tasks: seq<TaskInput>, sharedCallIds: seq<string>)

  datatype CompareInput = CompareInput(schema: string, comparisonId: string, currency: string,
                                       baseline: ArmInput, candidate: ArmInput)

  datatype Task = Task(digest: string, calls: seq<string>, summary: Summary)

  /** The rate cards of the main calls. */
  datatype Primary = Primary(known: bool, models: set<(string, string)>, prices: set<Quad<Option<string>>>)

  datatype Arm = Arm(armLabel: string, conditions: string, ledgerComplete: bool, report: Report, primary: Primary,
                     tasks: map<string, Task>, shared: seq<string>, sharedSummary: Summary)

  const COMPARE_SCHEMA := "qbrain-cost-comparison-v1"
  const TASK_CAP: nat := 128
  const MAIN := "main"

  function Fingerprint(s: string): Outcome {
    Need(|s| == 64 && forall c | c in s :: '0' <= c <= '9' || 'a' <= c <= 'f', "comparison_digest")
  }

  // ----- Call ownership -----

  type CallMap = map<string, CallInput>

  function CollectCalls(calls: seq<CallInput>, i: nat, m: CallMap): CallMap
    requires i <= |calls|
    decreases |calls| - i
  {
    if i == |calls| then m
    else CollectCalls(calls, i + 1, if calls[i].callId in m then m else m[calls[i].callId := calls[i]])
  }

  function OwnFrom(calls: CallMap, ids: seq<string>, shared: bool, i: nat, owned: set<string>, mainSeen: bool)
    : (r: Result<(set<string>, bool)>)
    requires i <= |ids|
    ensures r.Ok? ==> forall j :: i <= j < |ids| ==> ids[j] in calls
    decreases |ids| - i
  {
    if i == |ids| then Ok((owned, mainSeen)) else
    :- Id(ids[i]);
    :- Need(ids[i] in calls, "comparison_call_missing");
    :- Need(ids[i] !in owned, "comparison_call_reused");
    var main := calls[ids[i]].stage == MAIN;
    :- Need(!shared || !main, "comparison_shared_main");
    OwnFrom(calls, ids, shared, i + 1, owned + {ids[i]}, mainSeen || main)
  }

  datatype Taken = Taken(owned: set<string>, calls: seq<string>)

  /** Takes the named calls, none of which may be owned already; a task needs a main
      call and the shared remainder must have none.  The taken ids are sorted. */
  function OwnCalls(calls: CallMap, ids: seq<string>, shared: bool, owned: set<string>): (r: Result<Taken>)
    ensures r.Ok? ==> forall k | k in r.value.calls :: k in calls
  {
    var sized := |ids| <= CALL_LIMIT && (shared || ids != []);
    :- Need(sized, "comparison_call_ids");
    var end :- OwnFrom(calls, ids, shared, 0, owned, false);
    :- Need(shared || end.1, "comparison_main_missing");
    SortedMembers(Elements(ids));
    Ok(Taken(end.0, Sorted(Elements(ids))))
  }

  method TakeCalls(calls: CallMap, ids: seq<string>, shared: bool, owned: set<string>) returns (r: Result<Taken>)
    ensures r == OwnCalls(calls, ids, shared, owned)
  {
    hide Sorted, Id;
    :- Need(|ids| <= CALL_LIMIT && (shared || ids != []), "comparison_call_ids");
    var all := owned;
    var mainSeen := false;
    var result: seq<string> := [];
    for i := 0 to |ids|
      invariant OwnFrom(calls, ids, shared, i, all, mainSeen) == OwnFrom(calls, ids, shared, 0, owned, false)
      invariant result == ids[..i]
    {
      :- Id(ids[i]);
      :- Need(ids[i] in calls, "comparison_call_missing");
      :- Need(ids[i] !in all, "comparison_call_reused");
      all := all + {ids[i]};
      var main := calls[ids[i]].stage == MAIN;
      :- Need(!shared || !main, "comparison_shared_main");
      mainSeen := mainSeen || main;
      result := result + [ids[i]];
    }
    :- Need(shared || mainSeen, "comparison_main_missing");
    assert result == ids;
    r := Ok(Taken(all, Sorted(Elements(result))));
  }

  // ----- Reading an arm -----

  function SubsetInput(input: CostInput, calls: CallMap, ids: seq<string>): CostInput
    requires forall k | k in ids :: k in calls
  {
    input.(calls := seq(|ids|, j requires 0 <= j < |ids| => calls[ids[j]]))
  }

  /** The summary of some of an input's calls, priced on their own. */
  ghost function SubsetSummary(input: CostInput, calls: CallMap, ids: seq<string>): Result<Summary>
    requires forall k | k in ids :: k in calls
  {
    var report :- ReportOf(SubsetInput(input, calls, ids));
    Ok(report.summary)
  }

  ghost function ReadTask(input: CostInput, calls: CallMap, t: TaskInput, owned: set<string>, tasks: map<string, Task>)
    : Result<(set<string>, Task)>
  {
    var key := Id(t.taskId);
    :- key;
    :- Need(t.taskId !in tasks, "comparison_duplicate_task");
    :- Fingerprint(t.digest);
    var taken :- OwnCalls(calls, t.callIds, false, owned);
    var summary :- SubsetSummary(input, calls, taken.calls);
    Ok((taken.owned, Task(t.digest, taken.calls, summary)))
  }

  ghost function ReadTasks(input: CostInput, calls: CallMap, ts: seq<TaskInput>, i: nat, owned: set<string>,
                           tasks: map<string, Task>): Result<(set<string>, map<string, Task>)>
    requires i <= |ts|
    decreases |ts| - i
  {
    if i == |ts| then Ok((owned, tasks)) else
    var next :- ReadTask(input, calls, ts[i], owned, tasks);
    ReadTasks(input, calls, ts, i + 1, next.0, tasks[ts[i].taskId := next.1])
  }

  predicate IsMain(l: Ledger, k: string) { k in l.calls && l.calls[k].stage == MAIN }

  predicate Carded(l: Ledger, k: string) { k in l.calls && l.calls[k].rateId in l.rates }

  function CardFor(l: Ledger, k: string): Rate
    requires Carded(l, k)
  {
    l.rates[l.calls[k].rateId]
  }

  /** The identities and price schedules of the main calls in `s`. */
  function PrimaryOf(l: Ledger, s: set<string>): Primary {
    Primary(forall k | k in s && IsMain(l, k) :: Carded(l, k),
            set k | k in s && IsMain(l, k) && Carded(l, k) :: (CardFor(l, k).provider, CardFor(l, k).model),
            set k | k in s && IsMain(l, k) && Carded(l, k) :: RateText("", CardFor(l, k)).perMillion)
  }

  ghost function ReadArm(v: ArmInput, currency: string): Result<Arm> {
    var named := Id(v.armLabel);
    :- named;
    :- Fingerprint(v.conditions);
    var l :- ReadLedger(v.costInput);
    var report :- Price(l);
    :- Need(v.costInput.currency == currency, "comparison_currency");
    :- Need(0 < |v.tasks| <= TASK_CAP, "comparison_task_count");
    var calls := CollectCalls(v.costInput.calls, 0, map[]);
    var own :- ReadTasks(v.costInput, calls, v.tasks, 0, {}, map[]);
    var rest :- OwnCalls(calls, v.sharedCallIds, true, own.0);
    :- Need(|rest.owned| == |calls|, "comparison_unassigned_call");
    var summary :- SubsetSummary(v.costInput, calls, rest.calls);
    Ok(Arm(v.armLabel, v.conditions, v.ledgerComplete, report, PrimaryOf(l, l.calls.Keys), own.1, rest.calls, summary))
  }

  method FindPrimary(l: Ledger) returns (p: Primary)
    ensures p == PrimaryOf(l, l.calls.Keys)
  {
    hide Sorted, RateText;
    var known := true;
    var models: set<(string, string)> := {};
    var prices: set<Quad<Option<string>>> := {};
    var ks := Sorted(l.calls.Keys);
    AllKeys(l.calls.Keys);
    for i := 0 to |ks|
      invariant Primary(known, models, prices) == PrimaryOf(l, Elements(ks[..i]))
    {
      NextKey(l.calls.Keys, i);
      ghost var done := Elements(ks[..i]);
      PrimaryStep(l, done, ks[i]);
      if l.calls[ks[i]].stage != MAIN {
        continue;
      }
      if l.calls[ks[i]].rateId !in l.rates {
        known := false;
        continue;
      }
      var card := l.rates[l.calls[ks[i]].rateId];
      models := models + {(card.provider, card.model)};
      prices := prices + {RateText("", card).perMillion};
    }
    p := Primary(known, models, prices);
  }

  lemma PrimaryStep(l: Ledger, s: set<string>, k: string)
    requires k in l.calls
    ensures var p, q := PrimaryOf(l, s), PrimaryOf(l, s + {k});
            q == if !IsMain(l, k) then p
                 else if !Carded(l, k) then p.(known := false)
                 else Primary(p.known, p.models + {(CardFor(l, k).provider, CardFor(l, k).model)},
                              p.prices + {RateText("", CardFor(l, k)).perMillion})
  {
    hide RateText;
    var p, q := PrimaryOf(l, s), PrimaryOf(l, s + {k});
    if IsMain(l, k) && Carded(l, k) {
      assert q.models == p.models + {(CardFor(l, k).provider, CardFor(l, k).model)};
      assert q.prices == p.prices + {RateText("", CardFor(l, k)).perMillion};
    } else {
      assert q.models == p.models && q.prices == p.prices;
    }
  }

  method Summarize(input: CostInput, calls: CallMap, ids: seq<string>) returns (r: Result<Summary>)
    requires forall k | k in ids :: k in calls
    ensures r == SubsetSummary(input, calls, ids)
  {
    hide ReportOf;
    var report :- MakeReport(SubsetInput(input, calls, ids));
    r := Ok(report.summary);
  }

  /** Reads one arm: prices its ledger, then divides the calls among tasks and the
      shared remainder, leaving none unassigned. */
  method LoadArm(v: ArmInput, currency: string) returns (r: Result<Arm>)
    ensures r == ReadArm(v, currency)
  {
    hide ReadLedger, Price, OwnCalls, SubsetSummary, PrimaryOf, Id, Fingerprint;
    :- Id(v.armLabel);
    :- Fingerprint(v.conditions);
    var report :- MakeReport(v.costInput);
    var read := ReadLedger(v.costInput);
    var l := read.value;
    :- Need(v.costInput.currency == currency, "comparison_currency");
    :- Need(0 < |v.tasks| <= TASK_CAP, "comparison_task_count");
    var calls := GatherCalls(v.costInput.calls);
    var owned: set<string> := {};
    var tasks: map<string, Task> := map[];
    for i := 0 to |v.tasks|
      invariant ReadTasks(v.costInput, calls, v.tasks, i, owned, tasks)
                == ReadTasks(v.costInput, calls, v.tasks, 0, {}, map[])
    {
      var t := v.tasks[i];
      :- Id(t.taskId);
      :- Need(t.taskId !in tasks, "comparison_duplicate_task");
      :- Fingerprint(t.digest);
      var taken :- TakeCalls(calls, t.callIds, false, owned);
      owned := taken.owned;
      var summary :- Summarize(v.costInput, calls, taken.calls);
      tasks := tasks[t.taskId := Task(t.digest, taken.calls, summary)];
    }
    var rest :- TakeCalls(calls, v.sharedCallIds, true, owned);
    :- Need(|rest.owned| == |calls|, "comparison_unassigned_call");
    var sharedSummary :- Summarize(v.costInput, calls, rest.calls);
    var primary := FindPrimary(l);
    r := Ok(Arm(v.armLabel, v.conditions, v.ledgerComplete, report, primary, tasks, rest.calls, sharedSummary));
  }

  method GatherCalls(calls: seq<CallInput>) returns (m: CallMap)
    ensures m == CollectCalls(calls, 0, map[])
  {
    m := map[];
    for i := 0 to |calls|
      invariant CollectCalls(calls, i, m) == CollectCalls(calls, 0, map[])
    {
      if calls[i].callId !in m {
        m := m[calls[i].callId := calls[i]];
      }
    }
  }

  // ----- Comparing -----

  datatype Pair = Pair(key: string, baseline: Summary, candidate: Summary, change: Change)

  datatype Comparison = Comparison(comparisonId: string, currency: string, eligible: bool, reasons: seq<string>,
                                   sameModel: bool, samePrices: bool, baseline: Arm, candidate: Arm,
                                   change: Change, byTask: seq<Pair>, byStage: seq<Pair>, shared: Pair)

  /** Every task of `a` is a task of `b` with the same content. */
  function MatchTasks(a: map<string, Task>, b: map<string, Task>, ks: seq<string>, i: nat): Result<Unit>
    requires i <= |ks| && forall k | k in ks :: k in a
    decreases |ks| - i
  {
    if i == |ks| then Ok(Unit) else
    :- Need(ks[i] in b, "comparison_task_set");
    :- Need(a[ks[i]].digest == b[ks[i]].digest, "comparison_task_mismatch");
    MatchTasks(a, b, ks, i + 1)
  }

  predicate PrimaryKnown(a: Primary, b: Primary) {
    a.known && b.known && |a.models| == 1 && |b.models| == 1
  }

  predicate SameModel(a: Primary, b: Primary) { PrimaryKnown(a, b) && a.models == b.models }

  predicate SamePrices(a: Primary, b: Primary) {
    SameModel(a, b) && |a.prices| == 1 && |b.prices| == 1 && a.prices == b.prices
  }

  function Reasons(a: Arm, b: Arm): seq<string> {
    (if !a.ledgerComplete || !b.ledgerComplete then ["declared_coverage_incomplete"] else [])
    + (if !a.report.summary.complete || !b.report.summary.complete then ["cost_components_unknown"] else [])
    + (if !PrimaryKnown(a.primary, b.primary) then ["primary_model_unknown_or_multiple"]
       else if !SameModel(a.primary, b.primary) then ["primary_model_mismatch"] else [])
    + (if SameModel(a.primary, b.primary) && !SamePrices(a.primary, b.primary)
       then ["primary_price_schedule_mismatch"] else [])
  }

  type Summaries = map<string, Summary>

  function PairUp(a: Summaries, b: Summaries, ks: seq<string>, eligible: bool, i: nat,
                  done: seq<Pair>): Result<seq<Pair>>
    requires i <= |ks| && forall k | k in ks :: k in a && k in b
    decreases |ks| - i
  {
    if i == |ks| then Ok(done) else
    var change :- ChangeOf(a[ks[i]], b[ks[i]], eligible);
    PairUp(a, b, ks, eligible, i + 1, done + [Pair(ks[i], a[ks[i]], b[ks[i]], change)])
  }

  function TaskSummaries(tasks: map<string, Task>): Summaries { map k | k in tasks :: tasks[k].summary }

  function GroupSummaries(gs: seq<Group>): Summaries {
    if gs == [] then map[]
    else
      var m, last := GroupSummaries(gs[..|gs| - 1]), gs[|gs| - 1];
      if last.key in m then m else m[last.key := last.summary]
  }

  /** `a` on the stages of either arm; a stage without calls is all zero. */
  function Widen(a: Summaries, stages: set<string>): Summaries {
    map k | k in stages :: if k in a then a[k] else Print(ZERO)
  }

  function Stages(a: Arm, b: Arm): set<string> {
    GroupSummaries(a.report.byStage).Keys + GroupSummaries(b.report.byStage).Keys
  }

  function StagePairs(a: Arm, b: Arm, eligible: bool): Result<seq<Pair>> {
    var ks := Stages(a, b);
    SortedMembers(ks);
    PairUp(Widen(GroupSummaries(a.report.byStage), ks), Widen(GroupSummaries(b.report.byStage), ks), Sorted(ks),
           eligible, 0, [])
  }

  /** Both arms declare the same conditions and the same tasks under different labels. */
  function Paired(a: Arm, b: Arm): (r: Result<Unit>)
    ensures r.Ok? ==> a.tasks.Keys <= b.tasks.Keys
  {
    var labels := a.armLabel != b.armLabel;
    :- Need(labels, "comparison_labels");
    :- Need(a.conditions == b.conditions, "comparison_conditions_mismatch");
    :- Need(|a.tasks| == |b.tasks|, "comparison_task_set");
    SortedMembers(a.tasks.Keys);
    MatchedTasks(a.tasks, b.tasks);
    MatchTasks(a.tasks, b.tasks, Sorted(a.tasks.Keys), 0)
  }

  ghost predicate Matched(a: map<string, Task>, b: map<string, Task>, ks: seq<string>, i: nat)
    requires forall k | k in ks :: k in a
  {
    forall j :: i <= j < |ks| ==> ks[j] in b && a[ks[j]].digest == b[ks[j]].digest
  }

  lemma {:induction false} MatchIs(a: map<string, Task>, b: map<string, Task>, ks: seq<string>, i: nat)
    requires i <= |ks| && forall k | k in ks :: k in a
    ensures MatchTasks(a, b, ks, i).Ok? <==> Matched(a, b, ks, i)
    decreases |ks| - i
  {
    if i < |ks| {
      MatchIs(a, b, ks, i + 1);
    }
  }

  lemma MatchedTasks(a: map<string, Task>, b: map<string, Task>)
    ensures forall k | k in Sorted(a.Keys) :: k in a
    ensures MatchTasks(a, b, Sorted(a.Keys), 0).Ok? <==>
              forall k :: k in a ==> k in b && a[k].digest == b[k].digest
  {
    hide Sorted;
    SortedMembers(a.Keys);
    MatchIs(a, b, Sorted(a.Keys), 0);
  }

  function TaskPairs(a: Arm, b: Arm, eligible: bool): Result<seq<Pair>>
    requires a.tasks.Keys <= b.tasks.Keys
  {
    SortedMembers(a.tasks.Keys);
    PairUp(TaskSummaries(a.tasks), TaskSummaries(b.tasks), Sorted(a.tasks.Keys), eligible, 0, [])
  }

  function Conclude(root: CompareInput, a: Arm, b: Arm): Result<Comparison> {
    var _ :- Paired(a, b);
    var reasons := Reasons(a, b);
    var eligible := reasons == [];
    var byTask :- TaskPairs(a, b, eligible);
    var byStage :- StagePairs(a, b, eligible);
    var change :- ChangeOf(a.report.summary, b.report.summary, eligible);
    var shared :- ChangeOf(a.sharedSummary, b.sharedSummary, eligible);
    Ok(Comparison(root.comparisonId, root.currency, eligible, reasons,
                  SameModel(a.primary, b.primary), SamePrices(a.primary, b.primary), a, b,
                  change, byTask, byStage, Pair("", a.sharedSummary, b.sharedSummary, shared)))
  }

  ghost function Compare(root: CompareInput): Result<Comparison> {
    var known := root.schema == COMPARE_SCHEMA;
    :- Need(known, "comparison_schema");
    :- Id(root.comparisonId);
    var a :- ReadArm(root.baseline, root.currency);
    var b :- ReadArm(root.candidate, root.currency);
    Conclude(root, a, b)
  }

  method MakePairs(a: Summaries, b: Summaries, ks: seq<string>, eligible: bool) returns (r: Result<seq<Pair>>)
    requires forall k | k in ks :: k in a && k in b
    ensures r == PairUp(a, b, ks, eligible, 0, [])
  {
    hide ChangeOf;
    var pairs: seq<Pair> := [];
    for i := 0 to |ks|
      invariant PairUp(a, b, ks, eligible, i, pairs) == PairUp(a, b, ks, eligible, 0, [])
    {
      var change :- MakeChange(a[ks[i]], b[ks[i]], eligible);
      pairs := pairs + [Pair(ks[i], a[ks[i]], b[ks[i]], change)];
    }
    r := Ok(pairs);
  }

  /** The comparison of two arms. */
  method CompareArms(root: CompareInput) returns (r: Result<Comparison>)
    ensures r == Compare(root)
  {
    hide ReadArm, Id, ChangeOf, Reasons, GroupSummaries, Widen, TaskSummaries, PairUp, MatchTasks, Sorted;
    :- Need(root.schema == COMPARE_SCHEMA, "comparison_schema");
    :- Id(root.comparisonId);
    var a :- LoadArm(root.baseline, root.currency);
    var b :- LoadArm(root.candidate, root.currency);
    :- Need(a.armLabel != b.armLabel, "comparison_labels");
    :- Need(a.conditions == b.conditions, "comparison_conditions_mismatch");
    :- Need(|a.tasks| == |b.tasks|, "comparison_task_set");
    var ks := Sorted(a.tasks.Keys);
    SortedMembers(a.tasks.Keys);
    for i := 0 to |ks|
      invariant MatchTasks(a.tasks, b.tasks, ks, i) == MatchTasks(a.tasks, b.tasks, ks, 0)
    {
      MatchNext(a.tasks, b.tasks, ks, i);
      :- Need(ks[i] in b.tasks, "comparison_task_set");
      :- Need(a.tasks[ks[i]].digest == b.tasks[ks[i]].digest, "comparison_task_mismatch");
    }
    MatchIs(a.tasks, b.tasks, ks, |ks|);
    var paired := Paired(a, b);
    assert paired.Ok?;
    var reasons := Reasons(a, b);
    var eligible := reasons == [];
    TaskKeys(a.tasks);
    TaskKeys(b.tasks);
    var byTask :- MakePairs(TaskSummaries(a.tasks), TaskSummaries(b.tasks), ks, eligible);
    var stages := Stages(a, b);
    SortedMembers(stages);
    WidenKeys(GroupSummaries(a.report.byStage), stages);
    WidenKeys(GroupSummaries(b.report.byStage), stages);
    var byStage :- MakePairs(Widen(GroupSummaries(a.report.byStage), stages),
                             Widen(GroupSummaries(b.report.byStage), stages),
                             Sorted(stages), eligible);
    var change :- MakeChange(a.report.summary, b.report.summary, eligible);
    var shared :- MakeChange(a.sharedSummary, b.sharedSummary, eligible);
    r := Ok(Comparison(root.comparisonId, root.currency, eligible, reasons,
                       SameModel(a.primary, b.primary), SamePrices(a.primary, b.primary), a, b,
                       change, byTask, byStage, Pair("", a.sharedSummary, b.sharedSummary, shared)));
  }

  lemma MatchNext(a: map<string, Task>, b: map<string, Task>, ks: seq<string>, i: nat)
    requires i < |ks| && forall k | k in ks :: k in a
    ensures MatchTasks(a, b, ks, i) ==
              if ks[i] !in b then Err("comparison_task_set")
              else if a[ks[i]].digest != b[ks[i]].digest then Err("comparison_task_mismatch")
              else MatchTasks(a, b, ks, i + 1)
  {
  }

  lemma TaskKeys(tasks: map<string, Task>)
    ensures TaskSummaries(tasks).Keys == tasks.Keys
  {
  }

  lemma WidenKeys(a: Summaries, stages: set<string>)
    ensures Widen(a, stages).Keys == stages
  {
  }
}
