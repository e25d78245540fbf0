/** The deltas of a comparison: exact, complete and adding up. */
module Telescoping {
  import opened Wrappers
  import opened Decimals
  import opened Ordered
  import opened Totals
  import opened TokenCost
  import opened CostReports
  import opened Changes
  import opened CostComparison
  import opened ComparisonLaws

  // ----- Totals by task and by stage -----

  /** The exact total of each task. */
  ghost function TaskTotals(l: Ledger, tasks: map<string, Task>): Parts {
    map k | k in tasks :: TotalOf(l, Elements(tasks[k].calls) * l.calls.Keys)
  }

  ghost function UnionOf(sets: CallSets, ks: set<string>): set<string>
    requires ks <= sets.Keys
  {
    set k, c | k in ks && c in sets[k] :: c
  }

  lemma {:induction false} PartsOfUnion(l: Ledger, tasks: map<string, Task>, owned: set<string>, ks: set<string>)
    requires Division(l, tasks, owned) && ks <= tasks.Keys
    ensures UnionOf(CallsIn(tasks), ks) <= l.calls.Keys
    ensures SumOver(TaskTotals(l, tasks), ks) == TotalOf(l, UnionOf(CallsIn(tasks), ks))
    decreases |ks|
  {
    hide SumOver, TaskOk, Total.Plus, Elements, PartsOf;
    PartsHold(l);
    var sets, t := CallsIn(tasks), TaskTotals(l, tasks);
    if ks == {} {
      assert UnionOf(sets, ks) == {};
      SumEmpty(t);
      SumEmpty(PartsOf(l));
    } else {
      var k :| k in ks;
      PartsOfUnion(l, tasks, owned, ks - {k});
      assert (ks - {k}) + {k} == ks;
      SumInsert(t, ks - {k}, k);
      assert UnionOf(sets, ks) == UnionOf(sets, ks - {k}) + sets[k];
      assert sets[k] * l.calls.Keys == sets[k];
      SumUnion(PartsOf(l), UnionOf(sets, ks - {k}), sets[k]);
    }
  }

  lemma DivideUnion(sets: CallSets, all: set<string>)
    requires Divide(sets, all)
    ensures UnionOf(sets, sets.Keys) == all
  {
    forall c | c in all ensures c in UnionOf(sets, sets.Keys) {
      var k :| k in sets && c in sets[k];
    }
  }

  lemma PartsHold(l: Ledger)
    ensures PartsOf(l).Keys == l.calls.Keys
  {
  }

  /** All tasks and the shared remainder together are the whole. */
  lemma TasksAddUp(l: Ledger, arm: Arm)
    requires Partition(l, arm)
    ensures var t, rest := TaskTotals(l, arm.tasks), Elements(arm.shared);
            SumOver(t, t.Keys).Plus(TotalOf(l, rest)) == TotalOf(l, l.calls.Keys)
  {
    hide Partition, Total.Plus, Elements;
    PartitionDivides(l, arm);
    DivisionAddsUp(l, arm.tasks, Elements(arm.shared));
  }

  lemma PartitionDivides(l: Ledger, arm: Arm)
    requires Partition(l, arm)
    ensures var rest := Elements(arm.shared); rest <= l.calls.Keys && Division(l, arm.tasks, l.calls.Keys - rest)
  {
    hide Division, TotalOf, Print, Elements, IsMain, Sorted;
  }

  lemma DivisionAddsUp(l: Ledger, tasks: map<string, Task>, rest: set<string>)
    requires rest <= l.calls.Keys && Division(l, tasks, l.calls.Keys - rest)
    ensures var t := TaskTotals(l, tasks); SumOver(t, t.Keys).Plus(TotalOf(l, rest)) == TotalOf(l, l.calls.Keys)
  {
    hide SumOver, TaskOk, Total.Plus, Elements, PartsOf, Divide, UnionOf;
    PartsHold(l);
    var owned := l.calls.Keys - rest;
    assert TaskTotals(l, tasks).Keys == tasks.Keys == CallsIn(tasks).Keys;
    PartsOfUnion(l, tasks, owned, tasks.Keys);
    DivideUnion(CallsIn(tasks), owned);
    SumUnion(PartsOf(l), owned, rest);
    assert owned + rest == l.calls.Keys;
  }

  /** The exact total of each stage of either arm; a stage without calls is zero. */
  ghost function StageTotals(l: Ledger, stages: set<string>): Parts {
    var t := ClassTotals(PartsOf(l), StageOf(l), l.calls.Keys);
    map k | k in stages :: if k in t then t[k] else ZERO
  }

  lemma {:induction false} ZerosSum(m: Parts, s: set<string>)
    requires s <= m.Keys && forall k :: k in s ==> m[k] == ZERO
    ensures SumOver(m, s) == ZERO
    decreases |s|
  {
    hide SumOver, Total.Plus;
    if s == {} {
      SumEmpty(m);
    } else {
      var k :| k in s;
      ZerosSum(m, s - {k});
      SumInsert(m, s - {k}, k);
      assert (s - {k}) + {k} == s;
      Swap(ZERO, ZERO, ZERO);
    }
  }

  lemma StagesAddUp(l: Ledger, stages: set<string>)
    requires ClassTotals(PartsOf(l), StageOf(l), l.calls.Keys).Keys <= stages
    ensures SumOver(StageTotals(l, stages), stages) == TotalOf(l, l.calls.Keys)
  {
    hide SumOver, ClassTotals, PartOf;
    var t, m := ClassTotals(PartsOf(l), StageOf(l), l.calls.Keys), StageTotals(l, stages);
    ClassesAddUp(PartsOf(l), StageOf(l), l.calls.Keys);
    SumAgree(m, t, t.Keys);
    ZerosSum(m, stages - t.Keys);
    SumUnion(m, t.Keys, stages - t.Keys);
    assert t.Keys + (stages - t.Keys) == stages;
  }

  // ----- What the pairs are -----

  /** `a` shows the exact totals `t`, none of which overflows. */
  ghost predicate Shows(a: Summaries, t: Parts) {
    a.Keys == t.Keys && forall k :: k in a ==> a[k] == Print(t[k]) && t[k].known <= U64_MAX
  }

  function Between(a: Total, b: Total, eligible: bool): Change {
    if eligible then Difference(a.known, b.known) else INELIGIBLE
  }

  function PairOf(key: string, a: Total, b: Total, eligible: bool): Pair {
    Pair(key, Print(a), Print(b), Between(a, b, eligible))
  }

  function Of(m: Parts, key: string): Total { if key in m then m[key] else ZERO }

  function PairsOf(a: Parts, b: Parts, ks: seq<string>, eligible: bool): seq<Pair> {
    seq(|ks|, j requires 0 <= j < |ks| => PairOf(ks[j], Of(a, ks[j]), Of(b, ks[j]), eligible))
  }

  lemma ChangeIs(a: Total, b: Total, eligible: bool)
    requires a.known <= U64_MAX && b.known <= U64_MAX
    ensures ChangeOf(Print(a), Print(b), eligible) == Ok(Between(a, b, eligible))
  {
    hide Difference, ReportUnits, Decimal;
    UnitsRoundTrip(a.known);
    UnitsRoundTrip(b.known);
  }

  lemma {:induction false} PairUpIs(x: Summaries, y: Summaries, a: Parts, b: Parts, ks: seq<string>, eligible: bool,
                                    i: nat, done: seq<Pair>)
    requires i <= |ks| && Shows(x, a) && Shows(y, b) && forall k | k in ks :: k in a && k in b
    requires done == PairsOf(a, b, ks, eligible)[..i]
    ensures PairUp(x, y, ks, eligible, i, done) == Ok(PairsOf(a, b, ks, eligible))
    decreases |ks| - i
  {
    hide Print, ChangeOf, Between;
    if i < |ks| {
      ChangeIs(a[ks[i]], b[ks[i]], eligible);
      var next := done + [PairOf(ks[i], a[ks[i]], b[ks[i]], eligible)];
      assert next == PairsOf(a, b, ks, eligible)[..i + 1];
      PairUpIs(x, y, a, b, ks, eligible, i + 1, next);
    } else {
      assert PairsOf(a, b, ks, eligible)[..|ks|] == PairsOf(a, b, ks, eligible);
    }
  }

  lemma {:induction false} GroupSummariesAre(totals: Parts, i: nat)
    requires i <= |totals|
    ensures |Groups(totals, map[])| == |totals|
    ensures var m := GroupSummaries(Groups(totals, map[])[..i]);
            && m.Keys == Elements(Sorted(totals.Keys)[..i]) <= totals.Keys
            && forall k :: k in m ==> m[k] == Print(totals[k])
  {
    hide Groups, Print, Sorted;
    var gs, ks := Groups(totals, map[]), Sorted(totals.Keys);
    GroupCount(totals, map[]);
    if i > 0 {
      GroupSummariesAre(totals, i - 1);
      NextKey(totals.Keys, i - 1);
      GroupKeyAt(totals, i - 1);
      assert gs[..i][..i - 1] == gs[..i - 1];
    }
  }

  lemma GroupKeyAt(totals: Parts, i: nat)
    requires i < |totals|
    ensures var k, gs := Sorted(totals.Keys)[i], Groups(totals, map[]);
            |gs| == |totals| && k in totals && gs[i].key == k && gs[i].summary == Print(totals[k])
  {
    hide Print, Sorted;
    SortedMembers(totals.Keys);
  }

  /** What pricing guarantees of an arm's ledger. */
  lemma PricedArm(v: ArmInput, currency: string)
    requires ReadArm(v, currency).Ok?
    ensures var l, arm := ReadLedger(v.costInput).value, ReadArm(v, currency).value;
            && Valid(l) && TotalOf(l, l.calls.Keys).known <= U64_MAX
            && arm.report.summary == Print(TotalOf(l, l.calls.Keys)) && StageOf(l).Keys == l.calls.Keys
            && arm.report.byStage == Groups(ClassTotals(PartsOf(l), StageOf(l), l.calls.Keys), map[])
  {
    hide ReadLedger, Price, Groups, ClassTotals, TotalOf, Print, ReadArm, WellFormed, Valid, Partition;
    ArmIsPartition(v, currency);
    var l := ReadLedger(v.costInput).value;
    ReadIsWellFormed(v.costInput);
    WellFormedIsValid(l);
    PricedReport(l);
  }

  lemma PartOfWhole(l: Ledger, s: set<string>)
    requires s <= l.calls.Keys
    ensures AtMost(TotalOf(l, s), TotalOf(l, l.calls.Keys))
  {
    SumSubset(PartsOf(l), s, l.calls.Keys);
  }

  lemma TaskShows(l: Ledger, t: Task, owned: set<string>)
    requires owned <= l.calls.Keys && TaskOk(l, t, owned)
    ensures t.summary == Print(TotalOf(l, Elements(t.calls) * l.calls.Keys))
  {
    assert Elements(t.calls) * l.calls.Keys == Elements(t.calls);
    hide TotalOf, Print, Sorted, IsMain, Elements;
  }

  lemma DivisionShows(l: Ledger, tasks: map<string, Task>, owned: set<string>)
    requires Division(l, tasks, owned) && TotalOf(l, l.calls.Keys).known <= U64_MAX
    ensures Shows(TaskSummaries(tasks), TaskTotals(l, tasks))
  {
    hide TotalOf, Print, Elements, Divide, TaskOk;
    forall k | k in tasks
      ensures TaskSummaries(tasks)[k] == Print(TaskTotals(l, tasks)[k]) && TaskTotals(l, tasks)[k].known <= U64_MAX
    {
      TaskShows(l, tasks[k], owned);
      PartOfWhole(l, Elements(tasks[k].calls) * l.calls.Keys);
    }
  }

  lemma TasksShow(v: ArmInput, currency: string)
    requires ReadArm(v, currency).Ok?
    ensures var l, arm := ReadLedger(v.costInput).value, ReadArm(v, currency).value;
            Shows(TaskSummaries(arm.tasks), TaskTotals(l, arm.tasks))
  {
    hide ReadLedger, Price, ReadArm, TotalOf, Print, Sorted, Elements, Division, Shows, IsMain;
    ArmIsPartition(v, currency);
    PricedArm(v, currency);
    var l, arm := ReadLedger(v.costInput).value, ReadArm(v, currency).value;
    DivisionShows(l, arm.tasks, l.calls.Keys - Elements(arm.shared));
  }

  lemma StageBound(l: Ledger, k: string)
    requires Valid(l) && StageOf(l).Keys == l.calls.Keys && TotalOf(l, l.calls.Keys).known <= U64_MAX
    requires k in ClassTotals(PartsOf(l), StageOf(l), l.calls.Keys)
    ensures AtMost(ClassTotals(PartsOf(l), StageOf(l), l.calls.Keys)[k], TotalOf(l, l.calls.Keys))
  {
    hide SumOver, PartOf;
    PartOfWhole(l, InClass(StageOf(l), l.calls.Keys, k));
  }

  lemma StagesShow(v: ArmInput, currency: string, stages: set<string>)
    requires ReadArm(v, currency).Ok?
    requires GroupSummaries(ReadArm(v, currency).value.report.byStage).Keys <= stages
    ensures var l, arm := ReadLedger(v.costInput).value, ReadArm(v, currency).value;
            && Shows(Widen(GroupSummaries(arm.report.byStage), stages), StageTotals(l, stages))
            && ClassTotals(PartsOf(l), StageOf(l), l.calls.Keys).Keys <= stages
  {
    hide ReadLedger, Price, ReadArm, TotalOf, Print, ClassTotals, Groups, GroupSummaries, PartsOf, StageOf;
    hide Widen, Shows;
    hide StageTotals;
    PricedArm(v, currency);
    ArmIsPartition(v, currency);
    hide Partition;
    var l := ReadLedger(v.costInput).value;
    StageClasses(l);
    StagesShown(l, stages);
  }

  lemma StagesShown(l: Ledger, stages: set<string>)
    requires Valid(l) && StageOf(l).Keys == l.calls.Keys && TotalOf(l, l.calls.Keys).known <= U64_MAX
    requires var t := ClassTotals(PartsOf(l), StageOf(l), l.calls.Keys); GroupSummaries(Groups(t, map[])).Keys <= stages
    ensures var t := ClassTotals(PartsOf(l), StageOf(l), l.calls.Keys);
            Shows(Widen(GroupSummaries(Groups(t, map[])), stages), StageTotals(l, stages)) && t.Keys <= stages
  {
    hide TotalOf, Print, Sorted, ClassTotals, Groups, GroupSummaries, Elements, PartsOf, StageOf;
    StageClasses(l);
    var t := ClassTotals(PartsOf(l), StageOf(l), l.calls.Keys);
    GroupSummariesAre(t, |t|);
    AllKeys(t.Keys);
    assert Groups(t, map[])[..|t|] == Groups(t, map[]);
    forall k | k in t ensures t[k].known <= U64_MAX {
      StageBound(l, k);
    }
  }

  lemma StageClasses(l: Ledger)
    ensures StageOf(l).Keys == l.calls.Keys == PartsOf(l).Keys
  {
  }

  // ----- The comparison, spelled out -----

  ghost predicate ExplainsTasks(c: Comparison, la: Ledger, lb: Ledger) {
    var ta, tb := TaskTotals(la, c.baseline.tasks), TaskTotals(lb, c.candidate.tasks);
    && c.baseline.tasks.Keys == c.candidate.tasks.Keys == ta.Keys == tb.Keys
    && c.byTask == PairsOf(ta, tb, Sorted(ta.Keys), c.eligible)
    && c.shared == PairOf("", TotalOf(la, Elements(c.baseline.shared) * la.calls.Keys),
                          TotalOf(lb, Elements(c.candidate.shared) * lb.calls.Keys), c.eligible)
  }

  ghost predicate ExplainsStages(c: Comparison, la: Ledger, lb: Ledger) {
    var stages := Stages(c.baseline, c.candidate);
    && ClassTotals(PartsOf(la), StageOf(la), la.calls.Keys).Keys <= stages
    && ClassTotals(PartsOf(lb), StageOf(lb), lb.calls.Keys).Keys <= stages
    && c.byStage == PairsOf(StageTotals(la, stages), StageTotals(lb, stages), Sorted(stages), c.eligible)
  }

  /** The exact totals behind a comparison. */
  ghost predicate Explains(c: Comparison, la: Ledger, lb: Ledger) {
    && Partition(la, c.baseline) && Partition(lb, c.candidate)
    && Valid(la) && Valid(lb)
    && TotalOf(la, la.calls.Keys).known <= U64_MAX && TotalOf(lb, lb.calls.Keys).known <= U64_MAX
    && c.baseline.report.summary == Print(TotalOf(la, la.calls.Keys))
    && c.candidate.report.summary == Print(TotalOf(lb, lb.calls.Keys))
    && c.change == Between(TotalOf(la, la.calls.Keys), TotalOf(lb, lb.calls.Keys), c.eligible)
    && ExplainsTasks(c, la, lb) && ExplainsStages(c, la, lb)
  }

  lemma SameKeys(a: map<string, Task>, b: map<string, Task>)
    requires a.Keys <= b.Keys && |a| == |b|
    ensures a.Keys == b.Keys
  {
    SameSizeSubset(a.Keys, b.Keys);
  }

  lemma TaskPairsAre(a: Arm, b: Arm, la: Ledger, lb: Ledger, eligible: bool)
    requires a.tasks.Keys == b.tasks.Keys
    requires Shows(TaskSummaries(a.tasks), TaskTotals(la, a.tasks)) &&
             Shows(TaskSummaries(b.tasks), TaskTotals(lb, b.tasks))
    ensures var ta, tb := TaskTotals(la, a.tasks), TaskTotals(lb, b.tasks);
            && ta.Keys == tb.Keys == a.tasks.Keys
            && TaskPairs(a, b, eligible) == Ok(PairsOf(ta, tb, Sorted(ta.Keys), eligible))
  {
    hide TotalOf, Print, Sorted, Elements, TaskSummaries, Shows, PairUp;
    var ta, tb := TaskTotals(la, a.tasks), TaskTotals(lb, b.tasks);
    assert ta.Keys == a.tasks.Keys && tb.Keys == b.tasks.Keys;
    SortedMembers(a.tasks.Keys);
    TaskKeys(a.tasks);
    TaskKeys(b.tasks);
    assert PairsOf(ta, tb, Sorted(ta.Keys), eligible)[..0] == [];
    PairUpIs(TaskSummaries(a.tasks), TaskSummaries(b.tasks), ta, tb, Sorted(ta.Keys), eligible, 0, []);
  }

  lemma StagePairsAre(a: Arm, b: Arm, la: Ledger, lb: Ledger, eligible: bool)
    requires var ks := Stages(a, b);
             && Shows(Widen(GroupSummaries(a.report.byStage), ks), StageTotals(la, ks))
             && Shows(Widen(GroupSummaries(b.report.byStage), ks), StageTotals(lb, ks))
    ensures var ks := Stages(a, b);
            var sa, sb := StageTotals(la, ks), StageTotals(lb, ks);
            StagePairs(a, b, eligible) == Ok(PairsOf(sa, sb, Sorted(ks), eligible))
  {
    var ks := Stages(a, b);
    hide TotalOf, Print, Sorted, Elements, Shows, PairUp, ClassTotals, Stages, GroupSummaries, PartsOf;
    var sa, sb := StageTotals(la, ks), StageTotals(lb, ks);
    assert sa.Keys == ks && sb.Keys == ks;
    SortedMembers(ks);
    WidenKeys(GroupSummaries(a.report.byStage), ks);
    WidenKeys(GroupSummaries(b.report.byStage), ks);
    hide Widen, StageTotals;
    assert PairsOf(sa, sb, Sorted(ks), eligible)[..0] == [];
    PairUpIs(Widen(GroupSummaries(a.report.byStage), ks), Widen(GroupSummaries(b.report.byStage), ks), sa, sb,
             Sorted(ks), eligible, 0, []);
  }

  /** The ledgers of the two arms. */
  function Baseline(root: CompareInput): Ledger
    requires ReadLedger(root.baseline.costInput).Ok?
  {
    ReadLedger(root.baseline.costInput).value
  }

  function Candidate(root: CompareInput): Ledger
    requires ReadLedger(root.candidate.costInput).Ok?
  {
    ReadLedger(root.candidate.costInput).value
  }

  lemma SharedShows(l: Ledger, arm: Arm)
    requires Partition(l, arm) && TotalOf(l, l.calls.Keys).known <= U64_MAX
    ensures var t := TotalOf(l, Elements(arm.shared) * l.calls.Keys);
            arm.sharedSummary == Print(t) && t.known <= U64_MAX
  {
    assert Elements(arm.shared) * l.calls.Keys == Elements(arm.shared);
    hide TotalOf, Print, Sorted, IsMain, Elements, Division;
    PartOfWhole(l, Elements(arm.shared));
  }

  lemma ArmsRead(root: CompareInput)
    requires Compare(root).Ok?
    ensures var c := Compare(root).value;
            && ReadArm(root.baseline, root.currency) == Ok(c.baseline)
            && ReadArm(root.candidate, root.currency) == Ok(c.candidate)
            && Conclude(root, c.baseline, c.candidate) == Ok(c)
            && ReadLedger(root.baseline.costInput).Ok? && ReadLedger(root.candidate.costInput).Ok?
  {
    hide ReadArm, ReadLedger, Price, Paired, TaskPairs, StagePairs, ChangeOf, Id, Partition;
    ArmIsPartition(root.baseline, root.currency);
    ArmIsPartition(root.candidate, root.currency);
  }

  lemma ConcludeIs(root: CompareInput, a: Arm, b: Arm)
    requires Conclude(root, a, b).Ok?
    ensures var c := Conclude(root, a, b).value;
            && c.baseline == a && c.candidate == b && c.reasons == Reasons(a, b) && c.eligible == (Reasons(a, b) == [])
            && a.tasks.Keys <= b.tasks.Keys && |a.tasks| == |b.tasks|
            && TaskPairs(a, b, c.eligible) == Ok(c.byTask) && StagePairs(a, b, c.eligible) == Ok(c.byStage)
            && ChangeOf(a.report.summary, b.report.summary, c.eligible) == Ok(c.change)
            && c.comparisonId == root.comparisonId && c.currency == root.currency
            && c.sameModel == SameModel(a.primary, b.primary) && c.samePrices == SamePrices(a.primary, b.primary)
            && c.shared.key == "" && c.shared.baseline == a.sharedSummary && c.shared.candidate == b.sharedSummary
            && ChangeOf(a.sharedSummary, b.sharedSummary, c.eligible) == Ok(c.shared.change)
  {
    hide TaskPairs, StagePairs, ChangeOf, Reasons, MatchTasks, SameModel, SamePrices;
  }

  /** An accepted comparison shows exact totals, paired by task and by stage. */
  lemma ComparisonExplained(root: CompareInput)
    requires Compare(root).Ok?
    ensures ReadLedger(root.baseline.costInput).Ok? && ReadLedger(root.candidate.costInput).Ok?
    ensures Explains(Compare(root).value, Baseline(root), Candidate(root))
  {
    hide ReadArm, ReadLedger, Price, Partition, Compare, Conclude, TotalOf, Print, Sorted, ChangeOf;
    hide TaskPairs, StagePairs, Reasons;
    hide Shows, PairsOf, TaskTotals, StageTotals, ClassTotals, TaskSummaries, Widen, GroupSummaries, Elements;
    hide Between, PartsOf;
    ArmsRead(root);
    var c := Compare(root).value;
    var a, b, la, lb := c.baseline, c.candidate, Baseline(root), Candidate(root);
    ConcludeIs(root, a, b);
    ArmIsPartition(root.baseline, root.currency);
    ArmIsPartition(root.candidate, root.currency);
    PricedArm(root.baseline, root.currency);
    PricedArm(root.candidate, root.currency);
    SameKeys(a.tasks, b.tasks);
    TasksShow(root.baseline, root.currency);
    TasksShow(root.candidate, root.currency);
    TaskPairsAre(a, b, la, lb, c.eligible);
    StagesShow(root.baseline, root.currency, Stages(a, b));
    StagesShow(root.candidate, root.currency, Stages(a, b));
    StagePairsAre(a, b, la, lb, c.eligible);
    SharedShows(la, a);
    SharedShows(lb, b);
    ChangeIs(TotalOf(la, la.calls.Keys), TotalOf(lb, lb.calls.Keys), c.eligible);
    ChangeIs(TotalOf(la, Elements(a.shared) * la.calls.Keys), TotalOf(lb, Elements(b.shared) * lb.calls.Keys),
             c.eligible);
  }
}
