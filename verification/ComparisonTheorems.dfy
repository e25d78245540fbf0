/** What a reader may rely on in a comparison: deltas add up, are never partial, and
    change sign when the arms are swapped. */
module ComparisonTheorems {
  import opened Wrappers
  import opened Decimals
  import opened Ordered
  import opened Totals
  import opened TokenCost
  import opened CostReports
  import opened Changes
  import opened CostComparison
  import opened ComparisonLaws
  import opened Telescoping

  function DeltaSum(pairs: seq<Pair>): int {
    if pairs == [] then 0 else DeltaSum(pairs[..|pairs| - 1]) + Delta(pairs[|pairs| - 1].change)
  }

  lemma EligibleDelta(a: Total, b: Total)
    ensures DeltaOf(Between(a, b, true)) == Some(b.known - a.known)
    ensures Between(a, b, true).delta.Some? && IsSignedMoney(Between(a, b, true).delta.value, b.known - a.known)
  {
    hide Difference, SignedAmount, IsSignedMoney;
    DifferenceIsExact(a.known, b.known);
  }

  ghost predicate AllFit(t: Parts) { forall k :: k in t ==> t[k].known <= U64_MAX }

  lemma {:induction false} PairsTelescope(a: Parts, b: Parts, i: nat)
    requires a.Keys == b.Keys && AllFit(a) && AllFit(b) && i <= |a.Keys|
    ensures var ks := Sorted(a.Keys);
            && Elements(ks[..i]) <= a.Keys
            && DeltaSum(PairsOf(a, b, ks, true)[..i]) ==
                 SumOver(b, Elements(ks[..i])).known - SumOver(a, Elements(ks[..i])).known
  {
    hide Print, Between, DeltaOf, IsSignedMoney, Sorted, Elements, SumOver, Total.Plus;
    var ks := Sorted(a.Keys);
    var pairs := PairsOf(a, b, ks, true);
    AllKeys(a.Keys);
    if i == 0 {
      SumEmpty(a);
      SumEmpty(b);
      assert pairs[..0] == [];
    } else {
      PairsTelescope(a, b, i - 1);
      NextKey(a.Keys, i - 1);
      var k := ks[i - 1];
      EligibleDelta(a[k], b[k]);
      SumInsert(a, Elements(ks[..i - 1]), k);
      SumInsert(b, Elements(ks[..i - 1]), k);
      PlusKnown(SumOver(a, Elements(ks[..i - 1])), a[k]);
      PlusKnown(SumOver(b, Elements(ks[..i - 1])), b[k]);
      assert pairs[..i][..i - 1] == pairs[..i - 1];
    }
  }

  lemma PlusKnown(x: Total, y: Total)
    ensures x.Plus(y).known == x.known + y.known
  {
  }

  lemma PairsAddUp(a: Parts, b: Parts)
    requires a.Keys == b.Keys && AllFit(a) && AllFit(b)
    ensures DeltaSum(PairsOf(a, b, Sorted(a.Keys), true)) == SumOver(b, b.Keys).known - SumOver(a, a.Keys).known
  {
    hide PairsOf, Sorted, Elements, SumOver, DeltaSum;
    PairsTelescope(a, b, |a.Keys|);
    AllKeys(a.Keys);
    PairCount(a, b, Sorted(a.Keys));
    assert PairsOf(a, b, Sorted(a.Keys), true)[..|a.Keys|] == PairsOf(a, b, Sorted(a.Keys), true);
  }

  lemma PairCount(a: Parts, b: Parts, ks: seq<string>)
    ensures |PairsOf(a, b, ks, true)| == |ks|
  {
  }

  lemma TaskTotalsFit(l: Ledger, tasks: map<string, Task>)
    requires TotalOf(l, l.calls.Keys).known <= U64_MAX
    ensures AllFit(TaskTotals(l, tasks))
    ensures TotalOf(l, l.calls.Keys).missing == 0 ==> forall k :: k in tasks ==> TaskTotals(l, tasks)[k].missing == 0
  {
    hide TotalOf, Elements;
    forall k | k in tasks
      ensures TaskTotals(l, tasks)[k].known <= U64_MAX
      ensures TotalOf(l, l.calls.Keys).missing == 0 ==> TaskTotals(l, tasks)[k].missing == 0
    {
      PartOfWhole(l, Elements(tasks[k].calls) * l.calls.Keys);
    }
  }

  lemma StageTotalsFit(l: Ledger, stages: set<string>)
    requires Valid(l) && TotalOf(l, l.calls.Keys).known <= U64_MAX
    ensures AllFit(StageTotals(l, stages))
    ensures TotalOf(l, l.calls.Keys).missing == 0 ==> forall k :: k in stages ==> StageTotals(l, stages)[k].missing == 0
  {
    hide TotalOf, ClassTotals, PartsOf, StageOf, Valid;
    StageClasses(l);
    var t := ClassTotals(PartsOf(l), StageOf(l), l.calls.Keys);
    forall k | k in stages
      ensures StageTotals(l, stages)[k].known <= U64_MAX
      ensures TotalOf(l, l.calls.Keys).missing == 0 ==> StageTotals(l, stages)[k].missing == 0
    {
      if k in t {
        StageBound(l, k);
      }
    }
  }

  lemma StageKeys(l: Ledger, stages: set<string>)
    ensures StageTotals(l, stages).Keys == stages
  {
    hide ClassTotals;
  }

  /** When a comparison is eligible, task deltas and the shared delta add up to the
      total delta, and so do the stage deltas; the total delta is the exact difference
      of the two ledgers. */
  lemma DeltasTelescope(root: CompareInput)
    requires Compare(root).Ok? && Compare(root).value.eligible
    ensures var c := Compare(root).value;
            && DeltaSum(c.byTask) + Delta(c.shared.change) == Delta(c.change) == DeltaSum(c.byStage)
            && ReadLedger(root.baseline.costInput).Ok? && ReadLedger(root.candidate.costInput).Ok?
            && var la, lb := Baseline(root), Candidate(root);
            var exact := TotalOf(lb, lb.calls.Keys).known - TotalOf(la, la.calls.Keys).known;
            Delta(c.change) == exact && c.change.delta.Some? && IsSignedMoney(c.change.delta.value, exact)
  {
    hide Compare, Partition, Valid, TotalOf, Print, PairsOf, TaskTotals, StageTotals, Sorted, ClassTotals, Elements;
    hide Between, DeltaOf, DeltaSum, Stages, Total.Plus, IsSignedMoney, SumOver, AllFit, PartsOf, StageOf, ReadLedger;
    ComparisonExplained(root);
    var c, la, lb := Compare(root).value, Baseline(root), Candidate(root);
    TasksDelta(c, la, lb);
    StagesDelta(c, la, lb);
    EligibleDelta(TotalOf(la, la.calls.Keys), TotalOf(lb, lb.calls.Keys));
  }

  lemma TasksDelta(c: Comparison, la: Ledger, lb: Ledger)
    requires Explains(c, la, lb) && c.eligible
    ensures DeltaSum(c.byTask) + Delta(c.shared.change) ==
              TotalOf(lb, lb.calls.Keys).known - TotalOf(la, la.calls.Keys).known
  {
    hide Partition, Valid, TotalOf, Print, PairsOf, TaskTotals, Sorted, Elements;
    hide Between, DeltaOf, DeltaSum, Total.Plus, IsSignedMoney, SumOver, AllFit, ExplainsStages;
    var ta, tb := TaskTotals(la, c.baseline.tasks), TaskTotals(lb, c.candidate.tasks);
    TaskTotalsFit(la, c.baseline.tasks);
    TaskTotalsFit(lb, c.candidate.tasks);
    PairsAddUp(ta, tb);
    TasksAddUp(la, c.baseline);
    TasksAddUp(lb, c.candidate);
    SharedTotal(la, c.baseline);
    SharedTotal(lb, c.candidate);
    var ra, rb := TotalOf(la, Elements(c.baseline.shared)), TotalOf(lb, Elements(c.candidate.shared));
    EligibleDelta(ra, rb);
    PlusKnown(SumOver(ta, ta.Keys), ra);
    PlusKnown(SumOver(tb, tb.Keys), rb);
  }

  lemma SharedTotal(l: Ledger, arm: Arm)
    requires Partition(l, arm) && TotalOf(l, l.calls.Keys).known <= U64_MAX
    ensures Elements(arm.shared) <= l.calls.Keys && Elements(arm.shared) * l.calls.Keys == Elements(arm.shared)
    ensures var t := TotalOf(l, Elements(arm.shared));
            t.known <= U64_MAX && (TotalOf(l, l.calls.Keys).missing == 0 ==> t.missing == 0)
  {
    hide TotalOf, Print, Sorted, Elements, Division, IsMain;
    PartOfWhole(l, Elements(arm.shared));
  }

  lemma StagesDelta(c: Comparison, la: Ledger, lb: Ledger)
    requires Explains(c, la, lb) && c.eligible
    ensures DeltaSum(c.byStage) == TotalOf(lb, lb.calls.Keys).known - TotalOf(la, la.calls.Keys).known
  {
    hide Partition, Valid, TotalOf, Print, PairsOf, StageTotals, Sorted, Elements, ClassTotals, Stages;
    hide PartsOf, StageOf;
    hide Between, DeltaOf, DeltaSum, IsSignedMoney, SumOver, AllFit, ExplainsTasks;
    var stages := Stages(c.baseline, c.candidate);
    StageTotalsFit(la, stages);
    StageTotalsFit(lb, stages);
    StageKeys(la, stages);
    StageKeys(lb, stages);
    PairsAddUp(StageTotals(la, stages), StageTotals(lb, stages));
    StagesAddUp(la, stages);
    StagesAddUp(lb, stages);
  }

  // ----- No partial comparison -----

  ghost predicate CompletePair(p: Pair) {
    && p.baseline.complete && p.baseline.unknownComponents == 0
    && p.candidate.complete && p.candidate.unknownComponents == 0
    && DeltaOf(p.change).Some? && p.change.unavailable.None?
  }

  lemma CompleteOf(key: string, a: Total, b: Total)
    requires a.missing == 0 && b.missing == 0
    ensures CompletePair(PairOf(key, a, b, true))
  {
    DifferenceIsExact(a.known, b.known);
    hide Decimal, RatioOf, Difference, SignedAmount;
  }

  lemma CompletePairs(a: Parts, b: Parts, ks: seq<string>)
    requires forall k :: k in a ==> a[k].missing == 0
    requires forall k :: k in b ==> b[k].missing == 0
    ensures forall p | p in PairsOf(a, b, ks, true) :: CompletePair(p)
  {
    hide CompletePair, PairOf;
    forall j | 0 <= j < |ks| ensures CompletePair(PairsOf(a, b, ks, true)[j]) {
      CompleteOf(ks[j], Of(a, ks[j]), Of(b, ks[j]));
    }
  }

  lemma PairsIneligible(a: Parts, b: Parts, ks: seq<string>)
    ensures forall p | p in PairsOf(a, b, ks, false) :: p.change == INELIGIBLE
  {
    hide Print;
  }

  lemma CompleteMeans(t: Total)
    ensures Print(t).complete <==> t.missing == 0
  {
    hide Decimal;
  }

  /** An eligible comparison has no unknown component in any task, stage or shared
      summary of either arm, and an ineligible one has no delta at any level. */
  lemma AllOrNothing(root: CompareInput)
    requires Compare(root).Ok?
    ensures var c := Compare(root).value;
            && (c.eligible ==> forall p | p in c.byTask + c.byStage + [c.shared] :: CompletePair(p))
            && (!c.eligible ==> c.change == INELIGIBLE
                                && forall p | p in c.byTask + c.byStage + [c.shared] :: p.change == INELIGIBLE)
  {
    hide Compare, ReadLedger, Conclude, Reasons, CompletePair, Explains;
    ComparisonExplained(root);
    ArmsRead(root);
    var c := Compare(root).value;
    ConcludeIs(root, c.baseline, c.candidate);
    if c.eligible {
      CompleteWhenEligible(c.baseline, c.candidate);
      EligibleIsComplete(c, Baseline(root), Candidate(root));
    } else {
      IneligibleIsSilent(c, Baseline(root), Candidate(root));
    }
  }

  lemma CompleteWhenEligible(a: Arm, b: Arm)
    requires Reasons(a, b) == []
    ensures a.report.summary.complete && b.report.summary.complete
  {
  }

  lemma EligibleIsComplete(c: Comparison, la: Ledger, lb: Ledger)
    requires Explains(c, la, lb) && c.eligible
    requires c.baseline.report.summary.complete && c.candidate.report.summary.complete
    ensures forall p | p in c.byTask + c.byStage + [c.shared] :: CompletePair(p)
  {
    hide Partition, Valid, TotalOf, Print, PairsOf, TaskTotals, StageTotals, Sorted, Elements, ClassTotals;
    hide Stages, PartsOf, StageOf;
    hide PairOf, AllFit, CompletePair;
    CompleteMeans(TotalOf(la, la.calls.Keys));
    CompleteMeans(TotalOf(lb, lb.calls.Keys));
    var ta, tb := TaskTotals(la, c.baseline.tasks), TaskTotals(lb, c.candidate.tasks);
    TaskTotalsFit(la, c.baseline.tasks);
    TaskTotalsFit(lb, c.candidate.tasks);
    CompletePairs(ta, tb, Sorted(ta.Keys));
    var stages := Stages(c.baseline, c.candidate);
    StageTotalsFit(la, stages);
    StageTotalsFit(lb, stages);
    StageKeys(la, stages);
    StageKeys(lb, stages);
    CompletePairs(StageTotals(la, stages), StageTotals(lb, stages), Sorted(stages));
    SharedTotal(la, c.baseline);
    SharedTotal(lb, c.candidate);
    CompleteOf("", TotalOf(la, Elements(c.baseline.shared)), TotalOf(lb, Elements(c.candidate.shared)));
  }

  lemma IneligibleIsSilent(c: Comparison, la: Ledger, lb: Ledger)
    requires Explains(c, la, lb) && !c.eligible
    ensures c.change == INELIGIBLE && forall p | p in c.byTask + c.byStage + [c.shared] :: p.change == INELIGIBLE
  {
    hide Partition, Valid, TotalOf, Print, PairsOf, TaskTotals, StageTotals, Sorted, Elements, ClassTotals;
    hide Stages, PartsOf, StageOf;
    var ta, tb := TaskTotals(la, c.baseline.tasks), TaskTotals(lb, c.candidate.tasks);
    PairsIneligible(ta, tb, Sorted(ta.Keys));
    var stages := Stages(c.baseline, c.candidate);
    PairsIneligible(StageTotals(la, stages), StageTotals(lb, stages), Sorted(stages));
  }

  // ----- Swapping the arms -----

  function Swapped(root: CompareInput): CompareInput {
    root.(baseline := root.candidate, candidate := root.baseline)
  }

  /** Both changes show a difference, each the negative of the other, or neither does. */
  predicate Opposed(c: Change, d: Change) {
    (DeltaOf(c).Some? <==> DeltaOf(d).Some?) && Delta(d) == -Delta(c)
  }

  /** `q` is `p` the other way round. */
  ghost predicate Mirrored(p: Pair, q: Pair) {
    && p.key == q.key && p.baseline == q.candidate && p.candidate == q.baseline
    && Opposed(p.change, q.change)
  }

  ghost predicate AllMirrored(ps: seq<Pair>, qs: seq<Pair>) {
    |ps| == |qs| && forall j :: 0 <= j < |ps| ==> Mirrored(ps[j], qs[j])
  }

  lemma MirrorDelta(a: Total, b: Total, eligible: bool)
    requires a.known <= U64_MAX && b.known <= U64_MAX
    ensures Opposed(Between(a, b, eligible), Between(b, a, eligible))
  {
    if eligible {
      EligibleDelta(a, b);
      EligibleDelta(b, a);
    }
    hide Difference;
  }

  lemma MirrorPairs(a: Parts, b: Parts, ks: seq<string>, eligible: bool)
    requires AllFit(a) && AllFit(b)
    ensures AllMirrored(PairsOf(a, b, ks, eligible), PairsOf(b, a, ks, eligible))
  {
    hide Print, Between, Opposed;
    forall j | 0 <= j < |ks| ensures Mirrored(PairsOf(a, b, ks, eligible)[j], PairsOf(b, a, ks, eligible)[j]) {
      MirrorDelta(Of(a, ks[j]), Of(b, ks[j]), eligible);
    }
  }

  lemma ReasonsSymmetric(a: Arm, b: Arm)
    ensures Reasons(b, a) == Reasons(a, b)
  {
  }

  lemma StagesSymmetric(a: Arm, b: Arm)
    ensures Stages(a, b) == Stages(b, a)
  {
    hide GroupSummaries;
  }

  lemma PairedSymmetric(a: Arm, b: Arm)
    requires Paired(a, b).Ok?
    ensures Paired(b, a).Ok?
  {
    hide Sorted, MatchTasks;
    MatchedTasks(a.tasks, b.tasks);
    MatchedTasks(b.tasks, a.tasks);
    SameKeys(a.tasks, b.tasks);
  }

  lemma SwapPairs(a: Arm, b: Arm, la: Ledger, lb: Ledger, eligible: bool)
    requires a.tasks.Keys == b.tasks.Keys
    requires Shows(TaskSummaries(a.tasks), TaskTotals(la, a.tasks)) &&
             Shows(TaskSummaries(b.tasks), TaskTotals(lb, b.tasks))
    requires var ks := Stages(a, b);
             && Shows(Widen(GroupSummaries(a.report.byStage), ks), StageTotals(la, ks))
             && Shows(Widen(GroupSummaries(b.report.byStage), ks), StageTotals(lb, ks))
    ensures TaskPairs(a, b, eligible).Ok? && TaskPairs(b, a, eligible).Ok?
    ensures AllMirrored(TaskPairs(a, b, eligible).value, TaskPairs(b, a, eligible).value)
    ensures StagePairs(a, b, eligible).Ok? && StagePairs(b, a, eligible).Ok?
    ensures AllMirrored(StagePairs(a, b, eligible).value, StagePairs(b, a, eligible).value)
  {
    var ks := Stages(a, b);
    var ta, tb, sa, sb := TaskTotals(la, a.tasks), TaskTotals(lb, b.tasks), StageTotals(la, ks), StageTotals(lb, ks);
    ShowsFit(TaskSummaries(a.tasks), ta);
    ShowsFit(TaskSummaries(b.tasks), tb);
    ShowsFit(Widen(GroupSummaries(a.report.byStage), ks), sa);
    ShowsFit(Widen(GroupSummaries(b.report.byStage), ks), sb);
    hide TaskPairs, StagePairs, Stages, Shows, TaskSummaries, TaskTotals, Widen, GroupSummaries, StageTotals;
    hide Sorted, PairsOf;
    hide AllMirrored, AllFit;
    StagesSymmetric(a, b);
    TaskPairsAre(a, b, la, lb, eligible);
    TaskPairsAre(b, a, lb, la, eligible);
    StagePairsAre(a, b, la, lb, eligible);
    StagePairsAre(b, a, lb, la, eligible);
    MirrorPairs(ta, tb, Sorted(ta.Keys), eligible);
    MirrorPairs(sa, sb, Sorted(ks), eligible);
  }

  lemma ShowsFit(x: Summaries, t: Parts)
    requires Shows(x, t)
    ensures AllFit(t)
  {
    hide Print;
  }

  lemma SwapChange(a: Total, b: Total, eligible: bool)
    requires a.known <= U64_MAX && b.known <= U64_MAX
    ensures ChangeOf(Print(a), Print(b), eligible).Ok? && ChangeOf(Print(b), Print(a), eligible).Ok?
    ensures Opposed(ChangeOf(Print(a), Print(b), eligible).value, ChangeOf(Print(b), Print(a), eligible).value)
  {
    hide ChangeOf, Print, Between, Opposed;
    ChangeIs(a, b, eligible);
    ChangeIs(b, a, eligible);
    MirrorDelta(a, b, eligible);
  }

  /** Two read arms conclude the same either way round, with every delta negated. */
  lemma SwapConcludes(root: CompareInput, a: Arm, b: Arm, la: Ledger, lb: Ledger)
    requires Conclude(root, a, b).Ok? && a.tasks.Keys == b.tasks.Keys
    requires Shows(TaskSummaries(a.tasks), TaskTotals(la, a.tasks)) &&
             Shows(TaskSummaries(b.tasks), TaskTotals(lb, b.tasks))
    requires var ks := Stages(a, b);
             && Shows(Widen(GroupSummaries(a.report.byStage), ks), StageTotals(la, ks))
             && Shows(Widen(GroupSummaries(b.report.byStage), ks), StageTotals(lb, ks))
    requires Partition(la, a) && TotalOf(la, la.calls.Keys).known <= U64_MAX &&
             a.report.summary == Print(TotalOf(la, la.calls.Keys))
    requires Partition(lb, b) && TotalOf(lb, lb.calls.Keys).known <= U64_MAX &&
             b.report.summary == Print(TotalOf(lb, lb.calls.Keys))
    ensures Conclude(Swapped(root), b, a).Ok?
    ensures var c, d := Conclude(root, a, b).value, Conclude(Swapped(root), b, a).value;
            && d.eligible == c.eligible && d.reasons == c.reasons
            && Opposed(c.change, d.change)
            && AllMirrored(c.byTask, d.byTask) && AllMirrored(c.byStage, d.byStage) && Mirrored(c.shared, d.shared)
  {
    hide TaskPairs, StagePairs, ChangeOf, Reasons, Paired, Partition, TotalOf, Print, SameModel, SamePrices;
    hide Opposed, AllMirrored;
    hide Shows, Stages, TaskTotals, StageTotals, TaskSummaries, Widen, GroupSummaries;
    var eligible := Reasons(a, b) == [];
    PairedSymmetric(a, b);
    ReasonsSymmetric(a, b);
    SwapPairs(a, b, la, lb, eligible);
    SharedShows(la, a);
    SharedShows(lb, b);
    SwapChange(TotalOf(la, la.calls.Keys), TotalOf(lb, lb.calls.Keys), eligible);
    SwapChange(TotalOf(la, Elements(a.shared) * la.calls.Keys), TotalOf(lb, Elements(b.shared) * lb.calls.Keys),
               eligible);
  }

  /** Swapping the arms of an accepted comparison is accepted, with the same verdict and
      reasons, the summaries exchanged, and every delta at every level negated. */
  lemma SwapNegates(root: CompareInput)
    requires Compare(root).Ok?
    ensures Compare(Swapped(root)).Ok?
    ensures var c, d := Compare(root).value, Compare(Swapped(root)).value;
            && d.eligible == c.eligible && d.reasons == c.reasons
            && Opposed(c.change, d.change)
            && AllMirrored(c.byTask, d.byTask) && AllMirrored(c.byStage, d.byStage) && Mirrored(c.shared, d.shared)
  {
    hide ReadArm, ReadLedger, Price, Conclude, TotalOf, Print, Partition, Valid, Opposed, AllMirrored, Mirrored, Id;
    hide Shows, Stages, TaskTotals, StageTotals, TaskSummaries, Widen, GroupSummaries, PairsOf, ClassTotals;
    hide Elements, Between;
    ComparisonExplained(root);
    ArmsRead(root);
    var c := Compare(root).value;
    var a, b := c.baseline, c.candidate;
    TasksShow(root.baseline, root.currency);
    TasksShow(root.candidate, root.currency);
    StagesCover(a, b);
    StagesShow(root.baseline, root.currency, Stages(a, b));
    StagesShow(root.candidate, root.currency, Stages(a, b));
    SwapConcludes(root, a, b, Baseline(root), Candidate(root));
  }

  lemma StagesCover(a: Arm, b: Arm)
    ensures GroupSummaries(a.report.byStage).Keys <= Stages(a, b)
    ensures GroupSummaries(b.report.byStage).Keys <= Stages(a, b)
  {
    hide GroupSummaries;
  }

  lemma PairedKeys(a: Arm, b: Arm)
    requires Paired(a, b).Ok?
    ensures a.tasks.Keys == b.tasks.Keys
  {
    hide Sorted, MatchTasks;
    SameKeys(a.tasks, b.tasks);
  }

  /** Two read arms are compared exactly when they pair up: reading printed amounts back
      and pricing parts of the ledgers never fails. */
  lemma ComparedIffPaired(root: CompareInput)
    requires ReadArm(root.baseline, root.currency).Ok? && ReadArm(root.candidate, root.currency).Ok?
    ensures var a, b := ReadArm(root.baseline, root.currency).value, ReadArm(root.candidate, root.currency).value;
            Conclude(root, a, b).Ok? <==> Paired(a, b).Ok?
  {
    hide ReadArm, ReadLedger, Price, Paired, Partition, TotalOf, Print, ChangeOf, TaskPairs, StagePairs;
    hide Reasons, Stages, Shows;
    hide TaskTotals, StageTotals, TaskSummaries, Widen, GroupSummaries, Elements, SameModel, SamePrices;
    hide PairsOf, ClassTotals;
    var a, b := ReadArm(root.baseline, root.currency).value, ReadArm(root.candidate, root.currency).value;
    if Paired(a, b).Ok? {
      PairedKeys(a, b);
      ArmIsPartition(root.baseline, root.currency);
      ArmIsPartition(root.candidate, root.currency);
      PricedArm(root.baseline, root.currency);
      PricedArm(root.candidate, root.currency);
      TasksShow(root.baseline, root.currency);
      TasksShow(root.candidate, root.currency);
      StagesCover(a, b);
      StagesShow(root.baseline, root.currency, Stages(a, b));
      StagesShow(root.candidate, root.currency, Stages(a, b));
      var la, lb, eligible := Baseline(root), Candidate(root), Reasons(a, b) == [];
      SwapPairs(a, b, la, lb, eligible);
      SharedShows(la, a);
      SharedShows(lb, b);
      SwapChange(TotalOf(la, la.calls.Keys), TotalOf(lb, lb.calls.Keys), eligible);
      SwapChange(TotalOf(la, Elements(a.shared) * la.calls.Keys), TotalOf(lb, Elements(b.shared) * lb.calls.Keys),
                 eligible);
    }
  }
}
