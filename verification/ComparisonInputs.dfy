/** A comparison told over its input alone: which inputs are compared, when the two arms
    are eligible, and which reasons are given when they are not. */
module ComparisonInputs {
  import opened Wrappers
  import Usage = ProviderUsage
  import opened Ordered
  import opened Decimals
  import opened Totals
  import opened TokenCost
  import opened CostReports
  import opened CostComparison
  import opened ComparisonLaws
  import opened ArmAcceptance
  import opened Telescoping
  import opened ComparisonTheorems
  import opened Changes

  // ----- What an arm holds -----

  /** The task as listed, its calls in id order. */
  ghost predicate TaskKept(t: TaskInput, task: Task) {
    task.digest == t.digest && task.calls == Sorted(Elements(t.callIds))
  }

  ghost predicate TasksKept(ts: seq<TaskInput>, i: nat, tasks: map<string, Task>) {
    && (forall j :: i <= j < |ts| ==> ts[j].taskId in tasks && TaskKept(ts[j], tasks[ts[j].taskId]))
  }

  lemma ReadTaskKeeps(input: CostInput, t: TaskInput, owned: set<string>, tasks: map<string, Task>)
    requires ReadTask(input, CollectCalls(input.calls, 0, map[]), t, owned, tasks).Ok?
    ensures t.taskId !in tasks
    ensures TaskKept(t, ReadTask(input, CollectCalls(input.calls, 0, map[]), t, owned, tasks).value.1)
  {
    hide CollectCalls, Sorted, SubsetSummary, OwnFrom, Id, Fingerprint;
  }

  lemma {:induction false} ReadTasksKeep(input: CostInput, ts: seq<TaskInput>, i: nat, owned: set<string>,
                                         tasks: map<string, Task>)
    requires i <= |ts| && ReadTasks(input, CollectCalls(input.calls, 0, map[]), ts, i, owned, tasks).Ok?
    ensures var out := ReadTasks(input, CollectCalls(input.calls, 0, map[]), ts, i, owned, tasks).value.1;
            && TasksKept(ts, i, out)
            && (forall k :: k in tasks ==> k in out && out[k] == tasks[k])
            && (forall k :: k in out ==> k in tasks || exists j :: i <= j < |ts| && ts[j].taskId == k)
    decreases |ts| - i
  {
    hide CollectCalls, ReadTask, TaskKept;
    if i < |ts| {
      var calls := CollectCalls(input.calls, 0, map[]);
      ReadTaskKeeps(input, ts[i], owned, tasks);
      var next := ReadTask(input, calls, ts[i], owned, tasks).value;
      var more := tasks[ts[i].taskId := next.1];
      ReadTasksKeep(input, ts, i + 1, next.0, more);
      assert ts[i].taskId in more;
    }
  }

  /** An accepted arm holds exactly the listed tasks with their digests and calls, and the
      listed shared calls. */
  lemma ArmHolds(v: ArmInput, currency: string)
    requires ReadArm(v, currency).Ok?
    ensures var arm := ReadArm(v, currency).value;
            && TasksKept(v.tasks, 0, arm.tasks) && arm.shared == Sorted(Elements(v.sharedCallIds))
            && (forall k :: k in arm.tasks ==> exists j :: 0 <= j < |v.tasks| && v.tasks[j].taskId == k)
            && v.tasks != []
  {
    hide CollectCalls, ReadTasks, Sorted, SubsetSummary, OwnFrom, Id, Fingerprint, ReadLedger, Price, PrimaryOf;
    hide TasksKept;
    ReadTasksKeep(v.costInput, v.tasks, 0, {}, map[]);
  }

  // ----- Main calls and their cards -----

  /** Every main call of the ledger is carded by this provider and model. */
  ghost predicate OneModel(l: Ledger, model: (string, string)) {
    forall k :: k in l.calls && l.calls[k].stage == "main" ==>
      var id := l.calls[k].rateId; id in l.rates && (l.rates[id].provider, l.rates[id].model) == model
  }

  /** Every main call of the ledger has this very card: provider, model and all four prices. */
  ghost predicate OneCard(l: Ledger, card: Rate) {
    forall k :: k in l.calls && l.calls[k].stage == "main" ==>
      l.calls[k].rateId in l.rates && l.rates[l.calls[k].rateId] == card
  }

  ghost predicate HasMainCall(l: Ledger) { exists k :: k in l.calls && l.calls[k].stage == "main" }

  function PriceText(card: Rate): Usage.Quad<Option<string>> { RateText("", card).perMillion }

  lemma PriceTextsDiffer(a: Rate, b: Rate)
    requires PriceText(a) == PriceText(b)
    ensures a.prices == b.prices
  {
    hide Decimal;
    OnePriceText(a.prices.uncached, b.prices.uncached);
    OnePriceText(a.prices.cacheRead, b.prices.cacheRead);
    OnePriceText(a.prices.cacheWrite, b.prices.cacheWrite);
    OnePriceText(a.prices.output, b.prices.output);
  }

  lemma OnePriceText(a: Usage.Count, b: Usage.Count)
    requires PrintRate(a) == PrintRate(b)
    ensures a == b
  {
    if a.Some? && b.Some? {
      DecimalInjective(a.value, b.value, 6);
    }
    hide Decimal;
  }

  lemma OnlyOne<T>(s: set<T>, x: T)
    requires |s| == 1 && x in s
    ensures s == {x}
  {
    assert |s - {x}| == 0;
  }

  lemma ModelIs(l: Ledger, model: (string, string))
    requires HasMainCall(l)
    ensures var p := PrimaryOf(l, l.calls.Keys); p.known && p.models == {model} <==> OneModel(l, model)
  {
    hide RateText;
    var p := PrimaryOf(l, l.calls.Keys);
    if p.known && p.models == {model} {
      forall k | k in l.calls && l.calls[k].stage == "main"
        ensures l.calls[k].rateId in l.rates && (CardFor(l, k).provider, CardFor(l, k).model) == model
      {
        assert IsMain(l, k);
        assert (CardFor(l, k).provider, CardFor(l, k).model) in p.models;
      }
    }
    if OneModel(l, model) {
      var k :| k in l.calls && l.calls[k].stage == "main";
      assert (CardFor(l, k).provider, CardFor(l, k).model) in p.models;
      assert forall m | m in p.models :: m == model;
    }
  }

  lemma CardIs(l: Ledger, card: Rate)
    requires HasMainCall(l)
    ensures var p := PrimaryOf(l, l.calls.Keys);
            p.known && p.models == {(card.provider, card.model)} && p.prices == {PriceText(card)} <==> OneCard(l, card)
  {
    hide RateText;
    var p := PrimaryOf(l, l.calls.Keys);
    if p.known && p.models == {(card.provider, card.model)} && p.prices == {PriceText(card)} {
      forall k | k in l.calls && l.calls[k].stage == "main"
        ensures l.calls[k].rateId in l.rates && CardFor(l, k) == card
      {
        assert IsMain(l, k);
        assert (CardFor(l, k).provider, CardFor(l, k).model) in p.models;
        assert PriceText(CardFor(l, k)) in p.prices;
        PriceTextsDiffer(CardFor(l, k), card);
      }
    }
    if OneCard(l, card) {
      var k :| k in l.calls && l.calls[k].stage == "main";
      assert IsMain(l, k) && CardFor(l, k) == card;
      assert (CardFor(l, k).provider, CardFor(l, k).model) in p.models && PriceText(CardFor(l, k)) in p.prices;
      assert forall m | m in p.models :: m == (card.provider, card.model);
      assert forall q | q in p.prices :: q == PriceText(card);
    }
  }

  /** A ledger with one model has exactly one; with one schedule, exactly one card. */
  lemma SomeModel(l: Ledger)
    requires HasMainCall(l)
    ensures var p := PrimaryOf(l, l.calls.Keys);
            p.known && |p.models| == 1 <==> exists model :: OneModel(l, model)
  {
    hide RateText;
    var p := PrimaryOf(l, l.calls.Keys);
    if p.known && |p.models| == 1 {
      var model :| model in p.models;
      OnlyOne(p.models, model);
      ModelIs(l, model);
    }
    if model :| OneModel(l, model) {
      ModelIs(l, model);
    }
  }

  lemma SomeCard(l: Ledger)
    requires HasMainCall(l)
    ensures var p := PrimaryOf(l, l.calls.Keys);
            p.known && |p.models| == 1 && |p.prices| == 1 <==> exists card :: OneCard(l, card)
  {
    var p := PrimaryOf(l, l.calls.Keys);
    hide RateText;
    if p.known && |p.models| == 1 && |p.prices| == 1 {
      var k :| k in l.calls && l.calls[k].stage == "main";
      assert IsMain(l, k) && Carded(l, k);
      var card := CardFor(l, k);
      assert (card.provider, card.model) in p.models && PriceText(card) in p.prices;
      OnlyOne(p.models, (card.provider, card.model));
      OnlyOne(p.prices, PriceText(card));
      CardIs(l, card);
    }
    if card :| OneCard(l, card) {
      CardIs(l, card);
    }
  }

  /** The primary tests of two ledgers, in terms of their cards. */
  lemma PrimariesAgree(la: Ledger, lb: Ledger)
    requires HasMainCall(la) && HasMainCall(lb)
    ensures var p, q := PrimaryOf(la, la.calls.Keys), PrimaryOf(lb, lb.calls.Keys);
            && (PrimaryKnown(p, q) <==> (exists m :: OneModel(la, m)) && (exists m :: OneModel(lb, m)))
            && (SameModel(p, q) <==> exists m :: OneModel(la, m) && OneModel(lb, m))
            && (SamePrices(p, q) <==> exists card :: OneCard(la, card) && OneCard(lb, card))
  {
    var p, q := PrimaryOf(la, la.calls.Keys), PrimaryOf(lb, lb.calls.Keys);
    hide PrimaryOf, OneModel, OneCard, PriceText, HasMainCall;
    SomeModel(la);
    SomeModel(lb);
    SomeCard(la);
    SomeCard(lb);
    if SameModel(p, q) {
      var m :| m in p.models;
      OnlyOne(p.models, m);
      ModelIs(la, m);
      ModelIs(lb, m);
    }
    if m :| OneModel(la, m) && OneModel(lb, m) {
      ModelIs(la, m);
      ModelIs(lb, m);
    }
    if SamePrices(p, q) {
      var card :| OneCard(la, card);
      CardIs(la, card);
      CardIs(lb, card);
    }
    if card :| OneCard(la, card) && OneCard(lb, card) {
      CardIs(la, card);
      CardIs(lb, card);
    }
  }

  // ----- Eligibility -----

  /** Every component of every call has a cost. */
  ghost predicate AllPriced(l: Ledger) { forall k :: k in l.calls ==> FullyPriced(l.calls[k], l.rates) }

  lemma ArmIs(v: ArmInput, currency: string)
    requires ReadArm(v, currency).Ok? && ReadLedger(v.costInput).Ok?
    ensures var arm, l := ReadArm(v, currency).value, ReadLedger(v.costInput).value;
            && arm.armLabel == v.armLabel && arm.conditions == v.conditions && arm.ledgerComplete == v.ledgerComplete
            && arm.primary == PrimaryOf(l, l.calls.Keys) && HasMainCall(l)
            && (arm.report.summary.complete <==> AllPriced(l))
  {
    hide ReadArm, ReadLedger, Price, PrimaryOf, TasksKept, FullyPriced, TaskOk, Divide, CallsIn;
    ArmIsPartition(v, currency);
    ArmHolds(v, currency);
    var arm, l := ReadArm(v, currency).value, ReadLedger(v.costInput).value;
    GroupsAreExact(l);
    hide GroupsExact, StageOf, RateIdOf;
    FirstTaskMain(v, l, arm);
  }

  lemma FirstTaskMain(v: ArmInput, l: Ledger, arm: Arm)
    requires Partition(l, arm) && TasksKept(v.tasks, 0, arm.tasks) && v.tasks != []
    ensures HasMainCall(l)
  {
    hide TotalOf, Print, Sorted, Elements, TaskKept, Divide;
    var key := v.tasks[0].taskId;
    assert key in arm.tasks && TaskOk(l, arm.tasks[key], l.calls.Keys - Elements(arm.shared));
    var c :| c in Elements(arm.tasks[key].calls) && IsMain(l, c);
    assert c in l.calls && l.calls[c].stage == "main";
  }

  /** The reasons a comparison gives, over the two inputs: each stands exactly for its own
      condition, and there is no other. */
  ghost predicate Explained(root: CompareInput, la: Ledger, lb: Ledger, reasons: seq<string>) {
    && ("declared_coverage_incomplete" in reasons <==> !root.baseline.ledgerComplete || !root.candidate.ledgerComplete)
    && ("cost_components_unknown" in reasons <==> !AllPriced(la) || !AllPriced(lb))
    && ("primary_model_unknown_or_multiple" in reasons <==>
          !(exists m :: OneModel(la, m)) || !(exists m :: OneModel(lb, m)))
    && ("primary_model_mismatch" in reasons <==>
          && (exists m :: OneModel(la, m)) && (exists m :: OneModel(lb, m))
          && !(exists m :: OneModel(la, m) && OneModel(lb, m)))
    && ("primary_price_schedule_mismatch" in reasons <==>
          && (exists m :: OneModel(la, m) && OneModel(lb, m))
          && !(exists card :: OneCard(la, card) && OneCard(lb, card)))
    && forall r | r in reasons ::
         r in {"declared_coverage_incomplete", "cost_components_unknown", "primary_model_unknown_or_multiple",
               "primary_model_mismatch", "primary_price_schedule_mismatch"}
  }

  /** Both declared complete, nothing unpriced, and one card for all main calls of both. */
  ghost predicate EligibleInput(root: CompareInput, la: Ledger, lb: Ledger) {
    && root.baseline.ledgerComplete && root.candidate.ledgerComplete && AllPriced(la) && AllPriced(lb)
    && exists card :: OneCard(la, card) && OneCard(lb, card)
  }

  lemma ReasonsExplained(root: CompareInput, a: Arm, b: Arm, la: Ledger, lb: Ledger)
    requires HasMainCall(la) && HasMainCall(lb)
    requires a.ledgerComplete == root.baseline.ledgerComplete && b.ledgerComplete == root.candidate.ledgerComplete
    requires a.primary == PrimaryOf(la, la.calls.Keys) && b.primary == PrimaryOf(lb, lb.calls.Keys)
    requires (a.report.summary.complete <==> AllPriced(la)) && (b.report.summary.complete <==> AllPriced(lb))
    ensures Explained(root, la, lb, Reasons(a, b)) && (Reasons(a, b) == [] <==> EligibleInput(root, la, lb))
  {
    PrimariesAgree(la, lb);
    ReasonsAre(a, b);
    hide PrimaryOf, OneModel, OneCard, HasMainCall, AllPriced, Reasons, PrimaryKnown, SameModel, SamePrices;
  }

  lemma ReasonsAre(a: Arm, b: Arm)
    ensures var rs, p, q := Reasons(a, b), a.primary, b.primary;
            var complete := a.report.summary.complete && b.report.summary.complete;
            && ("declared_coverage_incomplete" in rs <==> !(a.ledgerComplete && b.ledgerComplete))
            && ("cost_components_unknown" in rs <==> !complete)
            && ("primary_model_unknown_or_multiple" in rs <==> !PrimaryKnown(p, q))
            && ("primary_model_mismatch" in rs <==> PrimaryKnown(p, q) && !SameModel(p, q))
            && ("primary_price_schedule_mismatch" in rs <==> SameModel(p, q) && !SamePrices(p, q))
            && (rs == [] <==> a.ledgerComplete && b.ledgerComplete && complete && SamePrices(p, q))
            && forall r | r in rs ::
                 r in {"declared_coverage_incomplete", "cost_components_unknown", "primary_model_unknown_or_multiple",
                       "primary_model_mismatch", "primary_price_schedule_mismatch"}
  {
    var p, q := a.primary, b.primary;
    assert SamePrices(p, q) ==> SameModel(p, q) && PrimaryKnown(p, q);
    hide PrimaryKnown, SameModel, SamePrices;
  }

  /** Nothing is ever compared in part.  The arms are eligible exactly when both inputs
      declare their ledgers complete, every component of every call has a cost, and all
      main calls of both share one card; then no task, stage or shared summary has an
      unknown component and every delta is shown.  Otherwise every change at every
      level is withheld, and the reasons say which condition failed. */
  lemma NoPartialComparison(root: CompareInput)
    requires Compare(root).Ok?
    ensures ReadLedger(root.baseline.costInput).Ok? && ReadLedger(root.candidate.costInput).Ok?
    ensures var c, la, lb := Compare(root).value, Baseline(root), Candidate(root);
            && (c.eligible <==> EligibleInput(root, la, lb)) && Explained(root, la, lb, c.reasons)
            && (c.sameModel <==> exists m :: OneModel(la, m) && OneModel(lb, m))
            && (c.samePrices <==> exists card :: OneCard(la, card) && OneCard(lb, card))
            && (c.eligible ==> forall p | p in c.byTask + c.byStage + [c.shared] :: CompletePair(p))
            && (!c.eligible ==> c.change == INELIGIBLE
                                && forall p | p in c.byTask + c.byStage + [c.shared] :: p.change == INELIGIBLE)
  {
    hide Compare, ReadArm, ReadLedger, Conclude, Reasons, CompletePair, PrimaryOf, OneModel, OneCard, AllPriced;
    hide Explained, EligibleInput, PrimaryKnown, SameModel, SamePrices, HasMainCall;
    AllOrNothing(root);
    ArmsRead(root);
    var c, la, lb := Compare(root).value, Baseline(root), Candidate(root);
    ConcludeIs(root, c.baseline, c.candidate);
    ArmIs(root.baseline, root.currency);
    ArmIs(root.candidate, root.currency);
    ReasonsExplained(root, c.baseline, c.candidate, la, lb);
    PrimariesAgree(la, lb);
  }

  // ----- Which inputs are compared -----

  /** The same tasks with the same digests on both sides. */
  ghost predicate SameTasks(ts: seq<TaskInput>, us: seq<TaskInput>) {
    && (forall j :: 0 <= j < |ts| ==> HasTask(us, ts[j].taskId, ts[j].digest))
    && (forall j :: 0 <= j < |us| ==> HasTask(ts, us[j].taskId, us[j].digest))
  }

  ghost predicate HasTask(ts: seq<TaskInput>, id: string, digest: string) {
    exists j :: 0 <= j < |ts| && ts[j].taskId == id && ts[j].digest == digest
  }

  /** Two arms under different labels, on the same conditions and the same tasks. */
  ghost predicate Comparable(a: ArmInput, b: ArmInput) {
    a.armLabel != b.armLabel && a.conditions == b.conditions && SameTasks(a.tasks, b.tasks)
  }

  lemma PairedIs(a: Arm, b: Arm)
    ensures Paired(a, b).Ok? <==>
              && a.armLabel != b.armLabel && a.conditions == b.conditions && a.tasks.Keys == b.tasks.Keys
              && forall k :: k in a.tasks && k in b.tasks ==> a.tasks[k].digest == b.tasks[k].digest
  {
    hide Sorted, MatchTasks;
    MatchedTasks(a.tasks, b.tasks);
    if Paired(a, b).Ok? {
      SameKeys(a.tasks, b.tasks);
    }
    if a.tasks.Keys == b.tasks.Keys {
      assert |a.tasks| == |a.tasks.Keys| && |b.tasks| == |b.tasks.Keys|;
    }
  }

  /** `tasks` holds the listed tasks and no others. */
  ghost predicate Lists(ts: seq<TaskInput>, tasks: map<string, Task>) {
    && (forall j :: 0 <= j < |ts| ==> ts[j].taskId in tasks && tasks[ts[j].taskId].digest == ts[j].digest)
    && (forall k :: k in tasks ==> exists j :: 0 <= j < |ts| && ts[j].taskId == k)
  }

  lemma SameTasksIff(ts: seq<TaskInput>, us: seq<TaskInput>, a: map<string, Task>, b: map<string, Task>)
    requires Lists(ts, a) && Lists(us, b)
    ensures SameTasks(ts, us) <==>
              a.Keys == b.Keys && forall k :: k in a && k in b ==> a[k].digest == b[k].digest
  {
    if SameTasks(ts, us) {
      forall k | k in a ensures k in b && a[k].digest == b[k].digest {
        var j :| 0 <= j < |ts| && ts[j].taskId == k;
        assert HasTask(us, ts[j].taskId, ts[j].digest);
      }
      forall k | k in b ensures k in a {
        var j :| 0 <= j < |us| && us[j].taskId == k;
        assert HasTask(ts, us[j].taskId, us[j].digest);
      }
    }
    if a.Keys == b.Keys && forall k :: k in a && k in b ==> a[k].digest == b[k].digest {
      HaveAll(ts, us, a, b);
      HaveAll(us, ts, b, a);
    }
  }

  lemma HaveAll(ts: seq<TaskInput>, us: seq<TaskInput>, a: map<string, Task>, b: map<string, Task>)
    requires Lists(ts, a) && Lists(us, b) && forall k :: k in a ==> k in b && a[k].digest == b[k].digest
    ensures forall j :: 0 <= j < |ts| ==> HasTask(us, ts[j].taskId, ts[j].digest)
  {
    forall j | 0 <= j < |ts| ensures HasTask(us, ts[j].taskId, ts[j].digest) {
      var k := ts[j].taskId;
      assert k in a && k in b;
      var i :| 0 <= i < |us| && us[i].taskId == k;
      assert us[i].digest == ts[j].digest;
    }
  }

  /** An input is compared exactly when both arms are acceptable and comparable: reading
      printed amounts back and forming the changes cannot fail. */
  lemma ComparedIff(root: CompareInput)
    ensures Compare(root).Ok? <==>
              && root.schema == "qbrain-cost-comparison-v1" && IsName(root.comparisonId)
              && Acceptable(root.baseline, root.currency) && Acceptable(root.candidate, root.currency)
              && Comparable(root.baseline, root.candidate)
  {
    hide ReadArm, Conclude, Paired, Acceptable, Id, IsName, SameTasks;
    NameIs(root.comparisonId);
    ArmAcceptedIff(root.baseline, root.currency);
    ArmAcceptedIff(root.candidate, root.currency);
    if ReadArm(root.baseline, root.currency).Ok? && ReadArm(root.candidate, root.currency).Ok? {
      ComparedIffPaired(root);
      PairedIffComparable(root);
    }
  }

  lemma PairedIffComparable(root: CompareInput)
    requires ReadArm(root.baseline, root.currency).Ok? && ReadArm(root.candidate, root.currency).Ok?
    ensures Paired(ReadArm(root.baseline, root.currency).value, ReadArm(root.candidate, root.currency).value).Ok?
            <==> Comparable(root.baseline, root.candidate)
  {
    var a, b := ReadArm(root.baseline, root.currency).value, ReadArm(root.candidate, root.currency).value;
    hide ReadArm, Paired, SameTasks, Lists;
    ArmLists(root.baseline, root.currency);
    ArmLists(root.candidate, root.currency);
    PairedIs(a, b);
    SameTasksIff(root.baseline.tasks, root.candidate.tasks, a.tasks, b.tasks);
  }

  lemma ArmLists(v: ArmInput, currency: string)
    requires ReadArm(v, currency).Ok?
    ensures var arm := ReadArm(v, currency).value;
            Lists(v.tasks, arm.tasks) && arm.armLabel == v.armLabel && arm.conditions == v.conditions
  {
    hide ReadArm, Partition, ReadLedger, Price, PrimaryOf, Sorted, Elements;
    ArmHolds(v, currency);
    ArmIsPartition(v, currency);
  }
}
