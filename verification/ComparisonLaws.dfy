/** What a comparison promises: ownership is a partition, deltas telescope, nothing is
    compared in part, and swapping the arms negates every delta. */
module ComparisonLaws {
  import opened Wrappers
  import opened ProviderUsage
  import opened Decimals
  import opened Ordered
  import opened Totals
  import opened TokenCost
  import opened CostReports
  import opened Changes
  import opened CostComparison

  // ----- Pricing a part of a priced ledger -----

  function Restrict(l: Ledger, s: set<string>): Ledger {
    Ledger(l.currency, l.rates, map k | k in l.calls && k in s :: l.calls[k])
  }

  lemma {:induction false} CollectIs(calls: seq<CallInput>, i: nat, m: CallMap)
    requires i <= |calls|
    requires forall j, k :: i <= j < k < |calls| ==> calls[j].callId != calls[k].callId
    requires forall j :: i <= j < |calls| ==> calls[j].callId !in m
    ensures var out := CollectCalls(calls, i, m);
            && (forall k :: k in m ==> k in out && out[k] == m[k])
            && (forall j :: i <= j < |calls| ==> calls[j].callId in out && out[calls[j].callId] == calls[j])
            && (forall k :: k in out ==> k in m || exists j :: i <= j < |calls| && calls[j].callId == k)
    decreases |calls| - i
  {
    if i < |calls| {
      var next := m[calls[i].callId := calls[i]];
      CollectIs(calls, i + 1, next);
      assert calls[i].callId in next;
    }
  }

  lemma GatheredIs(input: CostInput)
    requires ReadLedger(input).Ok?
    ensures var m, l := CollectCalls(input.calls, 0, map[]), ReadLedger(input).value;
            m.Keys == l.calls.Keys && forall k :: k in m ==> m[k].callId == k && ReadCall(m[k]) == Ok(l.calls[k])
  {
    hide ReadLedger, ReadCall, CollectCalls;
    var m, l, cs := CollectCalls(input.calls, 0, map[]), ReadLedger(input).value, input.calls;
    CallsRead(input);
    CollectIs(cs, 0, map[]);
    forall k | k in l.calls ensures k in m {
      assert k in Elements(Ids(cs));
      var j :| 0 <= j < |cs| && Ids(cs)[j] == k;
      assert cs[j].callId == k;
    }
  }

  lemma SubsetCalls(input: CostInput, l: Ledger, s: set<string>)
    requires ReadLedger(input) == Ok(l) && s <= l.calls.Keys
    ensures var calls := CollectCalls(input.calls, 0, map[]);
            && (forall k | k in Sorted(s) :: k in calls)
            && ReadCalls(SubsetInput(input, calls, Sorted(s)).calls) == Ok(Restrict(l, s).calls)
            && |SubsetInput(input, calls, Sorted(s)).calls| == |s|
  {
    hide ReadLedger, ReadCall, CollectCalls, Sorted, ReadAll;
    var calls := CollectCalls(input.calls, 0, map[]);
    GatheredIs(input);
    SortedMembers(s);
    var ks, m := Sorted(s), Restrict(l, s).calls;
    var cs := SubsetInput(input, calls, ks).calls;
    forall j | 0 <= j < |cs|
      ensures CallKey(cs[j]) == ks[j] && ks[j] in m && ReadCall(cs[j]) == Ok(m[ks[j]])
    {
      KeyAt(s, j);
    }
    forall j, k | 0 <= j < k < |cs| ensures CallKey(cs[j]) != CallKey(cs[k]) {
      SortedOrder(s, j, k);
    }
    forall k | k in m ensures exists j :: 0 <= j < |cs| && CallKey(cs[j]) == k {
      var j :| 0 <= j < |ks| && ks[j] == k;
      assert CallKey(cs[j]) == k;
    }
    ReadsAs(cs, CallKey, ReadCall, "cost_duplicate_call", m);
  }

  lemma SubsetReads(input: CostInput, l: Ledger, s: set<string>)
    requires ReadLedger(input) == Ok(l) && s <= l.calls.Keys
    ensures var calls := CollectCalls(input.calls, 0, map[]);
            && (forall k | k in Sorted(s) :: k in calls)
            && ReadLedger(SubsetInput(input, calls, Sorted(s))) == Ok(Restrict(l, s))
  {
    SubsetCalls(input, l, s);
    ReadHead(input, l);
    SizeBound(s, l.calls.Keys);
    hide ReadLedger, ReadRates, ReadCalls, CollectCalls, Sorted, Currency;
    ReadsWhole(SubsetInput(input, CollectCalls(input.calls, 0, map[]), Sorted(s)), Restrict(l, s));
  }

  lemma ReadHead(input: CostInput, l: Ledger)
    requires ReadLedger(input) == Ok(l)
    ensures input.schema == SCHEMA && input.currency == l.currency && Currency(l.currency)
    ensures |input.rates| <= RATE_LIMIT && |l.calls| <= CALL_LIMIT && ReadRates(input.rates) == Ok(l.rates)
  {
    hide ReadRates, ReadCalls, Currency, GoodCall;
    CallsAreGood(input.calls);
  }

  lemma RestrictTotal(l: Ledger, s: set<string>)
    requires s <= l.calls.Keys
    ensures Restrict(l, s).calls.Keys == s && TotalOf(Restrict(l, s), s) == TotalOf(l, s)
  {
    hide SumOver, PartOf;
    SumAgree(PartsOf(l), PartsOf(Restrict(l, s)), s);
  }

  lemma PriceSummary(l: Ledger)
    ensures Price(l).Ok? <==> TotalOf(l, l.calls.Keys).known <= U64_MAX
    ensures Price(l).Ok? ==> Price(l).value.summary == Print(TotalOf(l, l.calls.Keys))
  {
    hide SumOver, Canonical, Groups, ClassTotals, Rows, Print, PartOf;
  }

  /** Once a whole ledger has been priced, pricing any part of it cannot overflow, and
      gives the exact totals of that part. */
  lemma SubsetNeverOverflows(input: CostInput, s: set<string>)
    requires ReportOf(input).Ok? && s <= ReadLedger(input).value.calls.Keys
    ensures var l, calls := ReadLedger(input).value, CollectCalls(input.calls, 0, map[]);
            && (forall k | k in Sorted(s) :: k in calls)
            && SubsetSummary(input, calls, Sorted(s)) == Ok(Print(TotalOf(l, s)))
            && TotalOf(l, s).known <= U64_MAX
  {
    hide ReadLedger, Price, CollectCalls, Sorted, Restrict, TotalOf, Print;
    var l := ReadLedger(input).value;
    SubsetReads(input, l, s);
    RestrictTotal(l, s);
    MoneyGrows(l, s);
    PriceSummary(l);
    PriceSummary(Restrict(l, s));
  }

  // ----- Ownership is a partition -----

  ghost predicate Takeable(calls: CallMap, ids: seq<string>, shared: bool, i: nat, owned: set<string>) {
    && (forall j :: i <= j < |ids| ==> Id(ids[j]).Pass? && ids[j] in calls && ids[j] !in owned)
    && (forall j, k :: i <= j < k < |ids| ==> ids[j] != ids[k])
    && (shared ==> forall j :: i <= j < |ids| ==> ids[j] in calls && calls[ids[j]].stage != MAIN)
  }

  lemma {:induction false} OwnFromIs(calls: CallMap, ids: seq<string>, shared: bool, i: nat, owned: set<string>,
                                     mainSeen: bool)
    requires i <= |ids|
    ensures OwnFrom(calls, ids, shared, i, owned, mainSeen).Ok? <==> Takeable(calls, ids, shared, i, owned)
    ensures OwnFrom(calls, ids, shared, i, owned, mainSeen).Ok? ==>
              var r := OwnFrom(calls, ids, shared, i, owned, mainSeen).value;
              && r.0 == owned + Elements(ids[i..])
              && (r.1 <==> mainSeen || exists j :: i <= j < |ids| && ids[j] in calls && calls[ids[j]].stage == MAIN)
    decreases |ids| - i
  {
    hide Id;
    if i < |ids| {
      assert ids[i..] == [ids[i]] + ids[i + 1..];
      if Id(ids[i]).Pass? && ids[i] in calls && ids[i] !in owned && !(shared && calls[ids[i]].stage == MAIN) {
        OwnFromIs(calls, ids, shared, i + 1, owned + {ids[i]}, mainSeen || calls[ids[i]].stage == MAIN);
      }
    }
  }

  ghost predicate HasMain(calls: CallMap, s: set<string>) {
    exists k :: k in s && k in calls && calls[k].stage == MAIN
  }

  lemma OwnCallsIs(calls: CallMap, ids: seq<string>, shared: bool, owned: set<string>)
    requires OwnCalls(calls, ids, shared, owned).Ok?
    ensures var r, s := OwnCalls(calls, ids, shared, owned).value, Elements(ids);
            && s <= calls.Keys && s !! owned && r.owned == owned + s && r.calls == Sorted(s)
            && (shared <==> !HasMain(calls, s))
  {
    hide Sorted, Id;
    OwnFromIs(calls, ids, shared, 0, owned, false);
    assert ids[0..] == ids;
    if !shared {
      var j :| 0 <= j < |ids| && ids[j] in calls && calls[ids[j]].stage == MAIN;
      assert ids[j] in Elements(ids);
    }
  }

  type CallSets = map<string, set<string>>

  /** The calls of each task. */
  function CallsIn(tasks: map<string, Task>): CallSets {
    map k | k in tasks :: Elements(tasks[k].calls)
  }

  /** The sets divide `all`: no element is in two of them, and each is in one. */
  ghost predicate Divide(sets: CallSets, all: set<string>) {
    && (forall k :: k in sets ==> sets[k] <= all)
    && (forall j, k :: j in sets && k in sets && j != k ==> sets[j] !! sets[k])
    && (forall c :: c in all ==> exists k :: k in sets && c in sets[k])
  }

  lemma DivideMore(sets: CallSets, all: set<string>, key: string, s: set<string>)
    requires Divide(sets, all) && key !in sets && s !! all
    ensures Divide(sets[key := s], all + s)
  {
    var after := sets[key := s];
    forall c | c in all + s ensures exists k :: k in after && c in after[k] {
      if c in all {
        var k :| k in sets && c in sets[k];
        assert k in after;
      } else {
        assert key in after;
      }
    }
  }

  /** A task holds calls of `owned` in order, at least one of them a main call, and the
      exact totals of those calls. */
  ghost predicate TaskOk(l: Ledger, t: Task, owned: set<string>)
    requires owned <= l.calls.Keys
  {
    var s := Elements(t.calls);
    s <= owned && t.calls == Sorted(s) && (exists c :: c in s && IsMain(l, c)) && t.summary == Print(TotalOf(l, s))
  }

  ghost predicate Division(l: Ledger, tasks: map<string, Task>, owned: set<string>) {
    owned <= l.calls.Keys && Divide(CallsIn(tasks), owned) && forall k :: k in tasks ==> TaskOk(l, tasks[k], owned)
  }

  lemma StageKept(input: CostInput, k: string)
    requires ReadLedger(input).Ok? && k in CollectCalls(input.calls, 0, map[])
    ensures var l := ReadLedger(input).value;
            k in l.calls && (l.calls[k].stage == MAIN <==> CollectCalls(input.calls, 0, map[])[k].stage == MAIN)
  {
    GatheredIs(input);
    hide ReadLedger, CollectCalls, Id, Tokens;
  }

  lemma MainKept(input: CostInput, s: set<string>)
    requires ReadLedger(input).Ok? && s <= CollectCalls(input.calls, 0, map[]).Keys
    ensures HasMain(CollectCalls(input.calls, 0, map[]), s) <==>
              exists c :: c in s && IsMain(ReadLedger(input).value, c)
  {
    hide ReadLedger, CollectCalls;
    forall k | k in s
      ensures IsMain(ReadLedger(input).value, k) <==> CollectCalls(input.calls, 0, map[])[k].stage == MAIN {
      StageKept(input, k);
    }
  }

  /** Taking calls of a priced input that nobody owns yet. */
  lemma TakenIs(input: CostInput, ids: seq<string>, shared: bool, owned: set<string>)
    requires ReportOf(input).Ok? && OwnCalls(CollectCalls(input.calls, 0, map[]), ids, shared, owned).Ok?
    ensures var l, calls, s := ReadLedger(input).value, CollectCalls(input.calls, 0, map[]), Elements(ids);
            var r := OwnCalls(calls, ids, shared, owned).value;
            && s <= l.calls.Keys && s !! owned && r.owned == owned + s && r.calls == Sorted(s)
            && (shared <==> !exists c :: c in s && IsMain(l, c))
            && SubsetSummary(input, calls, r.calls) == Ok(Print(TotalOf(l, s)))
  {
    hide ReadLedger, Price, CollectCalls, Sorted, TotalOf, Print, HasMain, Elements;
    OwnCallsIs(CollectCalls(input.calls, 0, map[]), ids, shared, owned);
    GatheredIs(input);
    MainKept(input, Elements(ids));
    SubsetNeverOverflows(input, Elements(ids));
  }

  lemma TaskKept(l: Ledger, t: Task, owned: set<string>, more: set<string>)
    requires owned <= more <= l.calls.Keys && TaskOk(l, t, owned)
    ensures TaskOk(l, t, more)
  {
    hide TotalOf, Print, Sorted, IsMain, Elements;
  }

  lemma NewTask(l: Ledger, t: Task, owned: set<string>, s: set<string>)
    requires owned <= l.calls.Keys && s <= l.calls.Keys && Elements(t.calls) == s
    requires t.calls == Sorted(s) && t.summary == Print(TotalOf(l, s)) && exists c :: c in s && IsMain(l, c)
    ensures TaskOk(l, t, owned + s)
  {
    hide TotalOf, Print, Sorted, IsMain, Elements;
  }

  lemma AddTask(l: Ledger, tasks: map<string, Task>, owned: set<string>, key: string, t: Task, s: set<string>)
    requires Division(l, tasks, owned) && key !in tasks && s <= l.calls.Keys && s !! owned
    requires t.calls == Sorted(s) && t.summary == Print(TotalOf(l, s)) && exists c :: c in s && IsMain(l, c)
    ensures Division(l, tasks[key := t], owned + s)
  {
    var after := tasks[key := t];
    hide TaskOk, Elements, Sorted, Divide, TotalOf, Print, IsMain;
    SortedElements(s);
    NewTask(l, t, owned, s);
    DivideMore(CallsIn(tasks), owned, key, s);
    assert CallsIn(after) == CallsIn(tasks)[key := s];
    forall k | k in tasks ensures TaskOk(l, after[k], owned + s) {
      TaskKept(l, tasks[k], owned, owned + s);
    }
  }

  lemma {:induction false} TasksDivide(input: CostInput, ts: seq<TaskInput>, i: nat, owned: set<string>,
                                       tasks: map<string, Task>)
    requires ReportOf(input).Ok? && i <= |ts| && Division(ReadLedger(input).value, tasks, owned)
    requires ReadTasks(input, CollectCalls(input.calls, 0, map[]), ts, i, owned, tasks).Ok?
    ensures var out := ReadTasks(input, CollectCalls(input.calls, 0, map[]), ts, i, owned, tasks).value;
            Division(ReadLedger(input).value, out.1, out.0)
    decreases |ts| - i
  {
    hide Price, ReadLedger, CollectCalls, Division, Id, Fingerprint, OwnCalls, SubsetSummary, Elements;
    hide Sorted, TotalOf, Print;
    if i < |ts| {
      var calls, t := CollectCalls(input.calls, 0, map[]), ts[i];
      TakenIs(input, t.callIds, false, owned);
      var next := ReadTask(input, calls, t, owned, tasks).value;
      AddTask(ReadLedger(input).value, tasks, owned, t.taskId, next.1, Elements(t.callIds));
      TasksDivide(input, ts, i + 1, next.0, tasks[t.taskId := next.1]);
    }
  }

  lemma SameSizeSubset(a: set<string>, b: set<string>)
    requires a <= b && |a| == |b|
    ensures a == b
  {
    assert b == a + (b - a);
  }

  /** Tasks and shared remainder of an arm. */
  ghost predicate Partition(l: Ledger, arm: Arm) {
    var rest := Elements(arm.shared);
    && rest <= l.calls.Keys && Division(l, arm.tasks, l.calls.Keys - rest)
    && arm.shared == Sorted(rest) && arm.sharedSummary == Print(TotalOf(l, rest))
    && !(exists c :: c in rest && IsMain(l, c))
  }

  /** Every call of an accepted arm belongs to exactly one task or to the shared
      remainder; each task holds a main call and the remainder none; and each shows the
      exact totals of its own calls. */
  lemma ArmIsPartition(v: ArmInput, currency: string)
    requires ReadArm(v, currency).Ok?
    ensures var arm := ReadArm(v, currency).value;
            && ReportOf(v.costInput) == Ok(arm.report)
            && arm.armLabel == v.armLabel && arm.conditions == v.conditions && arm.ledgerComplete == v.ledgerComplete
            && var l := ReadLedger(v.costInput).value;
            Partition(l, arm) && arm.primary == PrimaryOf(l, l.calls.Keys) && l.currency == currency
  {
    hide ReadLedger, Price, CollectCalls, Division, Id, Fingerprint, OwnCalls, SubsetSummary, Elements;
    hide Sorted, TotalOf, Print;
    hide ReadTasks, PrimaryOf;
    var input, calls := v.costInput, CollectCalls(v.costInput.calls, 0, map[]);
    var l := ReadLedger(input).value;
    ReadHead(input, l);
    NoTasks(l);
    TasksDivide(input, v.tasks, 0, {}, map[]);
    var own := ReadTasks(input, calls, v.tasks, 0, {}, map[]).value;
    TakenIs(input, v.sharedCallIds, true, own.0);
    var rest := Elements(v.sharedCallIds);
    SortedElements(rest);
    GatheredIs(input);
    DivisionOwns(l, own.1, own.0);
    SameSizeSubset(own.0 + rest, l.calls.Keys);
    assert l.calls.Keys - rest == own.0;
  }

  lemma NoTasks(l: Ledger)
    ensures Division(l, map[], {})
  {
  }

  lemma DivisionOwns(l: Ledger, tasks: map<string, Task>, owned: set<string>)
    requires Division(l, tasks, owned)
    ensures owned <= l.calls.Keys
  {
  }
}
