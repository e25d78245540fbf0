/** Exactly which arms a comparison accepts. */
module ArmAcceptance {
  import opened Wrappers
  import opened Ordered
  import opened TokenCost
  import opened CostReports
  import opened CostComparison
  import opened ComparisonLaws

  ghost predicate Distinct(ids: seq<string>) {
    forall j, k :: 0 <= j < k < |ids| ==> ids[j] != ids[k]
  }

  lemma DistinctParts(a: seq<string>, b: seq<string>)
    ensures Distinct(a + b) <==> Distinct(a) && Distinct(b) && Elements(a) !! Elements(b)
    ensures Elements(a + b) == Elements(a) + Elements(b)
  {
    var ab := a + b;
    assert forall j :: 0 <= j < |b| ==> ab[|a| + j] == b[j];
    if Distinct(ab) {
      forall j, k | 0 <= j < k < |a| ensures a[j] != a[k] {
        assert ab[j] != ab[k];
      }
      forall j, k | 0 <= j < k < |b| ensures b[j] != b[k] {
        assert ab[|a| + j] != ab[|a| + k];
      }
      forall x | x in Elements(a) ensures x !in Elements(b) {
        var j :| 0 <= j < |a| && a[j] == x;
        forall k | 0 <= k < |b| ensures b[k] != a[j] {
          assert ab[|a| + k] == b[k] && ab[j] == a[j];
        }
      }
    }
    if Distinct(a) && Distinct(b) && Elements(a) !! Elements(b) {
      forall j, k | 0 <= j < k < |ab| ensures ab[j] != ab[k] {
        if j < |a| <= k {
          assert ab[j] in Elements(a) && ab[k] in Elements(b);
        }
      }
    }
  }

  /** A list of valid ids of calls in the ledger: with a main call for a task, without
      one for the shared remainder. */
  ghost predicate ListOk(l: Ledger, ids: seq<string>, shared: bool) {
    && |ids| <= 512
    && (forall k :: k in ids ==> IsName(k) && k in l.calls)
    && (shared <==> !exists k :: k in ids && IsMain(l, k))
  }

  ghost predicate TaskInputOk(l: Ledger, t: TaskInput) {
    IsName(t.taskId) && IsDigest(t.digest) && ListOk(l, t.callIds, false)
  }

  /** A SHA-256 digest in lower-case hexadecimal. */
  predicate IsDigest(s: string) { |s| == 64 && forall c | c in s :: c in "0123456789abcdef" }

  lemma DigestIs(s: string)
    ensures Fingerprint(s).Pass? <==> IsDigest(s)
  {
  }

  /** The call ids of the tasks from `i` on, as listed. */
  function TaskCalls(ts: seq<TaskInput>, i: nat): seq<string>
    requires i <= |ts|
    decreases |ts| - i
  {
    if i == |ts| then [] else ts[i].callIds + TaskCalls(ts, i + 1)
  }

  lemma OwnCallsIff(input: CostInput, ids: seq<string>, shared: bool, owned: set<string>)
    requires ReadLedger(input).Ok?
    ensures OwnCalls(CollectCalls(input.calls, 0, map[]), ids, shared, owned).Ok? <==>
              ListOk(ReadLedger(input).value, ids, shared) && Distinct(ids) && Elements(ids) !! owned
  {
    hide ReadLedger, CollectCalls, Sorted, Id;
    var calls, l := CollectCalls(input.calls, 0, map[]), ReadLedger(input).value;
    GatheredIs(input);
    forall k | k in calls ensures IsMain(l, k) <==> calls[k].stage == MAIN {
      StageKept(input, k);
    }
    OwnFromIs(calls, ids, shared, 0, owned, false);
    forall k | k in ids ensures Id(k).Pass? <==> IsName(k) {
      NameIs(k);
    }
    hide IsName;
    TakeableIff(calls, l, ids, shared, owned);
  }

  lemma TakeableIff(calls: CallMap, l: Ledger, ids: seq<string>, shared: bool, owned: set<string>)
    requires calls.Keys == l.calls.Keys && forall k :: k in calls ==> (IsMain(l, k) <==> calls[k].stage == MAIN)
    ensures (forall k :: k in ids ==> Id(k).Pass? && k in l.calls) && (shared ==> !exists k :: k in ids && IsMain(l, k))
              && Distinct(ids) && Elements(ids) !! owned
            <==> Takeable(calls, ids, shared, 0, owned)
  {
    hide Id, IsMain;
    if Takeable(calls, ids, shared, 0, owned) {
      forall k | k in ids ensures Id(k).Pass? && k in l.calls && k !in owned {
        var j :| 0 <= j < |ids| && ids[j] == k;
      }
    } else {
      forall j | 0 <= j < |ids| ensures ids[j] in Elements(ids) {
      }
    }
  }

  /** What the tasks from `i` on need, beside the tasks and calls already taken. */
  ghost predicate TasksOk(l: Ledger, ts: seq<TaskInput>, i: nat, owned: set<string>, tasks: set<string>)
    requires i <= |ts|
  {
    && (forall j :: i <= j < |ts| ==> TaskInputOk(l, ts[j]) && ts[j].taskId !in tasks)
    && (forall j, k :: i <= j < k < |ts| ==> ts[j].taskId != ts[k].taskId)
    && Distinct(TaskCalls(ts, i)) && Elements(TaskCalls(ts, i)) !! owned
  }

  lemma ReadTaskIff(input: CostInput, t: TaskInput, owned: set<string>, tasks: map<string, Task>)
    requires ReportOf(input).Ok?
    ensures var l, r := ReadLedger(input).value, ReadTask(input, CollectCalls(input.calls, 0, map[]), t, owned, tasks);
            && (r.Ok? <==>
                  TaskInputOk(l, t) && t.taskId !in tasks && Distinct(t.callIds) && Elements(t.callIds) !! owned)
            && (r.Ok? ==> r.value.0 == owned + Elements(t.callIds))
  {
    hide ReadLedger, Price, CollectCalls, Id, Fingerprint, ListOk, OwnCalls, SubsetSummary, Elements, IsMain, TotalOf;
    hide IsName, IsDigest;
    NameIs(t.taskId);
    DigestIs(t.digest);
    OwnCallsIff(input, t.callIds, false, owned);
    if OwnCalls(CollectCalls(input.calls, 0, map[]), t.callIds, false, owned).Ok? {
      TakenIs(input, t.callIds, false, owned);
    }
  }

  lemma TasksPeel(l: Ledger, ts: seq<TaskInput>, i: nat, owned: set<string>, tasks: set<string>)
    requires i < |ts|
    ensures var t := ts[i];
            TasksOk(l, ts, i, owned, tasks) <==>
              && TaskInputOk(l, t) && t.taskId !in tasks && Distinct(t.callIds) && Elements(t.callIds) !! owned
              && TasksOk(l, ts, i + 1, owned + Elements(t.callIds), tasks + {t.taskId})
    ensures Elements(TaskCalls(ts, i)) == Elements(ts[i].callIds) + Elements(TaskCalls(ts, i + 1))
  {
    hide TaskInputOk, Elements, Distinct;
    DistinctParts(ts[i].callIds, TaskCalls(ts, i + 1));
  }

  lemma {:induction false} ReadTasksIff(input: CostInput, ts: seq<TaskInput>, i: nat, owned: set<string>,
                                        tasks: map<string, Task>)
    requires ReportOf(input).Ok? && i <= |ts|
    ensures var l, r := ReadLedger(input).value,
              ReadTasks(input, CollectCalls(input.calls, 0, map[]), ts, i, owned, tasks);
            && (r.Ok? <==> TasksOk(l, ts, i, owned, tasks.Keys))
            && (r.Ok? ==> r.value.0 == owned + Elements(TaskCalls(ts, i)))
    decreases |ts| - i
  {
    hide ReadLedger, Price, CollectCalls, ReadTask, TaskInputOk, Elements, TasksOk;
    var l, calls := ReadLedger(input).value, CollectCalls(input.calls, 0, map[]);
    if i == |ts| {
      NoTasksOk(l, ts, owned, tasks.Keys);
    } else {
      ReadTaskIff(input, ts[i], owned, tasks);
      TasksPeel(l, ts, i, owned, tasks.Keys);
      var next := ReadTask(input, calls, ts[i], owned, tasks);
      if next.Ok? {
        var more := tasks[ts[i].taskId := next.value.1];
        assert more.Keys == tasks.Keys + {ts[i].taskId};
        ReadTasksIff(input, ts, i + 1, next.value.0, more);
      }
    }
  }

  lemma NoTasksOk(l: Ledger, ts: seq<TaskInput>, owned: set<string>, tasks: set<string>)
    ensures TasksOk(l, ts, |ts|, owned, tasks) && Elements(TaskCalls(ts, |ts|)) == {}
  {
  }

  /** Valid labels and digests, a ledger that prices in the right currency, distinct
      tasks, and call lists that together name every call exactly once, a main call in
      every task and none in the shared remainder. */
  ghost predicate Acceptable(v: ArmInput, currency: string) {
    && IsName(v.armLabel) && IsDigest(v.conditions)
    && ReportOf(v.costInput).Ok? && v.costInput.currency == currency
    && 1 <= |v.tasks| <= 128
    && (forall j, k :: 0 <= j < k < |v.tasks| ==> v.tasks[j].taskId != v.tasks[k].taskId)
    && var l := ReadLedger(v.costInput).value;
    && (forall j :: 0 <= j < |v.tasks| ==> TaskInputOk(l, v.tasks[j]))
    && ListOk(l, v.sharedCallIds, true)
    && var all := TaskCalls(v.tasks, 0) + v.sharedCallIds;
    Distinct(all) && Elements(all) == l.calls.Keys
  }

  lemma WholeIff(l: Ledger, own: set<string>, rest: set<string>)
    requires own <= l.calls.Keys && rest <= l.calls.Keys
    ensures |own + rest| == |l.calls| <==> own + rest == l.calls.Keys
  {
    assert |l.calls| == |l.calls.Keys|;
    if |own + rest| == |l.calls.Keys| {
      SameSizeSubset(own + rest, l.calls.Keys);
    }
  }

  lemma OwnedInLedger(l: Ledger, ts: seq<TaskInput>, i: nat)
    requires i <= |ts| && forall j :: i <= j < |ts| ==> TaskInputOk(l, ts[j])
    ensures Elements(TaskCalls(ts, i)) <= l.calls.Keys
    decreases |ts| - i
  {
    hide IsName, IsMain, IsDigest;
    if i < |ts| {
      OwnedInLedger(l, ts, i + 1);
    }
  }

  /** The tasks and the shared list are taken, leaving nothing, exactly when they divide the ledger. */
  lemma ListsIff(v: ArmInput)
    requires ReportOf(v.costInput).Ok?
    ensures var input, l := v.costInput, ReadLedger(v.costInput).value;
            var calls := CollectCalls(input.calls, 0, map[]);
            var own := ReadTasks(input, calls, v.tasks, 0, {}, map[]);
            var all := TaskCalls(v.tasks, 0) + v.sharedCallIds;
            (own.Ok? && var rest := OwnCalls(calls, v.sharedCallIds, true, own.value.0);
             rest.Ok? && |rest.value.owned| == |calls|)
            <==>
            && TasksOk(l, v.tasks, 0, {}, {}) && ListOk(l, v.sharedCallIds, true)
            && Distinct(all) && Elements(all) == l.calls.Keys
  {
    hide ReadLedger, Price, CollectCalls, ReadTasks, OwnCalls, TaskInputOk, ListOk, SubsetSummary, TotalOf;
    hide Distinct, Elements, TaskCalls;
    var input, l := v.costInput, ReadLedger(v.costInput).value;
    var tasks, shared := TaskCalls(v.tasks, 0), v.sharedCallIds;
    ReadTasksIff(input, v.tasks, 0, {}, map[]);
    DistinctParts(tasks, shared);
    var own := ReadTasks(input, CollectCalls(input.calls, 0, map[]), v.tasks, 0, {}, map[]);
    if own.Ok? {
      OwnedInLedger(l, v.tasks, 0);
      OwnCallsIff(input, shared, true, own.value.0);
      GatheredIs(input);
      if OwnCalls(CollectCalls(input.calls, 0, map[]), shared, true, own.value.0).Ok? {
        TakenIs(input, shared, true, own.value.0);
        WholeIff(l, Elements(tasks), Elements(shared));
      }
    }
  }

  /** An arm is accepted exactly when it is acceptable: pricing parts of a priced ledger
      never fails, so nothing else can go wrong. */
  lemma ArmAcceptedIff(v: ArmInput, currency: string)
    ensures ReadArm(v, currency).Ok? <==> Acceptable(v, currency)
  {
    hide ReadLedger, Price, CollectCalls, ReadTasks, OwnCalls, TaskInputOk, ListOk, SubsetSummary, TotalOf;
    hide Distinct, Elements;
    hide Id, Fingerprint, PrimaryOf, IsName, IsDigest;
    NameIs(v.armLabel);
    DigestIs(v.conditions);
    if ReportOf(v.costInput).Ok? {
      ListsIff(v);
      var calls := CollectCalls(v.costInput.calls, 0, map[]);
      var own := ReadTasks(v.costInput, calls, v.tasks, 0, {}, map[]);
      if own.Ok? && OwnCalls(calls, v.sharedCallIds, true, own.value.0).Ok? {
        TakenIs(v.costInput, v.sharedCallIds, true, own.value.0);
      }
      TasksAlone(ReadLedger(v.costInput).value, v.tasks, v.sharedCallIds);
    }
  }

  lemma TasksAlone(l: Ledger, ts: seq<TaskInput>, shared: seq<string>)
    ensures Distinct(TaskCalls(ts, 0) + shared) ==>
              (TasksOk(l, ts, 0, {}, {}) <==>
                 && (forall j :: 0 <= j < |ts| ==> TaskInputOk(l, ts[j]))
                 && (forall j, k :: 0 <= j < k < |ts| ==> ts[j].taskId != ts[k].taskId))
  {
    hide Distinct, TaskInputOk, Elements;
    DistinctParts(TaskCalls(ts, 0), shared);
  }
}
