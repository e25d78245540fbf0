/** The model-cost bridge imports responses in byte-capped batches and prices the
    collected calls.  The encoded size of a batch is the parameter `size`. */
module Batching {
  import opened Wrappers
  import opened Json
  import opened StreamFields
  import opened ProviderUsage
  import opened Decimals
  import opened Ordered
  import opened TokenCost
  import opened CostReports
  import opened UsageImport

  /** Bytes of an encoded import input with these records. */
  type Size = seq<Record> -> nat

  const NATIVE_CAP: nat := 1048576

  /** What an analysis is run with. */
  datatype Setup = Setup(size: Size, fits: Fits, currency: string, rates: seq<RateInput>)

  // ----- The flush loop -----

  /** The batches still to be flushed: a record that would push a non-empty batch
      over the cap starts a new one. */
  function Plan(size: Size, recs: seq<Record>, i: nat, batch: seq<Record>): seq<seq<Record>>
    requires i <= |recs|
    decreases |recs| - i
  {
    if i == |recs| then if batch == [] then [] else [batch]
    else if batch != [] && size(batch + [recs[i]]) > NATIVE_CAP then [batch] + Plan(size, recs, i + 1, [recs[i]])
    else Plan(size, recs, i + 1, batch + [recs[i]])
  }

  ghost function Flush(s: Setup, batch: seq<Record>, calls: seq<CallInput>): Result<seq<CallInput>> {
    var fits := s.size(batch) <= NATIVE_CAP;
    :- Need(fits, "model_cost_native_input_limit");
    var imported :- Import(s.fits, ImportInput(IMPORT_SCHEMA, s.currency, s.rates, batch));
    Ok(calls + imported.costInput.calls)
  }

  ghost function FlushAll(s: Setup, batches: seq<seq<Record>>, calls: seq<CallInput>): Result<seq<CallInput>> {
    if batches == [] then Ok(calls) else
    var more :- Flush(s, batches[0], calls);
    FlushAll(s, batches[1..], more)
  }

  /** Inserts a call after every call whose id is not above its own. */
  function Insert(c: CallInput, sorted: seq<CallInput>): seq<CallInput> {
    if sorted == [] then [c]
    else if Below(sorted[0].callId, c.callId) then [sorted[0]] + Insert(c, sorted[1..])
    else [c] + sorted
  }

  /** The calls by id; equal ids keep their order. */
  function SortById(calls: seq<CallInput>): seq<CallInput> {
    if calls == [] then [] else Insert(calls[|calls| - 1], SortById(calls[..|calls| - 1]))
  }

  /** One arm's ledger, priced. */
  datatype Analysis = Analysis(costInput: CostInput, report: Report)

  ghost function Analyze(s: Setup, recs: seq<Record>): Result<Analysis> {
    var calls :- FlushAll(s, Plan(s.size, recs, 0, []), []);
    var input := CostInput(SCHEMA, s.currency, s.rates, SortById(calls));
    var report :- ReportOf(input);
    Ok(Analysis(input, report))
  }

  method FlushBatch(s: Setup, batch: seq<Record>, calls: seq<CallInput>) returns (r: Result<seq<CallInput>>)
    ensures r == if batch == [] then Ok(calls) else Flush(s, batch, calls)
  {
    hide Import;
    if batch == [] {
      return Ok(calls);
    }
    :- Need(s.size(batch) <= NATIVE_CAP, "model_cost_native_input_limit");
    var imported :- ImportReport(s.fits, ImportInput(IMPORT_SCHEMA, s.currency, s.rates, batch));
    r := Ok(calls + imported.costInput.calls);
  }

  /** Groups one arm's records into batches, imports each batch as it fills, and
      prices the sorted calls. */
  method AnalyzeArm(s: Setup, recs: seq<Record>) returns (r: Result<Analysis>)
    ensures r == Analyze(s, recs)
  {
    hide Flush, ReportOf, SortById;
    var calls: seq<CallInput>, batch: seq<Record> := [], [];
    for i := 0 to |recs|
      invariant FlushAll(s, Plan(s.size, recs, i, batch), calls) == FlushAll(s, Plan(s.size, recs, 0, []), [])
    {
      ghost var rest := if batch != [] && s.size(batch + [recs[i]]) > NATIVE_CAP
        then Plan(s.size, recs, i + 1, [recs[i]]) else [];
      assert ([batch] + rest)[1..] == rest;
      if batch != [] && s.size(batch + [recs[i]]) > NATIVE_CAP {
        calls :- FlushBatch(s, batch, calls);
        batch := [];
      }
      assert [] + [recs[i]] == [recs[i]];
      batch := batch + [recs[i]];
    }
    assert [batch][1..] == [];
    calls :- FlushBatch(s, batch, calls);
    var input := CostInput(SCHEMA, s.currency, s.rates, SortById(calls));
    var report :- MakeReport(input);
    r := Ok(Analysis(input, report));
  }

  // ----- The plan is a partition, within the cap -----

  function Flat(batches: seq<seq<Record>>): seq<Record> {
    if batches == [] then [] else batches[0] + Flat(batches[1..])
  }

  /** Only a batch of one record may exceed the cap, and a batch ends only where the
      next record no longer fits. */
  ghost predicate Packed(size: Size, batches: seq<seq<Record>>) {
    && (forall b :: 0 <= b < |batches| ==> batches[b] != [] && (|batches[b]| > 1 ==> size(batches[b]) <= 1_048_576))
    && (forall a, b :: 0 <= a < |batches| && b == a + 1 && b < |batches| ==>
        size(batches[a] + batches[b][..1]) > 1_048_576)
  }

  lemma {:induction false} PlanGathers(size: Size, recs: seq<Record>, i: nat, batch: seq<Record>)
    requires i <= |recs| && (|batch| > 1 ==> size(batch) <= NATIVE_CAP)
    ensures Flat(Plan(size, recs, i, batch)) == batch + recs[i..] && Packed(size, Plan(size, recs, i, batch))
    ensures batch != [] ==> Plan(size, recs, i, batch) != [] && Plan(size, recs, i, batch)[0][..1] == batch[..1]
    decreases |recs| - i
  {
    hide Packed;
    if i == |recs| {
      assert recs[i..] == [];
      assert batch != [] ==> [batch][1..] == [];
      PackedLast(size, batch);
    } else {
      assert recs[i..] == [recs[i]] + recs[i + 1..];
      if batch != [] && size(batch + [recs[i]]) > NATIVE_CAP {
        PlanGathers(size, recs, i + 1, [recs[i]]);
        var rest := Plan(size, recs, i + 1, [recs[i]]);
        assert ([batch] + rest)[1..] == rest;
        assert [recs[i]][..1] == [recs[i]];
        PackOne(size, batch, rest);
      } else {
        PlanGathers(size, recs, i + 1, batch + [recs[i]]);
        assert batch != [] ==> (batch + [recs[i]])[..1] == batch[..1];
        assert batch + [recs[i]] + recs[i + 1..] == batch + recs[i..];
      }
    }
  }

  lemma PackedLast(size: Size, batch: seq<Record>)
    requires |batch| > 1 ==> size(batch) <= NATIVE_CAP
    ensures Packed(size, []) && (batch != [] ==> Packed(size, [batch]))
  {
  }

  lemma PackOne(size: Size, batch: seq<Record>, rest: seq<seq<Record>>)
    requires batch != [] && (|batch| > 1 ==> size(batch) <= NATIVE_CAP)
    requires rest != [] && Packed(size, rest) && size(batch + rest[0][..1]) > NATIVE_CAP
    ensures Packed(size, [batch] + rest)
  {
    var all := [batch] + rest;
    forall a, b | 0 <= a < |all| && b == a + 1 && b < |all| ensures size(all[a] + all[b][..1]) > NATIVE_CAP {
      if a > 0 {
        assert all[a] == rest[a - 1] && all[b] == rest[b - 1];
      }
    }
  }

  /** Batching loses, repeats and reorders nothing, every batch of more than one record
      is within the cap, and no batch could have taken the next record. */
  lemma BatchesPartition(size: Size, recs: seq<Record>)
    ensures Flat(Plan(size, recs, 0, [])) == recs && Packed(size, Plan(size, recs, 0, []))
  {
    PlanGathers(size, recs, 0, []);
    assert recs[0..] == recs;
  }

  // ----- Sorting -----

  lemma {:induction false} InsertKeeps(c: CallInput, sorted: seq<CallInput>)
    ensures multiset(Insert(c, sorted)) == multiset(sorted) + multiset{c}
    decreases |sorted|
  {
    if sorted != [] {
      assert sorted == [sorted[0]] + sorted[1..];
      if Below(sorted[0].callId, c.callId) {
        InsertKeeps(c, sorted[1..]);
      }
    }
  }

  lemma {:induction false} SortKeeps(calls: seq<CallInput>)
    ensures multiset(SortById(calls)) == multiset(calls)
    decreases |calls|
  {
    if calls != [] {
      var n := |calls| - 1;
      SortKeeps(calls[..n]);
      InsertKeeps(calls[n], SortById(calls[..n]));
      assert calls == calls[..n] + [calls[n]];
    }
  }

  ghost predicate InIdOrder(calls: seq<CallInput>) {
    forall i, j :: 0 <= i < j < |calls| ==> Below(calls[i].callId, calls[j].callId)
  }

  lemma {:induction false} InsertOrders(c: CallInput, sorted: seq<CallInput>)
    requires InIdOrder(sorted)
    ensures InIdOrder(Insert(c, sorted))
    ensures forall x | x in Insert(c, sorted) :: x == c || x in sorted
    decreases |sorted|
  {
    hide Below;
    if sorted != [] {
      var out := Insert(c, sorted);
      BelowTotal(sorted[0].callId, c.callId);
      if Below(sorted[0].callId, c.callId) {
        InsertOrders(c, sorted[1..]);
        forall j | 0 < j < |out| ensures Below(out[0].callId, out[j].callId) {
          assert out[j] in Insert(c, sorted[1..]);
        }
      } else {
        forall j | 0 < j < |out| ensures Below(out[0].callId, out[j].callId) {
          if j > 1 {
            BelowTransitive(c.callId, sorted[0].callId, sorted[j - 1].callId);
          }
        }
      }
    }
  }

  lemma {:induction false} SortOrders(calls: seq<CallInput>)
    ensures InIdOrder(SortById(calls))
    decreases |calls|
  {
    hide Insert, Below;
    if calls != [] {
      SortOrders(calls[..|calls| - 1]);
      InsertOrders(calls[|calls| - 1], SortById(calls[..|calls| - 1]));
    }
  }

  /** A strictly increasing sequence of keys is the sorted form of its elements. */
  lemma {:induction false} IncreasingIsSorted(r: seq<string>)
    requires forall i, j :: 0 <= i < j < |r| ==> Below(r[i], r[j]) && r[i] != r[j]
    ensures r == Sorted(Elements(r))
    decreases |r|
  {
    hide Below;
    if r != [] {
      var s, x := Elements(r), r[0];
      BelowTotal(x, x);
      assert x in s && IsLeast(x, s);
      assert IsLeast(Least(s), s);
      LeastUnique(s);
      assert Elements(r[1..]) == s - {x};
      IncreasingIsSorted(r[1..]);
      assert r == [x] + r[1..];
    } else {
      assert Elements(r) == {};
    }
  }

  // ----- When an analysis succeeds -----

  ghost predicate AllMap(fits: Fits, cards: map<string, Rate>, recs: seq<Record>) {
    forall j :: 0 <= j < |recs| ==> MapRecord(fits, cards, recs[j]).Ok?
  }

  ghost predicate BatchOk(s: Setup, cards: map<string, Rate>, batch: seq<Record>) {
    && s.size(batch) <= 1_048_576 && |batch| <= 128
    && Acceptable(s.fits, cards, batch) && ExactCost(CallsOf(s.fits, cards, batch), cards) <= U64_MAX
  }

  ghost predicate DistinctIds(calls: seq<CallInput>) {
    forall j, k :: 0 <= j < k < |calls| ==> calls[j].callId != calls[k].callId
  }

  /** Calls with distinct ids are determined by which calls there are. */
  lemma SameContents(a: seq<CallInput>, b: seq<CallInput>)
    requires DistinctIds(a) && DistinctIds(b) && forall x :: x in a <==> x in b
    ensures multiset(a) == multiset(b)
  {
    forall x ensures multiset(a)[x] == multiset(b)[x] {
      OccursTwice(a, x);
      OccursTwice(b, x);
      assert x in multiset(a) <==> x in a;
      assert x in multiset(b) <==> x in b;
    }
  }

  /** The ordered values of a map keyed by call id: each once, and nothing else. */
  lemma InOrderHolds(m: map<string, CallInput>)
    requires forall k :: k in m ==> m[k].callId == k
    ensures DistinctIds(InOrder(m)) && forall x :: x in InOrder(m) <==> x.callId in m && m[x.callId] == x
  {
    hide InOrder, Sorted;
    var a, ks := InOrder(m), Sorted(m.Keys);
    forall j | 0 <= j < |a| ensures ks[j] in m && a[j] == m[ks[j]] {
      InOrderAt(m, j);
    }
    forall j, k | 0 <= j < k < |a| ensures a[j].callId != a[k].callId {
      SortedOrder(m.Keys, j, k);
    }
    forall k | k in m ensures m[k] in a {
      SortedMembers(m.Keys);
      var i :| 0 <= i < |ks| && ks[i] == k;
      assert a[i] == m[k];
    }
  }

  lemma InOrderContents(fits: Fits, cards: map<string, Rate>, recs: seq<Record>, end: State)
    requires Importable(fits, cards, recs, 0) && Collects(fits, cards, recs, 0, START, end) && Readies(end.calls)
    ensures multiset(InOrder(end.calls)) == multiset(CallsOf(fits, cards, recs))
  {
    hide MapRecord, RefsOf, ReadCall, CallsOf, InOrder, Collects;
    var a, b := InOrder(end.calls), CallsOf(fits, cards, recs);
    CallsMap(fits, cards, recs, end);
    InOrderHolds(end.calls);
    forall x ensures x in a <==> x in b {
      if x in a {
        var j :| 0 <= j < |b| && recs[j].callId == x.callId;
        assert b[j] == x;
      }
    }
    SameContents(a, b);
  }

  lemma ConcludedCalls(fits: Fits, currency: string, rates: seq<RateInput>, recs: seq<Record>)
    requires Conclude(fits, currency, rates, recs).Ok? && |recs| <= RECORD_LIMIT
    ensures var cards, out := ReadLedger(Bare(currency, rates)).value, Conclude(fits, currency, rates, recs).value;
            && Acceptable(fits, cards.rates, recs)
            && var run := Run(fits, cards.rates, recs, 0, START);
            && run.Ok? && out.costInput.calls == InOrder(run.value.calls)
            && multiset(out.costInput.calls) == multiset(CallsOf(fits, cards.rates, recs))
  {
    hide ReadLedger, MapRecord, LedgerOf, Price, ExactCost, AllGood, WellFormed, Run, Canonical, CallsOf;
    hide RefsOf, Collects, InOrder;
    ImportIff(fits, currency, rates, recs);
    var cards := ReadLedger(Bare(currency, rates)).value;
    var run := Run(fits, cards.rates, recs, 0, START);
    RunIff(fits, cards.rates, recs, 0, START);
    CollectedReady(fits, cards.rates, recs, run.value);
    InOrderContents(fits, cards.rates, recs, run.value);
  }

  lemma FlushIs(s: Setup, cards: Ledger, batch: seq<Record>, calls: seq<CallInput>)
    requires ReadLedger(Bare(s.currency, s.rates)) == Ok(cards)
    ensures Flush(s, batch, calls).Ok? <==> BatchOk(s, cards.rates, batch)
    ensures Flush(s, batch, calls).Ok? ==>
              multiset(Flush(s, batch, calls).value) == multiset(calls) + multiset(CallsOf(s.fits, cards.rates, batch))
  {
    hide ReadLedger, MapRecord, Conclude, AllGood, RefsOf, ExactCost, CallsOf;
    if |batch| <= RECORD_LIMIT {
      ImportIff(s.fits, s.currency, s.rates, batch);
      var out := Conclude(s.fits, s.currency, s.rates, batch);
      if out.Ok? {
        ConcludedCalls(s.fits, s.currency, s.rates, batch);
        assert multiset(calls + out.value.costInput.calls) == multiset(calls) + multiset(out.value.costInput.calls);
      }
    }
  }

  lemma FlatMaps(s: Setup, cards: map<string, Rate>, batches: seq<seq<Record>>)
    requires forall b :: 0 <= b < |batches| ==> BatchOk(s, cards, batches[b])
    ensures AllMap(s.fits, cards, Flat(batches))
  {
    hide MapRecord, AllGood, RefsOf, ExactCost, CallsOf;
    if batches != [] {
      FlatMaps(s, cards, batches[1..]);
    }
  }

  lemma {:induction false} FlushAllIs(s: Setup, cards: Ledger, batches: seq<seq<Record>>, calls: seq<CallInput>)
    requires ReadLedger(Bare(s.currency, s.rates)) == Ok(cards)
    ensures FlushAll(s, batches, calls).Ok? <==> forall b :: 0 <= b < |batches| ==> BatchOk(s, cards.rates, batches[b])
    ensures FlushAll(s, batches, calls).Ok? ==>
              && AllMap(s.fits, cards.rates, Flat(batches))
              && multiset(FlushAll(s, batches, calls).value)
                 == multiset(calls) + multiset(CallsOf(s.fits, cards.rates, Flat(batches)))
    decreases |batches|
  {
    hide ReadLedger, BatchOk, Flush, MapRecord;
    if batches == [] {
      assert CallsOf(s.fits, cards.rates, []) == [];
    } else {
      var first, rest := batches[0], batches[1..];
      FlushIs(s, cards, first, calls);
      if Flush(s, first, calls).Ok? {
        FlushAllIs(s, cards, rest, Flush(s, first, calls).value);
        if FlushAll(s, batches, calls).Ok? {
          FlatMaps(s, cards.rates, batches);
          BatchMaps(s, cards.rates, first);
          var a, b := CallsOf(s.fits, cards.rates, first), CallsOf(s.fits, cards.rates, Flat(rest));
          assert CallsOf(s.fits, cards.rates, first + Flat(rest)) == a + b;
          assert multiset(a + b) == multiset(a) + multiset(b);
        }
      }
    }
  }

  lemma BatchMaps(s: Setup, cards: map<string, Rate>, batch: seq<Record>)
    requires BatchOk(s, cards, batch)
    ensures AllMap(s.fits, cards, batch)
  {
    hide MapRecord, AllGood, RefsOf, ExactCost;
  }

  /** The mapped calls as they came, beside the rate cards as given. */
  function Unsorted(s: Setup, cards: map<string, Rate>, recs: seq<Record>): CostInput
    requires forall j | 0 <= j < |recs| :: MapRecord(s.fits, cards, recs[j]).Ok?
  {
    CostInput(SCHEMA, s.currency, s.rates, CallsOf(s.fits, cards, recs))
  }

  ghost predicate IdsDistinct(recs: seq<Record>) {
    forall j, k :: 0 <= j < k < |recs| ==> recs[j].callId != recs[k].callId
  }

  lemma CallAt(s: Setup, cards: map<string, Rate>, recs: seq<Record>, j: nat)
    requires AllMap(s.fits, cards, recs) && j < |recs|
    ensures var c := CallsOf(s.fits, cards, recs)[j];
            c.callId == recs[j].callId && (ReadCall(c).Ok? <==> GoodLabels(recs[j]))
  {
    hide MapRecord, ReadCall, GoodLabels;
    MappedReads(s.fits, cards, recs[j]);
  }

  lemma UnsortedCalls(s: Setup, cards: map<string, Rate>, recs: seq<Record>)
    requires AllMap(s.fits, cards, recs)
    ensures ReadCalls(CallsOf(s.fits, cards, recs)).Ok? <==> AllGood(recs) && IdsDistinct(recs)
  {
    hide MapRecord, ReadCall, ReadAll, CallsOf, GoodLabels;
    var cs := CallsOf(s.fits, cards, recs);
    ReadAllIs(cs, CallKey, ReadCall, "cost_duplicate_call", 0, map[]);
    assert |cs| == |recs| by {
      CallCountOf(s, cards, recs);
    }
    forall j | 0 <= j < |cs|
      ensures CallKey(cs[j]) == recs[j].callId && (ReadCall(cs[j]).Ok? <==> GoodLabels(recs[j])) {
      CallAt(s, cards, recs, j);
    }
    assert AllGood(recs) && IdsDistinct(recs) ==> Readable(cs, CallKey, ReadCall, 0);
    if Readable(cs, CallKey, ReadCall, 0) {
      forall j, k | 0 <= j < k < |recs| ensures recs[j].callId != recs[k].callId {
        assert CallKey(cs[j]) != CallKey(cs[k]);
      }
      forall j | 0 <= j < |recs| ensures GoodLabels(recs[j]) {
        assert ReadCall(cs[j]).Ok?;
      }
    }
  }

  lemma CallCountOf(s: Setup, cards: map<string, Rate>, recs: seq<Record>)
    requires AllMap(s.fits, cards, recs)
    ensures |CallsOf(s.fits, cards, recs)| == |recs|
  {
  }

  lemma ReadsParts(input: CostInput, cards: Ledger)
    requires ReadLedger(Bare(input.currency, input.rates)) == Ok(cards) && input.schema == SCHEMA
    ensures ReadLedger(input).Ok? <==> |input.calls| <= CALL_LIMIT && ReadCalls(input.calls).Ok?
    ensures ReadLedger(input).Ok? ==>
              ReadLedger(input).value == Ledger(input.currency, cards.rates, ReadCalls(input.calls).value)
  {
    hide ReadRates, ReadCalls, Currency;
  }

  /** The final report is the report of the calls as they came. */
  lemma SortedReport(s: Setup, cards: Ledger, recs: seq<Record>, calls: seq<CallInput>)
    requires ReadLedger(Bare(s.currency, s.rates)) == Ok(cards) && AllMap(s.fits, cards.rates, recs)
    requires multiset(calls) == multiset(CallsOf(s.fits, cards.rates, recs))
    ensures var input := CostInput(SCHEMA, s.currency, s.rates, SortById(calls));
            && (ReportOf(input).Ok? <==> && |recs| <= CALL_LIMIT && AllGood(recs) && IdsDistinct(recs)
                                         && ExactCost(CallsOf(s.fits, cards.rates, recs), cards.rates) <= U64_MAX)
            && (ReportOf(input).Ok? ==> && ReadLedger(input) == ReadLedger(Unsorted(s, cards.rates, recs))
                                        && ReportOf(input) == ReportOf(Unsorted(s, cards.rates, recs)))
  {
    hide MapRecord, ReadLedger, Price, ExactCost, SortById, CallsOf, AllGood, IdsDistinct;
    var input, raw := CostInput(SCHEMA, s.currency, s.rates, SortById(calls)), Unsorted(s, cards.rates, recs);
    SortKeeps(calls);
    UnsortedCalls(s, cards.rates, recs);
    CallCountOf(s, cards.rates, recs);
    ReadsParts(raw, cards);
    if ReadLedger(raw).Ok? {
      OrderDoesNotMatter(raw, input);
      OverflowIsExact(raw);
    } else if ReadLedger(input).Ok? {
      OrderDoesNotMatter(input, raw);
    }
  }

  /** A batched analysis succeeds exactly when each batch is importable on its own and
      the records together have distinct call ids and a total that fits. */
  lemma AnalysisIff(s: Setup, recs: seq<Record>)
    requires ReadLedger(Bare(s.currency, s.rates)).Ok?
    ensures var cards, plan := ReadLedger(Bare(s.currency, s.rates)).value.rates, Plan(s.size, recs, 0, []);
            && (Analyze(s, recs).Ok? <==>
                  && (forall b :: 0 <= b < |plan| ==> BatchOk(s, cards, plan[b]))
                  && |recs| <= CALL_LIMIT && AllGood(recs) && IdsDistinct(recs)
                  && AllMap(s.fits, cards, recs) && ExactCost(CallsOf(s.fits, cards, recs), cards) <= U64_MAX)
            && (Analyze(s, recs).Ok? ==>
                  && ReadLedger(Analyze(s, recs).value.costInput) == ReadLedger(Unsorted(s, cards, recs))
                  && Ok(Analyze(s, recs).value.report) == ReportOf(Unsorted(s, cards, recs)))
  {
    hide ReadLedger, BatchOk, AllMap, MapRecord, ReportOf, ExactCost, SortById, CallsOf, AllGood, IdsDistinct, FlushAll;
    var cards, plan := ReadLedger(Bare(s.currency, s.rates)).value, Plan(s.size, recs, 0, []);
    BatchesPartition(s.size, recs);
    FlushAllIs(s, cards, plan, []);
    var calls := FlushAll(s, plan, []);
    if calls.Ok? {
      SortedReport(s, cards, recs, calls.value);
    }
  }

  // ----- Batched equals unbatched when unbatched succeeds -----

  lemma {:induction false} SliceOf(batches: seq<seq<Record>>, b: nat) returns (lo: nat)
    requires b < |batches|
    ensures lo + |batches[b]| <= |Flat(batches)| && Flat(batches)[lo..lo + |batches[b]|] == batches[b]
    decreases |batches|
  {
    if b == 0 {
      lo := 0;
    } else {
      lo := SliceOf(batches[1..], b - 1);
      var rest, n := Flat(batches[1..]), |batches[0]|;
      assert (batches[0] + rest)[n + lo..n + lo + |batches[b]|] == rest[lo..lo + |batches[b]|];
      lo := n + lo;
    }
  }

  lemma {:induction false} CostSplits(a: seq<CallInput>, b: seq<CallInput>, rates: map<string, Rate>)
    ensures ExactCost(a + b, rates) == ExactCost(a, rates) + ExactCost(b, rates)
    decreases |b|
  {
    hide CallCost;
    if b == [] {
      assert a + b == a;
    } else {
      var n := |b| - 1;
      CostSplits(a, b[..n], rates);
      assert (a + b)[..|a| + n] == a + b[..n];
    }
  }

  lemma SliceCost(calls: seq<CallInput>, lo: nat, hi: nat, rates: map<string, Rate>)
    requires lo <= hi <= |calls|
    ensures ExactCost(calls[lo..hi], rates) <= ExactCost(calls, rates)
  {
    hide ExactCost;
    CostSplits(calls[..lo], calls[lo..hi], rates);
    CostSplits(calls[..hi], calls[hi..], rates);
    assert calls[..lo] + calls[lo..hi] == calls[..hi] && calls[..hi] + calls[hi..] == calls;
  }

  lemma SliceAcceptable(fits: Fits, cards: map<string, Rate>, recs: seq<Record>, lo: nat, hi: nat)
    requires Acceptable(fits, cards, recs) && lo <= hi <= |recs|
    ensures Acceptable(fits, cards, recs[lo..hi])
    ensures CallsOf(fits, cards, recs[lo..hi]) == CallsOf(fits, cards, recs)[lo..hi]
  {
    hide MapRecord, RefsOf, GoodLabels;
    var part := recs[lo..hi];
    assert forall j :: 0 <= j < |part| ==> part[j] == recs[lo + j];
    assert Importable(fits, cards, part, 0);
  }

  lemma PlanOk(s: Setup, cards: map<string, Rate>, recs: seq<Record>)
    requires Acceptable(s.fits, cards, recs) && |recs| <= RECORD_LIMIT
    requires ExactCost(CallsOf(s.fits, cards, recs), cards) <= U64_MAX
    requires forall j :: 0 <= j < |recs| ==> s.size([recs[j]]) <= NATIVE_CAP
    ensures var plan := Plan(s.size, recs, 0, []); forall b :: 0 <= b < |plan| ==> BatchOk(s, cards, plan[b])
  {
    hide AllGood, RefsOf, ExactCost, CallsOf, MapRecord, Plan;
    var plan := Plan(s.size, recs, 0, []);
    CallCountOf(s, cards, recs);
    BatchesPartition(s.size, recs);
    forall b | 0 <= b < |plan| ensures BatchOk(s, cards, plan[b]) {
      var lo := SliceOf(plan, b);
      var hi := lo + |plan[b]|;
      SliceAcceptable(s.fits, cards, recs, lo, hi);
      SliceCost(CallsOf(s.fits, cards, recs), lo, hi, cards);
      if |plan[b]| == 1 {
        assert plan[b] == [recs[lo]];
      }
    }
  }

  /** Calls in id order, with distinct ids, are the ordered values of the map they form. */
  lemma SortedIsInOrder(calls: seq<CallInput>, m: map<string, CallInput>)
    requires InIdOrder(calls) && DistinctIds(calls) && multiset(calls) == multiset(InOrder(m))
    requires forall k :: k in m ==> m[k].callId == k
    ensures calls == InOrder(m)
  {
    hide InOrder, Sorted, Below;
    var ids, ks, a := Ids(calls), Sorted(m.Keys), InOrder(m);
    SameSize(calls, a);
    forall j | 0 <= j < |a| ensures ks[j] in m && a[j] == m[ks[j]] && a[j].callId == ks[j] {
      InOrderAt(m, j);
    }
    forall j | 0 <= j < |calls| ensures ids[j] in m && calls[j] == m[ids[j]] {
      assert calls[j] in multiset(a);
      var i :| 0 <= i < |a| && a[i] == calls[j];
    }
    forall k | k in m ensures k in Elements(ids) {
      SortedMembers(m.Keys);
      var i :| 0 <= i < |ks| && ks[i] == k;
      assert a[i] in multiset(calls);
      var j :| 0 <= j < |calls| && calls[j] == a[i];
      assert ids[j] == k;
    }
    IncreasingIsSorted(ids);
    assert Elements(ids) == m.Keys;
    assert ids == ks;
  }

  lemma ReadIdsDistinct(input: CostInput)
    requires ReadLedger(input).Ok?
    ensures DistinctIds(input.calls)
  {
    CallsRead(input);
    hide ReadLedger, ReadCall;
  }

  lemma SameLedgerSameReport(a: CostInput, b: CostInput)
    requires ReadLedger(a) == ReadLedger(b)
    ensures ReportOf(a) == ReportOf(b)
  {
    hide ReadLedger, Price;
  }

  lemma UnsortedIsArrived(s: Setup, cards: Ledger, recs: seq<Record>)
    requires ReadLedger(Bare(s.currency, s.rates)) == Ok(cards) && |recs| <= RECORD_LIMIT
    requires Acceptable(s.fits, cards.rates, recs)
    ensures ReadLedger(Unsorted(s, cards.rates, recs)) == ReadLedger(Arrived(s.fits, cards, recs))
  {
    hide ReadLedger, MapRecord, Run, Readies, WellFormed, Canonical, AllGood, CallsOf, Collects, RefsOf, InOrder;
    BareReads(s.currency, s.rates);
    AcceptableRuns(s.fits, cards, recs);
    var run := Run(s.fits, cards.rates, recs, 0, START);
    RunIff(s.fits, cards.rates, recs, 0, START);
    ReadArrivedCalls(s.fits, cards, recs, run.value);
    CallCountOf(s, cards.rates, recs);
    ReadsParts(Unsorted(s, cards.rates, recs), cards);
  }

  /** Whenever the unbatched import succeeds and no single record exceeds the cap, the
      batched analysis succeeds with the same calls and the same report. */
  lemma BatchedIsUnbatched(s: Setup, recs: seq<Record>)
    requires ReadLedger(Bare(s.currency, s.rates)).Ok? && |recs| <= RECORD_LIMIT
    requires Conclude(s.fits, s.currency, s.rates, recs).Ok?
    requires forall j :: 0 <= j < |recs| ==> s.size([recs[j]]) <= NATIVE_CAP
    ensures var whole := Conclude(s.fits, s.currency, s.rates, recs).value;
            && Analyze(s, recs).Ok?
            && Analyze(s, recs).value.costInput.calls == whole.costInput.calls
            && Analyze(s, recs).value.report == whole.report
  {
    hide ReadLedger, MapRecord, ReportOf, ExactCost, SortById, CallsOf, AllGood, FlushAll, Plan, Run, InOrder;
    hide RefsOf, Canonical;
    hide Arrived, Unsorted, LedgerOf;
    var cards, whole := ReadLedger(Bare(s.currency, s.rates)).value, Conclude(s.fits, s.currency, s.rates, recs).value;
    ImportIff(s.fits, s.currency, s.rates, recs);
    PlanOk(s, cards.rates, recs);
    AnalysisIff(s, recs);
    var calls := FlushAll(s, Plan(s.size, recs, 0, []), []).value;
    var input := CostInput(SCHEMA, s.currency, s.rates, SortById(calls));
    UnsortedIsArrived(s, cards, recs);
    SameLedgerSameReport(whole.costInput, Unsorted(s, cards.rates, recs));
    ConcludedCalls(s.fits, s.currency, s.rates, recs);
    BatchesPartition(s.size, recs);
    FlushAllIs(s, cards, Plan(s.size, recs, 0, []), []);
    SortKeeps(calls);
    SortOrders(calls);
    BareReads(s.currency, s.rates);
    AcceptableRuns(s.fits, cards, recs);
    ReadIdsDistinct(input);
    SortedIsInOrder(SortById(calls), Run(s.fits, cards.rates, recs, 0, START).value.calls);
  }

  // ----- No response is used twice in a run, so the two ways always agree -----

  /** The identity a response carries; a failed attempt has no response. */
  function IdOf(response: Json): Option<string> {
    match Get(response, "id")
    case Str(id) => Some(id)
    case _ => None
  }

  /** One planned request of a run: its arm, and once attempted the record it yields. */
  datatype Row = Row(mode: string, attempted: bool, record: Record)

  function Validate(rows: seq<Row>, i: nat, seen: set<string>): Result<Unit>
    requires i <= |rows|
    decreases |rows| - i
  {
    if i == |rows| then Ok(Unit) else
    var id := IdOf(rows[i].record.response);
    :- Need(id.Some? ==> id.value !in seen, "model_cost_duplicate_response");
    Validate(rows, i + 1, if id.Some? then seen + {id.value} else seen)
  }

  /** The run check on identities, over both arms and before any batch exists. */
  method ValidateRun(rows: seq<Row>) returns (r: Result<Unit>)
    ensures r == Validate(rows, 0, {})
  {
    var seen: set<string> := {};
    for i := 0 to |rows|
      invariant Validate(rows, i, seen) == Validate(rows, 0, {})
    {
      var id := IdOf(rows[i].record.response);
      if id.Some? {
        :- Need(id.value !in seen, "model_cost_duplicate_response");
        seen := seen + {id.value};
      }
    }
    r := Ok(Unit);
  }

  predicate SameResponse(a: Json, b: Json) {
    IdOf(a).Some? && IdOf(a) == IdOf(b)
  }

  ghost predicate DistinctResponses(recs: seq<Record>) {
    forall j, k :: 0 <= j < k < |recs| ==> !SameResponse(recs[j].response, recs[k].response)
  }

  ghost predicate DistinctRows(rows: seq<Row>, i: nat) {
    forall j, k :: i <= j < k < |rows| ==> !SameResponse(rows[j].record.response, rows[k].record.response)
  }

  lemma {:induction false} ValidateIff(rows: seq<Row>, i: nat, seen: set<string>)
    requires i <= |rows|
    ensures Validate(rows, i, seen).Ok? <==>
              && DistinctRows(rows, i)
              && forall j :: i <= j < |rows| && IdOf(rows[j].record.response).Some? ==>
                   IdOf(rows[j].record.response).value !in seen
    decreases |rows| - i
  {
    hide IdOf;
    if i < |rows| {
      var id := IdOf(rows[i].record.response);
      ValidateIff(rows, i + 1, if id.Some? then seen + {id.value} else seen);
    }
  }

  /** The attempted records of one arm, in run order. */
  function Group(rows: seq<Row>, mode: string): seq<Record> {
    if rows == [] then []
    else
      var last := rows[|rows| - 1];
      Group(rows[..|rows| - 1], mode) + if last.attempted && last.mode == mode then [last.record] else []
  }

  method GroupRecords(rows: seq<Row>, mode: string) returns (recs: seq<Record>)
    ensures recs == Group(rows, mode)
  {
    recs := [];
    for i := 0 to |rows|
      invariant recs == Group(rows[..i], mode)
    {
      assert rows[..i + 1][..i] == rows[..i];
      if rows[i].attempted && rows[i].mode == mode {
        recs := recs + [rows[i].record];
      }
    }
    assert rows[..|rows|] == rows;
  }

  /** The positions of an arm's attempted rows: all of them, in run order. */
  ghost predicate ArePositions(rows: seq<Row>, mode: string, at: seq<nat>) {
    && (forall j :: 0 <= j < |at| ==> at[j] < |rows|)
    && (forall j, k :: 0 <= j < k < |at| ==> at[j] < at[k])
    && (forall i :: 0 <= i < |rows| ==> (rows[i].attempted && rows[i].mode == mode <==> i in at))
  }

  /** A group holds the record of every attempted row of its arm, once, in run order, and
      nothing else. */
  lemma {:induction false} GroupIs(rows: seq<Row>, mode: string) returns (at: seq<nat>)
    ensures ArePositions(rows, mode, at) && |Group(rows, mode)| == |at|
    ensures forall j :: 0 <= j < |at| ==> Group(rows, mode)[j] == rows[at[j]].record
    decreases |rows|
  {
    if rows == [] {
      at := [];
    } else {
      var n := |rows| - 1;
      var before := GroupIs(rows[..n], mode);
      at := if rows[n].attempted && rows[n].mode == mode then before + [n] else before;
      PositionsGrow(rows, mode, before);
      GroupGrows(rows, mode);
      hide Group, ArePositions;
      forall j | 0 <= j < |before| ensures before[j] < n && rows[..n][before[j]] == rows[before[j]] {
        PositionsIn(rows[..n], mode, before);
      }
    }
  }

  lemma PositionsGrow(rows: seq<Row>, mode: string, before: seq<nat>)
    requires rows != [] && ArePositions(rows[..|rows| - 1], mode, before)
    ensures var n := |rows| - 1;
            ArePositions(rows, mode, if rows[n].attempted && rows[n].mode == mode then before + [n] else before)
  {
    var n := |rows| - 1;
    forall i | 0 <= i < n ensures rows[i].attempted && rows[i].mode == mode <==> i in before {
      assert rows[..n][i] == rows[i];
    }
  }

  lemma PositionsIn(rows: seq<Row>, mode: string, at: seq<nat>)
    requires ArePositions(rows, mode, at)
    ensures forall j :: 0 <= j < |at| ==> at[j] < |rows|
  {
  }

  lemma GroupGrows(rows: seq<Row>, mode: string)
    requires rows != []
    ensures var n, last := |rows| - 1, rows[|rows| - 1];
            Group(rows, mode) ==
              Group(rows[..n], mode) + if last.attempted && last.mode == mode then [last.record] else []
  {
  }

  lemma GroupDistinct(rows: seq<Row>, mode: string)
    requires DistinctRows(rows, 0)
    ensures DistinctResponses(Group(rows, mode))
  {
    hide SameResponse, Group;
    var at := GroupIs(rows, mode);
  }

  lemma ReferenceOf(fits: Fits, cards: map<string, Rate>, rec: Record)
    requires MapRecord(fits, cards, rec).Ok?
    ensures var ref := MapRecord(fits, cards, rec).value.audit.reference;
            ref.Some? ==> IdOf(rec.response).Some? &&
                          ref.value == ProviderOf(rec.format) + "/" + IdOf(rec.response).value
  {
    hide Heading, Kind, Usage, ProviderOf;
  }

  lemma ReferencesDiffer(format: string, format': string, id: string, id': string)
    requires id != id'
    ensures ProviderOf(format) + "/" + id != ProviderOf(format') + "/" + id'
  {
    var p, q := ProviderOf(format) + "/", ProviderOf(format') + "/";
    assert (p + id)[0] == p[0] && (q + id')[0] == q[0];
    assert (p + id)[|p|..] == id && (q + id')[|q|..] == id';
  }

  lemma DistinctRefs(fits: Fits, cards: map<string, Rate>, a: Record, b: Record)
    requires MapRecord(fits, cards, a).Ok? && MapRecord(fits, cards, b).Ok? && !SameResponse(a.response, b.response)
    ensures RefsOf(MapRecord(fits, cards, a).value) !! RefsOf(MapRecord(fits, cards, b).value)
  {
    ReferenceOf(fits, cards, a);
    ReferenceOf(fits, cards, b);
    hide MapRecord, IdOf, ProviderOf;
    if IdOf(a.response).Some? && IdOf(b.response).Some? {
      ReferencesDiffer(a.format, b.format, IdOf(a.response).value, IdOf(b.response).value);
    }
  }

  lemma DistinctImportable(fits: Fits, cards: map<string, Rate>, recs: seq<Record>)
    requires AllMap(fits, cards, recs) && IdsDistinct(recs) && DistinctResponses(recs)
    ensures Importable(fits, cards, recs, 0)
  {
    hide MapRecord, RefsOf, SameResponse;
    forall j, k | 0 <= j < k < |recs|
      ensures RefsOf(MapRecord(fits, cards, recs[j]).value) !! RefsOf(MapRecord(fits, cards, recs[k]).value)
    {
      DistinctRefs(fits, cards, recs[j], recs[k]);
    }
  }

  /** With distinct response identities, batching changes nothing: the batched analysis
      succeeds exactly when the import in one go does, with the same calls and report. */
  lemma BatchedIffUnbatched(s: Setup, recs: seq<Record>)
    requires ReadLedger(Bare(s.currency, s.rates)).Ok? && |recs| <= RECORD_LIMIT && DistinctResponses(recs)
    requires forall j :: 0 <= j < |recs| ==> s.size([recs[j]]) <= NATIVE_CAP
    ensures var whole := Conclude(s.fits, s.currency, s.rates, recs);
            && (Analyze(s, recs).Ok? <==> whole.Ok?)
            && (whole.Ok? ==>
                  && Analyze(s, recs).value.costInput.calls == whole.value.costInput.calls
                  && Analyze(s, recs).value.report == whole.value.report)
  {
    hide ReadLedger, Analyze, Conclude, MapRecord, ExactCost, AllGood, DistinctResponses, IdsDistinct, AllMap;
    hide BatchOk, Plan;
    var whole := Conclude(s.fits, s.currency, s.rates, recs);
    if whole.Ok? {
      BatchedIsUnbatched(s, recs);
    } else if Analyze(s, recs).Ok? {
      AnalysisIff(s, recs);
      DistinctImportable(s.fits, ReadLedger(Bare(s.currency, s.rates)).value.rates, recs);
      ImportIff(s.fits, s.currency, s.rates, recs);
    }
  }

  /** In a validated run this holds for each arm: no batching ever shows in its result. */
  lemma ValidatedRunBatches(s: Setup, rows: seq<Row>, mode: string)
    requires Validate(rows, 0, {}).Ok? && ReadLedger(Bare(s.currency, s.rates)).Ok?
    requires var recs := Group(rows, mode);
             |recs| <= RECORD_LIMIT && forall j :: 0 <= j < |recs| ==> s.size([recs[j]]) <= NATIVE_CAP
    ensures var recs := Group(rows, mode);
            var whole := Conclude(s.fits, s.currency, s.rates, recs);
            && (Analyze(s, recs).Ok? <==> whole.Ok?)
            && (whole.Ok? ==>
                  && Analyze(s, recs).value.costInput.calls == whole.value.costInput.calls
                  && Analyze(s, recs).value.report == whole.value.report)
  {
    hide Validate, Group, ReadLedger, Analyze, Conclude, DistinctRows, DistinctResponses;
    ValidateIff(rows, 0, {});
    GroupDistinct(rows, mode);
    BatchedIffUnbatched(s, Group(rows, mode));
  }
}
