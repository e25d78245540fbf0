/** Paired evaluation: case-by-case quality of two arms together with their exact
    costs.  Improvements on some cases never make up for regressions on others. */
module Evaluation {
  import opened Wrappers
  import opened Totals
  import opened TokenCost
  import opened Changes
  import opened CostComparison
  import opened Telescoping
  import opened ComparisonTheorems

  /** One case in one arm; `resolved` counts for answerable cases only. */
  datatype Score = Score(grounded: bool, resolved: bool)

  datatype Case = Case(taskId: string, answerable: bool, baseline: Score, candidate: Score)

  /** A mark before and after. */
  datatype Flip = Flip(before: bool, after: bool)

  datatype Counts = Counts(improved: nat, regressed: nat, bothCorrect: nat, bothIncorrect: nat, total: nat)

  datatype Verdict = CandidateDominates | BaselineDominates | NoChange | Tradeoff

  datatype Decision =
    | NotComparable(reasons: seq<string>)
    | Decided(verdict: Verdict, noRegressions: bool, candidateDominates: bool, baselineDominates: bool)

  // ----- Transitions -----

  function Tally(f: Flip, c: Counts): Counts {
    if f.before && f.after then c.(bothCorrect := c.bothCorrect + 1, total := c.total + 1)
    else if !f.before && !f.after then c.(bothIncorrect := c.bothIncorrect + 1, total := c.total + 1)
    else if f.after then c.(improved := c.improved + 1, total := c.total + 1)
    else c.(regressed := c.regressed + 1, total := c.total + 1)
  }

  function Transitions(rows: seq<Flip>): Counts {
    if rows == [] then Counts(0, 0, 0, 0, 0) else Tally(rows[|rows| - 1], Transitions(rows[..|rows| - 1]))
  }

  method CountTransitions(rows: seq<Flip>) returns (c: Counts)
    ensures c == Transitions(rows)
  {
    var improved, regressed, bothCorrect, bothIncorrect := 0, 0, 0, 0;
    for i := 0 to |rows|
      invariant Counts(improved, regressed, bothCorrect, bothIncorrect, i) == Transitions(rows[..i])
    {
      assert rows[..i + 1][..i] == rows[..i];
      var before, after := rows[i].before, rows[i].after;
      if before && after {
        bothCorrect := bothCorrect + 1;
      } else if !before && !after {
        bothIncorrect := bothIncorrect + 1;
      } else if after {
        improved := improved + 1;
      } else {
        regressed := regressed + 1;
      }
    }
    assert rows[..|rows|] == rows;
    c := Counts(improved, regressed, bothCorrect, bothIncorrect, |rows|);
  }

  function Correct(marks: seq<bool>): nat {
    if marks == [] then 0 else Correct(marks[..|marks| - 1]) + if marks[|marks| - 1] then 1 else 0
  }

  function Befores(rows: seq<Flip>): seq<bool> { seq(|rows|, i requires 0 <= i < |rows| => rows[i].before) }

  function Afters(rows: seq<Flip>): seq<bool> { seq(|rows|, i requires 0 <= i < |rows| => rows[i].after) }

  lemma TallyBalance(f: Flip, c: Counts)
    ensures var t := Tally(f, c);
            && t.total == c.total + 1
            && t.improved + t.regressed + t.bothCorrect + t.bothIncorrect
               == c.improved + c.regressed + c.bothCorrect + c.bothIncorrect + 1
            && t.improved - t.regressed ==
                 c.improved - c.regressed + (if f.after then 1 else 0) - (if f.before then 1 else 0)
  {
  }

  lemma MarksGrow(rows: seq<Flip>)
    requires rows != []
    ensures var n, last := |rows| - 1, rows[|rows| - 1];
            && Correct(Afters(rows)) == Correct(Afters(rows[..n])) + (if last.after then 1 else 0)
            && Correct(Befores(rows)) == Correct(Befores(rows[..n])) + (if last.before then 1 else 0)
  {
    var n := |rows| - 1;
    assert Afters(rows)[..n] == Afters(rows[..n]) && Befores(rows)[..n] == Befores(rows[..n]);
  }

  lemma {:induction false} CountsBalance(rows: seq<Flip>)
    ensures var c := Transitions(rows);
            && c.improved + c.regressed + c.bothCorrect + c.bothIncorrect == c.total == |rows|
            && c.improved - c.regressed == Correct(Afters(rows)) - Correct(Befores(rows))
  {
    hide Tally;
    if rows == [] {
      assert Afters(rows) == [] == Befores(rows);
    } else {
      hide Correct, Afters, Befores;
      var n := |rows| - 1;
      CountsBalance(rows[..n]);
      TallyBalance(rows[n], Transitions(rows[..n]));
      MarksGrow(rows);
    }
  }

  /** Each count is how often rows of its kind occur. */
  lemma {:induction false} CountsAre(rows: seq<Flip>)
    ensures var c, all := Transitions(rows), multiset(rows);
            && c.improved == all[Flip(false, true)] && c.regressed == all[Flip(true, false)]
            && c.bothCorrect == all[Flip(true, true)] && c.bothIncorrect == all[Flip(false, false)]
  {
    if rows != [] {
      var n := |rows| - 1;
      CountsAre(rows[..n]);
      assert rows == rows[..n] + [rows[n]];
    }
  }

  /** Every row is counted once, under its own kind; improvements less regressions are
      the difference in correct counts. */
  lemma TransitionsConserve(rows: seq<Flip>)
    ensures var c, all := Transitions(rows), multiset(rows);
            && c.improved == all[Flip(false, true)] && c.regressed == all[Flip(true, false)]
            && c.bothCorrect == all[Flip(true, true)] && c.bothIncorrect == all[Flip(false, false)]
            && c.improved + c.regressed + c.bothCorrect + c.bothIncorrect == c.total == |rows|
            && c.improved - c.regressed == Correct(Afters(rows)) - Correct(Befores(rows))
  {
    CountsBalance(rows);
    CountsAre(rows);
  }

  // ----- The decision -----

  function Blocked(comparison: Option<Comparison>, completed: nat, planned: nat): seq<string> {
    (if completed != planned then ["incomplete_responses"] else [])
    + (if comparison.None? then ["unattempted_planned_requests"]
       else if !comparison.value.eligible then comparison.value.reasons else [])
  }

  function Judge(grounded: Counts, resolved: Counts, delta: int): Decision {
    var improves, regresses := grounded.improved + resolved.improved, grounded.regressed + resolved.regressed;
    var candidate := regresses == 0 && delta <= 0 && (improves > 0 || delta < 0);
    var baseline := improves == 0 && delta >= 0 && (regresses > 0 || delta > 0);
    Decided(if candidate then CandidateDominates else if baseline then BaselineDominates
            else if improves == 0 && regresses == 0 && delta == 0 then NoChange else Tradeoff,
            regresses == 0, candidate, baseline)
  }

  /** The count-based rule, over a comparison that may be missing. */
  function Decide(grounded: Counts, resolved: Counts, comparison: Option<Comparison>, completed: nat,
                  planned: nat): Decision {
    var blocked := Blocked(comparison, completed, planned);
    if blocked != [] || comparison.None? then NotComparable(blocked)
    else Judge(grounded, resolved, Delta(comparison.value.change))
  }

  function Grounded(cases: seq<Case>): seq<Flip> {
    seq(|cases|, i requires 0 <= i < |cases| => Flip(cases[i].baseline.grounded, cases[i].candidate.grounded))
  }

  function Answerable(cases: seq<Case>): seq<Case> {
    if cases == [] then []
    else Answerable(cases[..|cases| - 1]) + if cases[|cases| - 1].answerable then [cases[|cases| - 1]] else []
  }

  function Resolved(cases: seq<Case>): seq<Flip> {
    var rows := Answerable(cases);
    seq(|rows|, i requires 0 <= i < |rows| => Flip(rows[i].baseline.resolved, rows[i].candidate.resolved))
  }

  method Evaluate(cases: seq<Case>, comparison: Option<Comparison>, completed: nat, planned: nat) returns (d: Decision)
    ensures d == Decide(Transitions(Grounded(cases)), Transitions(Resolved(cases)), comparison, completed, planned)
  {
    var answerable: seq<Case> := [];
    for i := 0 to |cases|
      invariant answerable == Answerable(cases[..i])
    {
      assert cases[..i + 1][..i] == cases[..i];
      if cases[i].answerable {
        answerable := answerable + [cases[i]];
      }
    }
    assert cases[..|cases|] == cases;
    var grounded := CountTransitions(Grounded(cases));
    var resolved := CountTransitions(Resolved(cases));
    d := Decide(grounded, resolved, comparison, completed, planned);
  }

  // ----- What the rule decides -----

  /** What one arm achieves: its marks case by case and its cost. */
  datatype Outcome = Outcome(grounded: seq<bool>, resolved: seq<bool>, cost: int)

  predicate Comparable(a: Outcome, b: Outcome) {
    |a.grounded| == |b.grounded| && |a.resolved| == |b.resolved|
  }

  predicate AtLeast(b: seq<bool>, a: seq<bool>)
    requires |a| == |b|
  {
    forall i | 0 <= i < |a| :: a[i] ==> b[i]
  }

  /** `b` is at least as good on every case, costs no more, and is strictly better somewhere. */
  predicate Dominates(b: Outcome, a: Outcome)
    requires Comparable(a, b)
  {
    && AtLeast(b.grounded, a.grounded) && AtLeast(b.resolved, a.resolved) && b.cost <= a.cost
    && (a.grounded != b.grounded || a.resolved != b.resolved || b.cost < a.cost)
  }

  function Flips(a: seq<bool>, b: seq<bool>): seq<Flip>
    requires |a| == |b|
  {
    seq(|a|, i requires 0 <= i < |a| => Flip(a[i], b[i]))
  }

  function Verdicts(a: Outcome, b: Outcome): Decision
    requires Comparable(a, b)
  {
    Judge(Transitions(Flips(a.grounded, b.grounded)), Transitions(Flips(a.resolved, b.resolved)), b.cost - a.cost)
  }

  lemma FlipsSay(a: seq<bool>, b: seq<bool>)
    requires |a| == |b|
    ensures var c := Transitions(Flips(a, b));
            && (c.regressed == 0 <==> AtLeast(b, a)) && (c.improved == 0 <==> AtLeast(a, b))
            && (a == b <==> c.improved == 0 && c.regressed == 0)
  {
    hide Transitions;
    var rows := Flips(a, b);
    TransitionsConserve(rows);
    forall i | 0 <= i < |a| ensures rows[i] == Flip(a[i], b[i]) && rows[i] in rows {
    }
    if AtLeast(a, b) && AtLeast(b, a) {
      assert forall i :: 0 <= i < |a| ==> a[i] == b[i];
    }
  }

  /** The count-based rule is exactly case-wise dominance with cost: the candidate wins
      if and only if it dominates, the baseline if and only if it dominates, no change
      means identical outcomes, and anything else is a tradeoff. */
  lemma DecidesDominance(a: Outcome, b: Outcome)
    requires Comparable(a, b)
    ensures var d := Verdicts(a, b);
            && d.Decided?
            && (d.verdict == CandidateDominates <==> Dominates(b, a)) && (d.candidateDominates <==> Dominates(b, a))
            && (d.verdict == BaselineDominates <==> Dominates(a, b)) && (d.baselineDominates <==> Dominates(a, b))
            && (d.verdict == NoChange <==> a == b)
            && (d.noRegressions <==> AtLeast(b.grounded, a.grounded) && AtLeast(b.resolved, a.resolved))
  {
    hide Transitions, Flips, AtLeast;
    FlipsSay(a.grounded, b.grounded);
    FlipsSay(a.resolved, b.resolved);
  }

  lemma AtLeastTransitive(a: seq<bool>, b: seq<bool>, c: seq<bool>)
    requires |a| == |b| == |c| && AtLeast(b, a) && AtLeast(c, b)
    ensures AtLeast(c, a) && (a == c ==> a == b)
  {
    if a == c {
      assert forall i :: 0 <= i < |a| ==> a[i] == b[i];
    }
  }

  /** Dominance is a strict order: no arm beats itself, and wins chain. */
  lemma DominanceIsStrictOrder(a: Outcome, b: Outcome, c: Outcome)
    requires Comparable(a, b) && Comparable(b, c)
    ensures Verdicts(a, a).verdict == NoChange
    ensures Verdicts(a, b).verdict == CandidateDominates && Verdicts(b, c).verdict == CandidateDominates
            ==> Verdicts(a, c).verdict == CandidateDominates
  {
    hide Verdicts, AtLeast;
    DecidesDominance(a, a);
    DecidesDominance(a, b);
    DecidesDominance(b, c);
    DecidesDominance(a, c);
    if Dominates(b, a) && Dominates(c, b) {
      AtLeastTransitive(a.grounded, b.grounded, c.grounded);
      AtLeastTransitive(a.resolved, b.resolved, c.resolved);
    }
  }

  function Opposite(v: Verdict): Verdict {
    match v
    case CandidateDominates => BaselineDominates
    case BaselineDominates => CandidateDominates
    case _ => v
  }

  /** Swapping the arms swaps the verdict, and both never dominate. */
  lemma SwapOpposes(a: Outcome, b: Outcome)
    requires Comparable(a, b)
    ensures Verdicts(b, a).verdict == Opposite(Verdicts(a, b).verdict)
    ensures !(Verdicts(a, b).candidateDominates && Verdicts(a, b).baselineDominates)
  {
    hide Verdicts, Dominates;
    DecidesDominance(a, b);
    DecidesDominance(b, a);
    NotBoth(a, b);
  }

  lemma NotBoth(a: Outcome, b: Outcome)
    requires Comparable(a, b)
    ensures !(Dominates(a, b) && Dominates(b, a)) && (a == b ==> !Dominates(a, b))
  {
    BothWays(a.grounded, b.grounded);
    BothWays(a.resolved, b.resolved);
  }

  lemma BothWays(a: seq<bool>, b: seq<bool>)
    requires |a| == |b|
    ensures AtLeast(a, b) && AtLeast(b, a) ==> a == b
  {
    assert (forall i :: 0 <= i < |a| ==> a[i] == b[i]) ==> a == b;
  }

  // ----- The decision, case by case -----

  /** No answer that was grounded, or resolved its case, is lost. */
  ghost predicate NoneLost(cases: seq<Case>) {
    forall c :: c in cases ==>
      && (c.baseline.grounded ==> c.candidate.grounded)
      && (c.answerable && c.baseline.resolved ==> c.candidate.resolved)
  }

  /** No answer is gained. */
  ghost predicate NoneGained(cases: seq<Case>) {
    forall c :: c in cases ==>
      && (c.candidate.grounded ==> c.baseline.grounded)
      && (c.answerable && c.candidate.resolved ==> c.baseline.resolved)
  }

  lemma GroundedHas(cases: seq<Case>, before: bool, after: bool)
    ensures Flip(before, after) in Grounded(cases) <==>
              exists c :: c in cases && c.baseline.grounded == before && c.candidate.grounded == after
  {
    var rows := Grounded(cases);
    forall i | 0 <= i < |cases| ensures rows[i] == Flip(cases[i].baseline.grounded, cases[i].candidate.grounded) {
    }
    if c :| c in cases && c.baseline.grounded == before && c.candidate.grounded == after {
      var i :| 0 <= i < |cases| && cases[i] == c;
      assert rows[i] in rows;
    }
  }

  lemma {:induction false} AnswerableAre(cases: seq<Case>)
    ensures forall c :: c in Answerable(cases) <==> c in cases && c.answerable
  {
    if cases != [] {
      var n := |cases| - 1;
      AnswerableAre(cases[..n]);
      assert cases == cases[..n] + [cases[n]];
    }
  }

  lemma ResolvedHas(cases: seq<Case>, before: bool, after: bool)
    ensures Flip(before, after) in Resolved(cases) <==>
              exists c :: c in cases && c.answerable && c.baseline.resolved == before && c.candidate.resolved == after
  {
    AnswerableAre(cases);
    var some, rows := Answerable(cases), Resolved(cases);
    hide Answerable;
    forall i | 0 <= i < |some| ensures rows[i] == Flip(some[i].baseline.resolved, some[i].candidate.resolved) {
    }
    if c :| c in cases && c.answerable && c.baseline.resolved == before && c.candidate.resolved == after {
      var i :| 0 <= i < |some| && some[i] == c;
      assert rows[i] in rows;
    }
  }

  lemma LossesAre(cases: seq<Case>)
    ensures var g, q := Transitions(Grounded(cases)), Transitions(Resolved(cases));
            && (g.regressed + q.regressed == 0 <==> NoneLost(cases))
            && (g.improved + q.improved == 0 <==> NoneGained(cases))
  {
    CountsAre(Grounded(cases));
    CountsAre(Resolved(cases));
    hide Transitions, Grounded, Resolved;
    GroundedHas(cases, true, false);
    GroundedHas(cases, false, true);
    ResolvedHas(cases, true, false);
    ResolvedHas(cases, false, true);
  }

  /** The verdict, case by case: one side wins exactly when it loses no case, costs no
      more, and gains a case or costs less. */
  ghost predicate Judged(d: Decision, cases: seq<Case>, a: int, b: int) {
    var worse, better := !NoneLost(cases), !NoneGained(cases);
    && d.Decided? && (d.noRegressions <==> !worse)
    && (d.candidateDominates <==> !worse && b <= a && (better || b < a))
    && (d.baselineDominates <==> !better && a <= b && (worse || a < b))
    && (d.verdict == CandidateDominates <==> d.candidateDominates)
    && (d.verdict == BaselineDominates <==> d.baselineDominates)
    && (d.verdict == NoChange <==> !worse && !better && a == b)
  }

  // ----- The decision over a real comparison -----

  /** What keeps a run from being compared, in order. */
  function Obstacles(comparison: Option<Comparison>, completed: nat, planned: nat): seq<string> {
    (if completed == planned then [] else ["incomplete_responses"])
    + (if comparison.None? then ["unattempted_planned_requests"] else comparison.value.reasons)
  }

  /** With every planned response complete and an eligible comparison, the decision is
      made case by case, at the exact ledger totals; otherwise the run is not comparable,
      for every reason that stands in its way. */
  lemma DecisionIsDominance(cases: seq<Case>, root: CompareInput, completed: nat, planned: nat)
    requires Compare(root).Ok?
    ensures var c := Compare(root).value;
            var d := Decide(Transitions(Grounded(cases)), Transitions(Resolved(cases)), Some(c), completed, planned);
            && (d.NotComparable? <==> completed != planned || !c.eligible)
            && (d.NotComparable? ==> d.reasons == Obstacles(Some(c), completed, planned))
            && (d.Decided? ==>
                  && ReadLedger(root.baseline.costInput).Ok? && ReadLedger(root.candidate.costInput).Ok?
                  && var la, lb := Baseline(root), Candidate(root);
                  Judged(d, cases, TotalOf(la, la.calls.Keys).known, TotalOf(lb, lb.calls.Keys).known))
  {
    hide Compare, ReadLedger, TotalOf, Conclude, Reasons, Decide, Delta, Resolved, Grounded, Judged;
    var c := Compare(root).value;
    ArmsRead(root);
    ConcludeIs(root, c.baseline, c.candidate);
    if c.eligible {
      DeltasTelescope(root);
      var la, lb := Baseline(root), Candidate(root);
      DecideIs(cases, c, completed, planned, TotalOf(la, la.calls.Keys).known, TotalOf(lb, lb.calls.Keys).known);
    } else {
      DecideIs(cases, c, completed, planned, 0, 0);
    }
  }

  lemma DecideIs(cases: seq<Case>, c: Comparison, completed: nat, planned: nat, x: int, y: int)
    requires (c.eligible <==> c.reasons == []) && (c.eligible ==> Delta(c.change) == y - x)
    ensures var d := Decide(Transitions(Grounded(cases)), Transitions(Resolved(cases)), Some(c), completed, planned);
            && (d.NotComparable? <==> completed != planned || !c.eligible)
            && (d.NotComparable? ==> d.reasons == Obstacles(Some(c), completed, planned))
            && (d.Decided? ==> Judged(d, cases, x, y))
  {
    LossesAre(cases);
    hide Transitions, Resolved, Grounded, Delta, NoneLost, NoneGained;
  }

  /** Without a comparison a run is never decided. */
  lemma UndecidedWithout(g: Counts, q: Counts, completed: nat, planned: nat)
    ensures Decide(g, q, None, completed, planned) == NotComparable(Obstacles(None, completed, planned))
  {
  }
}
