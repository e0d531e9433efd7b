/** micro_mckp: the allocation as a grouped (multiple-choice) knapsack over
    the integer budget slots 0..budget. Every task is a group whose items are
    its estimated combinations; three per-slot arrays hold the best revenue,
    the number of tasks behind it and the task-to-combination map, and are
    updated in place while the slots are walked from the top down. */
module Mckp {
  import opened Model
  import opened Confidence
  import opened Estimator
  import opened Allocation

  /** The three per-slot arrays as values: budget_expected_revenue,
      budget_expected_correct and budget_do_tasks. */
  datatype Table = Table(revenue: seq<real>, correct: seq<int>, doTasks: seq<map<int, seq<Level>>>) {
    predicate Valid() {
      |correct| == |revenue| && |doTasks| == |revenue|
    }
  }

  /** Lines 27-31: every slot at zero with an empty map. */
  function EmptyTable(budget: nat): (t: Table)
    ensures t.Valid() && |t.revenue| == budget + 1
  {
    Table(seq(budget + 1, _ => 0.0), seq(budget + 1, _ => 0), seq(budget + 1, _ => map[]))
  }

  /** Lines 40-60: one result of task `id` tried at slot b. A result that
      does not fit below b or whose estimate is zero is skipped; otherwise,
      if it improves slot b, slot b takes the lower slot's revenue plus the
      estimate and its count plus one, the task is written into the lower
      slot's map in place and slot b gets a copy of that map. */
  function Relax(t: Table, b: nat, id: int, r: CombResult): (t': Table)
    requires t.Valid() && b < |t.revenue| && r.cost >= 0
    ensures t'.Valid() && |t'.revenue| == |t.revenue|
  {
    var lo := b - r.cost;
    if lo < 0 then t
    else if r.expectedRevenue == 0.0 then t
    else if t.revenue[lo] + r.expectedRevenue > t.revenue[b] then
      var m := t.doTasks[lo][id := r.levelComb];
      Table(t.revenue[b := t.revenue[lo] + r.expectedRevenue],
            t.correct[b := t.correct[lo] + 1],
            t.doTasks[lo := m][b := m])
    else t
  }

  /** Lines 39-60: all results of task `id`, in order, tried at slot b. */
  function RelaxAll(t: Table, b: nat, id: int, rs: seq<CombResult>): (t': Table)
    requires t.Valid() && b < |t.revenue| && NonNegativeCosts(rs)
    ensures t'.Valid() && |t'.revenue| == |t.revenue|
  {
    if rs == [] then t
    else
      var n := |rs| - 1;
      Relax(RelaxAll(t, b, id, rs[..n]), b, id, rs[n])
  }

  /** Lines 38-60: the slots from the top down to b, each trying all results
      of task `id`. */
  function Sweep(t: Table, id: int, rs: seq<CombResult>, b: nat): (t': Table)
    requires t.Valid() && 1 <= b <= |t.revenue| && NonNegativeCosts(rs)
    ensures t'.Valid() && |t'.revenue| == |t.revenue|
    decreases |t.revenue| - b
  {
    if b == |t.revenue| then t
    else RelaxAll(Sweep(t, id, rs, b + 1), b, id, rs)
  }

  /** Lines 27-60: the table after the tasks with ids `ids` and estimated
      results `results`, taken in list order, have been swept in. */
  function Fill(ids: seq<int>, results: seq<seq<CombResult>>, budget: nat): (t: Table)
    requires |results| == |ids| && forall p :: 0 <= p < |results| ==> NonNegativeCosts(results[p])
    ensures t.Valid() && |t.revenue| == budget + 1
  {
    if ids == [] then EmptyTable(budget)
    else
      var n := |ids| - 1;
      Sweep(Fill(ids[..n], results[..n], budget), ids[n], results[n], 1)
  }

  /** Sweeping in one more task. */
  lemma FillStep(ids: seq<int>, results: seq<seq<CombResult>>, budget: nat, p: nat)
    requires |results| == |ids| && forall q :: 0 <= q < |results| ==> NonNegativeCosts(results[q])
    requires p < |ids|
    ensures Fill(ids[..p + 1], results[..p + 1], budget) == Sweep(Fill(ids[..p], results[..p], budget), ids[p], results[p], 1)
  {
    assert ids[..p + 1][..p] == ids[..p] && results[..p + 1][..p] == results[..p];
  }

  function Ids(vs: seq<TaskView>): (ids: seq<int>)
    ensures |ids| == |vs| && forall p :: 0 <= p < |vs| ==> ids[p] == vs[p].id
  {
    seq(|vs|, p requires 0 <= p < |vs| => vs[p].id)
  }

  /** The table micro_mckp builds for the tasks `vs`. */
  function TableFor(vs: seq<TaskView>, table: LevelTable, maxAssign: int, budget: nat, draws: Draws): (t: Table)
    requires ConfidencesValid(vs) && table.Valid()
    ensures t.Valid() && |t.revenue| == budget + 1
  {
    AllEstimatesCosts(vs, table, maxAssign, draws);
    Fill(Ids(vs), AllEstimates(vs, table, maxAssign, draws), budget)
  }

  // ---------------------------------------------------------------------
  // What one relaxation does

  /** A result that does not fit below slot b, or whose estimate is zero,
      changes nothing; one that improves slot b sets slot b to the lower
      slot's revenue plus the estimate and to its count plus one, gives both
      slots the lower slot's map extended by the task, and leaves every other
      slot alone; one that does not improve slot b changes nothing. */
  lemma RelaxEffect(t: Table, b: nat, id: int, r: CombResult)
    requires t.Valid() && b < |t.revenue| && r.cost >= 0
    ensures b - r.cost < 0 || r.expectedRevenue == 0.0 ==> Relax(t, b, id, r) == t
    ensures var lo := b - r.cost; var t' := Relax(t, b, id, r);
      0 <= lo && r.expectedRevenue != 0.0 ==>
        if t.revenue[lo] + r.expectedRevenue > t.revenue[b] then
          && t'.revenue[b] == t.revenue[lo] + r.expectedRevenue
          && t'.correct[b] == t.correct[lo] + 1
          && t'.doTasks[b] == t'.doTasks[lo] == t.doTasks[lo][id := r.levelComb]
          && (forall s :: 0 <= s < |t.revenue| && s != b ==> t'.revenue[s] == t.revenue[s] && t'.correct[s] == t.correct[s])
          && (forall s :: 0 <= s < |t.revenue| && s != b && s != lo ==> t'.doTasks[s] == t.doTasks[s])
        else t' == t
  {
  }

  /** `t'` is `t` with no slot's revenue lower, and slot 0's revenue and
      count as they were. */
  ghost predicate Grows(t: Table, t': Table)
    requires t.Valid() && t'.Valid()
  {
    && |t'.revenue| == |t.revenue| > 0
    && (forall s :: 0 <= s < |t.revenue| ==> t.revenue[s] <= t'.revenue[s])
    && t'.revenue[0] == t.revenue[0] && t'.correct[0] == t.correct[0]
  }

  lemma GrowsTrans(t1: Table, t2: Table, t3: Table)
    requires t1.Valid() && t2.Valid() && t3.Valid()
    requires Grows(t1, t2) && Grows(t2, t3)
    ensures Grows(t1, t3)
  {
  }

  /** Relaxing a slot above 0 only ever raises that slot's revenue. */
  lemma RelaxGrows(t: Table, b: nat, id: int, r: CombResult)
    requires t.Valid() && 1 <= b < |t.revenue| && r.cost >= 0
    ensures Grows(t, Relax(t, b, id, r))
  {
  }

  lemma {:induction false} RelaxAllGrows(t: Table, b: nat, id: int, rs: seq<CombResult>)
    requires t.Valid() && 1 <= b < |t.revenue| && NonNegativeCosts(rs)
    ensures Grows(t, RelaxAll(t, b, id, rs))
  {
    if rs == [] {
    } else {
      var n := |rs| - 1;
      var t1 := RelaxAll(t, b, id, rs[..n]);
      RelaxAllGrows(t, b, id, rs[..n]);
      RelaxGrows(t1, b, id, rs[n]);
      GrowsTrans(t, t1, Relax(t1, b, id, rs[n]));
    }
  }

  lemma {:induction false} SweepGrows(t: Table, id: int, rs: seq<CombResult>, b: nat)
    requires t.Valid() && 1 <= b <= |t.revenue| && NonNegativeCosts(rs)
    ensures Grows(t, Sweep(t, id, rs, b))
    decreases |t.revenue| - b
  {
    if b < |t.revenue| {
      var t1 := Sweep(t, id, rs, b + 1);
      SweepGrows(t, id, rs, b + 1);
      RelaxAllGrows(t1, b, id, rs);
      GrowsTrans(t, t1, RelaxAll(t1, b, id, rs));
    }
  }

  /** Lines 27, 38 and 49-53: every revenue slot starts at 0 and only ever
      increases, so all stay non-negative; slot 0 is never updated, so its
      revenue and count stay 0. */
  lemma {:induction false} FillGrows(ids: seq<int>, results: seq<seq<CombResult>>, budget: nat)
    requires |results| == |ids| && forall p :: 0 <= p < |results| ==> NonNegativeCosts(results[p])
    ensures Grows(EmptyTable(budget), Fill(ids, results, budget))
    ensures var t := Fill(ids, results, budget);
      && (forall s :: 0 <= s <= budget ==> t.revenue[s] >= 0.0)
      && t.revenue[0] == 0.0 && t.correct[0] == 0
  {
    if ids != [] {
      var n := |ids| - 1;
      var t1 := Fill(ids[..n], results[..n], budget);
      FillGrows(ids[..n], results[..n], budget);
      SweepGrows(t1, ids[n], results[n], 1);
      GrowsTrans(EmptyTable(budget), t1, Sweep(t1, ids[n], results[n], 1));
    }
  }

  /** With budget 0 there is no slot to sweep: the table stays empty. */
  lemma {:induction false} FillZeroBudget(ids: seq<int>, results: seq<seq<CombResult>>)
    requires |results| == |ids| && forall p :: 0 <= p < |results| ==> NonNegativeCosts(results[p])
    ensures Fill(ids, results, 0) == EmptyTable(0)
  {
    if ids != [] {
      var n := |ids| - 1;
      FillZeroBudget(ids[..n], results[..n]);
    }
  }

  // ---------------------------------------------------------------------
  // What the maps record

  /** Every task in the map is mapped to a combination its real answers can
      be drawn for. */
  ghost predicate ChosenFit(chosen: map<int, seq<Level>>, answers: map<int, AnswerPools>) {
    forall id :: id in chosen ==> Drawable(chosen[id], answers, id)
  }

  ghost predicate SlotsFit(t: Table, answers: map<int, AnswerPools>) {
    forall s :: 0 <= s < |t.doTasks| ==> ChosenFit(t.doTasks[s], answers)
  }

  predicate ResultsFit(id: int, rs: seq<CombResult>, answers: map<int, AnswerPools>) {
    forall j :: 0 <= j < |rs| ==> Drawable(rs[j].levelComb, answers, id)
  }

  lemma {:induction false} RelaxAllFit(t: Table, b: nat, id: int, rs: seq<CombResult>, answers: map<int, AnswerPools>)
    requires t.Valid() && b < |t.revenue| && NonNegativeCosts(rs)
    requires SlotsFit(t, answers) && ResultsFit(id, rs, answers)
    ensures SlotsFit(RelaxAll(t, b, id, rs), answers)
  {
    if rs != [] {
      var n := |rs| - 1;
      RelaxAllFit(t, b, id, rs[..n], answers);
      assert Drawable(rs[n].levelComb, answers, id);
    }
  }

  lemma {:induction false} SweepFit(t: Table, id: int, rs: seq<CombResult>, b: nat, answers: map<int, AnswerPools>)
    requires t.Valid() && 1 <= b <= |t.revenue| && NonNegativeCosts(rs)
    requires SlotsFit(t, answers) && ResultsFit(id, rs, answers)
    ensures SlotsFit(Sweep(t, id, rs, b), answers)
    decreases |t.revenue| - b
  {
    if b < |t.revenue| {
      SweepFit(t, id, rs, b + 1, answers);
      RelaxAllFit(Sweep(t, id, rs, b + 1), b, id, rs, answers);
    }
  }

  lemma {:induction false} FillFit(ids: seq<int>, results: seq<seq<CombResult>>, budget: nat, answers: map<int, AnswerPools>)
    requires |results| == |ids| && forall p :: 0 <= p < |results| ==> NonNegativeCosts(results[p])
    requires forall p :: 0 <= p < |results| ==> ResultsFit(ids[p], results[p], answers)
    ensures SlotsFit(Fill(ids, results, budget), answers)
  {
    if ids != [] {
      var n := |ids| - 1;
      FillFit(ids[..n], results[..n], budget, answers);
      SweepFit(Fill(ids[..n], results[..n], budget), ids[n], results[n], 1, answers);
    }
  }

  /** Lines 40-60: every map of the table sends each task it holds to one of
      that task's estimated combinations, so to one its real answers can be
      drawn for. */
  lemma TableForFit(vs: seq<TaskView>, table: LevelTable, maxAssign: int, budget: nat, draws: Draws,
                    answers: map<int, AnswerPools>)
    requires ConfidencesValid(vs) && table.Valid()
    requires forall p :: 0 <= p < |vs| ==> Answerable(vs[p].id, vs[p].answers, answers)
    ensures SlotsFit(TableFor(vs, table, maxAssign, budget, draws), answers)
  {
    var all := AllEstimates(vs, table, maxAssign, draws);
    AllEstimatesCosts(vs, table, maxAssign, draws);
    forall p | 0 <= p < |all| ensures ResultsFit(Ids(vs)[p], all[p], answers) {
      EstimatesDrawable(vs[p], table, maxAssign, draws.difficulty(p), draws.Trials(p), answers);
    }
    FillFit(Ids(vs), all, budget, answers);
  }

  // ---------------------------------------------------------------------
  // best_budget

  /** `max` of a non-empty list. */
  function MaxOf(s: seq<real>): (m: real)
    requires |s| > 0
    ensures m in s && forall k :: 0 <= k < |s| ==> s[k] <= m
  {
    if |s| == 1 then s[0]
    else
      var m := MaxOf(s[..|s| - 1]);
      if s[|s| - 1] > m then s[|s| - 1] else m
  }

  /** `list.index(x)`: the first position holding x. */
  function FirstIndex(s: seq<real>, x: real): (k: nat)
    requires x in s
    ensures k < |s| && s[k] == x && forall j :: 0 <= j < k ==> s[j] != x
  {
    if s[0] == x then 0 else 1 + FirstIndex(s[1..], x)
  }

  /** `best` is a slot of maximum revenue and no earlier slot reaches it. */
  predicate IsBestSlot(s: seq<real>, best: nat) {
    && best < |s|
    && (forall k :: 0 <= k < |s| ==> s[k] <= s[best])
    && (forall k :: 0 <= k < best ==> s[k] < s[best])
  }

  /** Line 65: the first slot of maximum revenue. */
  function BestSlot(s: seq<real>): (best: nat)
    requires |s| > 0
    ensures IsBestSlot(s, best)
  {
    FirstIndex(s, MaxOf(s))
  }

  /** Only one slot is the first of maximum revenue. */
  lemma BestSlotUnique(s: seq<real>, a: nat, b: nat)
    requires IsBestSlot(s, a) && IsBestSlot(s, b)
    ensures a == b
  {
    assert s[a] == s[b];
  }

  // ---------------------------------------------------------------------
  // The staffing loop

  /** `budget_do_tasks[best_budget].get(task_id)`. */
  function Lookup(chosen: map<int, seq<Level>>, id: int): (c: Option<seq<Level>>)
    ensures c.Some? <==> id in chosen
    ensures c.Some? ==> c.value == chosen[id]
  {
    if id in chosen then Some(chosen[id]) else None
  }

  /** Lines 66-78: the verdict of every task, by list position, once the
      tasks in `chosen` are staffed with their combinations. */
  ghost function ChosenVerdicts(vs: seq<TaskView>, chosen: map<int, seq<Level>>, table: LevelTable,
                                answers: map<int, AnswerPools>, draws: Draws): (verdicts: seq<Verdict>)
    requires ConfidencesValid(vs) && table.Valid() && PicksValid(draws, answers) && ChosenFit(chosen, answers)
    ensures |verdicts| == |vs|
  {
    seq(|vs|, p requires 0 <= p < |vs| => Decide(vs[p], p, Lookup(chosen, vs[p].id), table, answers, draws))
  }

  /** A task missing from the chosen map keeps its confidence and is not
      solved; a chosen one is solved exactly when its new confidence reaches
      THRESHOLD. */
  lemma ChosenVerdictsFacts(vs: seq<TaskView>, chosen: map<int, seq<Level>>, table: LevelTable,
                            answers: map<int, AnswerPools>, draws: Draws)
    requires ConfidencesValid(vs) && table.Valid() && PicksValid(draws, answers) && ChosenFit(chosen, answers)
    ensures var verdicts := ChosenVerdicts(vs, chosen, table, answers, draws);
      forall p :: 0 <= p < |vs| ==>
        && 0.0 <= verdicts[p].confidence <= 1.0
        && (vs[p].id !in chosen ==> verdicts[p] == Verdict(vs[p].confidence, false))
        && (vs[p].id in chosen ==>
              verdicts[p].confidence == Staffed(vs[p], p, chosen[vs[p].id], table, answers, draws)
              && (verdicts[p].solved <==> verdicts[p].confidence >= THRESHOLD))
  {
  }

  /** The verdicts of micro_mckp: the tasks of the map at the best slot of
      the table are staffed. */
  ghost function MckpVerdicts(vs: seq<TaskView>, table: LevelTable, maxAssign: int, budget: nat,
                              answers: map<int, AnswerPools>, draws: Draws): seq<Verdict>
    requires ConfidencesValid(vs) && table.Valid() && DrawsFit(vs, answers, draws)
  {
    TableForFit(vs, table, maxAssign, budget, draws, answers);
    var t := TableFor(vs, table, maxAssign, budget, draws);
    ChosenVerdicts(vs, t.doTasks[BestSlot(t.revenue)], table, answers, draws)
  }

  /** The running sums after the first k tasks of the staffing loop. */
  ghost predicate Tallied(vs: seq<TaskView>, verdicts: seq<Verdict>, k: nat, revenueSum: real, correctCnt: int)
    requires |verdicts| == |vs| && k <= |vs|
  {
    && revenueSum == SolvedRevenue(RevenuesAlong(vs, Range(|vs|)[..k]), SolvedFlags(verdicts[..k]))
    && correctCnt == SolvedCount(SolvedFlags(verdicts[..k]))
  }

  lemma TalliedStep(vs: seq<TaskView>, verdicts: seq<Verdict>, k: nat, revenueSum: real, correctCnt: int,
                    revenueSum': real, correctCnt': int)
    requires |verdicts| == |vs| && k < |vs|
    requires Tallied(vs, verdicts, k, revenueSum, correctCnt)
    requires revenueSum' == if verdicts[k].solved then revenueSum + vs[k].revenue else revenueSum
    requires correctCnt' == if verdicts[k].solved then correctCnt + 1 else correctCnt
    ensures Tallied(vs, verdicts, k + 1, revenueSum', correctCnt')
  {
    TallyStep(vs, Range(|vs|), verdicts[..k], k, verdicts[k]);
    assert verdicts[..k] + [verdicts[k]] == verdicts[..k + 1];
  }

  /** Line 38 with budget 0: no slot is swept, slot 0 is the best and its
      map is empty, so no task is staffed, every task keeps its confidence
      unsolved and both sums are zero. */
  lemma ZeroBudgetStaffsNothing(vs: seq<TaskView>, table: LevelTable, maxAssign: int,
                                answers: map<int, AnswerPools>, draws: Draws)
    requires ConfidencesValid(vs) && table.Valid() && DrawsFit(vs, answers, draws)
    ensures var t := TableFor(vs, table, maxAssign, 0, draws);
            var verdicts := MckpVerdicts(vs, table, maxAssign, 0, answers, draws);
      && BestSlot(t.revenue) == 0
      && t.doTasks[0] == map[]
      && (forall p :: 0 <= p < |vs| ==> verdicts[p] == Verdict(vs[p].confidence, false))
      && SolvedCount(SolvedFlags(verdicts)) == 0
      && SolvedRevenue(RevenuesAlong(vs, Range(|vs|)), SolvedFlags(verdicts)) == 0.0
  {
    AllEstimatesCosts(vs, table, maxAssign, draws);
    var t := TableFor(vs, table, maxAssign, 0, draws);
    FillZeroBudget(Ids(vs), AllEstimates(vs, table, maxAssign, draws));
    assert t.revenue == [0.0];
    BestSlotUnique(t.revenue, 0, BestSlot(t.revenue));
    TableForFit(vs, table, maxAssign, 0, draws, answers);
    var verdicts := ChosenVerdicts(vs, t.doTasks[0], table, answers, draws);
    NothingSolved(RevenuesAlong(vs, Range(|vs|)), SolvedFlags(verdicts));
  }

  lemma RelaxAllOne(t: Table, b: nat, id: int, r: CombResult)
    requires t.Valid() && b < |t.revenue| && r.cost >= 0
    ensures RelaxAll(t, b, id, [r]) == Relax(t, b, id, r)
  {
    assert [r][..0] == [];
  }

  /** The first task of the example below: it lands in slot 2, and line 57
      also leaves it in slot 0's map. */
  lemma LeakFirstTask(a: CombResult)
    requires a.cost == 2 && a.expectedRevenue == 10.0
    ensures Fill([1], [[a]], 2)
      == Table([0.0, 0.0, 10.0], [0, 0, 1], [map[1 := a.levelComb], map[], map[1 := a.levelComb]])
  {
    var t0 := EmptyTable(2);
    var t1 := Table([0.0, 0.0, 10.0], [0, 0, 1], [map[1 := a.levelComb], map[], map[1 := a.levelComb]]);
    assert t0 == Table([0.0, 0.0, 0.0], [0, 0, 0], [map[], map[], map[]]);
    RelaxAllOne(t0, 2, 1, a);
    RelaxAllOne(t1, 1, 1, a);
    assert Sweep(t0, 1, [a], 2) == t1;
    assert [1][..0] == [] && [[a]][..0] == [];
  }

  /** The second task of the example below: slot 2 takes it over slot 1,
      then slot 1 takes it over slot 0, whose map already holds the first
      task. */
  lemma LeakSecondTask(a: CombResult, b: CombResult)
    requires b.cost == 1 && b.expectedRevenue == 20.0
    ensures var t1 := Table([0.0, 0.0, 10.0], [0, 0, 1], [map[1 := a.levelComb], map[], map[1 := a.levelComb]]);
            var both := map[1 := a.levelComb, 2 := b.levelComb];
      Sweep(t1, 2, [b], 1) == Table([0.0, 20.0, 20.0], [0, 1, 1], [both, both, map[2 := b.levelComb]])
  {
    var t1 := Table([0.0, 0.0, 10.0], [0, 0, 1], [map[1 := a.levelComb], map[], map[1 := a.levelComb]]);
    var t2 := Table([0.0, 0.0, 20.0], [0, 0, 1], [map[1 := a.levelComb], map[2 := b.levelComb], map[2 := b.levelComb]]);
    RelaxAllOne(t1, 2, 2, b);
    RelaxAllOne(t2, 1, 2, b);
    assert Sweep(t1, 2, [b], 2) == t2;
  }

  /** Line 57 writes the task into the lower slot's map in place before line
      60 copies that map up, so the lower slot keeps the entry. With budget 2,
      a task (id 1) whose only result costs 2 with estimate 10, followed by a
      task (id 2) whose only result costs 1 with estimate 20, leave slot 1 as
      the first best slot holding both tasks: the combinations staffed cost 3
      while the remaining budget is reported as 1. */
  lemma LowerSlotLeak(a: CombResult, b: CombResult)
    requires a.cost == 2 && a.expectedRevenue == 10.0
    requires b.cost == 1 && b.expectedRevenue == 20.0
    ensures var t := Fill([1, 2], [[a], [b]], 2);
      && t.revenue == [0.0, 20.0, 20.0]
      && BestSlot(t.revenue) == 1
      && t.doTasks[1] == map[1 := a.levelComb, 2 := b.levelComb]
      && a.cost + b.cost > BestSlot(t.revenue)
      && 2 - BestSlot(t.revenue) == 1
  {
    LeakFirstTask(a);
    LeakSecondTask(a, b);
    assert [1, 2][..1] == [1] && [[a], [b]][..1] == [[a]];
    var t := Fill([1, 2], [[a], [b]], 2);
    BestSlotUnique(t.revenue, 1, BestSlot(t.revenue));
  }

  // ---------------------------------------------------------------------
  // The imperative algorithm

  function Snapshot(revenue: array<real>, correct: array<int>, doTasks: array<map<int, seq<Level>>>): Table
    reads revenue, correct, doTasks
  {
    Table(revenue[..], correct[..], doTasks[..])
  }

  /** Lines 40-60 for one result at slot b. */
  method RelaxSlot(revenue: array<real>, correct: array<int>, doTasks: array<map<int, seq<Level>>>,
                   b: nat, taskId: int, result: CombResult)
    requires correct.Length == revenue.Length && doTasks.Length == revenue.Length
    requires b < revenue.Length && result.cost >= 0
    modifies revenue, correct, doTasks
    ensures Snapshot(revenue, correct, doTasks) == Relax(old(Snapshot(revenue, correct, doTasks)), b, taskId, result)
  {
    var cost := result.cost;
    var expectedRevenue := result.expectedRevenue;
    if b - cost < 0 {
      return;
    }
    if expectedRevenue == 0.0 {
      return;
    }
    if revenue[b - cost] + expectedRevenue > revenue[b] {
      revenue[b] := revenue[b - cost] + expectedRevenue;
      correct[b] := correct[b - cost] + 1;
      doTasks[b - cost] := doTasks[b - cost][taskId := result.levelComb];
      doTasks[b] := doTasks[b - cost];
    }
  }

  /** Lines 39-60: every result of the task at slot b. */
  method RelaxResults(revenue: array<real>, correct: array<int>, doTasks: array<map<int, seq<Level>>>,
                      b: nat, taskId: int, results: seq<CombResult>)
    requires correct.Length == revenue.Length && doTasks.Length == revenue.Length
    requires b < revenue.Length && NonNegativeCosts(results)
    modifies revenue, correct, doTasks
    ensures Snapshot(revenue, correct, doTasks) == RelaxAll(old(Snapshot(revenue, correct, doTasks)), b, taskId, results)
  {
    ghost var t0 := Snapshot(revenue, correct, doTasks);
    for j := 0 to |results|
      invariant Snapshot(revenue, correct, doTasks) == RelaxAll(t0, b, taskId, results[..j])
    {
      RelaxSlot(revenue, correct, doTasks, b, taskId, results[j]);
      assert results[..j + 1][..j] == results[..j];
    }
    assert results[..|results|] == results;
  }

  /** Lines 38-60: one task swept in, slot `budget` down to slot 1. */
  method SweepSlots(revenue: array<real>, correct: array<int>, doTasks: array<map<int, seq<Level>>>,
                    taskId: int, results: seq<CombResult>)
    requires correct.Length == revenue.Length && doTasks.Length == revenue.Length
    requires revenue.Length > 0 && NonNegativeCosts(results)
    modifies revenue, correct, doTasks
    ensures Snapshot(revenue, correct, doTasks) == Sweep(old(Snapshot(revenue, correct, doTasks)), taskId, results, 1)
  {
    ghost var t0 := Snapshot(revenue, correct, doTasks);
    for b := revenue.Length downto 1
      invariant Snapshot(revenue, correct, doTasks) == Sweep(t0, taskId, results, b)
    {
      RelaxResults(revenue, correct, doTasks, b, taskId, results);
    }
  }

  /** Lines 27-60: the table for all tasks, in list order. */
  method BuildTable(tasks: seq<Task>, levels: LevelsDict, maxAssign: int, budget: nat, draws: Draws, ghost vs: seq<TaskView>)
    returns (revenue: array<real>, correct: array<int>, doTasks: array<map<int, seq<Level>>>)
    requires |vs| == |tasks| && ConfidencesValid(vs) && levels.table.Valid() && DifficultiesValid(draws)
    requires forall p :: 0 <= p < |tasks| ==> tasks[p].View() == vs[p]
    modifies levels
    ensures fresh(revenue) && fresh(correct) && fresh(doTasks)
    ensures Snapshot(revenue, correct, doTasks) == TableFor(vs, levels.table, maxAssign, budget, draws)
    ensures levels.trueRatio == LastRatios(levels.table, draws.difficulty, Range(|tasks|), old(levels.trueRatio))
  {
    revenue := new real[budget + 1](_ => 0.0);
    correct := new int[budget + 1](_ => 0);
    doTasks := new map<int, seq<Level>>[budget + 1](_ => map[]);
    ghost var ids := Ids(vs);
    ghost var all := AllEstimates(vs, levels.table, maxAssign, draws);
    AllEstimatesCosts(vs, levels.table, maxAssign, draws);
    assert Snapshot(revenue, correct, doTasks) == EmptyTable(budget);
    for p := 0 to |tasks|
      invariant revenue.Length == budget + 1 && correct.Length == budget + 1 && doTasks.Length == budget + 1
      invariant Snapshot(revenue, correct, doTasks) == Fill(ids[..p], all[..p], budget)
      invariant levels.trueRatio == LastRatios(levels.table, draws.difficulty, Range(|tasks|)[..p], old(levels.trueRatio))
    {
      var results := MicroOptimization(tasks[p], levels, maxAssign, draws.difficulty(p), draws.Trials(p));
      assert results == all[p];
      SweepSlots(revenue, correct, doTasks, tasks[p].id, results);
      FillStep(ids, all, budget, p);
      assert Range(|tasks|)[..p + 1][p] == p;
    }
    assert ids[..|tasks|] == ids && all[..|tasks|] == all;
    assert Range(|tasks|)[..|tasks|] == Range(|tasks|);
  }

  /** Line 65: `budget_expected_revenue.index(max(budget_expected_revenue))`. */
  method BestBudget(revenue: array<real>) returns (best: nat)
    requires revenue.Length > 0
    ensures best == BestSlot(revenue[..])
  {
    var m := revenue[0];
    for b := 1 to revenue.Length
      invariant m in revenue[..b] && forall k :: 0 <= k < b ==> revenue[k] <= m
    {
      if revenue[b] > m {
        m := revenue[b];
      }
    }
    best := 0;
    while revenue[best] != m
      invariant best < revenue.Length && m in revenue[best..]
      invariant forall k :: 0 <= k < best ==> revenue[k] != m
      decreases revenue.Length - best
    {
      best := best + 1;
    }
    BestSlotUnique(revenue[..], best, BestSlot(revenue[..]));
  }

  /** Lines 66-78: the tasks in the chosen map are staffed with their
      combinations, in list order, and the solved ones are tallied. */
  method StaffChosen(tasks: seq<Task>, chosen: map<int, seq<Level>>, levels: LevelsDict,
                     answers: map<int, AnswerPools>, draws: Draws, ghost vs: seq<TaskView>)
    returns (revenueSum: real, correctCnt: int)
    requires Distinct(tasks) && |vs| == |tasks| && ConfidencesValid(vs) && levels.table.Valid()
    requires PicksValid(draws, answers) && ChosenFit(chosen, answers)
    requires forall p :: 0 <= p < |tasks| ==> tasks[p].View() == vs[p] && !tasks[p].isSolved
    modifies tasks
    ensures var verdicts := ChosenVerdicts(vs, chosen, levels.table, answers, draws);
      && (forall p :: 0 <= p < |tasks| ==> Verdict(tasks[p].confidence, tasks[p].isSolved) == verdicts[p])
      && revenueSum == SolvedRevenue(RevenuesAlong(vs, Range(|vs|)), SolvedFlags(verdicts))
      && correctCnt == SolvedCount(SolvedFlags(verdicts))
    ensures forall p :: 0 <= p < |tasks| ==> tasks[p].originExpRevenue == old(tasks[p].originExpRevenue)
  {
    ghost var verdicts := ChosenVerdicts(vs, chosen, levels.table, answers, draws);
    revenueSum := 0.0;
    correctCnt := 0;
    for p := 0 to |tasks|
      invariant forall q :: 0 <= q < p ==> Verdict(tasks[q].confidence, tasks[q].isSolved) == verdicts[q]
      invariant forall q :: p <= q < |tasks| ==> tasks[q].View() == vs[q] && !tasks[q].isSolved
      invariant forall q :: 0 <= q < |tasks| ==> tasks[q].originExpRevenue == old(tasks[q].originExpRevenue)
      invariant Tallied(vs, verdicts, p, revenueSum, correctCnt)
    {
      var task := tasks[p];
      if task.id !in chosen {
        TalliedStep(vs, verdicts, p, revenueSum, correctCnt, revenueSum, correctCnt);
        continue;
      }
      var levelComb := chosen[task.id];
      var solved := StaffTask(task, p, levelComb, levels, answers, draws);
      ghost var revenueSum0, correctCnt0 := revenueSum, correctCnt;
      if solved {
        revenueSum := revenueSum + task.revenue;
        correctCnt := correctCnt + 1;
      }
      TalliedStep(vs, verdicts, p, revenueSum0, correctCnt0, revenueSum, correctCnt);
    }
    assert Range(|vs|)[..|vs|] == Range(|vs|) && verdicts[..|vs|] == verdicts;
  }

  /** Lines 27-84 once every task is marked unsolved. */
  method PlanAndStaff(tasks: seq<Task>, levels: LevelsDict, answers: map<int, AnswerPools>,
                      maxAssign: int, budget: nat, draws: Draws, ghost vs: seq<TaskView>) returns (outcome: Outcome)
    requires Distinct(tasks) && |vs| == |tasks| && ConfidencesValid(vs) && levels.table.Valid()
    requires DrawsFit(vs, answers, draws)
    requires forall p :: 0 <= p < |tasks| ==> tasks[p].View() == vs[p] && !tasks[p].isSolved
    modifies tasks, levels
    ensures var t := TableFor(vs, levels.table, maxAssign, budget, draws);
            var best := BestSlot(t.revenue);
            var verdicts := MckpVerdicts(vs, levels.table, maxAssign, budget, answers, draws);
      && outcome.remainingBudget == budget - best
      && (forall p :: 0 <= p < |tasks| ==> Verdict(tasks[p].confidence, tasks[p].isSolved) == verdicts[p])
      && outcome.revenueSum == SolvedRevenue(RevenuesAlong(vs, Range(|vs|)), SolvedFlags(verdicts))
      && outcome.correctCnt == SolvedCount(SolvedFlags(verdicts))
    ensures forall p :: 0 <= p < |tasks| ==> tasks[p].originExpRevenue == old(tasks[p].originExpRevenue)
    ensures levels.trueRatio == LastRatios(levels.table, draws.difficulty, Range(|tasks|), old(levels.trueRatio))
  {
    var revenue, correct, doTasks := BuildTable(tasks, levels, maxAssign, budget, draws, vs);
    ghost var t := TableFor(vs, levels.table, maxAssign, budget, draws);
    assert revenue[..] == t.revenue && doTasks[..] == t.doTasks;
    var best := BestBudget(revenue);
    assert doTasks[best] == t.doTasks[best];
    TableForFit(vs, levels.table, maxAssign, budget, draws, answers);
    var revenueSum, correctCnt := StaffChosen(tasks, doTasks[best], levels, answers, draws, vs);
    outcome := Outcome(revenueSum, correctCnt, budget - best);
  }

  /** micro_mckp. `draws` holds the random numbers of the call: per task
      position, the difficulty and the trial draws of the estimator and the
      answer picks of gen_true_conf. The budget must not be negative: with a
      negative budget the revenue list is empty and line 65 fails. */
  method MicroMckp(tasks: seq<Task>, levels: LevelsDict, answers: map<int, AnswerPools>,
                   maxAssign: int, budget: int, draws: Draws) returns (outcome: Outcome)
    requires budget >= 0
    requires Distinct(tasks) && ConfidencesValid(Views(tasks)) && levels.table.Valid()
    requires DrawsFit(Views(tasks), answers, draws)
    modifies tasks, levels
    ensures var vs := old(Views(tasks));
            var t := TableFor(vs, levels.table, maxAssign, budget, draws);
            var best := BestSlot(t.revenue);
            var verdicts := MckpVerdicts(vs, levels.table, maxAssign, budget, answers, draws);
      && outcome.remainingBudget == budget - best
      && (forall p :: 0 <= p < |tasks| ==> Verdict(tasks[p].confidence, tasks[p].isSolved) == verdicts[p])
      && outcome.revenueSum == SolvedRevenue(RevenuesAlong(vs, Range(|vs|)), SolvedFlags(verdicts))
      && outcome.correctCnt == SolvedCount(SolvedFlags(verdicts))
    ensures 0 <= outcome.remainingBudget <= budget
    ensures outcome.correctCnt == SolvedCount(SolvedOf(tasks))
    ensures forall p :: 0 <= p < |tasks| ==>
      0.0 <= tasks[p].confidence <= 1.0 && (tasks[p].isSolved ==> tasks[p].confidence >= THRESHOLD)
    ensures forall p :: 0 <= p < |tasks| ==> tasks[p].originExpRevenue == old(tasks[p].originExpRevenue)
    ensures levels.trueRatio == LastRatios(levels.table, draws.difficulty, Range(|tasks|), old(levels.trueRatio))
  {
    ghost var vs := Views(tasks);
    ClearSolved(tasks);
    assert Views(tasks) == vs;
    outcome := PlanAndStaff(tasks, levels, answers, maxAssign, budget, draws, vs);
    ghost var t := TableFor(vs, levels.table, maxAssign, budget, draws);
    TableForFit(vs, levels.table, maxAssign, budget, draws, answers);
    ghost var verdicts := ChosenVerdicts(vs, t.doTasks[BestSlot(t.revenue)], levels.table, answers, draws);
    ChosenVerdictsFacts(vs, t.doTasks[BestSlot(t.revenue)], levels.table, answers, draws);
    assert SolvedFlags(verdicts) == SolvedOf(tasks);
  }
}
