/** macro_uniform: the baseline that staffs every task with the same level
    combination, taking the tasks by their expected revenue before any
    answer (confidence times revenue), highest first. */
module Uniform {
  import opened Model
  import opened Confidence
  import opened Ordering
  import opened Allocation

  /** `origin_exp_revenue`: the task's confidence times its revenue. */
  function OriginExpRevenue(v: TaskView): real {
    v.confidence * v.revenue
  }

  function ExpRevenueKeys(vs: seq<TaskView>): (ks: seq<Key>)
    ensures |ks| == |vs| && forall p :: 0 <= p < |vs| ==> ks[p] == Key(-OriginExpRevenue(vs[p]), 0.0, p)
  {
    seq(|vs|, p requires 0 <= p < |vs| => Key(-OriginExpRevenue(vs[p]), 0.0, p))
  }

  /** Lines 28-29: the positions of the tasks sorted by expected revenue,
      highest first (a stable sort, so equal values keep their list order). */
  function UniformOrder(vs: seq<TaskView>): (order: seq<nat>)
    ensures |order| == |vs| && InRange(order, |vs|)
  {
    OrderBy(ExpRevenueKeys(vs))
  }

  /** The order visits every task exactly once, by non-increasing
      confidence times revenue, and equal values in list order. */
  lemma UniformOrderFacts(vs: seq<TaskView>)
    ensures multiset(UniformOrder(vs)) == multiset(Range(|vs|))
    ensures forall p :: 0 <= p < |vs| ==> p in UniformOrder(vs)
    ensures forall a, b :: 0 <= a < b < |vs| ==> UniformOrder(vs)[a] != UniformOrder(vs)[b]
    ensures forall a, b :: 0 <= a < b < |vs| ==>
      OriginExpRevenue(vs[UniformOrder(vs)[a]]) >= OriginExpRevenue(vs[UniformOrder(vs)[b]])
    ensures forall a, b :: 0 <= a < b < |vs| ==>
      (OriginExpRevenue(vs[UniformOrder(vs)[a]]) == OriginExpRevenue(vs[UniformOrder(vs)[b]]) ==>
       UniformOrder(vs)[a] < UniformOrder(vs)[b])
  {
    OrderByFacts(ExpRevenueKeys(vs));
  }

  /** Every task is staffed with `levelComb`, so every task needs real
      answers at each of its levels, and the picks land inside them. */
  ghost predicate UniformFit(vs: seq<TaskView>, levelComb: seq<Level>, answers: map<int, AnswerPools>, draws: Draws) {
    && PicksValid(draws, answers)
    && forall p :: 0 <= p < |vs| ==> Drawable(levelComb, answers, vs[p].id)
  }

  /** The verdict of every task, by list position, once it is staffed with
      `levelComb`. */
  ghost function UniformVerdicts(vs: seq<TaskView>, levelComb: seq<Level>, table: LevelTable,
                                 answers: map<int, AnswerPools>, draws: Draws): (verdicts: seq<Verdict>)
    requires ConfidencesValid(vs) && table.Valid() && UniformFit(vs, levelComb, answers, draws)
    ensures |verdicts| == |vs|
  {
    seq(|vs|, p requires 0 <= p < |vs| => Decide(vs[p], p, Some(levelComb), table, answers, draws))
  }

  /** Every task gets one update with the same combination, and is solved
      exactly when its new confidence reaches THRESHOLD. */
  lemma UniformVerdictsFacts(vs: seq<TaskView>, levelComb: seq<Level>, table: LevelTable,
                             answers: map<int, AnswerPools>, draws: Draws)
    requires ConfidencesValid(vs) && table.Valid() && UniformFit(vs, levelComb, answers, draws)
    ensures var verdicts := UniformVerdicts(vs, levelComb, table, answers, draws);
      forall p :: 0 <= p < |vs| ==>
        && verdicts[p].confidence == Staffed(vs[p], p, levelComb, table, answers, draws)
        && 0.0 <= verdicts[p].confidence <= 1.0
        && (verdicts[p].solved <==> verdicts[p].confidence >= THRESHOLD)
  {
  }

  /** Lines 24-26: every task unsolved, with its expected revenue recorded. */
  method Prepare(tasks: seq<Task>)
    modifies tasks
    ensures forall p :: 0 <= p < |tasks| ==> !tasks[p].isSolved && tasks[p].confidence == old(tasks[p].confidence)
    ensures forall p :: 0 <= p < |tasks| ==> tasks[p].originExpRevenue == OriginExpRevenue(tasks[p].View())
  {
    for p := 0 to |tasks|
      invariant forall q :: 0 <= q < |tasks| ==> tasks[q].confidence == old(tasks[q].confidence)
      invariant forall q :: 0 <= q < p ==> !tasks[q].isSolved && tasks[q].originExpRevenue == OriginExpRevenue(tasks[q].View())
    {
      tasks[p].isSolved := false;
      tasks[p].originExpRevenue := tasks[p].confidence * tasks[p].revenue;
    }
  }

  /** The loop state after the first k tasks of `order` are staffed: the
      verdict of each task by position, and the two running sums. */
  ghost predicate StaffedUpTo(vs: seq<TaskView>, verdicts: seq<Verdict>, order: seq<nat>, k: nat,
                              state: seq<Verdict>, revenueSum: real, correctCnt: int)
    requires |verdicts| == |vs| && InRange(order, |vs|) && k <= |order|
  {
    && |state| == |vs|
    && Progress(state, vs, order, Select(verdicts, order)[..k], k)
    && revenueSum == SolvedRevenue(RevenuesAlong(vs, order[..k]), SolvedFlags(Select(verdicts, order)[..k]))
    && correctCnt == SolvedCount(SolvedFlags(Select(verdicts, order)[..k]))
  }

  lemma StaffedUpToStep(vs: seq<TaskView>, verdicts: seq<Verdict>, order: seq<nat>, k: nat,
                        state: seq<Verdict>, revenueSum: real, correctCnt: int, revenueSum': real, correctCnt': int)
    requires |verdicts| == |vs| && InRange(order, |vs|) && k < |order|
    requires forall a, b :: 0 <= a < b < |order| ==> order[a] != order[b]
    requires StaffedUpTo(vs, verdicts, order, k, state, revenueSum, correctCnt)
    requires revenueSum' == if verdicts[order[k]].solved then revenueSum + vs[order[k]].revenue else revenueSum
    requires correctCnt' == if verdicts[order[k]].solved then correctCnt + 1 else correctCnt
    ensures StaffedUpTo(vs, verdicts, order, k + 1, state[order[k] := verdicts[order[k]]], revenueSum', correctCnt')
  {
    var along := Select(verdicts, order);
    ProgressStep(state, vs, order, along[..k], k, along[k]);
    TallyStep(vs, order, along[..k], k, along[k]);
    assert along[..k] + [along[k]] == along[..k + 1];
  }

  lemma StaffedUpToDone(vs: seq<TaskView>, verdicts: seq<Verdict>, order: seq<nat>,
                        state: seq<Verdict>, revenueSum: real, correctCnt: int)
    requires |verdicts| == |vs| && InRange(order, |vs|)
    requires StaffedUpTo(vs, verdicts, order, |order|, state, revenueSum, correctCnt)
    ensures forall m :: 0 <= m < |order| ==> state[order[m]] == verdicts[order[m]]
    ensures revenueSum == SolvedRevenue(RevenuesAlong(vs, order), SolvedFlags(Select(verdicts, order)))
    ensures correctCnt == SolvedCount(SolvedFlags(Select(verdicts, order)))
  {
    var along := Select(verdicts, order);
    assert order[..|order|] == order && along[..|order|] == along;
    ProgressDone(state, vs, order, along);
  }

  /** One iteration of lines 30-41: task order[k] staffed with `levelComb`
      and tallied when solved. */
  method StaffNext(tasks: seq<Task>, order: seq<nat>, k: nat, levelComb: seq<Level>, levels: LevelsDict,
                   answers: map<int, AnswerPools>, draws: Draws, ghost vs: seq<TaskView>, ghost verdicts: seq<Verdict>,
                   revenueSum: real, correctCnt: int, ghost state: seq<Verdict>)
    returns (revenueSum': real, correctCnt': int, ghost state': seq<Verdict>)
    requires Distinct(tasks) && |vs| == |tasks| && ConfidencesValid(vs) && levels.table.Valid()
    requires UniformFit(vs, levelComb, answers, draws)
    requires forall p :: 0 <= p < |tasks| ==>
      tasks[p].id == vs[p].id && tasks[p].revenue == vs[p].revenue && tasks[p].answers == vs[p].answers
    requires InRange(order, |vs|) && k < |order|
    requires forall a, b :: 0 <= a < b < |order| ==> order[a] != order[b]
    requires |verdicts| == |vs|
    requires verdicts[order[k]] == Decide(vs[order[k]], order[k], Some(levelComb), levels.table, answers, draws)
    requires |state| == |tasks|
    requires forall p :: 0 <= p < |tasks| ==> Verdict(tasks[p].confidence, tasks[p].isSolved) == state[p]
    requires StaffedUpTo(vs, verdicts, order, k, state, revenueSum, correctCnt)
    modifies tasks
    ensures |state'| == |tasks|
    ensures forall p :: 0 <= p < |tasks| ==> Verdict(tasks[p].confidence, tasks[p].isSolved) == state'[p]
    ensures forall p :: 0 <= p < |tasks| ==> tasks[p].originExpRevenue == old(tasks[p].originExpRevenue)
    ensures StaffedUpTo(vs, verdicts, order, k + 1, state', revenueSum', correctCnt')
  {
    var p := order[k];
    var task := tasks[p];
    assert state[p] == Verdict(vs[p].confidence, false) by {
      assert Progress(state, vs, order, Select(verdicts, order)[..k], k);
    }
    assert task.View() == vs[p];
    var solved := StaffTask(task, p, levelComb, levels, answers, draws);
    state' := state[p := verdicts[p]];
    revenueSum', correctCnt' := revenueSum, correctCnt;
    if solved {
      revenueSum' := revenueSum + task.revenue;
      correctCnt' := correctCnt + 1;
    }
    StaffedUpToStep(vs, verdicts, order, k, state, revenueSum, correctCnt, revenueSum', correctCnt');
  }

  /** Lines 30-41: the tasks staffed with `levelComb` in `order`, the solved
      ones tallied. */
  method StaffInOrder(tasks: seq<Task>, order: seq<nat>, levelComb: seq<Level>, levels: LevelsDict,
                      answers: map<int, AnswerPools>, draws: Draws, ghost vs: seq<TaskView>)
    returns (revenueSum: real, correctCnt: int)
    requires Distinct(tasks) && |vs| == |tasks| && ConfidencesValid(vs) && levels.table.Valid()
    requires UniformFit(vs, levelComb, answers, draws)
    requires forall p :: 0 <= p < |tasks| ==> tasks[p].View() == vs[p] && !tasks[p].isSolved
    requires InRange(order, |vs|)
    requires forall a, b :: 0 <= a < b < |order| ==> order[a] != order[b]
    modifies tasks
    ensures var verdicts := UniformVerdicts(vs, levelComb, levels.table, answers, draws);
      && (forall m :: 0 <= m < |order| ==>
            Verdict(tasks[order[m]].confidence, tasks[order[m]].isSolved) == verdicts[order[m]])
      && revenueSum == SolvedRevenue(RevenuesAlong(vs, order), SolvedFlags(Select(verdicts, order)))
      && correctCnt == SolvedCount(SolvedFlags(Select(verdicts, order)))
    ensures forall p :: 0 <= p < |tasks| ==> tasks[p].originExpRevenue == old(tasks[p].originExpRevenue)
  {
    ghost var verdicts := UniformVerdicts(vs, levelComb, levels.table, answers, draws);
    ghost var state := seq(|tasks|, p requires 0 <= p < |tasks| => Verdict(vs[p].confidence, false));
    revenueSum := 0.0;
    correctCnt := 0;
    assert order[..0] == [] && Select(verdicts, order)[..0] == [];
    for k := 0 to |order|
      invariant |state| == |tasks|
      invariant forall p :: 0 <= p < |tasks| ==>
        tasks[p].id == vs[p].id && tasks[p].revenue == vs[p].revenue && tasks[p].answers == vs[p].answers
      invariant forall p :: 0 <= p < |tasks| ==> Verdict(tasks[p].confidence, tasks[p].isSolved) == state[p]
      invariant forall p :: 0 <= p < |tasks| ==> tasks[p].originExpRevenue == old(tasks[p].originExpRevenue)
      invariant StaffedUpTo(vs, verdicts, order, k, state, revenueSum, correctCnt)
    {
      revenueSum, correctCnt, state :=
        StaffNext(tasks, order, k, levelComb, levels, answers, draws, vs, verdicts, revenueSum, correctCnt, state);
    }
    StaffedUpToDone(vs, verdicts, order, state, revenueSum, correctCnt);
  }

  /** Lines 28-29: `sorted` by the recorded expected revenue, descending. */
  method SortByExpRevenue(tasks: seq<Task>, ghost vs: seq<TaskView>) returns (order: seq<nat>)
    requires |vs| == |tasks| && forall p :: 0 <= p < |tasks| ==> tasks[p].originExpRevenue == OriginExpRevenue(vs[p])
    ensures order == UniformOrder(vs)
  {
    var keys := seq(|tasks|, p requires 0 <= p < |tasks| reads tasks => Key(-tasks[p].originExpRevenue, 0.0, p));
    assert keys == ExpRevenueKeys(vs);
    order := OrderBy(keys);
  }

  /** macro_uniform. `draws` holds the answer picks of gen_true_conf for the
      task at each list position. The outcome's remaining budget is always 0. */
  method MacroUniform(tasks: seq<Task>, levels: LevelsDict, answers: map<int, AnswerPools>,
                      levelComb: seq<Level>, draws: Draws) returns (outcome: Outcome)
    requires Distinct(tasks) && ConfidencesValid(Views(tasks)) && levels.table.Valid()
    requires UniformFit(Views(tasks), levelComb, answers, draws)
    modifies tasks
    ensures var vs := old(Views(tasks));
            var order := UniformOrder(vs);
            var verdicts := UniformVerdicts(vs, levelComb, levels.table, answers, draws);
      && (forall p :: 0 <= p < |tasks| ==> Verdict(tasks[p].confidence, tasks[p].isSolved) == verdicts[p])
      && outcome.revenueSum == SolvedRevenue(RevenuesAlong(vs, order), SolvedFlags(Select(verdicts, order)))
      && outcome.correctCnt == SolvedCount(SolvedFlags(Select(verdicts, order)))
    ensures outcome.remainingBudget == 0
    ensures forall p :: 0 <= p < |tasks| ==> tasks[p].originExpRevenue == OriginExpRevenue(old(Views(tasks))[p])
  {
    ghost var vs := Views(tasks);
    Prepare(tasks);
    assert forall p :: 0 <= p < |tasks| ==> tasks[p].View() == vs[p];
    var order := SortByExpRevenue(tasks, vs);
    UniformOrderFacts(vs);
    var revenueSum, correctCnt := StaffInOrder(tasks, order, levelComb, levels, answers, draws, vs);
    outcome := Outcome(revenueSum, correctCnt, 0);
    ghost var verdicts := UniformVerdicts(vs, levelComb, levels.table, answers, draws);
    forall p | 0 <= p < |tasks|
      ensures Verdict(tasks[p].confidence, tasks[p].isSolved) == verdicts[p]
    {
      assert p in order;
      var m :| 0 <= m < |order| && order[m] == p;
    }
  }
}
