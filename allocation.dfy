/** What the three allocators share: clearing the solved flags, staffing one
    task with a combination (gen_true_conf plus the threshold test), and the
    verdict each task ends up with. */
module Allocation {
  import opened Model
  import opened Confidence
  import opened Ordering

  /** The random numbers of an allocator call fit its tasks: the picks land
      inside non-empty pools, the difficulties lie in [0, 1], and each task
      that has answers of its own at a level has real answers to draw there
      (micro_optimization only proposes levels the task has answers of). */
  ghost predicate DrawsFit(tasks: seq<TaskView>, answers: map<int, AnswerPools>, draws: Draws) {
    && PicksValid(draws, answers)
    && DifficultiesValid(draws)
    && forall p :: 0 <= p < |tasks| ==> Answerable(tasks[p].id, tasks[p].answers, answers)
  }

  /** Drawing for a combination every level of which has a non-empty pool
      picks inside the pools. */
  lemma DrawableFits(comb: seq<Level>, answers: map<int, AnswerPools>, id: int, draws: Draws, p: nat)
    requires PicksValid(draws, answers) && Drawable(comb, answers, id)
    ensures PicksFit(comb, answers[id], draws.Picks(p, id, comb))
  {
    var picks := draws.Picks(p, id, comb);
    forall w | 0 <= w < |comb| ensures picks[w] < |answers[id].Of(comb[w])| {
      assert picks[w] == draws.pick(p, id, comb[w], w);
    }
  }

  /** The confidence gen_true_conf gives the task `view`, at position p of
      the allocator's list, when it is staffed with `comb`. */
  ghost function Staffed(view: TaskView, p: nat, comb: seq<Level>, table: LevelTable,
                         answers: map<int, AnswerPools>, draws: Draws): (c: real)
    requires 0.0 <= view.confidence <= 1.0 && table.Valid()
    requires PicksValid(draws, answers) && Drawable(comb, answers, view.id)
    ensures 0.0 <= c <= 1.0
    ensures comb == [] ==> c == view.confidence
  {
    DrawableFits(comb, answers, view.id, draws, p);
    Posterior(view.confidence, AnswerVotes(comb, table, answers[view.id], draws.Picks(p, view.id, comb)))
  }

  /** A task's confidence and solved flag once the allocator is done with it. */
  datatype Verdict = Verdict(confidence: real, solved: bool)

  /** The verdict for a task the allocator staffs with `comb`, or leaves alone
      (None): a staffed task is solved exactly when its new confidence reaches
      THRESHOLD; an unstaffed one keeps its confidence and is not solved. */
  ghost function Decide(view: TaskView, p: nat, comb: Option<seq<Level>>, table: LevelTable,
                        answers: map<int, AnswerPools>, draws: Draws): (v: Verdict)
    requires 0.0 <= view.confidence <= 1.0 && table.Valid()
    requires PicksValid(draws, answers) && (comb.Some? ==> Drawable(comb.value, answers, view.id))
    ensures 0.0 <= v.confidence <= 1.0
    ensures v.solved ==> comb.Some? && v.confidence >= THRESHOLD
    ensures comb.None? ==> v == Verdict(view.confidence, false)
    ensures comb.Some? ==> v.solved == (v.confidence >= THRESHOLD)
  {
    match comb
    case None => Verdict(view.confidence, false)
    case Some(c) =>
      var conf := Staffed(view, p, c, table, answers, draws);
      Verdict(conf, conf >= THRESHOLD)
  }

  /** The first loop of every allocator: every task starts unsolved. */
  method ClearSolved(tasks: seq<Task>)
    modifies tasks
    ensures forall p :: 0 <= p < |tasks| ==> !tasks[p].isSolved
    ensures forall p :: 0 <= p < |tasks| ==>
      tasks[p].confidence == old(tasks[p].confidence) && tasks[p].originExpRevenue == old(tasks[p].originExpRevenue)
  {
    for p := 0 to |tasks|
      invariant forall q :: 0 <= q < p ==> !tasks[q].isSolved
      invariant forall q :: 0 <= q < |tasks| ==>
        tasks[q].confidence == old(tasks[q].confidence) && tasks[q].originExpRevenue == old(tasks[q].originExpRevenue)
    {
      tasks[p].isSolved := false;
    }
  }

  /** Staffs one task: gen_true_conf with the task's answers, the new
      confidence written back, the task marked solved when it reaches
      THRESHOLD. */
  method StaffTask(task: Task, p: nat, levelComb: seq<Level>, levels: LevelsDict,
                   answers: map<int, AnswerPools>, draws: Draws) returns (solved: bool)
    requires 0.0 <= task.confidence <= 1.0 && levels.table.Valid()
    requires PicksValid(draws, answers) && Drawable(levelComb, answers, task.id)
    modifies task
    ensures Verdict(task.confidence, solved) == Decide(old(task.View()), p, Some(levelComb), levels.table, answers, draws)
    ensures task.isSolved == (old(task.isSolved) || solved)
    ensures task.originExpRevenue == old(task.originExpRevenue)
  {
    var picks := draws.Picks(p, task.id, levelComb);
    DrawableFits(levelComb, answers, task.id, draws, p);
    var trueConf := GenTrueConf(task.confidence, levelComb, levels, answers[task.id], picks);
    task.confidence := trueConf;
    solved := trueConf >= THRESHOLD;
    if solved {
      task.isSolved := true;
    }
  }

  /** Revenues and verdicts of the tasks in processing order. */
  function RevenuesAlong(vs: seq<TaskView>, order: seq<nat>): (rs: seq<real>)
    requires forall k :: 0 <= k < |order| ==> order[k] < |vs|
    ensures |rs| == |order| && forall k :: 0 <= k < |order| ==> rs[k] == vs[order[k]].revenue
  {
    seq(|order|, k requires 0 <= k < |order| => vs[order[k]].revenue)
  }

  function SolvedFlags(verdicts: seq<Verdict>): (s: seq<bool>)
    ensures |s| == |verdicts| && forall k :: 0 <= k < |verdicts| ==> s[k] == verdicts[k].solved
  {
    seq(|verdicts|, k requires 0 <= k < |verdicts| => verdicts[k].solved)
  }

  /** Adding the next task's contribution to the running sums (the
      `revenue_sum += task['revenue']; correct_cnt += 1` step). */
  lemma SumsStep(revenues: seq<real>, solved: seq<bool>, r: real, s: bool)
    requires |revenues| == |solved|
    ensures SolvedRevenue(revenues + [r], solved + [s]) == SolvedRevenue(revenues, solved) + (if s then r else 0.0)
    ensures SolvedCount(solved + [s]) == SolvedCount(solved) + (if s then 1 else 0)
  {
    assert (revenues + [r])[..|revenues|] == revenues;
    assert (solved + [s])[..|solved|] == solved;
  }

  /** The running sums after one more task of `order` gets verdict `v`. */
  lemma TallyStep(vs: seq<TaskView>, order: seq<nat>, verdicts: seq<Verdict>, k: nat, v: Verdict)
    requires forall i :: 0 <= i < |order| ==> order[i] < |vs|
    requires |verdicts| == k < |order|
    ensures SolvedRevenue(RevenuesAlong(vs, order[..k + 1]), SolvedFlags(verdicts + [v]))
      == SolvedRevenue(RevenuesAlong(vs, order[..k]), SolvedFlags(verdicts)) + (if v.solved then vs[order[k]].revenue else 0.0)
    ensures SolvedCount(SolvedFlags(verdicts + [v])) == SolvedCount(SolvedFlags(verdicts)) + (if v.solved then 1 else 0)
  {
    SumsStep(RevenuesAlong(vs, order[..k]), SolvedFlags(verdicts), vs[order[k]].revenue, v.solved);
    assert RevenuesAlong(vs, order[..k + 1]) == RevenuesAlong(vs, order[..k]) + [vs[order[k]].revenue];
    assert SolvedFlags(verdicts + [v]) == SolvedFlags(verdicts) + [v.solved];
  }

  /** With non-negative revenues the revenue sum is non-negative, and it is
      zero when no task is solved. */
  lemma {:induction false} SolvedRevenueBounds(revenues: seq<real>, solved: seq<bool>)
    requires |revenues| == |solved|
    requires forall k :: 0 <= k < |revenues| ==> revenues[k] >= 0.0
    ensures SolvedRevenue(revenues, solved) >= 0.0
    ensures SolvedCount(solved) == 0 ==> SolvedRevenue(revenues, solved) == 0.0
  {
    if solved != [] {
      var n := |solved| - 1;
      SolvedRevenueBounds(revenues[..n], solved[..n]);
    }
  }

  /** With no solved flag set, the count and the revenue sum are zero. */
  lemma {:induction false} NothingSolved(revenues: seq<real>, solved: seq<bool>)
    requires |revenues| == |solved|
    requires forall k :: 0 <= k < |solved| ==> !solved[k]
    ensures SolvedCount(solved) == 0 && SolvedRevenue(revenues, solved) == 0.0
  {
    if solved != [] {
      var n := |solved| - 1;
      NothingSolved(revenues[..n], solved[..n]);
    }
  }

  /** The count of solved flags is the number of `true`s among them. */
  lemma {:induction false} SolvedCountMultiset(solved: seq<bool>)
    ensures SolvedCount(solved) == multiset(solved)[true]
  {
    if solved != [] {
      var n := |solved| - 1;
      SolvedCountMultiset(solved[..n]);
      assert solved == solved[..n] + [solved[n]];
    }
  }

  /** Verdicts handed out along a permutation of the tasks count the same
      solved tasks as the tasks' own flags. */
  lemma CountAlong(flags: seq<bool>, order: seq<nat>, verdicts: seq<Verdict>)
    requires InRange(order, |flags|) && multiset(order) == multiset(Range(|flags|))
    requires |verdicts| == |order|
    requires forall k :: 0 <= k < |order| ==> verdicts[k].solved == flags[order[k]]
    ensures SolvedCount(SolvedFlags(verdicts)) == SolvedCount(flags)
  {
    assert SolvedFlags(verdicts) == Select(flags, order);
    SelectPermutation(flags, order);
    SolvedCountMultiset(flags);
    SolvedCountMultiset(SolvedFlags(verdicts));
  }

  /** After serving the first k tasks of `order`, those hold their verdicts
      and every other task still has its starting confidence and is unsolved. */
  predicate Progress(state: seq<Verdict>, vs: seq<TaskView>, order: seq<nat>, verdicts: seq<Verdict>, k: nat)
    requires |state| == |vs| && InRange(order, |vs|) && |verdicts| == k <= |order|
  {
    forall m :: 0 <= m < |order| ==>
      state[order[m]] == (if m < k then verdicts[m] else Verdict(vs[order[m]].confidence, false))
  }

  lemma ProgressStep(state: seq<Verdict>, vs: seq<TaskView>, order: seq<nat>, verdicts: seq<Verdict>, k: nat, v: Verdict)
    requires |state| == |vs| && InRange(order, |vs|) && |verdicts| == k < |order|
    requires forall a, b :: 0 <= a < b < |order| ==> order[a] != order[b]
    requires Progress(state, vs, order, verdicts, k)
    ensures Progress(state[order[k] := v], vs, order, verdicts + [v], k + 1)
  {
    var state' := state[order[k] := v];
    forall m | 0 <= m < |order|
      ensures state'[order[m]] == (if m < k + 1 then (verdicts + [v])[m] else Verdict(vs[order[m]].confidence, false))
    {
      if m != k {
        assert order[m] != order[k];
      }
    }
  }

  /** Once every task is served, each holds its verdict. */
  lemma ProgressDone(state: seq<Verdict>, vs: seq<TaskView>, order: seq<nat>, verdicts: seq<Verdict>)
    requires |state| == |vs| && InRange(order, |vs|) && |verdicts| == |order|
    requires Progress(state, vs, order, verdicts, |order|)
    ensures forall k :: 0 <= k < |order| ==> state[order[k]] == verdicts[k]
  {
  }
}
