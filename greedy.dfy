/** micro_greedy: tasks are served by revenue, highest first; each task gets
    the first of its estimated combinations, best expected revenue first,
    that the remaining budget covers and whose estimate is not zero. */
module Greedy {
  import opened Model
  import opened Confidence
  import opened Estimator
  import opened Ordering
  import opened Allocation

  function RevenueKeys(vs: seq<TaskView>): (ks: seq<Key>)
    ensures |ks| == |vs| && forall p :: 0 <= p < |vs| ==> ks[p] == Key(-vs[p].revenue, 0.0, p)
  {
    seq(|vs|, p requires 0 <= p < |vs| => Key(-vs[p].revenue, 0.0, p))
  }

  /** The positions of the tasks sorted by revenue, highest first (a stable
      sort, so equal revenues keep their list order). */
  function TaskOrder(vs: seq<TaskView>): (order: seq<nat>)
    ensures |order| == |vs| && InRange(order, |vs|)
  {
    OrderBy(RevenueKeys(vs))
  }

  /** The order visits every task exactly once, by non-increasing revenue,
      and equal revenues in list order. */
  lemma TaskOrderFacts(vs: seq<TaskView>)
    ensures multiset(TaskOrder(vs)) == multiset(Range(|vs|))
    ensures forall p :: 0 <= p < |vs| ==> p in TaskOrder(vs)
    ensures forall a, b :: 0 <= a < b < |vs| ==> TaskOrder(vs)[a] != TaskOrder(vs)[b]
    ensures forall a, b :: 0 <= a < b < |vs| ==>
      vs[TaskOrder(vs)[a]].revenue >= vs[TaskOrder(vs)[b]].revenue
    ensures forall a, b :: 0 <= a < b < |vs| && vs[TaskOrder(vs)[a]].revenue == vs[TaskOrder(vs)[b]].revenue ==>
      TaskOrder(vs)[a] < TaskOrder(vs)[b]
  {
    var ks := RevenueKeys(vs);
    OrderByFacts(ks);
  }

  function ResultKeys(rs: seq<CombResult>): (ks: seq<Key>)
    ensures |ks| == |rs|
    ensures forall j :: 0 <= j < |rs| ==> ks[j] == Key(-rs[j].expectedRevenue, rs[j].cost as real, j)
  {
    seq(|rs|, j requires 0 <= j < |rs| => Key(-rs[j].expectedRevenue, rs[j].cost as real, j))
  }

  /** The positions of the results in the order the two sorts leave them. */
  function SortedPositions(rs: seq<CombResult>): (order: seq<nat>)
    ensures |order| == |rs| && InRange(order, |rs|)
  {
    OrderBy(ResultKeys(rs))
  }

  /** The results as the two stable sorts leave them: by cost ascending, then
      by expected revenue descending. Together: expected revenue descending,
      equal estimates by cost ascending, then in enumeration order. */
  function ByExpectedRevenue(rs: seq<CombResult>): (sorted: seq<CombResult>)
    ensures |sorted| == |rs|
  {
    Select(rs, SortedPositions(rs))
  }

  /** The sort rearranges the results without losing or repeating any, by
      non-increasing expected revenue, equal estimates by non-decreasing cost,
      and results equal in both keep their enumeration order. */
  lemma ByExpectedRevenueFacts(rs: seq<CombResult>)
    ensures multiset(SortedPositions(rs)) == multiset(Range(|rs|))
    ensures multiset(ByExpectedRevenue(rs)) == multiset(rs)
    ensures forall a, b :: 0 <= a < b < |rs| ==>
      ByExpectedRevenue(rs)[a].expectedRevenue >= ByExpectedRevenue(rs)[b].expectedRevenue
    ensures forall a, b :: 0 <= a < b < |rs| ==>
      (ByExpectedRevenue(rs)[a].expectedRevenue == ByExpectedRevenue(rs)[b].expectedRevenue ==>
       ByExpectedRevenue(rs)[a].cost <= ByExpectedRevenue(rs)[b].cost)
    ensures forall a, b ::
      && 0 <= a < b < |rs|
      && ByExpectedRevenue(rs)[a].expectedRevenue == ByExpectedRevenue(rs)[b].expectedRevenue
      && ByExpectedRevenue(rs)[a].cost == ByExpectedRevenue(rs)[b].cost
      ==> SortedPositions(rs)[a] < SortedPositions(rs)[b]
  {
    var ks := ResultKeys(rs);
    var order := OrderBy(ks);
    OrderByFacts(ks);
    SelectPermutation(rs, order);
    var s := ByExpectedRevenue(rs);
    forall a, b | 0 <= a < b < |rs|
      ensures s[a].expectedRevenue >= s[b].expectedRevenue
      ensures s[a].expectedRevenue == s[b].expectedRevenue ==> s[a].cost <= s[b].cost
      ensures s[a].expectedRevenue == s[b].expectedRevenue && s[a].cost == s[b].cost ==> order[a] < order[b]
    {
      assert Le(ks[order[a]], ks[order[b]]);
    }
  }

  /** The sort keeps exactly the results it is given. */
  lemma SortedMembers(rs: seq<CombResult>)
    ensures forall r :: r in ByExpectedRevenue(rs) <==> r in rs
  {
    ByExpectedRevenueFacts(rs);
    forall r ensures r in ByExpectedRevenue(rs) <==> r in rs {
      assert r in ByExpectedRevenue(rs) <==> r in multiset(ByExpectedRevenue(rs));
      assert r in rs <==> r in multiset(rs);
    }
  }

  /** The two tests of the scan: the budget left covers the cost, and the
      estimate is not zero. */
  predicate Qualifies(r: CombResult, remaining: int) {
    remaining - r.cost >= 0 && r.expectedRevenue != 0.0
  }

  /** Index of the first qualifying result, if any. */
  function FirstQualifying(menu: seq<CombResult>, remaining: int): (k: Option<nat>)
    ensures k.Some? ==> k.value < |menu| && Qualifies(menu[k.value], remaining)
    ensures k.Some? ==> forall m :: 0 <= m < k.value ==> !Qualifies(menu[m], remaining)
    ensures k.None? ==> forall m :: 0 <= m < |menu| ==> !Qualifies(menu[m], remaining)
  {
    if menu == [] then None
    else if Qualifies(menu[0], remaining) then Some(0)
    else
      match FirstQualifying(menu[1..], remaining)
      case None => None
      case Some(k) => Some(k + 1)
  }

  /** The result the scan commits to, if any. */
  function Choice(menu: seq<CombResult>, remaining: int): (c: Option<CombResult>)
    ensures c.Some? ==> c.value in menu && Qualifies(c.value, remaining)
    ensures c.None? <==> forall m :: 0 <= m < |menu| ==> !Qualifies(menu[m], remaining)
  {
    match FirstQualifying(menu, remaining)
    case None => None
    case Some(k) => Some(menu[k])
  }

  function ChoiceCost(c: Option<CombResult>): int {
    if c.Some? then c.value.cost else 0
  }

  function Staffing(c: Option<CombResult>): Option<seq<Level>> {
    if c.Some? then Some(c.value.levelComb) else None
  }

  /** The choice is the best the budget allows: no affordable non-zero
      estimate is higher, an equal one costs at least as much, and one equal
      in both comes no earlier in enumeration order; there is no choice
      exactly when no result qualifies. */
  lemma ChoiceIsBest(rs: seq<CombResult>, remaining: int)
    ensures Choice(ByExpectedRevenue(rs), remaining).None? <==> forall r :: r in rs ==> !Qualifies(r, remaining)
    ensures Choice(ByExpectedRevenue(rs), remaining).Some? ==>
      var c := Choice(ByExpectedRevenue(rs), remaining).value;
      && c in rs
      && forall r :: r in rs && Qualifies(r, remaining) ==>
        r.expectedRevenue <= c.expectedRevenue &&
        (r.expectedRevenue == c.expectedRevenue ==> c.cost <= r.cost)
    ensures FirstQualifying(ByExpectedRevenue(rs), remaining).Some? ==>
      var i := SortedPositions(rs)[FirstQualifying(ByExpectedRevenue(rs), remaining).value];
      && Choice(ByExpectedRevenue(rs), remaining) == Some(rs[i])
      && forall j ::
           && 0 <= j < |rs| && Qualifies(rs[j], remaining)
           && rs[j].expectedRevenue == rs[i].expectedRevenue && rs[j].cost == rs[i].cost
           ==> i <= j
  {
    var s := ByExpectedRevenue(rs);
    ByExpectedRevenueFacts(rs);
    forall r | r in rs ensures r in s {
      assert r in multiset(rs);
    }
    forall r | r in s ensures r in rs {
      assert r in multiset(s);
    }
    match FirstQualifying(s, remaining)
    case None =>
    case Some(k) =>
      forall r | r in rs && Qualifies(r, remaining)
        ensures r.expectedRevenue <= s[k].expectedRevenue
        ensures r.expectedRevenue == s[k].expectedRevenue ==> s[k].cost <= r.cost
      {
        var i :| 0 <= i < |s| && s[i] == r;
        assert !(i < k);
      }
      ChoiceEarliest(rs, remaining, k);
  }

  lemma ChoiceEarliest(rs: seq<CombResult>, remaining: int, k: nat)
    requires FirstQualifying(ByExpectedRevenue(rs), remaining) == Some(k)
    ensures var i := SortedPositions(rs)[k];
      forall j ::
        && 0 <= j < |rs| && Qualifies(rs[j], remaining)
        && rs[j].expectedRevenue == rs[i].expectedRevenue && rs[j].cost == rs[i].cost
        ==> i <= j
  {
    var s := ByExpectedRevenue(rs);
    var order := SortedPositions(rs);
    ByExpectedRevenueFacts(rs);
    OrderByFacts(ResultKeys(rs));
    var i := order[k];
    forall j | 0 <= j < |rs| && Qualifies(rs[j], remaining) &&
               rs[j].expectedRevenue == rs[i].expectedRevenue && rs[j].cost == rs[i].cost
      ensures i <= j
    {
      assert j in order;
      var m :| 0 <= m < |order| && order[m] == j;
      assert s[m] == rs[j];
      assert !(m < k);
    }
  }

  /** The sorted results the estimator gives the task at position p. */
  function Menu(vs: seq<TaskView>, p: nat, table: LevelTable, maxAssign: int, draws: Draws): (menu: seq<CombResult>)
    requires p < |vs| && ConfidencesValid(vs) && table.Valid()
    ensures forall r :: r in menu ==> OwnLevels(r.levelComb, vs[p].answers)
  {
    var rs := Estimates(vs[p], table, maxAssign, draws.difficulty(p), draws.Trials(p));
    SortedMembers(rs);
    ByExpectedRevenue(rs)
  }

  /** The menus of all tasks, by position. */
  function Menus(vs: seq<TaskView>, table: LevelTable, maxAssign: int, draws: Draws): (menus: seq<seq<CombResult>>)
    requires ConfidencesValid(vs) && table.Valid()
    ensures |menus| == |vs|
  {
    seq(|vs|, p requires 0 <= p < |vs| => Menu(vs, p, table, maxAssign, draws))
  }

  predicate CostsNonNegative(menus: seq<seq<CombResult>>) {
    forall p: int, r: CombResult :: 0 <= p < |menus| && r in menus[p] ==> r.cost >= 0
  }

  /** Every estimated cost is a sum of non-negative prices. */
  lemma MenusCostsNonNegative(vs: seq<TaskView>, table: LevelTable, maxAssign: int, draws: Draws)
    requires ConfidencesValid(vs) && table.Valid()
    ensures CostsNonNegative(Menus(vs, table, maxAssign, draws))
  {
    var menus := Menus(vs, table, maxAssign, draws);
    forall p: int, r: CombResult | 0 <= p < |menus| && r in menus[p] ensures r.cost >= 0 {
      var rs := Estimates(vs[p], table, maxAssign, draws.difficulty(p), draws.Trials(p));
      EstimatesFacts(vs[p], table, maxAssign, draws.difficulty(p), draws.Trials(p));
      ByExpectedRevenueFacts(rs);
      assert menus[p] == ByExpectedRevenue(rs);
      assert r in multiset(rs);
      var j :| 0 <= j < |rs| && rs[j] == r;
    }
  }

  /** One menu per task, and every combination on a task's menu can be drawn
      from that task's real answers. */
  ghost predicate MenusFit(vs: seq<TaskView>, menus: seq<seq<CombResult>>, answers: map<int, AnswerPools>) {
    && |menus| == |vs|
    && forall p: int, r: CombResult :: 0 <= p < |menus| && r in menus[p] ==> Drawable(r.levelComb, answers, vs[p].id)
  }

  /** Every combination on the menu of an answerable task can be drawn. */
  lemma MenuDrawable(vs: seq<TaskView>, p: nat, table: LevelTable, maxAssign: int, draws: Draws,
                     answers: map<int, AnswerPools>)
    requires p < |vs| && ConfidencesValid(vs) && table.Valid()
    requires Answerable(vs[p].id, vs[p].answers, answers)
    ensures forall r :: r in Menu(vs, p, table, maxAssign, draws) ==> Drawable(r.levelComb, answers, vs[p].id)
  {
    forall r | r in Menu(vs, p, table, maxAssign, draws) ensures Drawable(r.levelComb, answers, vs[p].id) {
      OwnLevelsDrawable(r.levelComb, vs[p].answers, vs[p].id, answers);
    }
  }

  lemma MenusDrawable(vs: seq<TaskView>, table: LevelTable, maxAssign: int, draws: Draws, answers: map<int, AnswerPools>)
    requires ConfidencesValid(vs) && table.Valid() && DrawsFit(vs, answers, draws)
    ensures MenusFit(vs, Menus(vs, table, maxAssign, draws), answers)
  {
    var menus := Menus(vs, table, maxAssign, draws);
    forall p: int, r: CombResult | 0 <= p < |menus| && r in menus[p] ensures Drawable(r.levelComb, answers, vs[p].id) {
      MenuDrawable(vs, p, table, maxAssign, draws, answers);
    }
  }

  /** The state of a greedy run: the verdict and the choice of each task
      served so far, and the budget left. */
  datatype Run = Run(verdicts: seq<Verdict>, choices: seq<Option<CombResult>>, remaining: int)

  lemma InRangePrefix(order: seq<nat>, n: nat, k: nat)
    requires InRange(order, n) && k <= |order|
    ensures InRange(order[..k], n)
  {
    forall i | 0 <= i < k ensures order[..k][i] < n { assert order[..k][i] == order[i]; }
  }

  /** The greedy run over the tasks at the positions in `order`, served in
      that order: each task takes the choice of its menu against the budget
      the earlier ones left, and that choice's cost comes off the budget. */
  ghost function GreedyRun(vs: seq<TaskView>, menus: seq<seq<CombResult>>, order: seq<nat>, table: LevelTable,
                           budget: int, answers: map<int, AnswerPools>, draws: Draws): (r: Run)
    requires ConfidencesValid(vs) && table.Valid() && PicksValid(draws, answers)
    requires MenusFit(vs, menus, answers) && InRange(order, |vs|)
    ensures |r.verdicts| == |order| && |r.choices| == |order|
  {
    if order == [] then Run([], [], budget)
    else
      var n := |order| - 1;
      InRangePrefix(order, |vs|, n);
      var prev := GreedyRun(vs, menus, order[..n], table, budget, answers, draws);
      var p := order[n];
      var c := Choice(menus[p], prev.remaining);
      Run(prev.verdicts + [Decide(vs[p], p, Staffing(c), table, answers, draws)],
          prev.choices + [c],
          prev.remaining - ChoiceCost(c))
  }

  /** The greedy run of micro_greedy: every task's menu is its estimator's
      results, sorted. */
  ghost function GreedyOutcome(vs: seq<TaskView>, table: LevelTable, maxAssign: int, order: seq<nat>,
                               budget: int, answers: map<int, AnswerPools>, draws: Draws): Run
    requires ConfidencesValid(vs) && table.Valid() && DrawsFit(vs, answers, draws) && InRange(order, |vs|)
  {
    MenusDrawable(vs, table, maxAssign, draws, answers);
    GreedyRun(vs, Menus(vs, table, maxAssign, draws), order, table, budget, answers, draws)
  }

  /** Serving one more task extends the run by that task's verdict and choice. */
  lemma RunStep(vs: seq<TaskView>, menus: seq<seq<CombResult>>, order: seq<nat>, table: LevelTable, budget: int,
                answers: map<int, AnswerPools>, draws: Draws, k: nat)
    requires ConfidencesValid(vs) && table.Valid() && PicksValid(draws, answers)
    requires MenusFit(vs, menus, answers) && InRange(order, |vs|)
    requires k < |order|
    ensures InRange(order[..k], |vs|) && InRange(order[..k + 1], |vs|)
    ensures var prev := GreedyRun(vs, menus, order[..k], table, budget, answers, draws);
            var p := order[k];
            var c := Choice(menus[p], prev.remaining);
      GreedyRun(vs, menus, order[..k + 1], table, budget, answers, draws)
        == Run(prev.verdicts + [Decide(vs[p], p, Staffing(c), table, answers, draws)],
               prev.choices + [c],
               prev.remaining - ChoiceCost(c))
  {
    InRangePrefix(order, |vs|, k);
    InRangePrefix(order, |vs|, k + 1);
    assert order[..k + 1][..k] == order[..k];
  }

  /** No task served adds to the budget: what is left after the first k'
      tasks is at most what was left after the first k. */
  lemma {:induction false} RemainingDrains(vs: seq<TaskView>, menus: seq<seq<CombResult>>, order: seq<nat>, table: LevelTable,
      budget: int, answers: map<int, AnswerPools>, draws: Draws, k: nat, k': nat)
    requires ConfidencesValid(vs) && table.Valid() && PicksValid(draws, answers)
    requires MenusFit(vs, menus, answers) && InRange(order, |vs|)
    requires CostsNonNegative(menus) && k <= k' <= |order|
    ensures InRange(order[..k], |vs|) && InRange(order[..k'], |vs|)
    ensures GreedyRun(vs, menus, order[..k'], table, budget, answers, draws).remaining
         <= GreedyRun(vs, menus, order[..k], table, budget, answers, draws).remaining
    decreases k' - k
  {
    InRangePrefix(order, |vs|, k);
    InRangePrefix(order, |vs|, k');
    if k < k' {
      RemainingDrains(vs, menus, order, table, budget, answers, draws, k, k' - 1);
      RemainingStep(vs, menus, order, table, budget, answers, draws, k' - 1);
    }
  }

  lemma RemainingStep(vs: seq<TaskView>, menus: seq<seq<CombResult>>, order: seq<nat>, table: LevelTable,
      budget: int, answers: map<int, AnswerPools>, draws: Draws, k: nat)
    requires ConfidencesValid(vs) && table.Valid() && PicksValid(draws, answers)
    requires MenusFit(vs, menus, answers) && InRange(order, |vs|)
    requires CostsNonNegative(menus) && k < |order|
    ensures InRange(order[..k], |vs|) && InRange(order[..k + 1], |vs|)
    ensures GreedyRun(vs, menus, order[..k + 1], table, budget, answers, draws).remaining
         <= GreedyRun(vs, menus, order[..k], table, budget, answers, draws).remaining
  {
    RunStep(vs, menus, order, table, budget, answers, draws, k);
    var c := Choice(menus[order[k]], GreedyRun(vs, menus, order[..k], table, budget, answers, draws).remaining);
    if c.Some? {
      assert c.value in menus[order[k]];
    }
  }

  /** The budget never goes negative, and no task served adds to it. */
  lemma {:induction false} GreedyBudget(vs: seq<TaskView>, menus: seq<seq<CombResult>>, order: seq<nat>, table: LevelTable,
      budget: int, answers: map<int, AnswerPools>, draws: Draws)
    requires ConfidencesValid(vs) && table.Valid() && PicksValid(draws, answers)
    requires MenusFit(vs, menus, answers) && InRange(order, |vs|)
    requires budget >= 0 && CostsNonNegative(menus)
    ensures 0 <= GreedyRun(vs, menus, order, table, budget, answers, draws).remaining <= budget
    ensures forall k, k' :: 0 <= k <= k' <= |order| ==>
      && InRange(order[..k], |vs|) && InRange(order[..k'], |vs|)
      && GreedyRun(vs, menus, order[..k'], table, budget, answers, draws).remaining
         <= GreedyRun(vs, menus, order[..k], table, budget, answers, draws).remaining
  {
    forall k, k' | 0 <= k <= k' <= |order|
      ensures InRange(order[..k], |vs|) && InRange(order[..k'], |vs|)
      ensures GreedyRun(vs, menus, order[..k'], table, budget, answers, draws).remaining
           <= GreedyRun(vs, menus, order[..k], table, budget, answers, draws).remaining
    {
      RemainingDrains(vs, menus, order, table, budget, answers, draws, k, k');
    }
    if order != [] {
      var n := |order| - 1;
      RunStep(vs, menus, order, table, budget, answers, draws, n);
      GreedyBudget(vs, menus, order[..n], table, budget, answers, draws);
      var prev := GreedyRun(vs, menus, order[..n], table, budget, answers, draws);
      var c := Choice(menus[order[n]], prev.remaining);
      if c.Some? {
        assert c.value in menus[order[n]];
      }
      assert order[..n + 1] == order;
    }
  }

  /** Total cost of the committed choices. */
  function ChosenCost(cs: seq<Option<CombResult>>): int {
    if cs == [] then 0 else ChosenCost(cs[..|cs| - 1]) + ChoiceCost(cs[|cs| - 1])
  }

  /** What the greedy spends is exactly the cost of what it commits to. */
  lemma {:induction false} GreedySpent(vs: seq<TaskView>, menus: seq<seq<CombResult>>, order: seq<nat>, table: LevelTable,
      budget: int, answers: map<int, AnswerPools>, draws: Draws)
    requires ConfidencesValid(vs) && table.Valid() && PicksValid(draws, answers)
    requires MenusFit(vs, menus, answers) && InRange(order, |vs|)
    ensures var r := GreedyRun(vs, menus, order, table, budget, answers, draws);
      budget - r.remaining == ChosenCost(r.choices)
  {
    if order != [] {
      var n := |order| - 1;
      RunStep(vs, menus, order, table, budget, answers, draws, n);
      GreedySpent(vs, menus, order[..n], table, budget, answers, draws);
      var r := GreedyRun(vs, menus, order, table, budget, answers, draws);
      var prev := GreedyRun(vs, menus, order[..n], table, budget, answers, draws);
      assert order[..n + 1] == order;
      assert r.choices[..n] == prev.choices;
    }
  }

  /** Each task's choice is made against the budget the earlier tasks left,
      and its verdict is that of being staffed by this choice (or not at all). */
  lemma {:induction false} GreedyChoiceAt(vs: seq<TaskView>, menus: seq<seq<CombResult>>, order: seq<nat>, table: LevelTable,
      budget: int, answers: map<int, AnswerPools>, draws: Draws, k: nat)
    requires ConfidencesValid(vs) && table.Valid() && PicksValid(draws, answers)
    requires MenusFit(vs, menus, answers) && InRange(order, |vs|)
    requires k < |order|
    ensures InRange(order[..k], |vs|)
    ensures var r := GreedyRun(vs, menus, order, table, budget, answers, draws);
            var before := GreedyRun(vs, menus, order[..k], table, budget, answers, draws).remaining;
      && r.choices[k] == Choice(menus[order[k]], before)
      && r.verdicts[k] == Decide(vs[order[k]], order[k], Staffing(r.choices[k]), table, answers, draws)
    decreases |order|
  {
    InRangePrefix(order, |vs|, k);
    var n := |order| - 1;
    RunStep(vs, menus, order, table, budget, answers, draws, n);
    assert order[..n + 1] == order;
    if k < n {
      GreedyChoiceAt(vs, menus, order[..n], table, budget, answers, draws, k);
      assert order[..n][..k] == order[..k];
    }
  }

  /** Every verdict's confidence is a probability, and a solved task's
      confidence has reached THRESHOLD. */
  lemma VerdictsInUnit(vs: seq<TaskView>, menus: seq<seq<CombResult>>, order: seq<nat>, table: LevelTable,
      budget: int, answers: map<int, AnswerPools>, draws: Draws)
    requires ConfidencesValid(vs) && table.Valid() && PicksValid(draws, answers)
    requires MenusFit(vs, menus, answers) && InRange(order, |vs|)
    ensures var r := GreedyRun(vs, menus, order, table, budget, answers, draws);
      forall k :: 0 <= k < |order| ==>
        0.0 <= r.verdicts[k].confidence <= 1.0 && (r.verdicts[k].solved ==> r.verdicts[k].confidence >= THRESHOLD)
  {
    var r := GreedyRun(vs, menus, order, table, budget, answers, draws);
    forall k | 0 <= k < |order|
      ensures 0.0 <= r.verdicts[k].confidence <= 1.0 && (r.verdicts[k].solved ==> r.verdicts[k].confidence >= THRESHOLD)
    {
      GreedyChoiceAt(vs, menus, order, table, budget, answers, draws, k);
    }
  }

  /** The loop state of micro_greedy after serving the first k tasks of
      `order`: the verdicts by position, the run's verdicts, the budget left
      and the two running sums. */
  ghost predicate Served(vs: seq<TaskView>, menus: seq<seq<CombResult>>, order: seq<nat>, table: LevelTable,
                         budget: int, answers: map<int, AnswerPools>, draws: Draws, k: nat,
                         state: seq<Verdict>, verdicts: seq<Verdict>, remaining: int, revenueSum: real, correctCnt: int)
    requires ConfidencesValid(vs) && table.Valid() && PicksValid(draws, answers)
    requires MenusFit(vs, menus, answers) && InRange(order, |vs|) && k <= |order|
  {
    InRangePrefix(order, |vs|, k);
    && |state| == |vs| && |verdicts| == k
    && Progress(state, vs, order, verdicts, k)
    && GreedyRun(vs, menus, order[..k], table, budget, answers, draws) == Run(verdicts, GreedyRun(vs, menus, order[..k], table, budget, answers, draws).choices, remaining)
    && revenueSum == SolvedRevenue(RevenuesAlong(vs, order[..k]), SolvedFlags(verdicts))
    && correctCnt == SolvedCount(SolvedFlags(verdicts))
  }

  lemma ServedStart(vs: seq<TaskView>, menus: seq<seq<CombResult>>, order: seq<nat>, table: LevelTable,
                    budget: int, answers: map<int, AnswerPools>, draws: Draws, state: seq<Verdict>)
    requires ConfidencesValid(vs) && table.Valid() && PicksValid(draws, answers)
    requires MenusFit(vs, menus, answers) && InRange(order, |vs|)
    requires |state| == |vs| && forall p :: 0 <= p < |vs| ==> state[p] == Verdict(vs[p].confidence, false)
    ensures Served(vs, menus, order, table, budget, answers, draws, 0, state, [], budget, 0.0, 0)
  {
    assert order[..0] == [];
  }

  /** Serving task order[k]: its verdict and the budget its choice leaves
      extend the loop state by one task. */
  lemma ServedStep(vs: seq<TaskView>, menus: seq<seq<CombResult>>, order: seq<nat>, table: LevelTable,
                   budget: int, answers: map<int, AnswerPools>, draws: Draws, k: nat,
                   state: seq<Verdict>, verdicts: seq<Verdict>, remaining: int, revenueSum: real, correctCnt: int,
                   v: Verdict, remaining': int, revenueSum': real, correctCnt': int)
    requires ConfidencesValid(vs) && table.Valid() && PicksValid(draws, answers)
    requires MenusFit(vs, menus, answers) && InRange(order, |vs|) && k < |order|
    requires forall a, b :: 0 <= a < b < |order| ==> order[a] != order[b]
    requires Served(vs, menus, order, table, budget, answers, draws, k, state, verdicts, remaining, revenueSum, correctCnt)
    requires remaining' == remaining - ChoiceCost(Choice(menus[order[k]], remaining))
    requires v == Decide(vs[order[k]], order[k], Staffing(Choice(menus[order[k]], remaining)), table, answers, draws)
    requires revenueSum' == if v.solved then revenueSum + vs[order[k]].revenue else revenueSum
    requires correctCnt' == if v.solved then correctCnt + 1 else correctCnt
    ensures Served(vs, menus, order, table, budget, answers, draws, k + 1, state[order[k] := v], verdicts + [v],
                   remaining', revenueSum', correctCnt')
  {
    RunStep(vs, menus, order, table, budget, answers, draws, k);
    ProgressStep(state, vs, order, verdicts, k, v);
    TallyStep(vs, order, verdicts, k, v);
  }

  lemma ServedDone(vs: seq<TaskView>, menus: seq<seq<CombResult>>, order: seq<nat>, table: LevelTable,
                   budget: int, answers: map<int, AnswerPools>, draws: Draws,
                   state: seq<Verdict>, verdicts: seq<Verdict>, remaining: int, revenueSum: real, correctCnt: int)
    requires ConfidencesValid(vs) && table.Valid() && PicksValid(draws, answers)
    requires MenusFit(vs, menus, answers) && InRange(order, |vs|)
    requires Served(vs, menus, order, table, budget, answers, draws, |order|, state, verdicts, remaining, revenueSum, correctCnt)
    ensures var r := GreedyRun(vs, menus, order, table, budget, answers, draws);
      && remaining == r.remaining
      && (forall k :: 0 <= k < |order| ==> state[order[k]] == r.verdicts[k])
      && revenueSum == SolvedRevenue(RevenuesAlong(vs, order), SolvedFlags(r.verdicts))
      && correctCnt == SolvedCount(SolvedFlags(r.verdicts))
  {
    assert order[..|order|] == order;
    ProgressDone(state, vs, order, verdicts);
  }

  /** Lines 39-56: the scan over one task's sorted results; the first
      qualifying result staffs the task and its cost comes off the budget. */
  method ScanResults(task: Task, p: nat, menu: seq<CombResult>, remainingBudget: int, levels: LevelsDict,
                     answers: map<int, AnswerPools>, draws: Draws) returns (solved: bool, remaining: int)
    requires 0.0 <= task.confidence <= 1.0 && levels.table.Valid()
    requires PicksValid(draws, answers)
    requires Choice(menu, remainingBudget).Some? ==> Drawable(Choice(menu, remainingBudget).value.levelComb, answers, task.id)
    modifies task
    ensures remaining == remainingBudget - ChoiceCost(Choice(menu, remainingBudget))
    ensures Verdict(task.confidence, solved)
      == Decide(old(task.View()), p, Staffing(Choice(menu, remainingBudget)), levels.table, answers, draws)
    ensures task.isSolved == (old(task.isSolved) || solved)
    ensures task.originExpRevenue == old(task.originExpRevenue)
  {
    remaining := remainingBudget;
    solved := false;
    for m := 0 to |menu|
      invariant forall q :: 0 <= q < m ==> !Qualifies(menu[q], remainingBudget)
    {
      var result := menu[m];
      if remainingBudget - result.cost < 0 {
        continue;
      }
      if result.expectedRevenue == 0.0 {
        continue;
      }
      assert FirstQualifying(menu, remainingBudget) == Some(m);
      solved := StaffTask(task, p, result.levelComb, levels, answers, draws);
      remaining := remainingBudget - result.cost;
      return;
    }
  }


  /** The verdict of the task at position p when it is served with the
      budget `remaining` left. */
  ghost function ServedVerdict(vs: seq<TaskView>, p: nat, table: LevelTable, maxAssign: int, remaining: int,
                               answers: map<int, AnswerPools>, draws: Draws): Verdict
    requires p < |vs| && ConfidencesValid(vs) && table.Valid()
    requires PicksValid(draws, answers) && Answerable(vs[p].id, vs[p].answers, answers)
  {
    MenuDrawable(vs, p, table, maxAssign, draws, answers);
    Decide(vs[p], p, Staffing(Choice(Menu(vs, p, table, maxAssign, draws), remaining)), table, answers, draws)
  }

  /** Lines 32-56 for one task: estimate its combinations, sort them, scan. */
  method ServeTask(task: Task, p: nat, levels: LevelsDict, answers: map<int, AnswerPools>,
                   maxAssign: int, remainingBudget: int, draws: Draws, ghost vs: seq<TaskView>)
    returns (solved: bool, remaining: int)
    requires p < |vs| && task.View() == vs[p] && ConfidencesValid(vs) && levels.table.Valid()
    requires PicksValid(draws, answers) && 0.0 <= draws.difficulty(p) <= 1.0
    requires Answerable(vs[p].id, vs[p].answers, answers)
    modifies task, levels
    ensures var c := Choice(Menu(vs, p, levels.table, maxAssign, draws), remainingBudget);
      && remaining == remainingBudget - ChoiceCost(c)
      && Verdict(task.confidence, solved) == ServedVerdict(vs, p, levels.table, maxAssign, remainingBudget, answers, draws)
    ensures task.isSolved == (old(task.isSolved) || solved)
    ensures task.originExpRevenue == old(task.originExpRevenue)
    ensures levels.trueRatio == RatiosFor(levels.table, draws.difficulty(p))
  {
    var results := MicroOptimization(task, levels, maxAssign, draws.difficulty(p), draws.Trials(p));
    var ordered := ByExpectedRevenue(results);
    MenuDrawable(vs, p, levels.table, maxAssign, draws, answers);
    solved, remaining := ScanResults(task, p, ordered, remainingBudget, levels, answers, draws);
  }

  /** One iteration of the loop over the tasks: serve task order[k] and
      add its revenue and count when it is solved. */
  method ServeNext(tasks: seq<Task>, order: seq<nat>, k: nat, levels: LevelsDict, answers: map<int, AnswerPools>,
                   maxAssign: int, budget: int, draws: Draws, ghost vs: seq<TaskView>, ghost menus: seq<seq<CombResult>>,
                   revenueSum: real, correctCnt: int, remainingBudget: int, ghost state: seq<Verdict>, ghost verdicts: seq<Verdict>)
    returns (revenueSum': real, correctCnt': int, remainingBudget': int, ghost state': seq<Verdict>, ghost verdicts': seq<Verdict>)
    requires Distinct(tasks) && |vs| == |tasks| && ConfidencesValid(vs) && levels.table.Valid()
    requires DrawsFit(vs, answers, draws)
    requires forall p :: 0 <= p < |tasks| ==>
      tasks[p].id == vs[p].id && tasks[p].revenue == vs[p].revenue && tasks[p].answers == vs[p].answers
    requires InRange(order, |vs|) && k < |order|
    requires forall a, b :: 0 <= a < b < |order| ==> order[a] != order[b]
    requires MenusFit(vs, menus, answers) && menus[order[k]] == Menu(vs, order[k], levels.table, maxAssign, draws)
    requires |state| == |tasks|
    requires forall p :: 0 <= p < |tasks| ==> Verdict(tasks[p].confidence, tasks[p].isSolved) == state[p]
    requires Served(vs, menus, order, levels.table, budget, answers, draws, k, state, verdicts, remainingBudget, revenueSum, correctCnt)
    modifies tasks, levels
    ensures |state'| == |tasks|
    ensures forall p :: 0 <= p < |tasks| ==> Verdict(tasks[p].confidence, tasks[p].isSolved) == state'[p]
    ensures forall p :: 0 <= p < |tasks| ==> tasks[p].originExpRevenue == old(tasks[p].originExpRevenue)
    ensures Served(vs, menus, order, levels.table, budget, answers, draws, k + 1, state', verdicts', remainingBudget', revenueSum', correctCnt')
    ensures levels.trueRatio == RatiosFor(levels.table, draws.difficulty(order[k]))
  {
    var p := order[k];
    var task := tasks[p];
    assert state[p] == Verdict(vs[p].confidence, false) by {
      assert Progress(state, vs, order, verdicts, k);
    }
    assert task.View() == vs[p];
    var solved, remaining := ServeTask(task, p, levels, answers, maxAssign, remainingBudget, draws, vs);
    ghost var v := Verdict(task.confidence, solved);
    state' := state[p := v];
    verdicts' := verdicts + [v];
    revenueSum', correctCnt' := revenueSum, correctCnt;
    if solved {
      revenueSum' := revenueSum + task.revenue;
      correctCnt' := correctCnt + 1;
    }
    remainingBudget' := remaining;
    ServedStep(vs, menus, order, levels.table, budget, answers, draws, k, state, verdicts, remainingBudget, revenueSum, correctCnt,
               v, remainingBudget', revenueSum', correctCnt');
  }

  /** Lines 31-56: the tasks served in `order`. */
  method ServeInOrder(tasks: seq<Task>, order: seq<nat>, levels: LevelsDict, answers: map<int, AnswerPools>,
                      maxAssign: int, budget: int, draws: Draws, ghost vs: seq<TaskView>)
    returns (revenueSum: real, correctCnt: int, remainingBudget: int)
    requires Distinct(tasks) && |vs| == |tasks| && ConfidencesValid(vs) && levels.table.Valid()
    requires DrawsFit(vs, answers, draws)
    requires forall p :: 0 <= p < |tasks| ==> tasks[p].View() == vs[p] && !tasks[p].isSolved
    requires InRange(order, |vs|)
    requires forall a, b :: 0 <= a < b < |order| ==> order[a] != order[b]
    modifies tasks, levels
    ensures var r := GreedyOutcome(vs, levels.table, maxAssign, order, budget, answers, draws);
      && remainingBudget == r.remaining
      && (forall k :: 0 <= k < |order| ==>
            Verdict(tasks[order[k]].confidence, tasks[order[k]].isSolved) == r.verdicts[k])
      && revenueSum == SolvedRevenue(RevenuesAlong(vs, order), SolvedFlags(r.verdicts))
      && correctCnt == SolvedCount(SolvedFlags(r.verdicts))
    ensures forall p :: 0 <= p < |tasks| ==> tasks[p].originExpRevenue == old(tasks[p].originExpRevenue)
    ensures levels.trueRatio == LastRatios(levels.table, draws.difficulty, order, old(levels.trueRatio))
  {
    remainingBudget := budget;
    revenueSum := 0.0;
    correctCnt := 0;
    ghost var menus := Menus(vs, levels.table, maxAssign, draws);
    MenusDrawable(vs, levels.table, maxAssign, draws, answers);
    ghost var verdicts: seq<Verdict> := [];
    ghost var state := seq(|tasks|, p requires 0 <= p < |tasks| => Verdict(vs[p].confidence, false));
    ServedStart(vs, menus, order, levels.table, budget, answers, draws, state);
    for k := 0 to |order|
      invariant |state| == |tasks|
      invariant forall p :: 0 <= p < |tasks| ==>
        tasks[p].id == vs[p].id && tasks[p].revenue == vs[p].revenue && tasks[p].answers == vs[p].answers
      invariant forall p :: 0 <= p < |tasks| ==> Verdict(tasks[p].confidence, tasks[p].isSolved) == state[p]
      invariant forall p :: 0 <= p < |tasks| ==> tasks[p].originExpRevenue == old(tasks[p].originExpRevenue)
      invariant Served(vs, menus, order, levels.table, budget, answers, draws, k, state, verdicts, remainingBudget, revenueSum, correctCnt)
      invariant levels.trueRatio == LastRatios(levels.table, draws.difficulty, order[..k], old(levels.trueRatio))
    {
      revenueSum, correctCnt, remainingBudget, state, verdicts :=
        ServeNext(tasks, order, k, levels, answers, maxAssign, budget, draws, vs, menus,
                  revenueSum, correctCnt, remainingBudget, state, verdicts);
      assert order[..k + 1][k] == order[k];
    }
    assert order[..|order|] == order;
    ServedDone(vs, menus, order, levels.table, budget, answers, draws, state, verdicts, remainingBudget, revenueSum, correctCnt);
  }

  /** micro_greedy. `draws` holds the random numbers of the call: per task
      position, the difficulty and the trial draws of the estimator and the
      answer picks of gen_true_conf. */
  method MicroGreedy(tasks: seq<Task>, levels: LevelsDict, answers: map<int, AnswerPools>,
                     maxAssign: int, budget: int, draws: Draws) returns (outcome: Outcome)
    requires Distinct(tasks) && ConfidencesValid(Views(tasks)) && levels.table.Valid()
    requires DrawsFit(Views(tasks), answers, draws)
    modifies tasks, levels
    ensures var vs := old(Views(tasks));
            var order := TaskOrder(vs);
            var r := GreedyOutcome(vs, levels.table, maxAssign, order, budget, answers, draws);
      && outcome.remainingBudget == r.remaining
      && (forall k :: 0 <= k < |order| ==>
            Verdict(tasks[order[k]].confidence, tasks[order[k]].isSolved) == r.verdicts[k])
      && outcome.revenueSum == SolvedRevenue(RevenuesAlong(vs, order), SolvedFlags(r.verdicts))
      && outcome.correctCnt == SolvedCount(SolvedFlags(r.verdicts))
    ensures budget >= 0 ==> 0 <= outcome.remainingBudget <= budget
    ensures outcome.correctCnt == SolvedCount(SolvedOf(tasks))
    ensures forall p :: 0 <= p < |tasks| ==>
      0.0 <= tasks[p].confidence <= 1.0 && (tasks[p].isSolved ==> tasks[p].confidence >= THRESHOLD)
    ensures forall p :: 0 <= p < |tasks| ==> tasks[p].originExpRevenue == old(tasks[p].originExpRevenue)
    ensures levels.trueRatio == LastRatios(levels.table, draws.difficulty, TaskOrder(old(Views(tasks))), old(levels.trueRatio))
  {
    ghost var vs := Views(tasks);
    ClearSolved(tasks);
    assert Views(tasks) == vs;
    var order := TaskOrder(Views(tasks));
    TaskOrderFacts(vs);
    var revenueSum, correctCnt, remainingBudget := ServeInOrder(tasks, order, levels, answers, maxAssign, budget, draws, vs);
    outcome := Outcome(revenueSum, correctCnt, remainingBudget);
    ghost var menus := Menus(vs, levels.table, maxAssign, draws);
    MenusDrawable(vs, levels.table, maxAssign, draws, answers);
    if budget >= 0 {
      MenusCostsNonNegative(vs, levels.table, maxAssign, draws);
      GreedyBudget(vs, menus, order, levels.table, budget, answers, draws);
    }
    VerdictsInUnit(vs, menus, order, levels.table, budget, answers, draws);
    forall p | 0 <= p < |tasks|
      ensures 0.0 <= tasks[p].confidence <= 1.0 && (tasks[p].isSolved ==> tasks[p].confidence >= THRESHOLD)
    {
      assert p in order;
      var k :| 0 <= k < |order| && order[k] == p;
    }
    CountAlong(SolvedOf(tasks), order, GreedyRun(vs, menus, order, levels.table, budget, answers, draws).verdicts);
  }
}
