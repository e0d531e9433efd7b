/** The round orchestration of macro_gte_threshold and
    macro_gte_threshold_simulate: the remaining budget is split over
    MAX_ROUND rounds; each round hands its share to an allocator, and only the
    tasks whose new confidence is at least a lower threshold but still below
    THRESHOLD take part in the next round. */
module Rounds {
  import opened Model
  import opened Ordering
  import opened Allocation
  import Greedy
  import Mckp

  const MAX_ROUND: nat := 5
  /** Simulations averaged by macro_gte_threshold. */
  const SIMULATE_CNT: nat := 10
  /** Lower confidence bound for carrying a task on, in macro_gte_threshold. */
  const CONF_THRESHOLD_SYNC: real := 0.4
  /** Lower confidence bound for carrying a task on, in macro_gte_threshold_async. */
  const CONF_THRESHOLD_ASYNC: real := 0.3

  /** The allocators the orchestration can be run with. */
  datatype Alg = Greedy | Mckp

  /** `int(x / d)` for a positive d: the quotient truncated toward zero. */
  function Truncated(x: int, d: int): (q: int)
    requires d > 0
    ensures x >= 0 ==> q == x / d
    ensures x < 0 ==> q <= 0 && x <= q * d < x + d
  {
    if x >= 0 then x / d else -((-x) / d)
  }

  /** The share of the remaining budget for round r. */
  function RoundBudget(remaining: int, r: nat): (b: int)
    requires r < MAX_ROUND
  {
    Truncated(remaining, MAX_ROUND - r)
  }

  /** The share lies between 0 and what remains, and the last round gets
      everything that remains. */
  lemma RoundBudgetBounds(remaining: int, r: nat)
    requires r < MAX_ROUND
    ensures remaining >= 0 ==> 0 <= RoundBudget(remaining, r) <= remaining
    ensures r == MAX_ROUND - 1 ==> RoundBudget(remaining, r) == remaining
  {
  }

  /** Lines 60-61 and 40-41: the allocator call of one round. The contract
      is what both allocators promise: what is left of a non-negative round
      budget lies between 0 and that budget, the correct count is the number
      of tasks that end up solved, every confidence stays a probability and a
      solved task's confidence has reached THRESHOLD. */
  method Allocate(alg: Alg, tasks: seq<Task>, levels: LevelsDict, answers: map<int, AnswerPools>,
                  maxAssign: int, budget: int, draws: Draws) returns (outcome: Outcome)
    requires alg == Mckp ==> budget >= 0
    requires Distinct(tasks) && ConfidencesValid(Views(tasks)) && levels.table.Valid()
    requires DrawsFit(Views(tasks), answers, draws)
    modifies tasks, levels
    ensures budget >= 0 ==> 0 <= outcome.remainingBudget <= budget
    ensures outcome.correctCnt == SolvedCount(SolvedOf(tasks))
    ensures forall p :: 0 <= p < |tasks| ==>
      0.0 <= tasks[p].confidence <= 1.0 && (tasks[p].isSolved ==> tasks[p].confidence >= THRESHOLD)
  {
    match alg
    case Greedy =>
      outcome := Greedy.MicroGreedy(tasks, levels, answers, maxAssign, budget, draws);
    case Mckp =>
      outcome := Mckp.MicroMckp(tasks, levels, answers, maxAssign, budget, draws);
  }

  // ---------------------------------------------------------------------
  // Carrying tasks into the next round

  /** The test of line 68 (line 48 in the async file). */
  predicate Carried(t: Task, lo: real)
    reads t
  {
    t.confidence < THRESHOLD && t.confidence >= lo
  }

  /** The next round's tasks: the returned tasks that pass the test, in
      returned order. */
  function Kept(ts: seq<Task>, lo: real): seq<Task>
    reads ts
  {
    if ts == [] then []
    else
      var n := |ts| - 1;
      Kept(ts[..n], lo) + (if Carried(ts[n], lo) then [ts[n]] else [])
  }

  /** The positions of the tasks Kept takes. */
  function KeptPositions(ts: seq<Task>, lo: real): seq<nat>
    reads ts
  {
    if ts == [] then []
    else
      var n := |ts| - 1;
      KeptPositions(ts[..n], lo) + (if Carried(ts[n], lo) then [n] else [])
  }

  /** The positions taken are increasing, and a position is taken exactly
      when its task passes the test. */
  lemma {:induction false} KeptPositionsFacts(ts: seq<Task>, lo: real)
    ensures var ps := KeptPositions(ts, lo);
      && InRange(ps, |ts|)
      && (forall a, b :: 0 <= a < b < |ps| ==> ps[a] < ps[b])
      && (forall q :: 0 <= q < |ts| ==> (q in ps <==> Carried(ts[q], lo)))
  {
    if ts != [] {
      var n := |ts| - 1;
      KeptPositionsFacts(ts[..n], lo);
      var ps := KeptPositions(ts, lo);
      forall q | 0 <= q < n ensures q in ps <==> Carried(ts[q], lo) {
        assert ts[..n][q] == ts[q];
      }
    }
  }

  /** The tasks kept are those at the positions taken. */
  lemma {:induction false} KeptFacts(ts: seq<Task>, lo: real)
    ensures var ps := KeptPositions(ts, lo);
      && InRange(ps, |ts|)
      && Kept(ts, lo) == Select(ts, ps)
      && (forall a, b :: 0 <= a < b < |ps| ==> ps[a] < ps[b])
      && (forall q :: 0 <= q < |ts| ==> (q in ps <==> Carried(ts[q], lo)))
  {
    KeptPositionsFacts(ts, lo);
    if ts != [] {
      var n := |ts| - 1;
      KeptFacts(ts[..n], lo);
      var ps0 := KeptPositions(ts[..n], lo);
      assert forall a :: 0 <= a < |ps0| ==> ts[..n][ps0[a]] == ts[ps0[a]];
    }
  }

  /** Each task kept is one of `ts` that passes the test, and its
      confidence is one `ts` holds. */
  lemma KeptWithin(ts: seq<Task>, lo: real)
    ensures forall a :: 0 <= a < |Kept(ts, lo)| ==> Kept(ts, lo)[a] in ts && Carried(Kept(ts, lo)[a], lo)
    ensures (forall q :: 0 <= q < |ts| ==> 0.0 <= ts[q].confidence <= 1.0) ==>
      forall a :: 0 <= a < |Kept(ts, lo)| ==> 0.0 <= Kept(ts, lo)[a].confidence <= 1.0
  {
    KeptFacts(ts, lo);
    var ps := KeptPositions(ts, lo);
    assert forall a :: 0 <= a < |Kept(ts, lo)| ==> Kept(ts, lo)[a] == ts[ps[a]];
  }

  /** Every task of `ts` that passes the test is kept. */
  lemma KeptComplete(ts: seq<Task>, lo: real)
    ensures forall q :: 0 <= q < |ts| && Carried(ts[q], lo) ==> ts[q] in Kept(ts, lo)
  {
    KeptFacts(ts, lo);
    var ps := KeptPositions(ts, lo);
    var ks := Kept(ts, lo);
    forall q | 0 <= q < |ts| && Carried(ts[q], lo) ensures ts[q] in ks {
      assert q in ps;
      var a :| 0 <= a < |ps| && ps[a] == q;
      assert ks[a] == ts[q];
    }
  }

  /** Distinct tasks stay distinct and unique ids stay unique. */
  lemma KeptDistinct(ts: seq<Task>, lo: real)
    ensures Distinct(ts) ==> Distinct(Kept(ts, lo))
    ensures UniqueIds(ts) ==> UniqueIds(Kept(ts, lo))
  {
    KeptFacts(ts, lo);
    var ps := KeptPositions(ts, lo);
    assert forall a :: 0 <= a < |Kept(ts, lo)| ==> Kept(ts, lo)[a] == ts[ps[a]];
  }

  predicate UniqueIds(ts: seq<Task>) {
    forall i, j :: 0 <= i < j < |ts| ==> ts[i].id != ts[j].id
  }

  // ---------------------------------------------------------------------
  // The task dictionary

  /** Lines 52-55 (32-35): each task registered under its id, unsolved. */
  function Registered(ts: seq<Task>): map<int, Verdict>
    reads ts
  {
    if ts == [] then map[]
    else
      var n := |ts| - 1;
      Registered(ts[..n])[ts[n].id := Verdict(ts[n].confidence, false)]
  }

  /** Every task's id is registered, and no entry starts out solved. */
  lemma {:induction false} RegisteredFacts(ts: seq<Task>)
    ensures forall q :: 0 <= q < |ts| ==> ts[q].id in Registered(ts)
    ensures forall id :: id in Registered(ts) ==> !Registered(ts)[id].solved
  {
    if ts != [] {
      var n := |ts| - 1;
      RegisteredFacts(ts[..n]);
      assert forall q :: 0 <= q < n ==> ts[..n][q] == ts[q];
    }
  }

  /** Lines 63-67 (43-47): each returned task's confidence and solved flag
      written into the dictionary under its id. */
  function Recorded(d: map<int, Verdict>, ts: seq<Task>): map<int, Verdict>
    reads ts
  {
    if ts == [] then d
    else
      var n := |ts| - 1;
      Recorded(d, ts[..n])[ts[n].id := Verdict(ts[n].confidence, ts[n].isSolved)]
  }

  /** No entry is removed and every task's id gets one. */
  lemma {:induction false} RecordedKeys(d: map<int, Verdict>, ts: seq<Task>)
    ensures d.Keys <= Recorded(d, ts).Keys
    ensures forall q :: 0 <= q < |ts| ==> ts[q].id in Recorded(d, ts)
  {
    if ts != [] {
      var n := |ts| - 1;
      RecordedKeys(d, ts[..n]);
      assert forall q :: 0 <= q < n ==> ts[..n][q] == ts[q];
    }
  }

  /** An id of none of the tasks keeps its entry; with unique ids, each
      task's entry holds its confidence and solved flag. */
  lemma {:induction false} RecordedFacts(d: map<int, Verdict>, ts: seq<Task>)
    ensures forall id :: (forall q :: 0 <= q < |ts| ==> ts[q].id != id) ==>
      (id in Recorded(d, ts) <==> id in d) && (id in d ==> Recorded(d, ts)[id] == d[id])
    ensures UniqueIds(ts) ==> forall q :: 0 <= q < |ts| ==>
      ts[q].id in Recorded(d, ts) && Recorded(d, ts)[ts[q].id] == Verdict(ts[q].confidence, ts[q].isSolved)
  {
    if ts != [] {
      var n := |ts| - 1;
      RecordedFacts(d, ts[..n]);
      assert forall q :: 0 <= q < n ==> ts[..n][q] == ts[q];
    }
  }

  /** Every solved entry has reached THRESHOLD and belongs to none of `ts`. */
  predicate SolvedSettled(d: map<int, Verdict>, ts: seq<Task>) {
    forall id :: id in d && d[id].solved ==>
      d[id].confidence >= THRESHOLD && forall q :: 0 <= q < |ts| ==> ts[q].id != id
  }

  /** Lines 62-70 (42-50) keep solved entries settled: a solved entry is not
      written again, and the tasks carried on include none of them. */
  lemma RoundSettles(d: map<int, Verdict>, ts: seq<Task>, lo: real)
    requires SolvedSettled(d, ts) && UniqueIds(ts)
    requires forall q :: 0 <= q < |ts| ==> ts[q].isSolved ==> ts[q].confidence >= THRESHOLD
    ensures SolvedSettled(Recorded(d, ts), Kept(ts, lo))
    ensures forall id :: id in d && d[id].solved ==> id in Recorded(d, ts) && Recorded(d, ts)[id] == d[id]
  {
    RecordedFacts(d, ts);
    KeptFacts(ts, lo);
    var d' := Recorded(d, ts);
    var ks := Kept(ts, lo);
    var ps := KeptPositions(ts, lo);
    forall id | id in d' && d'[id].solved
      ensures d'[id].confidence >= THRESHOLD && forall a :: 0 <= a < |ks| ==> ks[a].id != id
    {
      forall a | 0 <= a < |ks| ensures ks[a].id != id {
        assert ks[a] == ts[ps[a]] && ps[a] in ps;
      }
    }
  }

  /** Lines 62-70 (42-50): the task dictionary updated from the returned
      tasks, and the tasks for the next round collected. */
  method Collect(resultTasks: seq<Task>, tasksDict: map<int, Verdict>, lo: real)
    returns (next: seq<Task>, tasksDict': map<int, Verdict>)
    requires forall q :: 0 <= q < |resultTasks| ==> resultTasks[q].id in tasksDict
    ensures next == Kept(resultTasks, lo)
    ensures tasksDict' == Recorded(tasksDict, resultTasks)
  {
    next := [];
    tasksDict' := tasksDict;
    for i := 0 to |resultTasks|
      invariant next == Kept(resultTasks[..i], lo)
      invariant tasksDict' == Recorded(tasksDict, resultTasks[..i])
    {
      var resultTask := resultTasks[i];
      var newConfidence := resultTask.confidence;
      RecordedKeys(tasksDict, resultTasks[..i]);
      var preConfidence := tasksDict'[resultTask.id].confidence;
      tasksDict' := tasksDict'[resultTask.id := Verdict(newConfidence, resultTask.isSolved)];
      if newConfidence < THRESHOLD && newConfidence >= lo {
        next := next + [resultTask];
      }
      assert resultTasks[..i + 1][..i] == resultTasks[..i];
    }
    assert resultTasks[..|resultTasks|] == resultTasks;
  }

  /** Of the tasks a round hands back, the solved ones and the carried ones
      are disjoint: a solved task has reached THRESHOLD. */
  lemma {:induction false} KeptCount(ts: seq<Task>, lo: real)
    requires forall q :: 0 <= q < |ts| ==> ts[q].isSolved ==> ts[q].confidence >= THRESHOLD
    ensures SolvedCount(SolvedOf(ts)) + |Kept(ts, lo)| <= |ts|
  {
    if ts != [] {
      var n := |ts| - 1;
      KeptCount(ts[..n], lo);
      assert SolvedOf(ts)[..n] == SolvedOf(ts[..n]);
    }
  }

  /** What the end of a round leaves for the next one, given the
      allocators' promises about the tasks they hand back. */
  lemma Carry(ts: seq<Task>, lo: real, d: map<int, Verdict>)
    requires Distinct(ts)
    requires forall q :: 0 <= q < |ts| ==>
      0.0 <= ts[q].confidence <= 1.0 && (ts[q].isSolved ==> ts[q].confidence >= THRESHOLD)
    ensures SolvedCount(SolvedOf(ts)) + |Kept(ts, lo)| <= |ts|
    ensures Distinct(Kept(ts, lo))
    ensures forall a :: 0 <= a < |Kept(ts, lo)| ==>
      Kept(ts, lo)[a] in ts && Carried(Kept(ts, lo)[a], lo) && 0.0 <= Kept(ts, lo)[a].confidence <= 1.0
    ensures forall q :: 0 <= q < |ts| && Carried(ts[q], lo) ==> ts[q] in Kept(ts, lo)
    ensures forall q :: 0 <= q < |ts| ==> ts[q].id in Recorded(d, ts)
  {
    KeptCount(ts, lo);
    KeptWithin(ts, lo);
    KeptComplete(ts, lo);
    KeptDistinct(ts, lo);
    RecordedKeys(d, ts);
  }

  // ---------------------------------------------------------------------
  // One simulation

  /** Lines 31 and 51: `copy.deepcopy(tasks)`. */
  method CopyTasks(tasks: seq<Task>) returns (copies: seq<Task>)
    ensures |copies| == |tasks| && Distinct(copies)
    ensures forall p :: 0 <= p < |tasks| ==> fresh(copies[p])
    ensures Views(copies) == Views(tasks)
    ensures forall p :: 0 <= p < |tasks| ==> copies[p].id == tasks[p].id && copies[p].answers == tasks[p].answers
  {
    copies := [];
    for i := 0 to |tasks|
      invariant |copies| == i && Distinct(copies)
      invariant forall p :: 0 <= p < i ==> fresh(copies[p])
      invariant forall p :: 0 <= p < i ==> copies[p].View() == tasks[p].View()
    {
      var copy := new Task.Copy(tasks[i]);
      copies := copies + [copy];
    }
  }

  /** Lines 32-35 and 52-55: the task dictionary, every task unsolved. */
  method Register(tasks: seq<Task>) returns (tasksDict: map<int, Verdict>)
    ensures tasksDict == Registered(tasks)
  {
    tasksDict := map[];
    for i := 0 to |tasks|
      invariant tasksDict == Registered(tasks[..i])
    {
      tasksDict := tasksDict[tasks[i].id := Verdict(tasks[i].confidence, false)];
      assert tasks[..i + 1][..i] == tasks[..i];
    }
    assert tasks[..|tasks|] == tasks;
  }

  datatype RoundResult = RoundResult(roundRev: real, roundCorrect: int, roundRemaining: int)

  datatype SimResult = SimResult(totalRev: real, totalCorrect: int, remainingBudget: int, rounds: seq<RoundResult>)

  function RevenueTotal(rounds: seq<RoundResult>): real {
    if rounds == [] then 0.0 else RevenueTotal(rounds[..|rounds| - 1]) + rounds[|rounds| - 1].roundRev
  }

  function CorrectTotal(rounds: seq<RoundResult>): int {
    if rounds == [] then 0 else CorrectTotal(rounds[..|rounds| - 1]) + rounds[|rounds| - 1].roundCorrect
  }

  /** Round by round, what remains never grows and never drops below zero. */
  predicate Draining(rounds: seq<RoundResult>, budget: int) {
    && (forall k :: 0 <= k < |rounds| ==> 0 <= rounds[k].roundRemaining)
    && (|rounds| > 0 ==> rounds[0].roundRemaining <= budget)
    && (forall k :: 0 < k < |rounds| ==> rounds[k].roundRemaining <= rounds[k - 1].roundRemaining)
  }

  /** Lines 38-50 and 58-70: one round on `roundTasks`. The allocator runs
      on them, the dictionary records their new state, and those still
      undecided but at least `lo` confident are carried on. */
  method PlayRound(alg: Alg, roundTasks: seq<Task>, levels: LevelsDict, answers: map<int, AnswerPools>,
                   maxAssign: int, roundBudget: int, lo: real, tasksDict: map<int, Verdict>, draws: Draws)
    returns (outcome: Outcome, next: seq<Task>, tasksDict': map<int, Verdict>)
    requires alg == Mckp ==> roundBudget >= 0
    requires levels.table.Valid() && PicksValid(draws, answers) && DifficultiesValid(draws)
    requires Between(roundTasks, answers, tasksDict)
    modifies roundTasks, levels
    ensures forall a :: 0 <= a < |next| ==> Carried(next[a], lo)
    ensures forall q :: 0 <= q < |roundTasks| && Carried(roundTasks[q], lo) ==> roundTasks[q] in next
    ensures roundBudget >= 0 ==> 0 <= outcome.remainingBudget <= roundBudget
    ensures 0 <= outcome.correctCnt && outcome.correctCnt + |next| <= |roundTasks|
    ensures Between(next, answers, tasksDict')
    ensures forall a :: 0 <= a < |next| ==> next[a] in roundTasks
  {
    assert ConfidencesValid(Views(roundTasks));
    outcome := Allocate(alg, roundTasks, levels, answers, maxAssign, roundBudget, draws);
    next, tasksDict' := Collect(roundTasks, tasksDict, lo);
    Carry(roundTasks, lo, tasksDict);
  }

  /** The state between rounds: the round's tasks are distinct, with
      probabilities for confidences, real answers at their own levels and
      entries in the dictionary. */
  ghost predicate Between(roundTasks: seq<Task>, answers: map<int, AnswerPools>, tasksDict: map<int, Verdict>)
    reads roundTasks
  {
    && Distinct(roundTasks)
    && forall q :: 0 <= q < |roundTasks| ==>
         && 0.0 <= roundTasks[q].confidence <= 1.0
         && Answerable(roundTasks[q].id, roundTasks[q].answers, answers)
         && roundTasks[q].id in tasksDict
  }

  /** The accumulators after r rounds: `rounds[..r]` filled in, the rest
      still zero, the totals their sums and `remaining` the last round's. */
  ghost predicate Accumulated(rounds: seq<RoundResult>, r: nat, totalRev: real, totalCorrect: int,
                              remaining: int, budget: int)
  {
    && |rounds| == MAX_ROUND && r <= MAX_ROUND
    && (forall k :: r <= k < MAX_ROUND ==> rounds[k] == RoundResult(0.0, 0, 0))
    && totalRev == RevenueTotal(rounds[..r]) && totalCorrect == CorrectTotal(rounds[..r])
    && (if r == 0 then remaining == budget else remaining == rounds[r - 1].roundRemaining)
    && (budget >= 0 ==> 0 <= remaining && Draining(rounds[..r], budget))
  }

  /** Lines 52-58 (72-78): a round's outcome added to the accumulators. */
  lemma AccumulatedStep(rounds: seq<RoundResult>, r: nat, totalRev: real, totalCorrect: int,
                        remaining: int, budget: int, roundBudget: int, outcome: Outcome,
                        rounds': seq<RoundResult>, remaining': int)
    requires Accumulated(rounds, r, totalRev, totalCorrect, remaining, budget) && r < MAX_ROUND
    requires roundBudget == RoundBudget(remaining, r)
    requires roundBudget >= 0 ==> 0 <= outcome.remainingBudget <= roundBudget
    requires remaining' == remaining - roundBudget + outcome.remainingBudget
    requires rounds' == rounds[r := RoundResult(outcome.revenueSum, outcome.correctCnt, remaining')]
    ensures Accumulated(rounds', r + 1, totalRev + outcome.revenueSum, totalCorrect + outcome.correctCnt, remaining', budget)
  {
    RoundBudgetBounds(remaining, r);
    assert rounds'[..r + 1] == rounds[..r] + [rounds'[r]];
    assert rounds'[..r + 1][..r] == rounds[..r];
    if budget >= 0 {
      var prefix := rounds'[..r + 1];
      assert forall k :: 0 <= k < r ==> prefix[k] == rounds[..r][k];
      if r > 0 {
        assert prefix[r - 1] == rounds[r - 1];
      }
    }
  }

  /** The results a simulation reports: the totals are the sums over the
      rounds, what remains is what the last round left, the budget drains
      round by round, and no more answers are correct than there are tasks. */
  predicate Reported(result: SimResult, taskCnt: nat, budget: int) {
    && |result.rounds| == MAX_ROUND
    && result.totalRev == RevenueTotal(result.rounds)
    && result.totalCorrect == CorrectTotal(result.rounds)
    && result.remainingBudget == result.rounds[MAX_ROUND - 1].roundRemaining
    && 0 <= result.totalCorrect <= taskCnt
    && (budget >= 0 ==> Draining(result.rounds, budget))
  }

  /** Lines 37-58 (57-78): the rounds, played on the copies `roundTasks`. */
  method PlayRounds(alg: Alg, roundTasks: seq<Task>, tasksDict: map<int, Verdict>, levels: LevelsDict,
                    answers: map<int, AnswerPools>, maxAssign: int, budget: int, lo: real, draws: nat -> Draws)
    returns (result: SimResult)
    requires alg == Mckp ==> budget >= 0
    requires levels.table.Valid() && forall r: nat :: PicksValid(draws(r), answers) && DifficultiesValid(draws(r))
    requires Between(roundTasks, answers, tasksDict)
    modifies roundTasks, levels
    ensures Reported(result, |roundTasks|, budget)
  {
    var rounds := seq(MAX_ROUND, _ => RoundResult(0.0, 0, 0));
    var totalRev := 0.0;
    var totalCorrect := 0;
    var remainingBudget := budget;
    var current, dict := roundTasks, tasksDict;
    for r := 0 to MAX_ROUND
      invariant Accumulated(rounds, r, totalRev, totalCorrect, remainingBudget, budget)
      invariant 0 <= totalCorrect && totalCorrect + |current| <= |roundTasks|
      invariant forall q :: 0 <= q < |current| ==> current[q] in roundTasks
      invariant Between(current, answers, dict)
    {
      var roundBudget := RoundBudget(remainingBudget, r);
      RoundBudgetBounds(remainingBudget, r);
      var outcome, next, dict' := PlayRound(alg, current, levels, answers, maxAssign, roundBudget, lo, dict, draws(r));
      var remainingBudget' := remainingBudget - roundBudget + outcome.remainingBudget;
      var rounds' := rounds[r := RoundResult(outcome.revenueSum, outcome.correctCnt, remainingBudget')];
      AccumulatedStep(rounds, r, totalRev, totalCorrect, remainingBudget, budget, roundBudget, outcome, rounds', remainingBudget');
      current, dict := next, dict';
      totalRev := totalRev + outcome.revenueSum;
      totalCorrect := totalCorrect + outcome.correctCnt;
      remainingBudget := remainingBudget';
      rounds := rounds';
    }
    assert rounds[..MAX_ROUND] == rounds;
    result := SimResult(totalRev, totalCorrect, remainingBudget, rounds);
  }

  /** Lines 18-66 of macro_gte_threshold_async (and the body of the loop at
      lines 45-79 of macro_gte_threshold): MAX_ROUND rounds on deep copies
      of the tasks, each round given its share of what remains and fed the
      tasks carried on from the round before; `draws(r)` are the random
      numbers of round r. The caller's tasks are left untouched. `lo` is
      the lower confidence bound for carrying a task on: the async file
      fixes it at CONF_THRESHOLD_ASYNC, and MacroGteThreshold passes
      CONF_THRESHOLD_SYNC. */
  method Simulate(alg: Alg, tasks: seq<Task>, levels: LevelsDict, answers: map<int, AnswerPools>,
                  maxAssign: int, budget: int, lo: real, draws: nat -> Draws) returns (result: SimResult)
    requires alg == Mckp ==> budget >= 0
    requires ConfidencesValid(Views(tasks)) && levels.table.Valid()
    requires forall p :: 0 <= p < |tasks| ==> Answerable(tasks[p].id, tasks[p].answers, answers)
    requires forall r: nat :: PicksValid(draws(r), answers) && DifficultiesValid(draws(r))
    modifies levels
    ensures Reported(result, |tasks|, budget)
  {
    var roundTasks := CopyTasks(tasks);
    var tasksDict := Register(tasks);
    RegisteredFacts(tasks);
    result := PlayRounds(alg, roundTasks, tasksDict, levels, answers, maxAssign, budget, lo, draws);
  }

  // ---------------------------------------------------------------------
  // Repeated simulations

  function Sum(xs: seq<real>): real {
    if xs == [] then 0.0 else Sum(xs[..|xs| - 1]) + xs[|xs| - 1]
  }

  /** Summing two lists entry by entry sums their sums. */
  lemma {:induction false} SumPointwise(xs: seq<real>, ys: seq<real>, zs: seq<real>)
    requires |xs| == |ys| == |zs|
    requires forall k :: 0 <= k < |zs| ==> zs[k] == xs[k] + ys[k]
    ensures Sum(zs) == Sum(xs) + Sum(ys)
  {
    if zs != [] {
      var n := |zs| - 1;
      SumPointwise(xs[..n], ys[..n], zs[..n]);
    }
  }

  datatype MacroRound = MacroRound(roundRev: real, roundCorrect: real, roundRemaining: real)

  /** macro_result: every figure a float, summed over the simulations. */
  datatype MacroResult = MacroResult(totalRev: real, totalCorrect: real, remainingBudget: real,
                                     rounds: seq<MacroRound>)

  /** A simulation's rounds with every figure as a float, as they are added
      into macro_result. */
  function Widened(rounds: seq<RoundResult>): (ms: seq<MacroRound>)
    ensures |ms| == |rounds|
    ensures forall k :: 0 <= k < |rounds| ==>
      ms[k] == MacroRound(rounds[k].roundRev, rounds[k].roundCorrect as real, rounds[k].roundRemaining as real)
  {
    seq(|rounds|, k requires 0 <= k < |rounds| =>
      MacroRound(rounds[k].roundRev, rounds[k].roundCorrect as real, rounds[k].roundRemaining as real))
  }

  function Revenues(rounds: seq<MacroRound>): (xs: seq<real>)
    ensures |xs| == |rounds| && forall k :: 0 <= k < |rounds| ==> xs[k] == rounds[k].roundRev
  {
    seq(|rounds|, k requires 0 <= k < |rounds| => rounds[k].roundRev)
  }

  function Corrects(rounds: seq<MacroRound>): (xs: seq<real>)
    ensures |xs| == |rounds| && forall k :: 0 <= k < |rounds| ==> xs[k] == rounds[k].roundCorrect
  {
    seq(|rounds|, k requires 0 <= k < |rounds| => rounds[k].roundCorrect)
  }

  /** A simulation's totals are the sums of its per-round figures. */
  lemma {:induction false} SimTotalsAreSums(rounds: seq<RoundResult>)
    ensures RevenueTotal(rounds) == Sum(Revenues(Widened(rounds)))
    ensures CorrectTotal(rounds) as real == Sum(Corrects(Widened(rounds)))
  {
    if rounds != [] {
      var n := |rounds| - 1;
      SimTotalsAreSums(rounds[..n]);
      assert Revenues(Widened(rounds))[..n] == Revenues(Widened(rounds[..n]));
      assert Corrects(Widened(rounds))[..n] == Corrects(Widened(rounds[..n]));
    }
  }

  /** Lines 45-82 keep these facts after k simulations of `taskCnt` tasks:
      the totals are the sums over the rounds, what remains is what the
      last rounds left, no more answers are correct than k times the tasks,
      and with a non-negative budget the per-round remainders are
      non-negative, start at most k budgets and never grow. */
  ghost predicate Summed(m: MacroResult, k: nat, taskCnt: nat, budget: int) {
    && |m.rounds| == MAX_ROUND
    && m.totalRev == Sum(Revenues(m.rounds))
    && m.totalCorrect == Sum(Corrects(m.rounds))
    && m.remainingBudget == m.rounds[MAX_ROUND - 1].roundRemaining
    && 0.0 <= m.totalCorrect <= (k * taskCnt) as real
    && (budget >= 0 ==>
          && (forall r :: 0 <= r < MAX_ROUND ==> 0.0 <= m.rounds[r].roundRemaining)
          && m.rounds[0].roundRemaining <= (k * budget) as real
          && (forall r :: 0 < r < MAX_ROUND ==> m.rounds[r].roundRemaining <= m.rounds[r - 1].roundRemaining))
  }

  /** Lines 32-43: every figure zero. */
  function Zero(): (m: MacroResult)
    ensures Summed(m, 0, 0, 0)
  {
    var m := MacroResult(0.0, 0.0, 0.0, seq(MAX_ROUND, _ => MacroRound(0.0, 0.0, 0.0)));
    assert Sum(Revenues(m.rounds)) == 0.0 && Sum(Corrects(m.rounds)) == 0.0 by {
      SumPointwise(Revenues(m.rounds), Revenues(m.rounds), Revenues(m.rounds));
      SumPointwise(Corrects(m.rounds), Corrects(m.rounds), Corrects(m.rounds));
    }
    m
  }

  /** Lines 72-82: one simulation's figures added in. */
  function Accumulate(m: MacroResult, sim: SimResult): (m': MacroResult)
    requires |m.rounds| == |sim.rounds| == MAX_ROUND
    ensures |m'.rounds| == MAX_ROUND
    ensures forall r :: 0 <= r < MAX_ROUND ==>
      m'.rounds[r] == MacroRound(m.rounds[r].roundRev + sim.rounds[r].roundRev,
                                 m.rounds[r].roundCorrect + sim.rounds[r].roundCorrect as real,
                                 m.rounds[r].roundRemaining + sim.rounds[r].roundRemaining as real)
  {
    MacroResult(m.totalRev + sim.totalRev,
                m.totalCorrect + sim.totalCorrect as real,
                m.remainingBudget + sim.remainingBudget as real,
                seq(MAX_ROUND, r requires 0 <= r < MAX_ROUND =>
                  MacroRound(m.rounds[r].roundRev + sim.rounds[r].roundRev,
                             m.rounds[r].roundCorrect + sim.rounds[r].roundCorrect as real,
                             m.rounds[r].roundRemaining + sim.rounds[r].roundRemaining as real)))
  }

  /** Adding a simulation's report keeps the facts, with one more simulation. */
  lemma AccumulateSummed(m: MacroResult, k: nat, sim: SimResult, taskCnt: nat, budget: int)
    requires Summed(m, k, taskCnt, budget) && Reported(sim, taskCnt, budget)
    ensures Summed(Accumulate(m, sim), k + 1, taskCnt, budget)
  {
    var m' := Accumulate(m, sim);
    SimTotalsAreSums(sim.rounds);
    SumPointwise(Revenues(m.rounds), Revenues(Widened(sim.rounds)), Revenues(m'.rounds));
    SumPointwise(Corrects(m.rounds), Corrects(Widened(sim.rounds)), Corrects(m'.rounds));
    assert (k * taskCnt) as real + taskCnt as real == ((k + 1) * taskCnt) as real;
    assert (k * budget) as real + budget as real == ((k + 1) * budget) as real;
  }

  /** Lines 45-82 of macro_gte_threshold: SIMULATE_CNT simulations from the
      same tasks, with `draws(i, r)` the random numbers of round r of
      simulation i, their figures summed. */
  method MacroGteThreshold(alg: Alg, tasks: seq<Task>, levels: LevelsDict, answers: map<int, AnswerPools>,
                           maxAssign: int, budget: int, draws: (nat, nat) -> Draws) returns (macro: MacroResult)
    requires alg == Mckp ==> budget >= 0
    requires ConfidencesValid(Views(tasks)) && levels.table.Valid()
    requires forall p :: 0 <= p < |tasks| ==> Answerable(tasks[p].id, tasks[p].answers, answers)
    requires forall i: nat, r: nat :: PicksValid(draws(i, r), answers) && DifficultiesValid(draws(i, r))
    modifies levels
    ensures Summed(macro, SIMULATE_CNT, |tasks|, budget)
  {
    macro := Zero();
    assert Summed(macro, 0, |tasks|, budget);
    for i := 0 to SIMULATE_CNT
      invariant Summed(macro, i, |tasks|, budget)
      invariant ConfidencesValid(Views(tasks))
    {
      var sim := Simulate(alg, tasks, levels, answers, maxAssign, budget, CONF_THRESHOLD_SYNC, (r: nat) => draws(i, r));
      AccumulateSummed(macro, i, sim, |tasks|, budget);
      macro := Accumulate(macro, sim);
    }
  }
}
