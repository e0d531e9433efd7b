/** Vocabulary shared by the whole simulation: worker levels, the levels
    dictionary, task records, allocator outcomes and the random draws. */
module Model {

  /** Confidence a task must reach to count as solved. */
  const THRESHOLD: real := 0.75
  /** Weight of the declared quality against the sampled difficulty in a true ratio. */
  const ALPHA: real := 0.8
  /** Monte Carlo trials per staffing combination. */
  const MAX_ITERATION: nat := 100

  datatype Option<T> = None | Some(value: T)

  /** The two worker levels the estimator enumerates. */
  datatype Level = Level1 | Level2

  /** One entry of the levels dictionary: declared quality and the price of one worker. */
  datatype LevelInfo = LevelInfo(quality: real, cost: int)

  datatype LevelTable = LevelTable(level1: LevelInfo, level2: LevelInfo) {
    function Info(l: Level): LevelInfo {
      if l == Level1 then level1 else level2
    }

    function Quality(l: Level): (q: real)
      ensures Valid() ==> 0.0 < q < 1.0
    {
      Info(l).quality
    }

    function Cost(l: Level): (c: int)
      ensures Valid() ==> c >= 0
    {
      Info(l).cost
    }

    /** Qualities are probabilities strictly between 0 and 1; prices are non-negative. */
    predicate Valid() {
      && 0.0 < level1.quality < 1.0
      && 0.0 < level2.quality < 1.0
      && level1.cost >= 0
      && level2.cost >= 0
    }
  }

  /** The levels dictionary: quality and cost are read-only; the estimator writes
      each level's `true_ratio` into it in place. */
  class LevelsDict {
    const table: LevelTable
    var trueRatio: map<Level, real>

    constructor (table: LevelTable)
      ensures this.table == table && trueRatio == map[]
    {
      this.table := table;
      trueRatio := map[];
    }
  }

  /** Answer options (`option` of each answer record) per level. */
  datatype AnswerPools = AnswerPools(level1: seq<bool>, level2: seq<bool>) {
    function Of(l: Level): seq<bool> {
      if l == Level1 then level1 else level2
    }
  }

  /** The fields of a task that the allocators read, as a value. */
  datatype TaskView = TaskView(id: int, revenue: real, answers: AnswerPools, confidence: real)

  /** A task record; allocators update its confidence and solved flag in place. */
  class Task {
    const id: int
    const revenue: real
    /** The task's own per-level answer lists; only their lengths are used. */
    const answers: AnswerPools
    /** `pre-answer.confidence` */
    var confidence: real
    var isSolved: bool
    var originExpRevenue: real

    /** A deep copy of `t`. */
    constructor Copy(t: Task)
      ensures id == t.id && revenue == t.revenue && answers == t.answers
      ensures confidence == t.confidence && isSolved == t.isSolved
      ensures originExpRevenue == t.originExpRevenue
    {
      id := t.id;
      revenue := t.revenue;
      answers := t.answers;
      confidence := t.confidence;
      isSolved := t.isSolved;
      originExpRevenue := t.originExpRevenue;
    }

    function View(): TaskView
      reads this
    {
      TaskView(id, revenue, answers, confidence)
    }
  }

  function Views(tasks: seq<Task>): (vs: seq<TaskView>)
    reads tasks
    ensures |vs| == |tasks|
    ensures forall p :: 0 <= p < |tasks| ==> vs[p] == tasks[p].View()
  {
    if tasks == [] then [] else [tasks[0].View()] + Views(tasks[1..])
  }

  predicate Distinct(tasks: seq<Task>) {
    forall i, j :: 0 <= i < j < |tasks| ==> tasks[i] != tasks[j]
  }

  predicate ConfidencesValid(vs: seq<TaskView>) {
    forall p :: 0 <= p < |vs| ==> 0.0 <= vs[p].confidence <= 1.0
  }

  /** What every allocator returns besides the updated tasks. */
  datatype Outcome = Outcome(revenueSum: real, correctCnt: int, remainingBudget: int)

  /** The random numbers one allocator call consumes, as explicit inputs.
      `difficulty(p)` is the difficulty sampled for the task at position p;
      `uniform(p, j, i, w)` the uniform draw for worker w of trial i of combination j of that task;
      `pick(p, id, l, w)` the index drawn from the real-answer pool of level l for worker w. */
  datatype Draws = Draws(
    difficulty: nat -> real,
    uniform: (nat, nat, nat, nat) -> real,
    pick: (nat, int, Level, nat) -> nat)
  {
    function Trials(p: nat): (nat, nat, nat) -> real {
      (j: nat, i: nat, w: nat) => uniform(p, j, i, w)
    }

    /** The answer indices drawn for the workers of `comb` on task `id` at position p. */
    function Picks(p: nat, id: int, comb: seq<Level>): (r: seq<nat>)
      ensures |r| == |comb|
      ensures forall w :: 0 <= w < |comb| ==> r[w] == pick(p, id, comb[w], w)
    {
      seq(|comb|, w requires 0 <= w < |comb| => pick(p, id, comb[w], w as nat))
    }
  }

  /** Every pick from a non-empty real-answer pool lands inside it
      (random.randint(0, len - 1)); an empty pool has no valid pick. */
  ghost predicate PicksValid(draws: Draws, answers: map<int, AnswerPools>) {
    forall p: nat, id, l, w: nat {:trigger draws.pick(p, id, l, w)} ::
      id in answers && |answers[id].Of(l)| > 0 ==> draws.pick(p, id, l, w) < |answers[id].Of(l)|
  }

  /** Every sampled difficulty lies in [0, 1], as each value gen_difficulty
      returns does. */
  ghost predicate DifficultiesValid(draws: Draws) {
    forall p: nat :: 0.0 <= draws.difficulty(p) <= 1.0
  }

  /** A combination can be answered for task `id`: the real-answer
      dictionary has the task, with a non-empty pool for every level the
      combination uses. */
  predicate Drawable(comb: seq<Level>, answers: map<int, AnswerPools>, id: int) {
    id in answers && forall w :: 0 <= w < |comb| ==> |answers[id].Of(comb[w])| > 0
  }

  /** The real answers of a task whose own answer lists are `own`: at every
      level where the task has answers of its own, the real-answer
      dictionary has the task with a non-empty pool. */
  predicate Answerable(id: int, own: AnswerPools, answers: map<int, AnswerPools>) {
    && (|own.level1| > 0 ==> id in answers && |answers[id].level1| > 0)
    && (|own.level2| > 0 ==> id in answers && |answers[id].level2| > 0)
  }

  /** A non-empty combination using only levels at which the task has
      answers of its own. */
  predicate OwnLevels(comb: seq<Level>, own: AnswerPools) {
    |comb| > 0 && forall w :: 0 <= w < |comb| ==> |own.Of(comb[w])| > 0
  }

  /** A combination over the task's own levels can be drawn from the real
      answers of an answerable task. */
  lemma OwnLevelsDrawable(comb: seq<Level>, own: AnswerPools, id: int, answers: map<int, AnswerPools>)
    requires OwnLevels(comb, own) && Answerable(id, own, answers)
    ensures Drawable(comb, answers, id)
  {
    assert comb[0] == Level1 || comb[0] == Level2;
  }

  /** Sum of the revenues whose solved flag is set. */
  function SolvedRevenue(revenues: seq<real>, solved: seq<bool>): real
    requires |revenues| == |solved|
  {
    if solved == [] then 0.0
    else
      var n := |solved| - 1;
      SolvedRevenue(revenues[..n], solved[..n]) + (if solved[n] then revenues[n] else 0.0)
  }

  /** Number of set solved flags. */
  function SolvedCount(solved: seq<bool>): (c: nat)
    ensures c <= |solved|
  {
    if solved == [] then 0
    else SolvedCount(solved[..|solved| - 1]) + (if solved[|solved| - 1] then 1 else 0)
  }

  /** The solved flags of `ts`, in list order. */
  function SolvedOf(ts: seq<Task>): (s: seq<bool>)
    reads ts
    ensures |s| == |ts| && forall p :: 0 <= p < |ts| ==> s[p] == ts[p].isSolved
  {
    seq(|ts|, p requires 0 <= p < |ts| reads ts => ts[p].isSolved)
  }

  function Range(n: nat): (r: seq<nat>)
    ensures |r| == n && forall k :: 0 <= k < n ==> r[k] == k
  {
    seq(n, k => k)
  }
}
