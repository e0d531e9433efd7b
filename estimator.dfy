/** micro_optimization: for one task, every feasible staffing combination of
    the two worker levels, its price, and its expected revenue estimated by
    Monte Carlo trials of the confidence update. */
module Estimator {
  import opened Model
  import opened Confidence

  /** The probability a worker of the level answers correctly on this task:
      declared quality blended with the sampled difficulty. */
  function TrueRatio(info: LevelInfo, difficulty: real): real {
    ALPHA * info.quality + (1.0 - ALPHA) * difficulty
  }

  /** The true ratio lies between the quality and the difficulty, hence in
      [0,1] when both are. */
  lemma TrueRatioBounds(info: LevelInfo, difficulty: real)
    ensures 0.0 <= info.quality <= 1.0 && 0.0 <= difficulty <= 1.0 ==> 0.0 <= TrueRatio(info, difficulty) <= 1.0
    ensures info.quality <= difficulty ==> info.quality <= TrueRatio(info, difficulty) <= difficulty
    ensures difficulty <= info.quality ==> difficulty <= TrueRatio(info, difficulty) <= info.quality
  {
  }

  /** The `true_ratio` entries micro_optimization writes into the levels dictionary. */
  function RatiosFor(table: LevelTable, difficulty: real): map<Level, real> {
    map[Level1 := TrueRatio(table.level1, difficulty), Level2 := TrueRatio(table.level2, difficulty)]
  }

  /** Writing both levels' entries leaves exactly the two true ratios, whatever was there before. */
  lemma RatiosOverwrite(m: map<Level, real>, table: LevelTable, difficulty: real)
    ensures m[Level1 := TrueRatio(table.level1, difficulty)][Level2 := TrueRatio(table.level2, difficulty)]
      == RatiosFor(table, difficulty)
  {
    var m' := m[Level1 := TrueRatio(table.level1, difficulty)][Level2 := TrueRatio(table.level2, difficulty)];
    forall l: Level ensures l in m' && l in RatiosFor(table, difficulty) {
      if l == Level1 { } else { assert l == Level2; }
    }
    assert m'.Keys == RatiosFor(table, difficulty).Keys;
  }

  /** The true ratios left in the levels dictionary after the estimator has
      run for the tasks at the positions in `served`, in that order: those of
      the last one, or the initial entries when none was served. */
  function LastRatios(table: LevelTable, difficulty: nat -> real, served: seq<nat>, initial: map<Level, real>): map<Level, real> {
    if served == [] then initial else RatiosFor(table, difficulty(served[|served| - 1]))
  }

  // ----- Enumeration of staffing combinations -----

  /** How many workers of each level a combination uses. */
  datatype Pair = Pair(n1: nat, n2: nat) {
    function Total(): nat { n1 + n2 }
  }

  /** A pair the enumeration admits: one to `maxAssign` workers, neither level
      asked for more workers than the task has answers of that level. */
  predicate Feasible(p: Pair, maxAssign: int, cap1: nat, cap2: nat) {
    1 <= p.Total() <= maxAssign && p.n1 <= cap1 && p.n2 <= cap2
  }

  /** Enumeration order: by total, then by the number of level-1 workers. */
  predicate Precedes(a: Pair, b: Pair) {
    a.Total() < b.Total() || (a.Total() == b.Total() && a.n1 < b.n1)
  }

  predicate InEnumerationOrder(s: seq<Pair>) {
    forall a, b :: 0 <= a < b < |s| ==> Precedes(s[a], s[b])
  }

  predicate Level1Ascending(r: seq<Pair>) {
    forall a, b :: 0 <= a < b < |r| ==> r[a].n1 < r[b].n1
  }

  /** The admitted pairs of one total whose level-1 count is below k, in
      ascending level-1 count (the inner loop after k iterations). */
  function Row(total: nat, k: nat, cap1: nat, cap2: nat): seq<Pair>
    requires k <= total + 1
  {
    if k == 0 then []
    else
      var n1: nat := k - 1;
      Row(total, k - 1, cap1, cap2)
        + (if n1 <= cap1 && total - n1 <= cap2 then [Pair(n1, total - n1)] else [])
  }

  /** The admitted pairs of totals 1..t, in enumeration order. */
  function PairsUpTo(t: nat, cap1: nat, cap2: nat): seq<Pair> {
    if t == 0 then [] else PairsUpTo(t - 1, cap1, cap2) + Row(t, t + 1, cap1, cap2)
  }

  function LevelPairs(maxAssign: int, cap1: nat, cap2: nat): seq<Pair> {
    if maxAssign <= 0 then [] else PairsUpTo(maxAssign, cap1, cap2)
  }

  lemma {:induction false} RowFacts(total: nat, k: nat, cap1: nat, cap2: nat)
    requires k <= total + 1
    ensures forall p :: p in Row(total, k, cap1, cap2) <==>
      p.Total() == total && p.n1 < k && p.n1 <= cap1 && p.n2 <= cap2
    ensures forall a :: 0 <= a < |Row(total, k, cap1, cap2)| ==> Row(total, k, cap1, cap2)[a].n1 < k
    ensures Level1Ascending(Row(total, k, cap1, cap2))
  {
    if k > 0 {
      RowFacts(total, k - 1, cap1, cap2);
      var r' := Row(total, k - 1, cap1, cap2);
      var n1: nat := k - 1;
      var tail: seq<Pair> := if n1 <= cap1 && total - n1 <= cap2 then [Pair(n1, total - n1)] else [];
      assert Row(total, k, cap1, cap2) == r' + tail;
      forall p: Pair ensures p in r' + tail <==> p.Total() == total && p.n1 < k && p.n1 <= cap1 && p.n2 <= cap2 {
        if p.Total() == total && p.n1 == n1 && p.n1 <= cap1 && p.n2 <= cap2 {
          assert p == Pair(n1, total - n1);
        }
      }
      var r := r' + tail;
      forall a | 0 <= a < |r| ensures r[a].n1 < k {
        if a < |r'| { assert r[a] == r'[a]; } else { assert r[a] == tail[0]; }
      }
      forall a, b | 0 <= a < b < |r| ensures r[a].n1 < r[b].n1 {
        if b < |r'| {
          assert r[a] == r'[a] && r[b] == r'[b];
        } else {
          assert r[b] == tail[0] && r[b].n1 == n1;
          assert r[a] == r'[a] && r'[a].n1 < n1;
        }
      }
    }
  }

  lemma {:induction false} PairsUpToMembers(t: nat, cap1: nat, cap2: nat)
    ensures forall p :: p in PairsUpTo(t, cap1, cap2) <==>
      1 <= p.Total() <= t && p.n1 <= cap1 && p.n2 <= cap2
  {
    if t > 0 {
      PairsUpToMembers(t - 1, cap1, cap2);
      RowFacts(t, t + 1, cap1, cap2);
      var s', row := PairsUpTo(t - 1, cap1, cap2), Row(t, t + 1, cap1, cap2);
      assert PairsUpTo(t, cap1, cap2) == s' + row;
      forall p: Pair ensures p in s' + row <==> 1 <= p.Total() <= t && p.n1 <= cap1 && p.n2 <= cap2 {
        assert p in s' + row <==> p in s' || p in row;
      }
    }
  }

  lemma {:induction false} PairsUpToOrdered(t: nat, cap1: nat, cap2: nat)
    ensures InEnumerationOrder(PairsUpTo(t, cap1, cap2))
  {
    if t > 0 {
      PairsUpToOrdered(t - 1, cap1, cap2);
      PairsUpToMembers(t - 1, cap1, cap2);
      RowFacts(t, t + 1, cap1, cap2);
      var s', row := PairsUpTo(t - 1, cap1, cap2), Row(t, t + 1, cap1, cap2);
      var s := s' + row;
      assert PairsUpTo(t, cap1, cap2) == s;
      forall a, b | 0 <= a < b < |s| ensures Precedes(s[a], s[b]) {
        if b < |s'| {
          assert s[a] == s'[a] && s[b] == s'[b];
        } else if a >= |s'| {
          assert s[a] == row[a - |s'|] && s[b] == row[b - |s'|];
        } else {
          assert s[a] == s'[a] && s'[a] in s';
          assert s[b] == row[b - |s'|] && row[b - |s'|] in row;
        }
      }
    }
  }

  /** `level_combs` holds exactly the feasible pairs, each once, ordered by
      total and then by the number of level-1 workers. */
  lemma LevelPairsExact(maxAssign: int, cap1: nat, cap2: nat)
    ensures forall p :: p in LevelPairs(maxAssign, cap1, cap2) <==> Feasible(p, maxAssign, cap1, cap2)
    ensures InEnumerationOrder(LevelPairs(maxAssign, cap1, cap2))
    ensures var s := LevelPairs(maxAssign, cap1, cap2);
      forall a, b :: 0 <= a < b < |s| ==> s[a] != s[b]
  {
    if maxAssign > 0 {
      PairsUpToMembers(maxAssign, cap1, cap2);
      PairsUpToOrdered(maxAssign, cap1, cap2);
    }
    var s := LevelPairs(maxAssign, cap1, cap2);
    forall a, b | 0 <= a < b < |s| ensures s[a] != s[b] {
      assert Precedes(s[a], s[b]);
    }
  }

  function Repeat(l: Level, n: nat): (r: seq<Level>)
    ensures |r| == n && forall k :: 0 <= k < n ==> r[k] == l
  {
    seq(n, _ => l)
  }

  /** The level list of a pair: its level-1 workers followed by its level-2 workers. */
  function CombOf(p: Pair): seq<Level> {
    Repeat(Level1, p.n1) + Repeat(Level2, p.n2)
  }

  function CombsOf(ps: seq<Pair>): (cs: seq<seq<Level>>)
    ensures |cs| == |ps| && forall j :: 0 <= j < |ps| ==> cs[j] == CombOf(ps[j])
  {
    seq(|ps|, j requires 0 <= j < |ps| => CombOf(ps[j]))
  }

  /** Every level combination the estimator scores, in enumeration order. */
  function LevelCombs(maxAssign: int, cap1: nat, cap2: nat): seq<seq<Level>> {
    CombsOf(LevelPairs(maxAssign, cap1, cap2))
  }

  /** Each combination is `n1` copies of level 1 then `n2` copies of level 2
      for a feasible pair, and no two positions hold the same combination. */
  lemma LevelCombsShape(maxAssign: int, cap1: nat, cap2: nat)
    ensures var ps, cs := LevelPairs(maxAssign, cap1, cap2), LevelCombs(maxAssign, cap1, cap2);
      && |cs| == |ps|
      && (forall j :: 0 <= j < |cs| ==>
            Feasible(ps[j], maxAssign, cap1, cap2)
            && |cs[j]| == ps[j].Total()
            && (forall w :: 0 <= w < |cs[j]| ==> (cs[j][w] == Level1 <==> w < ps[j].n1)))
      && (forall a, b :: 0 <= a < b < |cs| ==> cs[a] != cs[b])
  {
    LevelPairsExact(maxAssign, cap1, cap2);
    var ps, cs := LevelPairs(maxAssign, cap1, cap2), LevelCombs(maxAssign, cap1, cap2);
    forall j | 0 <= j < |cs| ensures Feasible(ps[j], maxAssign, cap1, cap2) {
      assert ps[j] in ps;
    }
    forall a, b | 0 <= a < b < |cs| ensures cs[a] != cs[b] {
      CombOfCounts(ps[a]);
      CombOfCounts(ps[b]);
      if ps[a].Total() == ps[b].Total() {
        var w := ps[a].n1;
        assert ps[a].n1 < ps[b].n1;
        assert cs[b][w] == Level1 && cs[a][w] == Level2;
      }
    }
  }

  /** The enumeration proposes a level only for a task that has answers of
      its own at that level, and never an empty combination. */
  lemma CombsUseOwnLevels(maxAssign: int, cap1: nat, cap2: nat)
    ensures var cs := LevelCombs(maxAssign, cap1, cap2);
      forall j :: 0 <= j < |cs| ==>
        && |cs[j]| > 0
        && forall w :: 0 <= w < |cs[j]| ==> (cs[j][w] == Level1 ==> cap1 > 0) && (cs[j][w] == Level2 ==> cap2 > 0)
  {
    LevelCombsShape(maxAssign, cap1, cap2);
  }

  lemma CombOfCounts(p: Pair)
    ensures |CombOf(p)| == p.Total()
    ensures forall w :: 0 <= w < p.Total() ==> (CombOf(p)[w] == Level1 <==> w < p.n1)
  {
    var r1, r2 := Repeat(Level1, p.n1), Repeat(Level2, p.n2);
    forall w | 0 <= w < p.Total() ensures CombOf(p)[w] == Level1 <==> w < p.n1 {
      if w < p.n1 { assert CombOf(p)[w] == r1[w]; } else { assert CombOf(p)[w] == r2[w - p.n1]; }
    }
  }

  lemma CombsOfConcat(a: seq<Pair>, b: seq<Pair>)
    ensures CombsOf(a + b) == CombsOf(a) + CombsOf(b)
  {
    var l, r := CombsOf(a + b), CombsOf(a) + CombsOf(b);
    assert |l| == |r|;
    forall j | 0 <= j < |a + b| ensures l[j] == r[j] {
      if j < |a| {
        assert (a + b)[j] == a[j] && r[j] == CombsOf(a)[j];
      } else {
        assert (a + b)[j] == b[j - |a|] && r[j] == CombsOf(b)[j - |a|];
      }
    }
  }

  /** Builds `level_combs` with the two nested loops of the source. */
  method EnumerateCombs(maxAssign: int, cap1: nat, cap2: nat) returns (levelCombs: seq<seq<Level>>)
    ensures levelCombs == LevelCombs(maxAssign, cap1, cap2)
  {
    levelCombs := [];
    var total: nat := 1;
    while total <= maxAssign
      invariant 1 <= total && (maxAssign >= 1 ==> total <= maxAssign + 1) && (maxAssign < 1 ==> total == 1)
      invariant levelCombs == CombsOf(PairsUpTo(total - 1, cap1, cap2))
    {
      ghost var before := PairsUpTo(total - 1, cap1, cap2);
      for level1Cnt := 0 to total + 1
        invariant levelCombs == CombsOf(before + Row(total, level1Cnt, cap1, cap2))
      {
        var level2Cnt := total - level1Cnt;
        ghost var row := Row(total, level1Cnt, cap1, cap2);
        if level1Cnt <= cap1 && level2Cnt <= cap2 {
          var levelComb := Repeat(Level1, level1Cnt) + Repeat(Level2, level2Cnt);
          assert Row(total, level1Cnt + 1, cap1, cap2) == row + [Pair(level1Cnt, level2Cnt)];
          CombsOfConcat(before + row, [Pair(level1Cnt, level2Cnt)]);
          assert before + row + [Pair(level1Cnt, level2Cnt)] == before + (row + [Pair(level1Cnt, level2Cnt)]);
          levelCombs := levelCombs + [levelComb];
        } else {
          assert Row(total, level1Cnt + 1, cap1, cap2) == row + [];
          assert row + [] == row;
        }
      }
      assert PairsUpTo(total, cap1, cap2) == before + Row(total, total + 1, cap1, cap2);
      total := total + 1;
    }
    assert LevelPairs(maxAssign, cap1, cap2) == PairsUpTo(total - 1, cap1, cap2);
  }

  // ----- Cost -----

  /** Sum of the prices of the workers of a combination. */
  function CombCost(comb: seq<Level>, table: LevelTable): int {
    if comb == [] then 0 else CombCost(comb[..|comb| - 1], table) + table.Cost(comb[|comb| - 1])
  }

  lemma {:induction false} CombCostConcat(a: seq<Level>, b: seq<Level>, table: LevelTable)
    ensures CombCost(a + b, table) == CombCost(a, table) + CombCost(b, table)
    decreases |b|
  {
    if b == [] {
      assert a + b == a;
    } else {
      assert (a + b)[..|a + b| - 1] == a + b[..|b| - 1];
      CombCostConcat(a, b[..|b| - 1], table);
    }
  }

  lemma {:induction false} RepeatCost(l: Level, n: nat, table: LevelTable)
    ensures CombCost(Repeat(l, n), table) == n * table.Cost(l)
  {
    if n > 0 {
      assert Repeat(l, n)[..n - 1] == Repeat(l, n - 1);
      RepeatCost(l, n - 1, table);
    }
  }

  /** A combination with n1 level-1 and n2 level-2 workers costs n1·cost1 + n2·cost2. */
  lemma CombCostOf(p: Pair, table: LevelTable)
    ensures CombCost(CombOf(p), table) == p.n1 * table.level1.cost + p.n2 * table.level2.cost
    ensures table.Valid() ==> CombCost(CombOf(p), table) >= 0
  {
    CombCostConcat(Repeat(Level1, p.n1), Repeat(Level2, p.n2), table);
    RepeatCost(Level1, p.n1, table);
    RepeatCost(Level2, p.n2, table);
  }

  // ----- Monte Carlo trials -----

  /** The votes of trial i of combination j: worker w's simulated answer agrees
      exactly when its uniform draw is at most its level's true ratio. */
  function TrialVotes(comb: seq<Level>, table: LevelTable, difficulty: real,
                      u: (nat, nat, nat) -> real, j: nat, i: nat): (vs: seq<Vote>)
    ensures |vs| == |comb|
    ensures forall w :: 0 <= w < |comb| ==> vs[w].quality == table.Quality(comb[w])
    ensures forall w :: 0 <= w < |comb| ==> vs[w].agrees == (u(j, i, w) <= TrueRatio(table.Info(comb[w]), difficulty))
    ensures table.Valid() ==> QualitiesValid(vs)
  {
    seq(|comb|, w requires 0 <= w < |comb| =>
      Vote(table.Quality(comb[w]), u(j, i, w) <= TrueRatio(table.Info(comb[w]), difficulty)))
  }

  /** A trial performs the same update as gen_true_conf on an answer pool
      whose picked options are the trial's simulated answers. */
  lemma TrialIsAnswerUpdate(comb: seq<Level>, table: LevelTable, difficulty: real,
                            u: (nat, nat, nat) -> real, j: nat, i: nat,
                            pools: AnswerPools, picks: seq<nat>)
    requires PicksFit(comb, pools, picks)
    requires forall w :: 0 <= w < |comb| ==>
      pools.Of(comb[w])[picks[w]] == (u(j, i, w) <= TrueRatio(table.Info(comb[w]), difficulty))
    ensures TrialVotes(comb, table, difficulty, u, j, i) == AnswerVotes(comb, table, pools, picks)
  {
    var tv, av := TrialVotes(comb, table, difficulty, u, j, i), AnswerVotes(comb, table, pools, picks);
    forall w | 0 <= w < |comb| ensures tv[w] == av[w] {
      assert av[w] == Vote(table.Quality(comb[w]), pools.Of(comb[w])[picks[w]]);
    }
  }

  /** How many of the first n trials reach THRESHOLD. */
  function Hits(prior: real, comb: seq<Level>, table: LevelTable, difficulty: real,
                u: (nat, nat, nat) -> real, j: nat, n: nat): (h: nat)
    requires 0.0 <= prior <= 1.0 && table.Valid()
    ensures h <= n
  {
    if n == 0 then 0
    else
      Hits(prior, comb, table, difficulty, u, j, n - 1)
        + (if Posterior(prior, TrialVotes(comb, table, difficulty, u, j, n - 1)) >= THRESHOLD then 1 else 0)
  }

  /** One more trial adds one to the count exactly when its posterior reaches THRESHOLD. */
  lemma HitsStep(prior: real, comb: seq<Level>, table: LevelTable, difficulty: real,
                 u: (nat, nat, nat) -> real, j: nat, i: nat, h: nat, trueConf: real)
    requires 0.0 <= prior <= 1.0 && table.Valid()
    requires h == Hits(prior, comb, table, difficulty, u, j, i)
    requires trueConf == Posterior(prior, TrialVotes(comb, table, difficulty, u, j, i))
    ensures Hits(prior, comb, table, difficulty, u, j, i + 1) == h + (if trueConf >= THRESHOLD then 1 else 0)
  {
  }

  /** One entry of the estimator's result list. */
  datatype CombResult = CombResult(levelComb: seq<Level>, gteThresholdCnt: nat, expectedRevenue: real, cost: int)

  function ExpectedRevenue(hits: nat, revenue: real): real {
    hits as real / MAX_ITERATION as real * revenue
  }

  /** The result for combination j of a task. */
  function Score(view: TaskView, table: LevelTable, difficulty: real,
                 u: (nat, nat, nat) -> real, j: nat, comb: seq<Level>): CombResult
    requires 0.0 <= view.confidence <= 1.0 && table.Valid()
  {
    var hits := Hits(view.confidence, comb, table, difficulty, u, j, MAX_ITERATION);
    CombResult(comb, hits, ExpectedRevenue(hits, view.revenue), CombCost(comb, table))
  }

  lemma ScoreIs(view: TaskView, table: LevelTable, difficulty: real,
                u: (nat, nat, nat) -> real, j: nat, comb: seq<Level>, hits: nat, cost: int)
    requires 0.0 <= view.confidence <= 1.0 && table.Valid()
    requires hits == Hits(view.confidence, comb, table, difficulty, u, j, MAX_ITERATION)
    requires cost == CombCost(comb, table)
    ensures Score(view, table, difficulty, u, j, comb) == CombResult(comb, hits, ExpectedRevenue(hits, view.revenue), cost)
  {
  }

  /** The result list micro_optimization returns for a task. */
  function Estimates(view: TaskView, table: LevelTable, maxAssign: int, difficulty: real,
                     u: (nat, nat, nat) -> real): (rs: seq<CombResult>)
    requires 0.0 <= view.confidence <= 1.0 && table.Valid()
    ensures |rs| == |LevelCombs(maxAssign, |view.answers.level1|, |view.answers.level2|)|
    ensures forall j :: 0 <= j < |rs| ==> OwnLevels(rs[j].levelComb, view.answers)
  {
    CombsUseOwnLevels(maxAssign, |view.answers.level1|, |view.answers.level2|);
    var cs := LevelCombs(maxAssign, |view.answers.level1|, |view.answers.level2|);
    seq(|cs|, j requires 0 <= j < |cs| => Score(view, table, difficulty, u, j, cs[j]))
  }

  lemma ExpectedRevenueBounds(hits: nat, revenue: real)
    requires hits <= MAX_ITERATION && revenue >= 0.0
    ensures 0.0 <= ExpectedRevenue(hits, revenue) <= revenue
  {
    var f := hits as real / MAX_ITERATION as real;
    assert 0.0 <= f <= 1.0;
    assert f * revenue <= 1.0 * revenue;
  }

  /** One result per enumerated combination, in the same order; the hit count
      is at most MAX_ITERATION; the expected revenue is hits/MAX_ITERATION of
      the revenue, so between 0 and the revenue; the cost is the per-level
      price times the per-level count. */
  lemma EstimatesFacts(view: TaskView, table: LevelTable, maxAssign: int, difficulty: real,
                       u: (nat, nat, nat) -> real)
    requires 0.0 <= view.confidence <= 1.0 && table.Valid()
    ensures var rs, ps := Estimates(view, table, maxAssign, difficulty, u),
                          LevelPairs(maxAssign, |view.answers.level1|, |view.answers.level2|);
      && |rs| == |ps|
      && forall j :: 0 <= j < |rs| ==>
        && rs[j].levelComb == CombOf(ps[j])
        && rs[j].gteThresholdCnt <= MAX_ITERATION
        && rs[j].expectedRevenue == ExpectedRevenue(rs[j].gteThresholdCnt, view.revenue)
        && (view.revenue >= 0.0 ==> 0.0 <= rs[j].expectedRevenue <= view.revenue)
        && rs[j].cost == ps[j].n1 * table.level1.cost + ps[j].n2 * table.level2.cost
        && rs[j].cost >= 0
  {
    var rs, ps := Estimates(view, table, maxAssign, difficulty, u),
                  LevelPairs(maxAssign, |view.answers.level1|, |view.answers.level2|);
    forall j | 0 <= j < |rs|
      ensures (view.revenue >= 0.0 ==> 0.0 <= rs[j].expectedRevenue <= view.revenue)
      ensures rs[j].cost == ps[j].n1 * table.level1.cost + ps[j].n2 * table.level2.cost
      ensures rs[j].cost >= 0
    {
      if view.revenue >= 0.0 {
        ExpectedRevenueBounds(rs[j].gteThresholdCnt, view.revenue);
      }
      CombCostOf(ps[j], table);
    }
  }

  /** Every combination micro_optimization proposes can be answered from
      the real-answer pools of a task whose answers cover its own levels. */
  lemma EstimatesDrawable(view: TaskView, table: LevelTable, maxAssign: int, difficulty: real,
                          u: (nat, nat, nat) -> real, answers: map<int, AnswerPools>)
    requires 0.0 <= view.confidence <= 1.0 && table.Valid()
    requires Answerable(view.id, view.answers, answers)
    ensures var rs := Estimates(view, table, maxAssign, difficulty, u);
      forall j :: 0 <= j < |rs| ==> Drawable(rs[j].levelComb, answers, view.id)
  {
    var rs := Estimates(view, table, maxAssign, difficulty, u);
    forall j | 0 <= j < |rs| ensures Drawable(rs[j].levelComb, answers, view.id) {
      OwnLevelsDrawable(rs[j].levelComb, view.answers, view.id, answers);
    }
  }

  predicate NonNegativeCosts(rs: seq<CombResult>) {
    forall j :: 0 <= j < |rs| ==> rs[j].cost >= 0
  }

  /** The result lists micro_optimization returns for every task of a list;
      the task at position p uses the draws of that position. */
  function AllEstimates(vs: seq<TaskView>, table: LevelTable, maxAssign: int, draws: Draws): (all: seq<seq<CombResult>>)
    requires ConfidencesValid(vs) && table.Valid()
    ensures |all| == |vs|
  {
    seq(|vs|, p requires 0 <= p < |vs| => Estimates(vs[p], table, maxAssign, draws.difficulty(p), draws.Trials(p)))
  }

  lemma AllEstimatesCosts(vs: seq<TaskView>, table: LevelTable, maxAssign: int, draws: Draws)
    requires ConfidencesValid(vs) && table.Valid()
    ensures forall p :: 0 <= p < |vs| ==> NonNegativeCosts(AllEstimates(vs, table, maxAssign, draws)[p])
  {
    forall p | 0 <= p < |vs| ensures NonNegativeCosts(AllEstimates(vs, table, maxAssign, draws)[p]) {
      EstimatesFacts(vs[p], table, maxAssign, draws.difficulty(p), draws.Trials(p));
    }
  }

  /** One trial: the two-mass update of gen_true_conf with simulated answers. */
  method RunTrial(preConfidence: real, levelComb: seq<Level>, levels: LevelsDict, ghost difficulty: real,
                  u: (nat, nat, nat) -> real, j: nat, i: nat) returns (trueConf: real)
    requires 0.0 <= preConfidence <= 1.0 && levels.table.Valid()
    requires levels.trueRatio == RatiosFor(levels.table, difficulty)
    ensures trueConf == Posterior(preConfidence, TrialVotes(levelComb, levels.table, difficulty, u, j, i))
  {
    ghost var votes := TrialVotes(levelComb, levels.table, difficulty, u, j, i);
    var trueConfDirect := preConfidence;
    var falseConfDirect := 1.0 - trueConfDirect;
    for w := 0 to |levelComb|
      invariant trueConfDirect == TrueMass(preConfidence, votes[..w])
      invariant falseConfDirect == FalseMass(preConfidence, votes[..w])
    {
      var levelName := levelComb[w];
      var trueRatio := levels.trueRatio[levelName];
      var quality := levels.table.Quality(levelName);
      var randomFloat := u(j, i, w);
      assert trueRatio == TrueRatio(levels.table.Info(levelName), difficulty);
      assert votes[w] == Vote(quality, randomFloat <= trueRatio);
      ghost var t, f := trueConfDirect, falseConfDirect;
      if randomFloat <= trueRatio {
        trueConfDirect := trueConfDirect * quality;
        falseConfDirect := falseConfDirect * (1.0 - quality);
      } else {
        trueConfDirect := trueConfDirect * (1.0 - quality);
        falseConfDirect := falseConfDirect * quality;
      }
      UpdateStep(preConfidence, votes, w, t, f, trueConfDirect, falseConfDirect, quality, randomFloat <= trueRatio);
    }
    assert votes[..|levelComb|] == votes;
    MassesPositive(preConfidence, votes);
    trueConf := trueConfDirect / (trueConfDirect + falseConfDirect);
  }

  /** Prices one combination and counts its trials that reach THRESHOLD. */
  method ScoreCombination(task: Task, levels: LevelsDict, ghost difficulty: real,
                          u: (nat, nat, nat) -> real, j: nat, levelComb: seq<Level>)
    returns (result: CombResult)
    requires 0.0 <= task.confidence <= 1.0 && levels.table.Valid()
    requires levels.trueRatio == RatiosFor(levels.table, difficulty)
    ensures result == Score(task.View(), levels.table, difficulty, u, j, levelComb)
  {
    var costSum := 0;
    for w := 0 to |levelComb|
      invariant costSum == CombCost(levelComb[..w], levels.table)
    {
      assert levelComb[..w + 1][..w] == levelComb[..w];
      costSum := costSum + levels.table.Cost(levelComb[w]);
    }
    assert levelComb[..|levelComb|] == levelComb;
    var gteThresholdCnt: nat := 0;
    for i := 0 to MAX_ITERATION
      invariant gteThresholdCnt == Hits(task.confidence, levelComb, levels.table, difficulty, u, j, i)
    {
      var trueConf := RunTrial(task.confidence, levelComb, levels, difficulty, u, j, i);
      HitsStep(task.confidence, levelComb, levels.table, difficulty, u, j, i, gteThresholdCnt, trueConf);
      if trueConf >= THRESHOLD {
        gteThresholdCnt := gteThresholdCnt + 1;
      }
    }
    var expectedRevenue := ExpectedRevenue(gteThresholdCnt, task.revenue);
    result := CombResult(levelComb, gteThresholdCnt, expectedRevenue, costSum);
    ScoreIs(task.View(), levels.table, difficulty, u, j, levelComb, gteThresholdCnt, costSum);
  }

  /** micro_optimization. `difficulty` is the value gen_difficulty returns for
      the task, a probability (Difficulty.GenDifficulty), and `u` the uniform
      draws of its trials. The true ratios of both levels, probabilities too,
      are written into `levels`; nothing else there changes. */
  method MicroOptimization(task: Task, levels: LevelsDict, maxAssign: int, difficulty: real,
                           u: (nat, nat, nat) -> real) returns (results: seq<CombResult>)
    requires 0.0 <= task.confidence <= 1.0 && levels.table.Valid()
    requires 0.0 <= difficulty <= 1.0
    modifies levels
    ensures levels.trueRatio == RatiosFor(levels.table, difficulty)
    ensures 0.0 <= levels.trueRatio[Level1] <= 1.0 && 0.0 <= levels.trueRatio[Level2] <= 1.0
    ensures results == Estimates(task.View(), levels.table, maxAssign, difficulty, u)
  {
    TrueRatioBounds(levels.table.level1, difficulty);
    TrueRatioBounds(levels.table.level2, difficulty);
    ghost var before := levels.trueRatio;
    levels.trueRatio := levels.trueRatio[Level1 := TrueRatio(levels.table.level1, difficulty)];
    levels.trueRatio := levels.trueRatio[Level2 := TrueRatio(levels.table.level2, difficulty)];
    RatiosOverwrite(before, levels.table, difficulty);
    var levelCombs := EnumerateCombs(maxAssign, |task.answers.level1|, |task.answers.level2|);
    ghost var expected := Estimates(task.View(), levels.table, maxAssign, difficulty, u);
    results := [];
    for j := 0 to |levelCombs|
      invariant levels.trueRatio == RatiosFor(levels.table, difficulty)
      invariant |results| == j
      invariant forall k :: 0 <= k < j ==> results[k] == expected[k]
    {
      var result := ScoreCombination(task, levels, difficulty, u, j, levelCombs[j]);
      results := results + [result];
    }
  }
}
