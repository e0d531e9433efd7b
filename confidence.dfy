/** The product-of-likelihoods confidence update shared by the ground-truth
    update (gen_true_conf) and every Monte Carlo trial of the estimator. */
module Confidence {
  import opened Model

  /** One answer as the update sees it: the quality of the answering level and
      whether the answer agrees with the proposed one. */
  datatype Vote = Vote(quality: real, agrees: bool)

  /** The factor one vote multiplies into the mass of "the proposed answer is
      right" (`forTrue`) or of "it is wrong". */
  function Factor(v: Vote, forTrue: bool): real {
    if v.agrees == forTrue then v.quality else 1.0 - v.quality
  }

  /** The mass `init` after multiplying in the factors of all votes, left to right. */
  function Mass(init: real, votes: seq<Vote>, forTrue: bool): real {
    if votes == [] then init
    else Mass(init, votes[..|votes| - 1], forTrue) * Factor(votes[|votes| - 1], forTrue)
  }

  /** Mass of "the proposed answer is right", starting from the prior. */
  function TrueMass(prior: real, votes: seq<Vote>): real {
    Mass(prior, votes, true)
  }

  /** Mass of "the proposed answer is wrong", starting from one minus the prior. */
  function FalseMass(prior: real, votes: seq<Vote>): real {
    Mass(1.0 - prior, votes, false)
  }

  /** One step of the update loop: multiplying the masses of the first w
      votes by the factors of vote w, as the two branches of the loop body do,
      gives the masses of the first w + 1 votes. */
  lemma UpdateStep(prior: real, votes: seq<Vote>, w: nat, t: real, f: real,
                   t': real, f': real, quality: real, agrees: bool)
    requires w < |votes| && votes[w] == Vote(quality, agrees)
    requires t == TrueMass(prior, votes[..w]) && f == FalseMass(prior, votes[..w])
    requires agrees ==> t' == t * quality && f' == f * (1.0 - quality)
    requires !agrees ==> t' == t * (1.0 - quality) && f' == f * quality
    ensures t' == TrueMass(prior, votes[..w + 1]) && f' == FalseMass(prior, votes[..w + 1])
  {
    assert votes[..w + 1][..w] == votes[..w];
  }

  predicate QualitiesValid(votes: seq<Vote>) {
    forall k :: 0 <= k < |votes| ==> 0.0 < votes[k].quality < 1.0
  }

  lemma QualitiesValidPrefix(votes: seq<Vote>, n: nat)
    requires QualitiesValid(votes) && n <= |votes|
    ensures QualitiesValid(votes[..n])
  {
    forall k | 0 <= k < n ensures 0.0 < votes[..n][k].quality < 1.0 {
      assert votes[..n][k] == votes[k];
    }
  }

  lemma ProductSigns(a: real, b: real)
    requires b > 0.0
    ensures a >= 0.0 ==> a * b >= 0.0
    ensures a > 0.0 ==> a * b > 0.0
  {
  }

  /** A non-negative starting mass stays non-negative and a positive one stays positive. */
  lemma {:induction false} MassSign(init: real, votes: seq<Vote>, forTrue: bool)
    requires QualitiesValid(votes)
    ensures init >= 0.0 ==> Mass(init, votes, forTrue) >= 0.0
    ensures init > 0.0 ==> Mass(init, votes, forTrue) > 0.0
  {
    if votes != [] {
      var init' := votes[..|votes| - 1];
      QualitiesValidPrefix(votes, |votes| - 1);
      MassSign(init, init', forTrue);
      var a := Mass(init, init', forTrue);
      var b := Factor(votes[|votes| - 1], forTrue);
      assert b > 0.0;
      ProductSigns(a, b);
      assert Mass(init, votes, forTrue) == a * b;
    }
  }

  /** With a prior in [0,1] and every quality in (0,1) both masses are
      non-negative and their sum is positive, so the update never divides by zero. */
  lemma MassesPositive(prior: real, votes: seq<Vote>)
    requires 0.0 <= prior <= 1.0
    requires QualitiesValid(votes)
    ensures TrueMass(prior, votes) >= 0.0 && FalseMass(prior, votes) >= 0.0
    ensures TrueMass(prior, votes) + FalseMass(prior, votes) > 0.0
  {
    MassSign(prior, votes, true);
    MassSign(1.0 - prior, votes, false);
  }

  /** The normalised true mass. The source divides without a guard; for a prior
      in [0,1] and qualities in (0,1) the divisor is positive (MassesPositive)
      and the result is a probability again. */
  function Posterior(prior: real, votes: seq<Vote>): (r: real)
    requires 0.0 <= prior <= 1.0
    requires QualitiesValid(votes)
    ensures 0.0 <= r <= 1.0
    ensures votes == [] ==> r == prior
  {
    MassesPositive(prior, votes);
    FractionInUnit(TrueMass(prior, votes), FalseMass(prior, votes));
    TrueMass(prior, votes) / (TrueMass(prior, votes) + FalseMass(prior, votes))
  }

  lemma FractionInUnit(t: real, f: real)
    requires t >= 0.0 && f >= 0.0 && t + f > 0.0
    ensures 0.0 <= t / (t + f) <= 1.0
  {
    assert t / (t + f) * (t + f) == t;
  }

  lemma {:induction false} MassConcat(init: real, a: seq<Vote>, b: seq<Vote>, forTrue: bool)
    ensures Mass(init, a + b, forTrue) == Mass(Mass(init, a, forTrue), b, forTrue)
    decreases |b|
  {
    if b == [] {
      assert a + b == a;
    } else {
      var init' := b[..|b| - 1];
      assert (a + b)[..|a + b| - 1] == a + init';
      assert (a + b)[|a + b| - 1] == b[|b| - 1];
      MassConcat(init, a, init', forTrue);
    }
  }

  lemma {:induction false} MassScale(k: real, x: real, votes: seq<Vote>, forTrue: bool)
    ensures Mass(k * x, votes, forTrue) == k * Mass(x, votes, forTrue)
    decreases |votes|
  {
    if votes != [] {
      var init' := votes[..|votes| - 1];
      MassScale(k, x, init', forTrue);
      MulAssoc(k, Mass(x, init', forTrue), Factor(votes[|votes| - 1], forTrue));
    }
  }

  lemma MulAssoc(x: real, y: real, z: real)
    ensures (x * y) * z == x * (y * z)
  {
  }

  lemma OneMinusFraction(t: real, f: real)
    requires t + f > 0.0
    ensures 1.0 - t / (t + f) == (1.0 / (t + f)) * f
    ensures t / (t + f) == (1.0 / (t + f)) * t
  {
    var d := t + f;
    assert (t / d) * d == t;
    assert (f / d) * d == f;
    assert (t / d + f / d) * d == t + f;
    assert t / d + f / d == 1.0;
  }

  lemma ScaleFraction(k: real, t: real, f: real, t': real, f': real)
    requires k > 0.0 && t + f > 0.0
    requires t' == k * t && f' == k * f
    ensures t' + f' > 0.0 && t' / (t' + f') == t / (t + f)
  {
    assert t' + f' == k * (t + f);
    var x := t / (t + f);
    assert x * (t + f) == t;
    assert (k * (t + f)) * x == k * t;
  }

  /** Two lists of valid votes joined are valid. */
  lemma QualitiesConcat(a: seq<Vote>, b: seq<Vote>)
    requires QualitiesValid(a) && QualitiesValid(b)
    ensures QualitiesValid(a + b)
  {
    forall k | 0 <= k < |a + b| ensures 0.0 < (a + b)[k].quality < 1.0 {
      if k < |a| { assert (a + b)[k] == a[k]; } else { assert (a + b)[k] == b[k - |a|]; }
    }
  }

  /** Updating with `a` and then using the result as the prior for `b` equals
      updating with `a + b` at once: carrying a task's confidence from round to
      round loses nothing. */
  lemma PosteriorSequential(prior: real, a: seq<Vote>, b: seq<Vote>)
    requires 0.0 <= prior <= 1.0
    requires QualitiesValid(a) && QualitiesValid(b)
    ensures QualitiesValid(a + b)
    ensures Posterior(prior, a + b) == Posterior(Posterior(prior, a), b)
  {
    QualitiesConcat(a, b);
    var k := MassesAfterPosterior(prior, a, b);
    SamePosterior(prior, a + b, Posterior(prior, a), b, k);
  }

  /** Masses that agree up to a common positive factor give the same posterior. */
  lemma SamePosterior(prior: real, votes: seq<Vote>, prior': real, votes': seq<Vote>, k: real)
    requires 0.0 <= prior <= 1.0 && QualitiesValid(votes)
    requires 0.0 <= prior' <= 1.0 && QualitiesValid(votes')
    requires k > 0.0
    requires TrueMass(prior', votes') == k * TrueMass(prior, votes)
    requires FalseMass(prior', votes') == k * FalseMass(prior, votes)
    ensures Posterior(prior', votes') == Posterior(prior, votes)
  {
    var t, f := TrueMass(prior, votes), FalseMass(prior, votes);
    PosteriorIs(prior, votes, t, f);
    PosteriorIs(prior', votes', TrueMass(prior', votes'), FalseMass(prior', votes'));
    ScaleFraction(k, t, f, TrueMass(prior', votes'), FalseMass(prior', votes'));
  }

  /** Continuing from the posterior of `a` gives the masses of `a + b`, all
      scaled by one positive factor. */
  lemma MassesAfterPosterior(prior: real, a: seq<Vote>, b: seq<Vote>) returns (k: real)
    requires 0.0 <= prior <= 1.0 && QualitiesValid(a)
    ensures k > 0.0
    ensures TrueMass(Posterior(prior, a), b) == k * TrueMass(prior, a + b)
    ensures FalseMass(Posterior(prior, a), b) == k * FalseMass(prior, a + b)
  {
    k := NormalizedPrior(prior, a);
    MassesContinue(prior, a, b, Posterior(prior, a), k);
  }

  /** Continuing from a prior whose two masses are those of `a` scaled by k
      gives the masses of `a + b` scaled by k. */
  lemma MassesContinue(prior: real, a: seq<Vote>, b: seq<Vote>, p1: real, k: real)
    requires p1 == k * TrueMass(prior, a) && 1.0 - p1 == k * FalseMass(prior, a)
    ensures TrueMass(p1, b) == k * TrueMass(prior, a + b)
    ensures FalseMass(p1, b) == k * FalseMass(prior, a + b)
  {
    var ta, fa := TrueMass(prior, a), FalseMass(prior, a);
    assert TrueMass(prior, a + b) == Mass(ta, b, true) by { MassConcat(prior, a, b, true); }
    assert FalseMass(prior, a + b) == Mass(fa, b, false) by { MassConcat(1.0 - prior, a, b, false); }
    ScaledMasses(p1, k, ta, fa, b);
  }

  lemma ScaledMasses(p: real, k: real, t: real, f: real, b: seq<Vote>)
    requires p == k * t && 1.0 - p == k * f
    ensures TrueMass(p, b) == k * Mass(t, b, true)
    ensures FalseMass(p, b) == k * Mass(f, b, false)
  {
    MassScale(k, t, b, true);
    MassScale(k, f, b, false);
  }

  /** The posterior is the true mass over the total mass. */
  lemma PosteriorIs(prior: real, votes: seq<Vote>, t: real, f: real)
    requires 0.0 <= prior <= 1.0 && QualitiesValid(votes)
    requires t == TrueMass(prior, votes) && f == FalseMass(prior, votes)
    ensures t + f > 0.0 && Posterior(prior, votes) == t / (t + f)
  {
    MassesPositive(prior, votes);
  }

  /** The posterior and its complement are the two masses scaled by one
      common positive factor. */
  lemma NormalizedPrior(prior: real, a: seq<Vote>) returns (k: real)
    requires 0.0 <= prior <= 1.0 && QualitiesValid(a)
    ensures k > 0.0
    ensures Posterior(prior, a) == k * TrueMass(prior, a)
    ensures 1.0 - Posterior(prior, a) == k * FalseMass(prior, a)
  {
    MassesPositive(prior, a);
    var ta, fa := TrueMass(prior, a), FalseMass(prior, a);
    k := 1.0 / (ta + fa);
    OneMinusFraction(ta, fa);
  }

  /** Every pick indexes into the pool of the level at its position. */
  predicate PicksFit(comb: seq<Level>, pools: AnswerPools, picks: seq<nat>) {
    |picks| == |comb| && forall w :: 0 <= w < |comb| ==> picks[w] < |pools.Of(comb[w])|
  }

  /** The votes of a staffing combination answered from the real-answer pools. */
  function AnswerVotes(comb: seq<Level>, table: LevelTable, pools: AnswerPools, picks: seq<nat>): (vs: seq<Vote>)
    requires PicksFit(comb, pools, picks)
    ensures |vs| == |comb|
    ensures table.Valid() ==> QualitiesValid(vs)
  {
    seq(|comb|, w requires 0 <= w < |comb| => Vote(table.Quality(comb[w]), pools.Of(comb[w])[picks[w]]))
  }

  /** gen_true_conf: one ground-truth update of a task's confidence, each worker
      of the combination answering with the pool entry `picks` selects. */
  method GenTrueConf(preConfidence: real, levelComb: seq<Level>, levels: LevelsDict,
                     answerDict: AnswerPools, picks: seq<nat>) returns (trueConf: real)
    requires 0.0 <= preConfidence <= 1.0
    requires levels.table.Valid()
    requires PicksFit(levelComb, answerDict, picks)
    ensures trueConf == Posterior(preConfidence, AnswerVotes(levelComb, levels.table, answerDict, picks))
  {
    ghost var votes := AnswerVotes(levelComb, levels.table, answerDict, picks);
    var trueConfDirect := preConfidence;
    var falseConfDirect := 1.0 - trueConfDirect;
    for w := 0 to |levelComb|
      invariant trueConfDirect == TrueMass(preConfidence, votes[..w])
      invariant falseConfDirect == FalseMass(preConfidence, votes[..w])
    {
      var levelName := levelComb[w];
      var answer := answerDict.Of(levelName)[picks[w]];
      var quality := levels.table.Quality(levelName);
      assert votes[w] == Vote(quality, answer);
      ghost var t, f := trueConfDirect, falseConfDirect;
      if answer {
        trueConfDirect := trueConfDirect * quality;
        falseConfDirect := falseConfDirect * (1.0 - quality);
      } else {
        trueConfDirect := trueConfDirect * (1.0 - quality);
        falseConfDirect := falseConfDirect * quality;
      }
      UpdateStep(preConfidence, votes, w, t, f, trueConfDirect, falseConfDirect, quality, answer);
    }
    assert votes[..|levelComb|] == votes;
    MassesPositive(preConfidence, votes);
    trueConf := trueConfDirect / (trueConfDirect + falseConfDirect);
  }
}
