/** gen_difficulty: the latent task difficulty used to perturb worker
    reliability in the Monte Carlo trials. The two batches of standard-normal
    draws and the final index draw are inputs. */
module Difficulty {

  /** The source indexes the collected list without checking its length. */
  datatype DifficultyError = IndexOutOfRange
  datatype Result<T> = Ok(value: T) | Err(error: DifficultyError)

  /** Values collected from each side of the prior. */
  const SIDE_CAP: nat := 50
  /** Size of the list the final index is drawn for. */
  const LIST_CAP: nat := 100

  /** The samples `center + std * z` for the standard-normal draws `zs`. */
  function Spread(center: real, std: real, zs: seq<real>): (r: seq<real>)
    ensures |r| == |zs|
    ensures forall i :: 0 <= i < |zs| ==> r[i] == center + std * zs[i]
  {
    seq(|zs|, i requires 0 <= i < |zs| => center + std * zs[i])
  }

  /** The first `cap` values of `xs` lying in [lo, hi], in their order (all of them if fewer). */
  function FirstInRange(xs: seq<real>, lo: real, hi: real, cap: nat): (r: seq<real>)
    ensures |r| <= cap
    ensures forall k :: 0 <= k < |r| ==> lo <= r[k] <= hi
  {
    if xs == [] then []
    else
      var r := FirstInRange(xs[..|xs| - 1], lo, hi, cap);
      var x := xs[|xs| - 1];
      if |r| < cap && lo <= x <= hi then r + [x] else r
  }

  /** Once `cap` values are collected, later values change nothing: the early `break`. */
  lemma {:induction false} FirstInRangeSaturated(xs: seq<real>, n: nat, lo: real, hi: real, cap: nat)
    requires n <= |xs|
    requires |FirstInRange(xs[..n], lo, hi, cap)| == cap
    ensures FirstInRange(xs, lo, hi, cap) == FirstInRange(xs[..n], lo, hi, cap)
    decreases |xs| - n
  {
    if n < |xs| {
      assert xs[..n + 1][..n] == xs[..n];
      FirstInRangeSaturated(xs, n + 1, lo, hi, cap);
    } else {
      assert xs[..n] == xs;
    }
  }

  /** The right-hand batch: samples above the prior, spread by a third of 1 - prior. */
  function RightSamples(prior: real, normalsR: seq<real>): seq<real> {
    FirstInRange(Spread(prior, (1.0 - prior) / 3.0, normalsR), prior, 1.0, SIDE_CAP)
  }

  /** Everything `difficulty_list` holds before the index is drawn: the right
      batch, then left samples in [0, prior] until 100 entries are reached. */
  function Collected(prior: real, normalsR: seq<real>, normalsL: seq<real>): seq<real> {
    var right := RightSamples(prior, normalsR);
    right + FirstInRange(Spread(prior, prior / 3.0, normalsL), 0.0, prior, LIST_CAP - |right|)
  }

  /** Every collected value lies in [0, 1]; the right batch holds at most 50
      values, each at least the prior; the list never exceeds 100 entries. */
  lemma CollectedBounds(prior: real, normalsR: seq<real>, normalsL: seq<real>)
    requires 0.0 <= prior <= 1.0
    ensures var c := Collected(prior, normalsR, normalsL);
      && |c| <= LIST_CAP
      && (forall k :: 0 <= k < |c| ==> 0.0 <= c[k] <= 1.0)
    ensures var right := RightSamples(prior, normalsR);
      && |right| <= SIDE_CAP
      && Collected(prior, normalsR, normalsL)[..|right|] == right
      && (forall k :: 0 <= k < |right| ==> prior <= right[k] <= 1.0)
  {
    var right := RightSamples(prior, normalsR);
    var left := FirstInRange(Spread(prior, prior / 3.0, normalsL), 0.0, prior, LIST_CAP - |right|);
    var c := right + left;
    forall k | 0 <= k < |c| ensures 0.0 <= c[k] <= 1.0 {
      if k < |right| { assert c[k] == right[k]; } else { assert c[k] == left[k - |right|]; }
    }
    assert c[..|right|] == right;
  }

  /** The pick indexes an entry of the collected list. */
  predicate Indexable(c: seq<real>, pick: nat) {
    pick < |c|
  }

  /** Every index 0..99 the source may draw is inside the list exactly when 100
      values were collected. */
  lemma PickAlwaysInRange(prior: real, normalsR: seq<real>, normalsL: seq<real>)
    ensures var c := Collected(prior, normalsR, normalsL);
      (forall pick: nat :: pick < LIST_CAP ==> Indexable(c, pick)) <==> |c| == LIST_CAP
  {
    var c := Collected(prior, normalsR, normalsL);
    if |c| < LIST_CAP {
      assert !Indexable(c, |c|);
    }
  }

  /** Collects the in-range values of `samples` into `list`, stopping as soon as
      `list` reaches `target` entries (lines 30-35 and 37-42 of the source). */
  method CollectInRange(list: seq<real>, samples: seq<real>, lo: real, hi: real, target: nat)
    returns (out: seq<real>)
    requires |list| < target
    ensures out == list + FirstInRange(samples, lo, hi, target - |list|)
  {
    out := list;
    var cap: nat := target - |list|;
    var i := 0;
    while i < |samples|
      invariant 0 <= i <= |samples|
      invariant out == list + FirstInRange(samples[..i], lo, hi, cap)
      invariant |out| < target
    {
      assert samples[..i + 1][..i] == samples[..i];
      var difficulty := samples[i];
      if lo <= difficulty && difficulty <= hi {
        out := out + [difficulty];
      }
      i := i + 1;
      if |out| == target {
        FirstInRangeSaturated(samples, i, lo, hi, cap);
        return;
      }
    }
    assert samples[..i] == samples;
  }

  /** gen_difficulty. `pick` is the value random.randint(0, 99) returns; when
      fewer than 100 values were collected it can fall outside the list, and the
      source then fails with an IndexError. */
  method GenDifficulty(preConfidence: real, normalsR: seq<real>, normalsL: seq<real>, pick: nat)
    returns (r: Result<real>)
    requires pick < LIST_CAP
    ensures var c := Collected(preConfidence, normalsR, normalsL);
      && (pick < |c| ==> r == Ok(c[pick]))
      && (pick >= |c| ==> r == Err(IndexOutOfRange))
    ensures 0.0 <= preConfidence <= 1.0 && r.Ok? ==> 0.0 <= r.value <= 1.0
  {
    var stdR := (1.0 - preConfidence) / 3.0;
    var stdL := preConfidence / 3.0;
    var difficultyR := Spread(preConfidence, stdR, normalsR);
    var difficultyL := Spread(preConfidence, stdL, normalsL);
    var difficultyList := CollectInRange([], difficultyR, preConfidence, 1.0, SIDE_CAP);
    assert difficultyList == RightSamples(preConfidence, normalsR);
    difficultyList := CollectInRange(difficultyList, difficultyL, 0.0, preConfidence, LIST_CAP);
    if 0.0 <= preConfidence <= 1.0 {
      CollectedBounds(preConfidence, normalsR, normalsL);
    }
    if pick < |difficultyList| {
      r := Ok(difficultyList[pick]);
    } else {
      r := Err(IndexOutOfRange);
    }
  }
}
