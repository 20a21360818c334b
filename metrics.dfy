/** The summary figures of the targeting page: the target count (the length of
    the target list), the potential volume lift, the revenue impact and the
    payer-mix averages over the targets. */
module Metrics {
  import opened Roster

  /** Pull-through rate applied to the targets' volume. */
  const PullThrough: real := 0.15
  /** Revenue assumed per unit of lifted volume. */
  const RevenuePerUnit: real := 500.0

  /** Total prescription volume of a list of rows. */
  function SumVolumes(ps: seq<Physician>): nat {
    if |ps| == 0 then 0 else SumVolumes(ps[..|ps| - 1]) + ps[|ps| - 1].volume
  }

  /** Potential volume lift: 15% of the targets' total volume, 0 without targets. */
  function PotentialLift(targets: seq<Physician>): (r: real)
    ensures r == (SumVolumes(targets) as real) * PullThrough
  {
    if |targets| == 0 then 0.0 else (SumVolumes(targets) as real) * PullThrough
  }

  /** Estimated revenue impact of a lift: the lift is recovered from it, it
      is zero exactly when the lift is, and a non-negative lift has a
      non-negative impact. */
  function RevenueImpact(lift: real): (r: real)
    ensures r / RevenuePerUnit == lift
    ensures r == 0.0 <==> lift == 0.0
    ensures 0.0 <= lift ==> 0.0 <= r
  {
    lift * RevenuePerUnit
  }

  /** The revenue estimate is 75 per unit of target volume. */
  lemma RevenueIsSeventyFivePerUnit(targets: seq<Physician>)
    ensures RevenueImpact(PotentialLift(targets)) == 75.0 * (SumVolumes(targets) as real)
  {
  }

  /** Bounds on the total volume from bounds on each row. */
  lemma {:induction false} SumVolumesBounds(ps: seq<Physician>, lo: nat, hi: nat)
    requires forall k :: 0 <= k < |ps| ==> lo <= ps[k].volume <= hi
    ensures lo * |ps| <= SumVolumes(ps) <= hi * |ps|
  {
    if |ps| > 0 {
      var n := |ps| - 1;
      SumVolumesBounds(ps[..n], lo, hi);
      assert lo * |ps| == lo * n + lo;
      assert hi * |ps| == hi * n + hi;
    }
  }

  /** With every volume in [lo, hi], the lift lies between 15% of lo and 15%
      of hi per target. */
  lemma LiftBounds(targets: seq<Physician>, lo: nat, hi: nat)
    requires forall k :: 0 <= k < |targets| ==> lo <= targets[k].volume <= hi
    ensures PullThrough * ((lo * |targets|) as real) <= PotentialLift(targets)
    ensures PotentialLift(targets) <= PullThrough * ((hi * |targets|) as real)
  {
    SumVolumesBounds(targets, lo, hi);
  }

  /** The page's generated table draws every volume from [50, 500], so each
      target adds between 7.5 and 75 to the lift and between 3750 and 37500 to
      the revenue impact, and a list of at most `capacity` targets lifts at
      most 75 per unit of capacity. */
  lemma GeneratedVolumesBoundLift(targets: seq<Physician>, capacity: nat)
    requires forall k :: 0 <= k < |targets| ==> 50 <= targets[k].volume <= 500
    requires |targets| <= capacity
    ensures 7.5 * (|targets| as real) <= PotentialLift(targets) <= 75.0 * (|targets| as real)
    ensures 3750.0 * (|targets| as real) <= RevenueImpact(PotentialLift(targets))
    ensures RevenueImpact(PotentialLift(targets)) <= 37500.0 * (|targets| as real)
    ensures PotentialLift(targets) <= 75.0 * (capacity as real)
  {
    LiftBounds(targets, 50, 500);
  }

  /** When every physician writes at least one prescription, the lift (and so
      the revenue) is zero exactly when there is no target. */
  lemma LiftZeroIffNoTargets(targets: seq<Physician>)
    requires forall k :: 0 <= k < |targets| ==> targets[k].volume > 0
    ensures PotentialLift(targets) == 0.0 <==> |targets| == 0
    ensures RevenueImpact(PotentialLift(targets)) == 0.0 <==> |targets| == 0
  {
  }

  /** Without that assumption a target list can be non-empty with no lift:
      one zero-volume target. */
  lemma ZeroVolumeTargetHasNoLift(p: Physician)
    requires p.volume == 0
    ensures PotentialLift([p]) == 0.0 && RevenueImpact(PotentialLift([p])) == 0.0
  {
    assert [p][..0] == [];
    assert SumVolumes([p]) == 0;
  }

  // ---- payer mix ---------------------------------------------------------

  /** Sum of one payer's share over a list of rows. */
  function SumShares(ps: seq<Physician>, payer: Payer): real {
    if |ps| == 0 then 0.0 else SumShares(ps[..|ps| - 1], payer) + ShareOf(ps[|ps| - 1], payer)
  }

  /** Mean of one payer's share over a non-empty list of rows. */
  function MeanShare(ps: seq<Physician>, payer: Payer): (r: real)
    requires |ps| > 0
    ensures r * (|ps| as real) == SumShares(ps, payer)
  {
    SumShares(ps, payer) / (|ps| as real)
  }

  /** The pie chart's slices: the three means and the residual "Other". */
  datatype PayerMix = PayerMix(uhc: real, aetna: real, cigna: real, other: real)

  /** The payer mix of the targets, computed only when there are targets.
      "Other" is what the three means leave of 1 and is not clamped. */
  function PayerMixOf(targets: seq<Physician>): (r: Option<PayerMix>)
    ensures r.None? <==> |targets| == 0
    ensures r.Some? ==>
      && r.value.uhc * (|targets| as real) == SumShares(targets, UHC)
      && r.value.aetna * (|targets| as real) == SumShares(targets, Aetna)
      && r.value.cigna * (|targets| as real) == SumShares(targets, Cigna)
      && r.value.uhc + r.value.aetna + r.value.cigna + r.value.other == 1.0
  {
    if |targets| == 0 then None
    else
      var uhc := MeanShare(targets, UHC);
      var aetna := MeanShare(targets, Aetna);
      var cigna := MeanShare(targets, Cigna);
      Some(PayerMix(uhc, aetna, cigna, 1.0 - (uhc + aetna + cigna)))
  }

  /** A share column whose values lie in [0, 1] sums to between 0 and the row count. */
  lemma {:induction false} SumSharesBounds(ps: seq<Physician>, payer: Payer)
    requires forall k :: 0 <= k < |ps| ==> 0.0 <= ShareOf(ps[k], payer) <= 1.0
    ensures 0.0 <= SumShares(ps, payer) <= |ps| as real
  {
    if |ps| > 0 {
      SumSharesBounds(ps[..|ps| - 1], payer);
    }
  }

  /** The mean of a share column whose values lie in [0, 1] lies in [0, 1]. */
  lemma MeanShareBounds(ps: seq<Physician>, payer: Payer)
    requires |ps| > 0
    requires forall k :: 0 <= k < |ps| ==> 0.0 <= ShareOf(ps[k], payer) <= 1.0
    ensures 0.0 <= MeanShare(ps, payer) <= 1.0
  {
    SumSharesBounds(ps, payer);
    var n := |ps| as real;
    var m := MeanShare(ps, payer);
    assert m == SumShares(ps, payer) / n;
    assert 0.0 <= SumShares(ps, payer) <= n;
  }

  /** With every share in [0, 1], the three means lie in [0, 1] and "Other"
      in [-2, 1]; it is negative whenever the means add up to more than 1. */
  lemma PayerMixBounds(targets: seq<Physician>)
    requires |targets| > 0
    requires forall k, payer :: 0 <= k < |targets| ==> 0.0 <= ShareOf(targets[k], payer) <= 1.0
    ensures var m := PayerMixOf(targets).value;
      && 0.0 <= m.uhc <= 1.0 && 0.0 <= m.aetna <= 1.0 && 0.0 <= m.cigna <= 1.0
      && -2.0 <= m.other <= 1.0
      && (m.other < 0.0 <==> m.uhc + m.aetna + m.cigna > 1.0)
  {
    MeanShareBounds(targets, UHC);
    MeanShareBounds(targets, Aetna);
    MeanShareBounds(targets, Cigna);
  }

  /** The shares are not normalised, so "Other" can be negative: one target
      with 60% of each payer leaves -0.8 for "Other". */
  lemma OtherShareCanBeNegative()
    ensures var p := Physician("Dr. A. Smith", "Cardiology", 100, 0.6, 0.6, 0.6, "Gold", "19103");
      PayerMixOf([p]).value.other == -0.8
  {
  }
}
