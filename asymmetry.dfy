/** Bilateral asymmetry: relative difference of the left and right means (lib/pose/asymmetry.ts). */
module Asymmetry {
  import opened Utils

  /** `|avgL - avgR| / max(|avgL|, |avgR|) * 100`, or 0 for an empty side or two zero means. */
  function ComputeAsymmetry(left: seq<real>, right: seq<real>): (r: real)
    ensures 0.0 <= r
    ensures |left| == 0 || |right| == 0 ==> r == 0.0
  {
    if |left| == 0 || |right| == 0 then 0.0
    else
      var avgLeft := Mean(left);
      var avgRight := Mean(right);
      var maxAvg := Max(Abs(avgLeft), Abs(avgRight));
      if maxAvg == 0.0 then 0.0
      else Abs(avgLeft - avgRight) / maxAvg * 100.0
  }

  /** Swapping the two sides leaves the result unchanged. */
  lemma AsymmetrySymmetric(left: seq<real>, right: seq<real>)
    ensures ComputeAsymmetry(left, right) == ComputeAsymmetry(right, left)
  {
    if |left| > 0 && |right| > 0 {
      assert Abs(Mean(left) - Mean(right)) == Abs(Mean(right) - Mean(left));
      assert Max(Abs(Mean(left)), Abs(Mean(right))) == Max(Abs(Mean(right)), Abs(Mean(left)));
    }
  }

  /** For two non-empty series, the result is 0 exactly when the means are equal. */
  lemma AsymmetryZeroIffEqualMeans(left: seq<real>, right: seq<real>)
    requires |left| > 0 && |right| > 0
    ensures ComputeAsymmetry(left, right) == 0.0 <==> Mean(left) == Mean(right)
  {
    var l, r := Mean(left), Mean(right);
    var maxAvg := Max(Abs(l), Abs(r));
    if maxAvg != 0.0 && l != r {
      assert 0.0 < Abs(l - r);
      assert 0.0 < maxAvg;
      assert 0.0 < Abs(l - r) / maxAvg;
    }
  }

  /** With both means non-negative the result is a percentage in [0, 100]. */
  lemma AsymmetryAtMostHundred(left: seq<real>, right: seq<real>)
    requires |left| > 0 && |right| > 0
    requires 0.0 <= Mean(left) && 0.0 <= Mean(right)
    ensures ComputeAsymmetry(left, right) <= 100.0
  {
    var l, r := Mean(left), Mean(right);
    var maxAvg := Max(Abs(l), Abs(r));
    if maxAvg != 0.0 {
      QuotientAtMost(Abs(l - r), maxAvg, 1.0);
    }
  }

  /** In general the result never exceeds 200 percent. */
  lemma AsymmetryAtMostTwoHundred(left: seq<real>, right: seq<real>)
    ensures ComputeAsymmetry(left, right) <= 200.0
  {
    if |left| > 0 && |right| > 0 {
      var l, r := Mean(left), Mean(right);
      var maxAvg := Max(Abs(l), Abs(r));
      if maxAvg != 0.0 {
        QuotientAtMost(Abs(l - r), maxAvg, 2.0);
      }
    }
  }

  /** Identical series are perfectly symmetric. */
  lemma IdenticalSeriesNoAsymmetry(s: seq<real>)
    ensures ComputeAsymmetry(s, s) == 0.0
  {
    if |s| > 0 {
      AsymmetryZeroIffEqualMeans(s, s);
    }
  }

  /** Means 90 and 100 differ by 10 percent of the larger. */
  lemma AsymmetryNinetyHundred()
    ensures ComputeAsymmetry([90.0, 90.0, 90.0], [100.0, 100.0, 100.0]) == 10.0
  {
    var l, r := [90.0, 90.0, 90.0], [100.0, 100.0, 100.0];
    SumConstant(l, 90.0);
    SumConstant(r, 100.0);
    assert Mean(l) == 90.0 && Mean(r) == 100.0;
  }
}
