/**
 * `calculateSpectralBalance`: an amplitude-histogram heuristic, not a
 * frequency-domain measurement. Each sample's magnitude is added to one of
 * three buckets by fixed thresholds (above 0.05 "low", in (0.01, 0.05]
 * "mid", at most 0.01 "high"); the score is the high share minus the low
 * share of the summed magnitudes, from -1 (bass-dominated) to +1 (bright).
 */
module SpectralBalance {
  import RealMath
  import opened ScalarMetrics

  datatype Bucket = LowBucket | MidBucket | HighBucket

  const LowThreshold: real := 0.05
  const HighThreshold: real := 0.01

  /** The bucket of a magnitude; exactly one of the three tests of the source holds. */
  function BucketOf(a: real): (b: Bucket)
    ensures b == LowBucket <==> a > LowThreshold
    ensures b == MidBucket <==> HighThreshold < a <= LowThreshold
    ensures b == HighBucket <==> a <= HighThreshold
  {
    if a > LowThreshold then LowBucket
    else if a > HighThreshold then MidBucket
    else HighBucket
  }

  /** The summed magnitudes of the samples that fall into bucket `b`. */
  function BucketEnergy(xs: seq<real>, b: Bucket): (r: real)
    ensures 0.0 <= r
  {
    if |xs| == 0 then 0.0
    else
      var a := Abs(xs[|xs| - 1]);
      BucketEnergy(xs[..|xs| - 1], b) + (if BucketOf(a) == b then a else 0.0)
  }

  function Clamp(v: real): real {
    if 1.0 < v then 1.0 else if v < -1.0 then -1.0 else v
  }

  /** The score as the source computes it: energies normalised by the window length, ratios, clamp. */
  function Balance(xs: seq<real>): real {
    if |xs| == 0 then 0.0
    else
      var n := |xs| as real;
      var low := BucketEnergy(xs, LowBucket) / n;
      var mid := BucketEnergy(xs, MidBucket) / n;
      var high := BucketEnergy(xs, HighBucket) / n;
      var total := low + mid + high;
      if total == 0.0 then 0.0
      else Clamp(high / total - low / total)
  }

  /** The accumulator loop of `calculateSpectralBalance`, with its three independent tests. */
  method CalculateSpectralBalance(xs: seq<real>) returns (balance: real)
    ensures balance == Balance(xs)
  {
    if |xs| == 0 {
      return 0.0;
    }
    var low, mid, high := 0.0, 0.0, 0.0;
    var i := 0;
    while i < |xs|
      invariant 0 <= i <= |xs|
      invariant low == BucketEnergy(xs[..i], LowBucket)
      invariant mid == BucketEnergy(xs[..i], MidBucket)
      invariant high == BucketEnergy(xs[..i], HighBucket)
    {
      assert xs[..i + 1][..i] == xs[..i];
      var sample := Abs(xs[i]);
      if sample > 0.05 {
        low := low + sample;
      }
      if sample > 0.01 && sample <= 0.05 {
        mid := mid + sample;
      }
      if sample <= 0.01 {
        high := high + sample;
      }
      i := i + 1;
    }
    assert xs[..i] == xs;
    var n := |xs| as real;
    low, mid, high := low / n, mid / n, high / n;
    var total := low + mid + high;
    if total == 0.0 {
      return 0.0;
    }
    var lowRatio := low / total;
    var highRatio := high / total;
    balance := Clamp(highRatio - lowRatio);
  }

  /** Dividing every bucket by the window length leaves the ratios unchanged. */
  lemma NormalisationCancels(l: real, m: real, h: real, n: real)
    requires 0.0 < n && 0.0 <= l && 0.0 <= m && 0.0 <= h && 0.0 < l + m + h
    ensures l / n + m / n + h / n == (l + m + h) / n
    ensures (h / n) / ((l + m + h) / n) == h / (l + m + h)
    ensures (l / n) / ((l + m + h) / n) == l / (l + m + h)
  {
    var t := l + m + h;
    assert (h / n) / (t / n) == h / t by {
      assert (h / n) * n == h;
      assert (t / n) * n == t;
    }
    assert (l / n) / (t / n) == l / t by {
      assert (l / n) * n == l;
      assert (t / n) * n == t;
    }
  }

  /** A share difference of non-negative parts lies in [-1, 1]. */
  lemma ShareDifferenceInRange(l: real, m: real, h: real)
    requires 0.0 <= l && 0.0 <= m && 0.0 <= h && 0.0 < l + m + h
    ensures -1.0 <= h / (l + m + h) - l / (l + m + h) <= 1.0
    ensures h / (l + m + h) - l / (l + m + h) == (h - l) / (l + m + h)
  {
    var t := l + m + h;
    assert h / t - l / t == (h - l) / t;
    assert (h - l) / t <= 1.0 by {
      assert h - l <= t;
    }
    assert -1.0 <= (h - l) / t by {
      assert -t <= h - l;
    }
  }

  /** The three bucket energies together hold every sample's magnitude, so they vanish only for an all-zero window. */
  lemma {:induction false} BucketsZeroIffSilent(xs: seq<real>)
    ensures BucketEnergy(xs, LowBucket) + BucketEnergy(xs, MidBucket) + BucketEnergy(xs, HighBucket) == 0.0
        <==> forall i :: 0 <= i < |xs| ==> xs[i] == 0.0
  {
    if |xs| > 0 {
      var init := xs[..|xs| - 1];
      assert forall i :: 0 <= i < |init| ==> init[i] == xs[i];
      BucketsZeroIffSilent(init);
    }
  }

  /**
   * For a window with some non-zero sample the score is `(H - L) / (L + M + H)`
   * of the raw bucket energies: normalising by the length changes nothing and
   * the final clamp never bites. An empty or all-zero window scores 0.
   */
  lemma BalanceIsShareDifference(xs: seq<real>)
    ensures (forall i :: 0 <= i < |xs| ==> xs[i] == 0.0) ==> Balance(xs) == 0.0
    ensures (exists i :: 0 <= i < |xs| && xs[i] != 0.0) ==>
      var l, m, h := BucketEnergy(xs, LowBucket), BucketEnergy(xs, MidBucket), BucketEnergy(xs, HighBucket);
      0.0 < l + m + h && Balance(xs) == (h - l) / (l + m + h)
    ensures -1.0 <= Balance(xs) <= 1.0
  {
    BucketsZeroIffSilent(xs);
    if |xs| > 0 {
      var n := |xs| as real;
      var l, m, h := BucketEnergy(xs, LowBucket), BucketEnergy(xs, MidBucket), BucketEnergy(xs, HighBucket);
      if l + m + h == 0.0 {
        assert l / n + m / n + h / n == 0.0;
      } else {
        NormalisationCancels(l, m, h, n);
        ShareDifferenceInRange(l, m, h);
      }
    }
  }

  lemma DivSelf(e: real)
    requires e != 0.0
    ensures e / e == 1.0 && (-e) / e == -1.0
  {
  }

  /** A window of `n` copies of one sample value. */
  function Constant(n: nat, c: real): (r: seq<real>)
    ensures |r| == n && forall i :: 0 <= i < n ==> r[i] == c
  {
    seq(n, _ => c)
  }

  /** In a constant window all magnitude goes to the bucket of that value. */
  lemma {:induction false} ConstantBucketEnergy(n: nat, c: real, b: Bucket)
    ensures BucketEnergy(Constant(n, c), b) == if BucketOf(Abs(c)) == b then n as real * Abs(c) else 0.0
  {
    if n > 0 {
      assert Constant(n, c)[..n - 1] == Constant(n - 1, c);
      ConstantBucketEnergy(n - 1, c, b);
    }
  }

  /** In a constant non-zero window one bucket holds positive energy and the other two none. */
  lemma ConstantWindowEnergies(n: nat, c: real)
    requires n > 0 && c != 0.0
    ensures forall b :: b != BucketOf(Abs(c)) ==> BucketEnergy(Constant(n, c), b) == 0.0
    ensures 0.0 < BucketEnergy(Constant(n, c), BucketOf(Abs(c)))
  {
    RealMath.ProductPositive(n as real, Abs(c));
    ConstantBucketEnergy(n, c, LowBucket);
    ConstantBucketEnergy(n, c, MidBucket);
    ConstantBucketEnergy(n, c, HighBucket);
  }

  /**
   * Constant windows: a loud value (above 0.05) scores -1, a quiet non-zero
   * value (at most 0.01) scores +1, a value in between scores 0.
   */
  lemma ConstantWindowBalance(n: nat, c: real)
    requires n > 0 && c != 0.0
    ensures Abs(c) > LowThreshold ==> Balance(Constant(n, c)) == -1.0
    ensures HighThreshold < Abs(c) <= LowThreshold ==> Balance(Constant(n, c)) == 0.0
    ensures Abs(c) <= HighThreshold ==> Balance(Constant(n, c)) == 1.0
  {
    var xs := Constant(n, c);
    ConstantWindowEnergies(n, c);
    assert xs[0] != 0.0;
    BalanceIsShareDifference(xs);
    var l, m, h := BucketEnergy(xs, LowBucket), BucketEnergy(xs, MidBucket), BucketEnergy(xs, HighBucket);
    var e := BucketEnergy(xs, BucketOf(Abs(c)));
    DivSelf(e);
    if Abs(c) > LowThreshold {
      assert l == e && m == 0.0 && h == 0.0;
      assert (h - l) / (l + m + h) == (-e) / e;
    } else if Abs(c) > HighThreshold {
      assert l == 0.0 && h == 0.0;
    } else {
      assert l == 0.0 && m == 0.0 && h == e;
    }
  }
}
