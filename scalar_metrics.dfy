/**
 * Whole-window scalar metrics of `AudioAnalyzer`: peak amplitude, root mean
 * square and the amplitude-to-decibel conversion with its silence sentinel.
 */
module ScalarMetrics {
  import opened RealMath

  /**
   * A decibel level. `Silence` is the `-Infinity` the analyser returns for a
   * non-positive amplitude; every consumer treats it as "silence", never as
   * a number.
   */
  datatype Level = Silence | Db(db: real) {

    /** JavaScript's `<=` on these values, with `Silence` below every level. */
    predicate AtMost(other: Level) {
      Silence? || (other.Db? && db <= other.db)
    }

    /** Subtracting a finite offset: `-Infinity - k` stays `-Infinity`. */
    function Minus(k: real): (r: Level)
      ensures r.Silence? <==> Silence?
      ensures r.Db? ==> r.db + k == db
    {
      if Silence? then Silence else Db(db - k)
    }
  }

  function Abs(x: real): (r: real)
    ensures 0.0 <= r && (r == x || r == -x)
  {
    if x < 0.0 then -x else x
  }

  /** The largest absolute sample, starting from 0 as `calculatePeakAmplitude` does. */
  function Peak(xs: seq<real>): (r: real)
    ensures 0.0 <= r
  {
    if |xs| == 0 then 0.0
    else
      var p := Peak(xs[..|xs| - 1]);
      var a := Abs(xs[|xs| - 1]);
      if a > p then a else p
  }

  /**
   * The peak is 0 for an empty window; otherwise it is the magnitude of some
   * sample, and no sample's magnitude exceeds it.
   */
  lemma {:induction false} PeakIsMaximum(xs: seq<real>)
    ensures forall i :: 0 <= i < |xs| ==> Abs(xs[i]) <= Peak(xs)
    ensures |xs| == 0 ==> Peak(xs) == 0.0
    ensures |xs| > 0 ==> exists i :: 0 <= i < |xs| && Peak(xs) == Abs(xs[i])
  {
    if |xs| > 0 {
      var init := xs[..|xs| - 1];
      assert forall i :: 0 <= i < |init| ==> init[i] == xs[i];
      PeakIsMaximum(init);
      if Peak(xs) == Abs(xs[|xs| - 1]) {
        assert Peak(xs) == Abs(xs[|xs| - 1]);
      } else {
        var k :| 0 <= k < |init| && Peak(init) == Abs(init[k]);
        assert Peak(xs) == Abs(xs[k]);
      }
    }
  }

  /** Sum of the squared samples. */
  function SumSquares(xs: seq<real>): (r: real)
    ensures 0.0 <= r
  {
    if |xs| == 0 then 0.0
    else
      SquareMonotone(0.0, Abs(xs[|xs| - 1]));
      assert Square(xs[|xs| - 1]) == Square(Abs(xs[|xs| - 1]));
      SumSquares(xs[..|xs| - 1]) + Square(xs[|xs| - 1])
  }

  /** Mean of the squared samples; `calculateRMS` divides by the length, so the window must not be empty. */
  function MeanSquare(xs: seq<real>): (r: real)
    requires |xs| > 0
    ensures 0.0 <= r
  {
    SumSquares(xs) / |xs| as real
  }

  /** `calculateRMS`: the square root of the mean square. */
  function Rms(m: Math, xs: seq<real>): real
    requires |xs| > 0
  {
    m.sqrt(MeanSquare(xs))
  }

  /** `amplitudeToDb`: silence for a non-positive amplitude, otherwise `20 log10(a)`. */
  function AmplitudeToDb(m: Math, a: real): (r: Level)
    ensures r.Silence? <==> a <= 0.0
    ensures r.Db? ==> r.db == 20.0 * m.log10(a)
  {
    if a <= 0.0 then Silence else Db(20.0 * m.log10(a))
  }

  /** `calculatePeakAmplitude`: the accumulator loop over the window. */
  method CalculatePeakAmplitude(xs: seq<real>) returns (peak: real)
    ensures peak == Peak(xs)
  {
    peak := 0.0;
    var i := 0;
    while i < |xs|
      invariant 0 <= i <= |xs|
      invariant peak == Peak(xs[..i])
    {
      var absValue := Abs(xs[i]);
      assert xs[..i + 1][..i] == xs[..i];
      if absValue > peak {
        peak := absValue;
      }
      i := i + 1;
    }
    assert xs[..i] == xs;
  }

  /** `calculateRMS`: sum of squares in a loop, then the root of the mean. */
  method CalculateRms(m: Math, xs: seq<real>) returns (rms: real)
    requires |xs| > 0
    ensures rms == Rms(m, xs)
  {
    var sum := 0.0;
    var i := 0;
    while i < |xs|
      invariant 0 <= i <= |xs|
      invariant sum == SumSquares(xs[..i])
    {
      assert xs[..i + 1][..i] == xs[..i];
      sum := sum + xs[i] * xs[i];
      i := i + 1;
    }
    assert xs[..i] == xs;
    rms := m.sqrt(sum / |xs| as real);
  }

  lemma {:induction false} SumSquaresAtMost(xs: seq<real>, p: real)
    requires forall i :: 0 <= i < |xs| ==> Abs(xs[i]) <= p
    requires 0.0 <= p
    ensures SumSquares(xs) <= |xs| as real * Square(p)
  {
    if |xs| > 0 {
      var init := xs[..|xs| - 1];
      assert forall i :: 0 <= i < |init| ==> init[i] == xs[i];
      SumSquaresAtMost(init, p);
      SquareMonotone(Abs(xs[|xs| - 1]), p);
      assert Square(xs[|xs| - 1]) == Square(Abs(xs[|xs| - 1]));
    }
  }

  /** A bound on every sample's magnitude bounds the mean square by its square. */
  lemma MeanSquareAtMost(xs: seq<real>, p: real)
    requires |xs| > 0 && 0.0 <= p
    requires forall i :: 0 <= i < |xs| ==> Abs(xs[i]) <= p
    ensures MeanSquare(xs) <= Square(p)
  {
    var sum, n, q := SumSquares(xs), |xs| as real, Square(p);
    SumSquaresAtMost(xs, p);
    DivAtMost(sum, n, q);
  }

  /** The mean square never exceeds the squared peak. */
  lemma MeanSquareAtMostPeakSquared(xs: seq<real>)
    requires |xs| > 0
    ensures MeanSquare(xs) <= Square(Peak(xs))
  {
    PeakIsMaximum(xs);
    MeanSquareAtMost(xs, Peak(xs));
  }

  /** RMS is non-negative and never exceeds the peak amplitude. */
  lemma RmsAtMostPeak(m: Math, xs: seq<real>)
    requires Lawful(m) && |xs| > 0
    ensures 0.0 <= Rms(m, xs) <= Peak(xs)
  {
    MeanSquareAtMostPeakSquared(xs);
    SqrtMonotone(m, MeanSquare(xs), Square(Peak(xs)));
    SqrtOfSquare(m, Peak(xs));
    assert IsRoot(m, MeanSquare(xs));
  }

  /** `amplitudeToDb` is monotone: a larger amplitude never gets a lower level. */
  lemma DbMonotone(m: Math, a: real, b: real)
    requires Lawful(m) && a <= b
    ensures AmplitudeToDb(m, a).AtMost(AmplitudeToDb(m, b))
  {
    if 0.0 < a {
      LogLess(m, b, a);
    }
  }

  /** On positive amplitudes the conversion is strictly increasing. */
  lemma DbStrictlyMonotone(m: Math, a: real, b: real)
    requires Lawful(m) && 0.0 < a < b
    ensures AmplitudeToDb(m, a).db < AmplitudeToDb(m, b).db
  {
    LogLess(m, a, b);
  }

  /** An all-zero window has zero energy, and only such a window. */
  lemma {:induction false} SumSquaresZero(xs: seq<real>)
    ensures SumSquares(xs) == 0.0 <==> forall i :: 0 <= i < |xs| ==> xs[i] == 0.0
  {
    if |xs| > 0 {
      var init := xs[..|xs| - 1];
      assert forall i :: 0 <= i < |init| ==> init[i] == xs[i];
      SumSquaresZero(init);
      if xs[|xs| - 1] != 0.0 {
        SquarePositive(xs[|xs| - 1]);
      }
    }
  }

  /** The RMS level of a window is silence exactly when every sample is zero. */
  lemma RmsSilentIffAllZero(m: Math, xs: seq<real>)
    requires Lawful(m) && |xs| > 0
    ensures AmplitudeToDb(m, Rms(m, xs)).Silence? <==> forall i :: 0 <= i < |xs| ==> xs[i] == 0.0
  {
    SumSquaresZero(xs);
    SqrtPositive(m, MeanSquare(xs));
    if SumSquares(xs) > 0.0 {
      assert MeanSquare(xs) > 0.0;
    }
  }
}
