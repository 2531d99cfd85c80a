/**
 * The LUFS-like loudness approximations of `AudioAnalyzer`: a fixed offset
 * below the RMS level. The whole-file value uses a 12 dB offset and no gate;
 * the windowed value is gated at -70 dB and uses a 13 dB offset. Neither is a
 * K-weighted, gated ITU-R BS.1770 measurement.
 */
module Loudness {
  import opened RealMath
  import opened ScalarMetrics

  const WholeFileOffset: real := 12.0
  const WindowOffset: real := 13.0
  const GateThreshold: real := -70.0
  /** The mean square whose RMS level is exactly the gate threshold, 10^-7. */
  const GateMeanSquare: real := 0.0000001

  /** `calculateLUFS`: the RMS level of the whole buffer, 12 dB lower; silence stays silence. */
  function WholeFileLufs(m: Math, xs: seq<real>): Level
    requires |xs| > 0
  {
    AmplitudeToDb(m, Rms(m, xs)).Minus(WholeFileOffset)
  }

  /**
   * `calculateLUFSFromWindow`: silence for an empty window or an RMS level
   * below the gate, otherwise the RMS level 13 dB lower. A finite result is
   * therefore never below -83 dB.
   */
  function WindowLufs(m: Math, w: seq<real>): (r: Level)
    ensures |w| == 0 ==> r.Silence?
    ensures r.Db? ==> r.db >= GateThreshold - WindowOffset
  {
    if |w| == 0 then Silence
    else
      var rmsDb := AmplitudeToDb(m, Rms(m, w));
      if rmsDb.Silence? || rmsDb.db < GateThreshold then Silence
      else Db(rmsDb.db - WindowOffset)
  }

  /** The whole-file value has no gate: it is silence only for an all-zero buffer. */
  lemma WholeFileLufsUngated(m: Math, xs: seq<real>)
    requires Lawful(m) && |xs| > 0
    ensures WholeFileLufs(m, xs).Silence? <==> forall i :: 0 <= i < |xs| ==> xs[i] == 0.0
  {
    RmsSilentIffAllZero(m, xs);
  }

  /**
   * The windowed value, stated on the mean square: silence exactly for an
   * empty window or a mean square below 10^-7, and otherwise 1 dB below the
   * whole-file value of the same samples.
   */
  lemma WindowLufsGate(m: Math, w: seq<real>)
    requires Lawful(m)
    ensures WindowLufs(m, w).Silence? <==> |w| == 0 || MeanSquare(w) < GateMeanSquare
    ensures WindowLufs(m, w).Db? ==> WindowLufs(m, w) == WholeFileLufs(m, w).Minus(1.0)
  {
    if |w| > 0 {
      var ms := MeanSquare(w);
      SqrtPositive(m, ms);
      if 0.0 < ms {
        GateOnMeanSquare(m, ms);
      }
    }
  }

  /** The whole-file value never exceeds the peak level less 12 dB. */
  lemma WholeFileLufsBelowPeak(m: Math, xs: seq<real>)
    requires Lawful(m) && |xs| > 0
    ensures WholeFileLufs(m, xs).AtMost(AmplitudeToDb(m, Peak(xs)).Minus(WholeFileOffset))
  {
    RmsAtMostPeak(m, xs);
    DbMonotone(m, Rms(m, xs), Peak(xs));
  }
}
