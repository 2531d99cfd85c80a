/**
 * `calculateSummary`: the cross-file statistics of a batch. Levels may be
 * silence (`-Infinity` in the analyser), which propagates through sums and
 * means as JavaScript arithmetic does; the LUFS range is a plain JavaScript
 * number and can leave the reals.
 */
module Summary {
  import opened ScalarMetrics
  import opened Results

  /** A JavaScript number where a result can be infinite or `NaN`. */
  datatype Num = Finite(v: real) | PosInfinity | NegInfinity | NotANumber

  /** `a - b` on levels as JavaScript computes it, with `-Infinity` for silence. */
  function LevelDifference(a: Level, b: Level): (r: Num)
    ensures a.Db? && b.Db? ==> r == Finite(a.db - b.db)
    ensures r.NotANumber? <==> a.Silence? && b.Silence?
    ensures r.PosInfinity? <==> a.Db? && b.Silence?
    ensures r.NegInfinity? <==> a.Silence? && b.Db?
  {
    match (a, b)
    case (Db(x), Db(y)) => Finite(x - y)
    case (Db(_), Silence) => PosInfinity
    case (Silence, Db(_)) => NegInfinity
    case (Silence, Silence) => NotANumber
  }

  datatype Summary = Summary(totalDuration: real, averageLufs: Level, averagePeakDb: Level, maxPeakDb: Level,
                             minLufs: Level, maxLufs: Level, lufsRange: Num)

  /** The summary of an empty batch: every field zero. */
  const ZeroSummary := Summary(0.0, Db(0.0), Db(0.0), Db(0.0), Db(0.0), Db(0.0), Finite(0.0))

  /** The sum of the durations, accumulated from the front as `reduce` does. */
  function TotalDuration(rs: seq<AnalysisResult>): real {
    if |rs| == 0 then 0.0 else TotalDuration(rs[..|rs| - 1]) + rs[|rs| - 1].duration
  }

  /** `a + b` on levels: silence absorbs every finite level. */
  function AddLevels(a: Level, b: Level): (r: Level)
    ensures r.Silence? <==> a.Silence? || b.Silence?
    ensures r.Db? ==> r.db == a.db + b.db
  {
    if a.Db? && b.Db? then Db(a.db + b.db) else Silence
  }

  /** The sum of levels, from 0 as `reduce` does. */
  function SumLevels(ls: seq<Level>): Level {
    if |ls| == 0 then Db(0.0) else AddLevels(SumLevels(ls[..|ls| - 1]), ls[|ls| - 1])
  }

  /** The arithmetic mean of levels: silence as soon as one level is silence. */
  function MeanLevel(ls: seq<Level>): Level
    requires |ls| > 0
  {
    var s := SumLevels(ls);
    if s.Silence? then Silence else Db(s.db / |ls| as real)
  }

  /** `Math.max` of two levels; silence is below every finite level. */
  function MaxOf(a: Level, b: Level): Level {
    if a.AtMost(b) then b else a
  }

  /** `Math.min` of two levels. */
  function MinOf(a: Level, b: Level): Level {
    if a.AtMost(b) then a else b
  }

  /** `Math.max(...ls)` of a non-empty list. */
  function MaxLevel(ls: seq<Level>): Level
    requires |ls| > 0
  {
    if |ls| == 1 then ls[0] else MaxOf(MaxLevel(ls[..|ls| - 1]), ls[|ls| - 1])
  }

  /** `Math.min(...ls)` of a non-empty list. */
  function MinLevel(ls: seq<Level>): Level
    requires |ls| > 0
  {
    if |ls| == 1 then ls[0] else MinOf(MinLevel(ls[..|ls| - 1]), ls[|ls| - 1])
  }

  /** The whole-file loudness of each result, in order. */
  function LufsValues(rs: seq<AnalysisResult>): (ls: seq<Level>)
    ensures |ls| == |rs| && forall i :: 0 <= i < |rs| ==> ls[i] == rs[i].lufs
  {
    seq(|rs|, i requires 0 <= i < |rs| => rs[i].lufs)
  }

  /** The whole-file peak level of each result, in order. */
  function PeakDbValues(rs: seq<AnalysisResult>): (ls: seq<Level>)
    ensures |ls| == |rs| && forall i :: 0 <= i < |rs| ==> ls[i] == rs[i].peakAmplitudeDb
  {
    seq(|rs|, i requires 0 <= i < |rs| => rs[i].peakAmplitudeDb)
  }

  /** `calculateSummary`. */
  function CalculateSummary(rs: seq<AnalysisResult>): (s: Summary)
    ensures |rs| == 0 ==> s == ZeroSummary
    ensures s.totalDuration == TotalDuration(rs)
  {
    if |rs| == 0 then ZeroSummary
    else
      var lufs := LufsValues(rs);
      var peaks := PeakDbValues(rs);
      Summary(TotalDuration(rs), MeanLevel(lufs), MeanLevel(peaks), MaxLevel(peaks),
              MinLevel(lufs), MaxLevel(lufs), LevelDifference(MaxLevel(lufs), MinLevel(lufs)))
  }

  /** The maximum is an upper bound of the list and one of its elements. */
  lemma {:induction false} MaxLevelIsMaximum(ls: seq<Level>)
    requires |ls| > 0
    ensures forall i :: 0 <= i < |ls| ==> ls[i].AtMost(MaxLevel(ls))
    ensures exists i :: 0 <= i < |ls| && ls[i] == MaxLevel(ls)
  {
    if |ls| > 1 {
      var init := ls[..|ls| - 1];
      MaxLevelIsMaximum(init);
      assert forall i :: 0 <= i < |init| ==> init[i] == ls[i];
      var j :| 0 <= j < |init| && init[j] == MaxLevel(init);
      if MaxLevel(ls) == MaxLevel(init) {
        assert ls[j] == MaxLevel(ls);
      } else {
        assert ls[|ls| - 1] == MaxLevel(ls);
      }
    } else {
      assert ls[0] == MaxLevel(ls);
    }
  }

  /** The minimum is a lower bound of the list and one of its elements. */
  lemma {:induction false} MinLevelIsMinimum(ls: seq<Level>)
    requires |ls| > 0
    ensures forall i :: 0 <= i < |ls| ==> MinLevel(ls).AtMost(ls[i])
    ensures exists i :: 0 <= i < |ls| && ls[i] == MinLevel(ls)
  {
    if |ls| > 1 {
      var init := ls[..|ls| - 1];
      MinLevelIsMinimum(init);
      assert forall i :: 0 <= i < |init| ==> init[i] == ls[i];
      var j :| 0 <= j < |init| && init[j] == MinLevel(init);
      if MinLevel(ls) == MinLevel(init) {
        assert ls[j] == MinLevel(ls);
      } else {
        assert ls[|ls| - 1] == MinLevel(ls);
      }
    } else {
      assert ls[0] == MinLevel(ls);
    }
  }

  /** A sum of levels is silence exactly when one of them is. */
  lemma {:induction false} SumLevelsSilent(ls: seq<Level>)
    ensures SumLevels(ls).Silence? <==> exists i :: 0 <= i < |ls| && ls[i].Silence?
  {
    if |ls| > 0 {
      var init := ls[..|ls| - 1];
      SumLevelsSilent(init);
      assert forall i :: 0 <= i < |init| ==> init[i] == ls[i];
    }
  }

  /** `k * x`, as `k` additions of `x`. */
  function Scaled(k: nat, x: real): real {
    if k == 0 then 0.0 else Scaled(k - 1, x) + x
  }

  lemma {:induction false} ScaledIsProduct(k: nat, x: real)
    ensures Scaled(k, x) == k as real * x
  {
    if k > 0 {
      ScaledIsProduct(k - 1, x);
      assert (k - 1) as real * x + x == k as real * x;
    }
  }

  /** A sum of `n` finite levels lies between `n` times a lower and `n` times an upper bound. */
  lemma {:induction false} SumLevelsBetween(ls: seq<Level>, lo: real, hi: real)
    requires forall i :: 0 <= i < |ls| ==> ls[i].Db? && lo <= ls[i].db <= hi
    ensures SumLevels(ls).Db?
    ensures Scaled(|ls|, lo) <= SumLevels(ls).db <= Scaled(|ls|, hi)
  {
    if |ls| > 0 {
      var init := ls[..|ls| - 1];
      assert forall i :: 0 <= i < |init| ==> init[i] == ls[i];
      SumLevelsBetween(init, lo, hi);
    }
  }

  /** A mean of finite levels lies between their minimum and their maximum. */
  lemma MeanBetween(ls: seq<Level>)
    requires |ls| > 0 && forall i :: 0 <= i < |ls| ==> ls[i].Db?
    ensures MinLevel(ls).Db? && MeanLevel(ls).Db? && MaxLevel(ls).Db?
    ensures MinLevel(ls).db <= MeanLevel(ls).db <= MaxLevel(ls).db
  {
    ElementsBetween(ls);
    var lo, hi := MinLevel(ls).db, MaxLevel(ls).db;
    SumLevelsBetween(ls, lo, hi);
    QuotientBetween(SumLevels(ls).db, |ls|, lo, hi);
  }

  lemma ElementsBetween(ls: seq<Level>)
    requires |ls| > 0 && forall i :: 0 <= i < |ls| ==> ls[i].Db?
    ensures MinLevel(ls).Db? && MaxLevel(ls).Db?
    ensures forall i :: 0 <= i < |ls| ==> MinLevel(ls).db <= ls[i].db <= MaxLevel(ls).db
  {
    MinLevelIsMinimum(ls);
    MaxLevelIsMaximum(ls);
  }

  /** A total between `k` times `lo` and `k` times `hi`, divided by `k`, lies between `lo` and `hi`. */
  lemma QuotientBetween(s: real, k: nat, lo: real, hi: real)
    requires k > 0 && Scaled(k, lo) <= s <= Scaled(k, hi)
    ensures lo <= s / k as real <= hi
  {
    ScaledIsProduct(k, lo);
    ScaledIsProduct(k, hi);
    var n := k as real;
    var q := s / n;
    assert n * q == s;
    assert n * lo <= s;
    MultiplyCancel(lo, q, n);
    MultiplyCancel(q, hi, n);
  }

  lemma MultiplyCancel(a: real, b: real, n: real)
    requires n > 0.0 && n * a <= n * b
    ensures a <= b
  {
  }

  /**
   * With every loudness value finite, the average loudness lies between the
   * minimum and the maximum, and the range is their non-negative difference.
   */
  lemma SummaryOfFiniteLoudness(rs: seq<AnalysisResult>)
    requires |rs| > 0 && forall i :: 0 <= i < |rs| ==> rs[i].lufs.Db?
    ensures var s := CalculateSummary(rs);
      && s.minLufs.Db? && s.averageLufs.Db? && s.maxLufs.Db?
      && s.minLufs.db <= s.averageLufs.db <= s.maxLufs.db
      && s.lufsRange == Finite(s.maxLufs.db - s.minLufs.db)
      && s.lufsRange.v >= 0.0
  {
    MeanBetween(LufsValues(rs));
  }

  /**
   * One silent file makes the average loudness silence; the range is then
   * `+Infinity`, or `NaN` when every file is silent.
   */
  lemma SummaryWithSilence(rs: seq<AnalysisResult>)
    requires |rs| > 0 && exists i :: 0 <= i < |rs| && rs[i].lufs.Silence?
    ensures var s := CalculateSummary(rs);
      && s.averageLufs.Silence? && s.minLufs.Silence?
      && (s.lufsRange.NotANumber? <==> forall i :: 0 <= i < |rs| ==> rs[i].lufs.Silence?)
      && (s.lufsRange.PosInfinity? <==> exists i :: 0 <= i < |rs| && rs[i].lufs.Db?)
  {
    var ls := LufsValues(rs);
    SumLevelsSilent(ls);
    MinLevelIsMinimum(ls);
    MaxLevelIsMaximum(ls);
  }

  /** The maximum peak level bounds every file's peak level and is one of them. */
  lemma MaxPeakAttained(rs: seq<AnalysisResult>)
    requires |rs| > 0
    ensures forall i :: 0 <= i < |rs| ==> rs[i].peakAmplitudeDb.AtMost(CalculateSummary(rs).maxPeakDb)
    ensures exists i :: 0 <= i < |rs| && rs[i].peakAmplitudeDb == CalculateSummary(rs).maxPeakDb
  {
    MaxLevelIsMaximum(PeakDbValues(rs));
  }

  /**
   * A single result gives its own loudness and peak level, and a zero range
   * when its loudness is finite (a silent file gives `NaN`).
   */
  lemma SummaryOfOne(r: AnalysisResult)
    ensures var s := CalculateSummary([r]);
      && s.totalDuration == r.duration
      && s.averageLufs == s.minLufs == s.maxLufs == r.lufs
      && s.averagePeakDb == s.maxPeakDb == r.peakAmplitudeDb
      && s.lufsRange == (if r.lufs.Db? then Finite(0.0) else NotANumber)
  {
    var rs := [r];
    assert rs[..0] == [];
    var ls, ps := LufsValues(rs), PeakDbValues(rs);
    assert ls[..0] == [] && ps[..0] == [];
    assert SumLevels(ls) == AddLevels(Db(0.0), r.lufs);
    assert SumLevels(ps) == AddLevels(Db(0.0), r.peakAmplitudeDb);
    assert TotalDuration(rs) == 0.0 + r.duration;
  }

  /** Durations add up across a split of the batch. */
  lemma {:induction false} TotalDurationAppend(a: seq<AnalysisResult>, b: seq<AnalysisResult>)
    ensures TotalDuration(a + b) == TotalDuration(a) + TotalDuration(b)
    decreases |b|
  {
    if |b| > 0 {
      var b' := b[..|b| - 1];
      assert (a + b)[..|a + b| - 1] == a + b';
      TotalDurationAppend(a, b');
    } else {
      assert a + b == a;
    }
  }
}
