/**
 * The arithmetic of `GraphRenderer`: the `m:ss` time labels, the scan for
 * the amplitude range over the finite values and its 10% padding, the
 * per-file time offsets, the path `drawLine` builds (skipping silence), and
 * the dB labels of the amplitude axis. Canvas calls are modelled as the list
 * of path operations they would receive.
 */
module Renderer {
  import opened Wrappers
  import opened RealMath
  import opened JsNumber
  import opened Decimal
  import opened ScalarMetrics
  import opened TimeSeries
  import opened Results
  import opened Summary
  import opened Analyzer

  // ---------------------------------------------------------------------
  // formatTime

  /** `formatTime`: whole minutes, a colon, and the whole seconds left over, padded to two digits. */
  function FormatTime(seconds: real): string {
    var minutes := Floor(seconds / 60.0);
    var remainingSeconds := Floor(Remainder(seconds, 60.0));
    Clock(minutes, remainingSeconds)
  }

  /** `${minutes}:${seconds.toString().padStart(2, '0')}`. */
  function Clock(minutes: int, seconds: int): string {
    IntToString(minutes) + ":" + PadStart(IntToString(seconds), 2)
  }

  /**
   * For a non-negative time the minutes are `floor(s / 60)`, the seconds
   * field lies in 0..59, and together they give back the whole seconds.
   */
  lemma FormatTimeFields(seconds: real)
    requires 0.0 <= seconds
    ensures var minutes := Floor(seconds / 60.0);
      var secs := Floor(Remainder(seconds, 60.0));
      && 0 <= minutes && 0 <= secs < 60
      && 60 * minutes + secs == Floor(seconds)
  {
    FloorDecomposition(seconds, 60);
  }

  /**
   * Reads a label `digits:dd` back into its two numbers: the digits before
   * the last colon and the two digits after it.
   */
  function ReadClock(r: string): Option<(nat, nat)> {
    if |r| >= 4 && r[|r| - 3] == ':' && IsDigits(r[..|r| - 3]) && IsDigits(r[|r| - 2..])
    then Some((DigitsValue(r[..|r| - 3]), DigitsValue(r[|r| - 2..])))
    else None
  }

  /**
   * The label of a non-negative time reads back as whole minutes and a
   * seconds field below 60 that together count the whole seconds.
   */
  lemma FormatTimeReadsBack(seconds: real)
    requires 0.0 <= seconds
    ensures ReadClock(FormatTime(seconds)).Some?
    ensures var (minutes, secs) := ReadClock(FormatTime(seconds)).value;
      secs < 60 && 60 * minutes + secs == Floor(seconds)
  {
    FormatTimeFields(seconds);
    var minutes := Floor(seconds / 60.0);
    var secs := Floor(Remainder(seconds, 60.0));
    ClockReadsBack(minutes, secs);
  }

  /** `m:ss` with `ss` below 60 reads back as `m` and `ss`. */
  lemma ClockReadsBack(m: nat, secs: nat)
    requires secs < 60
    ensures ReadClock(Clock(m, secs)) == Some((m, secs))
  {
    var a := NatToString(m);
    var b := PadStart(NatToString(secs), 2);
    assert Clock(m, secs) == a + ":" + b;
    TwoDigits(secs);
    NatToStringValue(m);
    SplitAtColon(a, b);
  }

  /** The number of intervals on the time axis. */
  const TimeSteps := 10

  /**
   * The time `i / 10` of the way through `total` seconds, written as `i`
   * additions of a tenth so that the solver meets no product of unknowns
   * (`AxisTimeIsFraction` gives the product form).
   */
  function AxisTime(i: nat, total: real): (t: real)
    requires 0.0 <= total && i <= TimeSteps
    ensures 0.0 <= t <= total
    ensures i == 0 ==> t == 0.0
    ensures i == TimeSteps ==> t == total
  {
    var tenth := total / TimeSteps as real;
    ScaledMonotone(0, i, tenth);
    ScaledMonotone(i, TimeSteps, tenth);
    ScaledIsProduct(TimeSteps, tenth);
    Scaled(i, tenth)
  }

  /** `AxisTime` is the `(i / 10) * total` of `drawLabels`. */
  lemma AxisTimeIsFraction(i: nat, total: real)
    requires 0.0 <= total && i <= TimeSteps
    ensures AxisTime(i, total) == (i as real / TimeSteps as real) * total
  {
    ScaledIsProduct(i, total / TimeSteps as real);
  }

  /**
   * The `i`-th label under the time axis: the time `i / 10` of the way
   * through the batch, or through nothing when there is no batch.
   */
  function TimeAxisLabel(i: nat, totalDuration: Option<real>): string
    requires totalDuration.Some? ==> 0.0 <= totalDuration.value
    requires i <= TimeSteps
  {
    FormatTime(AxisTime(i, if totalDuration.Some? then totalDuration.value else 0.0))
  }

  /** The seconds a clock label stands for, when it is one. */
  function ClockSeconds(r: string): Option<nat> {
    match ReadClock(r)
    case Some((minutes, secs)) => Some(60 * minutes + secs)
    case None => None
  }

  /** Labels of later times read back as no fewer whole seconds. */
  lemma FormatTimeOrdered(s: real, t: real)
    requires 0.0 <= s <= t
    ensures ClockSeconds(FormatTime(s)).Some? && ClockSeconds(FormatTime(t)).Some?
    ensures ClockSeconds(FormatTime(s)).value <= ClockSeconds(FormatTime(t)).value
    ensures ClockSeconds(FormatTime(t)).value == Floor(t)
  {
    FormatTimeReadsBack(s);
    FormatTimeReadsBack(t);
    FloorMonotone(s, t);
  }

  /**
   * Along the time axis the labels read back as whole seconds that never
   * decrease, and the last one as the whole seconds of the batch.
   */
  lemma TimeAxisLabelsIncrease(total: real, i: nat, j: nat)
    requires 0.0 <= total && i <= j <= TimeSteps
    ensures var a, b := ClockSeconds(TimeAxisLabel(i, Some(total))), ClockSeconds(TimeAxisLabel(j, Some(total)));
      a.Some? && b.Some? && a.value <= b.value
    ensures var c := ClockSeconds(TimeAxisLabel(TimeSteps, Some(total)));
      c.Some? && c.value == Floor(total)
  {
    var s, t := AxisTime(i, total), AxisTime(j, total);
    AxisTimesOrdered(i, j, total);
    FormatTimeOrdered(s, t);
    FormatTimeOrdered(s, total);
  }

  /** The first time label reads `0:00`. */
  lemma TimeAxisStartsAtZero(totalDuration: Option<real>)
    requires totalDuration.Some? ==> 0.0 <= totalDuration.value
    ensures TimeAxisLabel(0, totalDuration) == "0:00"
  {
    assert TimeAxisLabel(0, totalDuration) == FormatTime(0.0);
    assert FormatTime(0.0) == Clock(0, 0);
    ZeroClock();
  }

  lemma ZeroClock()
    ensures Clock(0, 0) == "0:00"
  {
    assert NatToString(0) == "0";
  }

  lemma AxisTimesOrdered(i: nat, j: nat, total: real)
    requires 0.0 <= total && i <= j <= TimeSteps
    ensures AxisTime(i, total) <= AxisTime(j, total)
  {
    ScaledMonotone(i, j, total / TimeSteps as real);
  }

  lemma SplitAtColon(a: string, b: string)
    requires |a| > 0 && |b| == 2
    ensures var r := a + ":" + b;
      r[|r| - 3] == ':' && r[..|r| - 3] == a && r[|r| - 2..] == b
  {
  }

  // ---------------------------------------------------------------------
  // The amplitude range

  /**
   * The pair `(minAmplitude, maxAmplitude)` of `drawData`. `NoValues` is the
   * starting pair `(Infinity, -Infinity)`, which padding leaves as it is.
   */
  datatype Range = NoValues | Span(lo: real, hi: real)

  /** One `Math.min` / `Math.max` step of the scan. */
  function Include(r: Range, v: real): Range {
    match r
    case NoValues => Span(v, v)
    case Span(lo, hi) => Span(if v < lo then v else lo, if v > hi then v else hi)
  }

  /** The values of a point the scan looks at: its peak, then its loudness, each only when finite. */
  function PointValues(p: TimePoint): seq<real> {
    (if p.peak.Db? then [p.peak.db] else []) + (if p.lufs.Db? then [p.lufs.db] else [])
  }

  function PointsValues(ps: seq<TimePoint>): seq<real> {
    if |ps| == 0 then [] else PointsValues(ps[..|ps| - 1]) + PointValues(ps[|ps| - 1])
  }

  /** Every finite value the scan meets, file by file and point by point. */
  function PlottedValues(rs: seq<AnalysisResult>): seq<real> {
    if |rs| == 0 then [] else PlottedValues(rs[..|rs| - 1]) + PointsValues(rs[|rs| - 1].timeData)
  }

  /** The range after the values `vs`, in order. */
  function RangeOf(vs: seq<real>): Range {
    if |vs| == 0 then NoValues else Include(RangeOf(vs[..|vs| - 1]), vs[|vs| - 1])
  }

  /** `v` is the finite peak or loudness of some point of some file. */
  ghost predicate IsPlotted(rs: seq<AnalysisResult>, v: real) {
    exists i, j :: 0 <= i < |rs| && 0 <= j < |rs[i].timeData| && v in PointValues(rs[i].timeData[j])
  }

  /** The range of a sequence holds every value, its ends are values, and it is empty only for no values. */
  lemma {:induction false} RangeOfBounds(vs: seq<real>)
    ensures RangeOf(vs).NoValues? <==> |vs| == 0
    ensures RangeOf(vs).Span? ==>
      && RangeOf(vs).lo in vs && RangeOf(vs).hi in vs
      && forall v :: v in vs ==> RangeOf(vs).lo <= v <= RangeOf(vs).hi
  {
    if |vs| > 0 {
      var init := vs[..|vs| - 1];
      RangeOfBounds(init);
      assert vs == init + [vs[|vs| - 1]];
    }
  }

  lemma PointsValuesMembers(ps: seq<TimePoint>, v: real)
    ensures v in PointsValues(ps) <==> exists j :: 0 <= j < |ps| && v in PointValues(ps[j])
  {
    if v in PointsValues(ps) {
      var j := PointsValuesSound(ps, v);
    }
    if j :| 0 <= j < |ps| && v in PointValues(ps[j]) {
      PointsValuesComplete(ps, j, v);
    }
  }

  lemma {:induction false} PointsValuesSound(ps: seq<TimePoint>, v: real) returns (j: nat)
    requires v in PointsValues(ps)
    ensures j < |ps| && v in PointValues(ps[j])
  {
    var init := ps[..|ps| - 1];
    if v in PointsValues(init) {
      j := PointsValuesSound(init, v);
      assert ps[j] == init[j];
    } else {
      j := |ps| - 1;
    }
  }

  lemma {:induction false} PointsValuesComplete(ps: seq<TimePoint>, j: nat, v: real)
    requires j < |ps| && v in PointValues(ps[j])
    ensures v in PointsValues(ps)
  {
    var init := ps[..|ps| - 1];
    if j < |init| {
      assert init[j] == ps[j];
      PointsValuesComplete(init, j, v);
    }
  }

  lemma PlottedValuesMembers(rs: seq<AnalysisResult>, v: real)
    ensures v in PlottedValues(rs) <==> IsPlotted(rs, v)
  {
    if v in PlottedValues(rs) {
      PlottedValuesSound(rs, v);
    }
    if IsPlotted(rs, v) {
      var i, j :| 0 <= i < |rs| && 0 <= j < |rs[i].timeData| && v in PointValues(rs[i].timeData[j]);
      PlottedValuesComplete(rs, i, j, v);
    }
  }

  lemma {:induction false} PlottedValuesSound(rs: seq<AnalysisResult>, v: real)
    requires v in PlottedValues(rs)
    ensures IsPlotted(rs, v)
  {
    var init := rs[..|rs| - 1];
    var last := rs[|rs| - 1];
    if v in PlottedValues(init) {
      PlottedValuesSound(init, v);
      var i, j :| 0 <= i < |init| && 0 <= j < |init[i].timeData| && v in PointValues(init[i].timeData[j]);
      assert rs[i] == init[i];
      assert 0 <= j < |rs[i].timeData| && v in PointValues(rs[i].timeData[j]);
    } else {
      PointsValuesMembers(last.timeData, v);
      var j :| 0 <= j < |last.timeData| && v in PointValues(last.timeData[j]);
      assert 0 <= j < |rs[|rs| - 1].timeData| && v in PointValues(rs[|rs| - 1].timeData[j]);
    }
  }

  lemma {:induction false} PlottedValuesComplete(rs: seq<AnalysisResult>, i: nat, j: nat, v: real)
    requires i < |rs| && j < |rs[i].timeData| && v in PointValues(rs[i].timeData[j])
    ensures v in PlottedValues(rs)
  {
    var init := rs[..|rs| - 1];
    if i < |init| {
      assert init[i] == rs[i];
      PlottedValuesComplete(init, i, j, v);
    } else {
      PointsValuesMembers(rs[i].timeData, v);
    }
  }

  /**
   * The scanned range is the range of the finite values alone: it stays at
   * its start exactly when every point of every file is silent, holds every
   * finite peak and loudness, and both its ends are such values, so silent
   * points never move it.
   */
  lemma RangeOfPlotted(rs: seq<AnalysisResult>)
    ensures var r := RangeOf(PlottedValues(rs));
      && (r.NoValues? <==> forall v :: !IsPlotted(rs, v))
      && (r.Span? ==> IsPlotted(rs, r.lo) && IsPlotted(rs, r.hi))
      && (r.Span? ==> forall v :: IsPlotted(rs, v) ==> r.lo <= v <= r.hi)
  {
    var vs := PlottedValues(rs);
    RangeOfBounds(vs);
    forall v
      ensures v in vs <==> IsPlotted(rs, v)
    {
      PlottedValuesMembers(rs, v);
    }
    if |vs| > 0 {
      assert IsPlotted(rs, vs[0]);
    }
  }

  lemma IncludePoint(vs: seq<real>, p: TimePoint)
    ensures RangeOf(vs + PointValues(p))
         == (var r := if p.peak.Db? then Include(RangeOf(vs), p.peak.db) else RangeOf(vs);
             if p.lufs.Db? then Include(r, p.lufs.db) else r)
  {
    var ws := if p.peak.Db? then vs + [p.peak.db] else vs;
    assert vs + PointValues(p) == if p.lufs.Db? then ws + [p.lufs.db] else ws;
    if p.peak.Db? {
      assert ws[..|ws| - 1] == vs;
    }
    if p.lufs.Db? {
      assert (ws + [p.lufs.db])[..|ws|] == ws;
    }
  }

  lemma ScanPointStep(prefix: seq<real>, ps: seq<TimePoint>, j: nat)
    requires j < |ps|
    ensures prefix + PointsValues(ps[..j + 1]) == (prefix + PointsValues(ps[..j])) + PointValues(ps[j])
  {
    assert ps[..j + 1][..j] == ps[..j];
  }

  lemma ScanFileStep(rs: seq<AnalysisResult>, i: nat)
    requires i < |rs|
    ensures PlottedValues(rs[..i + 1]) == PlottedValues(rs[..i]) + PointsValues(rs[i].timeData[..|rs[i].timeData|])
  {
    assert rs[..i + 1][..i] == rs[..i];
    assert rs[i].timeData[..|rs[i].timeData|] == rs[i].timeData;
  }

  /**
   * The nested scan of `drawData` over every point of every file, folding
   * each finite peak and then each finite loudness into the range.
   */
  method ScanAmplitudeRange(results: seq<AnalysisResult>) returns (range: Range)
    ensures range == RangeOf(PlottedValues(results))
  {
    range := NoValues;
    for i := 0 to |results|
      invariant range == RangeOf(PlottedValues(results[..i]))
    {
      var timeData := results[i].timeData;
      ghost var prefix := PlottedValues(results[..i]);
      assert prefix + PointsValues(timeData[..0]) == prefix;
      for j := 0 to |timeData|
        invariant range == RangeOf(prefix + PointsValues(timeData[..j]))
      {
        var point := timeData[j];
        IncludePoint(prefix + PointsValues(timeData[..j]), point);
        ScanPointStep(prefix, timeData, j);
        if point.peak.Db? {
          range := Include(range, point.peak.db);
        }
        if point.lufs.Db? {
          range := Include(range, point.lufs.db);
        }
      }
      ScanFileStep(results, i);
    }
    assert results[..|results|] == results;
  }

  /** `drawData`'s padding: the range widened by a tenth of its width at each end. */
  function PadRange(r: Range): Range {
    match r
    case NoValues => NoValues
    case Span(lo, hi) =>
      var range := hi - lo;
      Span(lo - range * 0.1, hi + range * 0.1)
  }

  /**
   * Padding keeps every value inside: both ends move out by a tenth of the
   * width, so the padded range holds the original one, and it has zero
   * width exactly when the original one does.
   */
  lemma PadRangeWidens(r: Range)
    requires r.Span? ==> r.lo <= r.hi
    ensures PadRange(r).NoValues? <==> r.NoValues?
    ensures r.Span? ==>
      var p := PadRange(r);
      && p.lo <= r.lo && r.hi <= p.hi
      && r.lo - p.lo == (r.hi - r.lo) / 10.0 == p.hi - r.hi
      && (p.lo == p.hi <==> r.lo == r.hi)
  {
  }

  // ---------------------------------------------------------------------
  // drawLine

  /** Which value of a point a line draws: `dataType` of `drawLine`. */
  datatype Series = PeakSeries | LufsSeries

  function SeriesValue(p: TimePoint, series: Series): Level {
    if series.PeakSeries? then p.peak else p.lufs
  }

  /** The plotting area inside the canvas: the margin and the graph's width and height. */
  datatype Frame = Frame(padding: real, graphWidth: real, graphHeight: real)

  /**
   * A path operation handed to the canvas. A coordinate is `None` where
   * JavaScript computes `NaN` or an infinity, which the canvas ignores.
   */
  datatype PathOp = MoveTo(x: Option<real>, y: Option<real>) | LineTo(x: Option<real>, y: Option<real>)

  /** The horizontal position of time `time` of a file that starts at `startTime`. */
  function XOf(startTime: real, time: real, totalDuration: real, frame: Frame): Option<real> {
    if totalDuration == 0.0 then None
    else Some(frame.padding + ((startTime + time) / totalDuration) * frame.graphWidth)
  }

  /**
   * The vertical position of `value`: the top of the graph for the upper
   * end of the range, the bottom for the lower end. A range of zero width
   * divides by zero, and the start pair `(Infinity, -Infinity)` gives
   * `NaN`; both leave no finite position.
   */
  function YOf(value: real, range: Range, frame: Frame): Option<real> {
    match range
    case NoValues => None
    case Span(lo, hi) =>
      if hi == lo then None
      else Some(frame.padding + frame.graphHeight - ((value - lo) / (hi - lo)) * frame.graphHeight)
  }

  /** What `drawLine` does with the point at `index`: nothing for silence, otherwise a move (first point) or a line to it. */
  function PointOps(p: TimePoint, index: nat, series: Series, startTime: real, totalDuration: real,
                    range: Range, frame: Frame): seq<PathOp>
  {
    var value := SeriesValue(p, series);
    if value.Silence? then []
    else
      var x := XOf(startTime, p.time, totalDuration, frame);
      var y := YOf(value.db, range, frame);
      [if index == 0 then MoveTo(x, y) else LineTo(x, y)]
  }

  /** The path of a whole line, point by point. */
  function LineOps(ps: seq<TimePoint>, series: Series, startTime: real, totalDuration: real,
                   range: Range, frame: Frame): seq<PathOp>
  {
    if |ps| == 0 then []
    else LineOps(ps[..|ps| - 1], series, startTime, totalDuration, range, frame)
         + PointOps(ps[|ps| - 1], |ps| - 1, series, startTime, totalDuration, range, frame)
  }

  /** `drawLine`: the operations the canvas path receives for one series of one file. */
  method DrawLine(timeData: seq<TimePoint>, series: Series, startTime: real, totalDuration: real,
                  range: Range, frame: Frame) returns (path: seq<PathOp>)
    ensures path == LineOps(timeData, series, startTime, totalDuration, range, frame)
  {
    path := [];
    if |timeData| == 0 {
      return;
    }
    for index := 0 to |timeData|
      invariant path == LineOps(timeData[..index], series, startTime, totalDuration, range, frame)
    {
      LineOpsStep(timeData, index, series, startTime, totalDuration, range, frame);
      var point := timeData[index];
      var x := XOf(startTime, point.time, totalDuration, frame);
      var value := SeriesValue(point, series);
      if value.Silence? {
        continue;
      }
      var y := YOf(value.db, range, frame);
      if index == 0 {
        path := path + [MoveTo(x, y)];
      } else {
        path := path + [LineTo(x, y)];
      }
    }
    assert timeData[..|timeData|] == timeData;
  }

  lemma LineOpsStep(ps: seq<TimePoint>, index: nat, series: Series, startTime: real, totalDuration: real,
                    range: Range, frame: Frame)
    requires index < |ps|
    ensures LineOps(ps[..index + 1], series, startTime, totalDuration, range, frame)
      == LineOps(ps[..index], series, startTime, totalDuration, range, frame)
         + PointOps(ps[index], index, series, startTime, totalDuration, range, frame)
  {
    assert ps[..index + 1][..index] == ps[..index];
  }

  /** The number of points whose drawn value is finite. */
  function CountFinite(ps: seq<TimePoint>, series: Series): nat {
    if |ps| == 0 then 0
    else (if SeriesValue(ps[0], series).Db? then 1 else 0) + CountFinite(ps[1..], series)
  }

  lemma {:induction false} CountFiniteSnoc(ps: seq<TimePoint>, p: TimePoint, series: Series)
    ensures CountFinite(ps + [p], series) == CountFinite(ps, series) + (if SeriesValue(p, series).Db? then 1 else 0)
  {
    if |ps| > 0 {
      assert (ps + [p])[1..] == ps[1..] + [p];
      CountFiniteSnoc(ps[1..], p, series);
    }
  }

  /**
   * A line skips its silent points entirely: it has one operation per
   * finite point, only the first operation can be a move, and it is one
   * exactly when the file's first point is finite.
   */
  lemma {:induction false} LineOpsShape(ps: seq<TimePoint>, series: Series, startTime: real, totalDuration: real,
                                        range: Range, frame: Frame)
    ensures var path := LineOps(ps, series, startTime, totalDuration, range, frame);
      && |path| == CountFinite(ps, series)
      && (forall k :: 1 <= k < |path| ==> path[k].LineTo?)
      && (|path| > 0 && path[0].MoveTo? <==> |ps| > 0 && SeriesValue(ps[0], series).Db?)
  {
    if |ps| > 0 {
      var init := ps[..|ps| - 1];
      LineOpsShape(init, series, startTime, totalDuration, range, frame);
      CountFiniteSnoc(init, ps[|ps| - 1], series);
      assert ps == init + [ps[|ps| - 1]];
      if |init| > 0 {
        assert init[0] == ps[0];
      }
    }
  }

  /**
   * A finite value inside a range of positive width is drawn inside the
   * graph: between its top edge and its bottom edge.
   */
  lemma YInsideFrame(value: real, range: Range, frame: Frame)
    requires range.Span? && range.lo < range.hi && range.lo <= value <= range.hi
    requires 0.0 <= frame.graphHeight
    ensures YOf(value, range, frame).Some?
    ensures frame.padding <= YOf(value, range, frame).value <= frame.padding + frame.graphHeight
  {
    var t := (value - range.lo) / (range.hi - range.lo);
    FractionBounds(value - range.lo, range.hi - range.lo);
    ScaleBounds(t, frame.graphHeight);
  }

  lemma FractionBounds(a: real, b: real)
    requires 0.0 <= a <= b && 0.0 < b
    ensures 0.0 <= a / b <= 1.0
  {
  }

  lemma ScaleBounds(t: real, h: real)
    requires 0.0 <= t <= 1.0 && 0.0 <= h
    ensures 0.0 <= t * h <= h
  {
  }

  /** Positions along the time axis grow with time when there is a positive duration and width. */
  lemma XOfIncreasing(s1: real, t1: real, s2: real, t2: real, totalDuration: real, frame: Frame)
    requires s1 + t1 < s2 + t2 && 0.0 < totalDuration && 0.0 < frame.graphWidth
    ensures XOf(s1, t1, totalDuration, frame).Some? && XOf(s2, t2, totalDuration, frame).Some?
    ensures XOf(s1, t1, totalDuration, frame).value < XOf(s2, t2, totalDuration, frame).value
  {
    var a := (s1 + t1) / totalDuration;
    var b := (s2 + t2) / totalDuration;
    QuotientLess(s1 + t1, s2 + t2, totalDuration);
    ProductLess(a, b, frame.graphWidth);
    assert XOf(s1, t1, totalDuration, frame).value == frame.padding + a * frame.graphWidth;
    assert XOf(s2, t2, totalDuration, frame).value == frame.padding + b * frame.graphWidth;
  }

  lemma QuotientLess(a: real, b: real, c: real)
    requires a < b && 0.0 < c
    ensures a / c < b / c
  {
  }

  lemma ProductLess(a: real, b: real, c: real)
    requires a < b && 0.0 < c
    ensures a * c < b * c
  {
  }

  // ---------------------------------------------------------------------
  // drawData

  /** The two lines drawn for one file. */
  datatype FilePaths = FilePaths(peak: seq<PathOp>, lufs: seq<PathOp>)

  /** The lines of the `i`-th file: its points shifted by the durations of the files before it. */
  function FileLines(results: seq<AnalysisResult>, i: nat, totalDuration: real, range: Range, frame: Frame): FilePaths
    requires i < |results|
  {
    var startTime := TotalDuration(results[..i]);
    FilePaths(LineOps(results[i].timeData, PeakSeries, startTime, totalDuration, range, frame),
              LineOps(results[i].timeData, LufsSeries, startTime, totalDuration, range, frame))
  }

  /**
   * `drawData`: nothing without results; otherwise the padded range of all
   * finite values, and for each file its peak and loudness lines, shifted by
   * the durations of the files before it.
   */
  method DrawData(data: AnalysisData, frame: Frame) returns (paths: seq<FilePaths>)
    ensures |paths| == |data.results|
    ensures forall i :: 0 <= i < |paths| ==>
      paths[i] == FileLines(data.results, i, data.summary.totalDuration, PadRange(RangeOf(PlottedValues(data.results))), frame)
  {
    paths := [];
    if |data.results| == 0 {
      return;
    }
    var results := data.results;
    var totalDuration := data.summary.totalDuration;
    var currentTime := 0.0;
    var range := ScanAmplitudeRange(results);
    range := PadRange(range);
    for fileIndex := 0 to |results|
      invariant currentTime == TotalDuration(results[..fileIndex])
      invariant |paths| == fileIndex
      invariant forall i :: 0 <= i < fileIndex ==> paths[i] == FileLines(results, i, totalDuration, range, frame)
    {
      var result := results[fileIndex];
      var peakPath := DrawLine(result.timeData, PeakSeries, currentTime, totalDuration, range, frame);
      var lufsPath := DrawLine(result.timeData, LufsSeries, currentTime, totalDuration, range, frame);
      assert FilePaths(peakPath, lufsPath) == FileLines(results, fileIndex, totalDuration, range, frame);
      paths := paths + [FilePaths(peakPath, lufsPath)];
      assert results[..fileIndex + 1][..fileIndex] == results[..fileIndex];
      currentTime := currentTime + result.duration;
    }
  }

  // ---------------------------------------------------------------------
  // Per-file time offsets

  /** A result's points lie within its own duration, in increasing time order. */
  ghost predicate TimesWithin(r: AnalysisResult) {
    && (forall k :: 0 <= k < |r.timeData| ==> 0.0 <= r.timeData[k].time < r.duration)
    && (forall j, k :: 0 <= j < k < |r.timeData| ==> r.timeData[j].time < r.timeData[k].time)
  }

  /** The start of a later file is at least the end of an earlier one. */
  lemma {:induction false} OffsetsGrow(rs: seq<AnalysisResult>, i: nat, k: nat)
    requires i < k <= |rs|
    requires forall r :: r in rs ==> 0.0 < r.duration
    ensures TotalDuration(rs[..i]) + rs[i].duration <= TotalDuration(rs[..k])
    decreases k
  {
    assert rs[..k][..k - 1] == rs[..k - 1];
    if i < k - 1 {
      OffsetsGrow(rs, i, k - 1);
      assert rs[k - 1] in rs;
    } else {
      assert rs[..i + 1][..i] == rs[..i];
    }
  }

  /**
   * With each file's points inside its own duration and in order, the
   * plotted times `offset + time` grow strictly along the points of a file
   * and from one file to the next.
   */
  lemma PlotTimesIncreasing(rs: seq<AnalysisResult>, i: nat, j: nat, i2: nat, j2: nat)
    requires forall r :: r in rs ==> 0.0 < r.duration && TimesWithin(r)
    requires i < |rs| && j < |rs[i].timeData| && i2 < |rs| && j2 < |rs[i2].timeData|
    requires i < i2 || (i == i2 && j < j2)
    ensures TotalDuration(rs[..i]) + rs[i].timeData[j].time < TotalDuration(rs[..i2]) + rs[i2].timeData[j2].time
  {
    assert rs[i] in rs && rs[i2] in rs;
    if i < i2 {
      OffsetsGrow(rs, i, i2);
    }
  }

  /** Every result of a batch built by the analyser has a positive duration and its points inside it, in order. */
  lemma BatchTimesWithin(m: Math, data: AnalysisData, files: seq<AudioFile>, windowSeconds: real)
    requires BuiltFrom(m, data, files, windowSeconds)
    ensures forall r :: r in data.results ==> 0.0 < r.duration && TimesWithin(r)
  {
    forall r | r in data.results
      ensures 0.0 < r.duration && TimesWithin(r)
    {
      var i :| 0 <= i < |data.results| && data.results[i] == r;
      DescribedTimesWithin(m, r, files[i].name, files[i].decoded.value, windowSeconds);
    }
  }

  lemma DescribedTimesWithin(m: Math, r: AnalysisResult, name: string, buffer: AudioBuffer, windowSeconds: real)
    requires Describes(m, r, name, buffer, windowSeconds)
    ensures 0.0 < r.duration && TimesWithin(r)
  {
    TimeDataWithin(m, buffer.channelData, buffer.sampleRate, windowSeconds);
  }

  /** The times of a time series lie in `[0, n / sampleRate)`, in increasing order. */
  lemma TimeDataWithin(m: Math, xs: seq<real>, sampleRate: nat, windowSeconds: real)
    requires sampleRate >= MinSampleRate
    ensures var ts := TimeData(m, xs, sampleRate, windowSeconds);
      && (forall k :: 0 <= k < |ts| ==> 0.0 <= ts[k].time < |xs| as real / sampleRate as real)
      && (forall j, k :: 0 <= j < k < |ts| ==> ts[j].time < ts[k].time)
  {
    var ts := TimeData(m, xs, sampleRate, windowSeconds);
    forall k | 0 <= k < |ts|
      ensures 0.0 <= ts[k].time < |xs| as real / sampleRate as real
    {
      TimeWithin(m, xs, sampleRate, windowSeconds, k);
    }
    forall j, k | 0 <= j < k < |ts|
      ensures ts[j].time < ts[k].time
    {
      TimesIncreasing(m, xs, sampleRate, windowSeconds, j, k);
    }
  }

  lemma TimeWithin(m: Math, xs: seq<real>, sampleRate: nat, windowSeconds: real, k: nat)
    requires sampleRate >= MinSampleRate
    requires k < PointCount(|xs|, sampleRate)
    ensures var t := TimeData(m, xs, sampleRate, windowSeconds)[k].time;
      0.0 <= t < |xs| as real / sampleRate as real
  {
    var offset := k * StepSize(sampleRate);
    TimeDataPoint(m, xs, sampleRate, windowSeconds, k);
    assert TimeData(m, xs, sampleRate, windowSeconds)[k].time == offset as real / sampleRate as real;
    OffsetTimeWithin(offset, |xs|, sampleRate);
  }

  /** A sample offset below `n` falls at a time in `[0, n / sampleRate)`. */
  lemma OffsetTimeWithin(offset: nat, n: nat, sampleRate: nat)
    requires offset < n && 0 < sampleRate
    ensures 0.0 <= offset as real / sampleRate as real < n as real / sampleRate as real
  {
    NonNegativeQuotient(offset as real, sampleRate as real);
    QuotientLess(offset as real, n as real, sampleRate as real);
  }

  lemma NonNegativeQuotient(a: real, b: real)
    requires 0.0 <= a && 0.0 < b
    ensures 0.0 <= a / b
  {
  }

  // ---------------------------------------------------------------------
  // Amplitude labels

  /** `t * d` in JavaScript for a non-negative `t`: zero times an infinity is `NaN`. */
  function ScaleNum(t: real, d: Num): Num
    requires 0.0 <= t
  {
    match d
    case Finite(v) => Finite(t * v)
    case PosInfinity => if t == 0.0 then NotANumber else PosInfinity
    case NegInfinity => if t == 0.0 then NotANumber else NegInfinity
    case NotANumber => NotANumber
  }

  /** `a - d` in JavaScript, with silence as `-Infinity`. */
  function SubtractNum(a: Level, d: Num): Num {
    match (a, d)
    case (_, NotANumber) => NotANumber
    case (Db(x), Finite(v)) => Finite(x - v)
    case (Db(_), PosInfinity) => NegInfinity
    case (Db(_), NegInfinity) => PosInfinity
    case (Silence, Finite(_)) => NegInfinity
    case (Silence, PosInfinity) => NegInfinity
    case (Silence, NegInfinity) => NotANumber
  }

  const AmplitudeSteps: nat := 8

  /**
   * The value of the `i`-th amplitude label, top to bottom:
   * `maxPeakDb - (i / 8) * (maxPeakDb - minLufs)`, or 0 without data.
   */
  function AmplitudeLabel(i: nat, summary: Option<Summary>): Num {
    match summary
    case None => Finite(0.0)
    case Some(s) =>
      SubtractNum(s.maxPeakDb, ScaleNum(i as real / AmplitudeSteps as real, LevelDifference(s.maxPeakDb, s.minLufs)))
  }

  /**
   * With finite levels the labels step evenly from the maximum peak at the
   * top to the minimum loudness at the bottom, and they never go up when
   * the peak is the larger.
   */
  lemma AmplitudeLabelsInterpolate(s: Summary, i: nat)
    requires s.maxPeakDb.Db? && s.minLufs.Db?
    ensures AmplitudeLabel(0, Some(s)) == Finite(s.maxPeakDb.db)
    ensures AmplitudeLabel(AmplitudeSteps, Some(s)) == Finite(s.minLufs.db)
    ensures AmplitudeLabel(i, Some(s)).Finite? && AmplitudeLabel(i + 1, Some(s)).Finite?
    ensures AmplitudeLabel(i, Some(s)).v - AmplitudeLabel(i + 1, Some(s)).v == (s.maxPeakDb.db - s.minLufs.db) / 8.0
    ensures s.minLufs.db <= s.maxPeakDb.db ==> AmplitudeLabel(i + 1, Some(s)).v <= AmplitudeLabel(i, Some(s)).v
  {
    var a := s.maxPeakDb.db;
    var b := s.minLufs.db;
    StepDifference(a, b, i as real);
  }

  lemma StepDifference(a: real, b: real, i: real)
    ensures (a - (i / 8.0) * (a - b)) - (a - ((i + 1.0) / 8.0) * (a - b)) == (a - b) / 8.0
  {
  }

  /**
   * Silence in the summary leaves the labels without finite values: a
   * silent maximum peak makes every label `NaN`; a silent minimum loudness
   * under a finite peak makes the top label `NaN` and every other one
   * `-Infinity`.
   */
  lemma AmplitudeLabelsWithSilence(s: Summary, i: nat)
    ensures s.maxPeakDb.Silence? ==> AmplitudeLabel(i, Some(s)) == NotANumber
    ensures s.maxPeakDb.Db? && s.minLufs.Silence? ==>
      AmplitudeLabel(i, Some(s)) == if i == 0 then NotANumber else NegInfinity
  {
  }

  /** Without data every label is 0. */
  lemma AmplitudeLabelsWithoutData(i: nat)
    ensures AmplitudeLabel(i, None) == Finite(0.0)
  {
  }
}
