/**
 * The sliding-window time series of `generateTimeData` and the band series of
 * `calculateFrequencyBandsForResult`. Both walk the buffer on a grid of
 * `floor(0.1 * sampleRate)` samples; at each grid index `start` they measure
 * windows that begin at `start` and are clamped to the end of the buffer.
 * Sample rates are whole numbers of hertz, so `floor(0.1 * sampleRate)` is
 * `sampleRate / 10` and the step is at least one sample once the rate is at
 * least 10 Hz.
 */
module TimeSeries {
  import opened RealMath
  import opened ScalarMetrics
  import opened Loudness
  import opened SpectralBalance
  import opened FrequencyBands

  /** One point of the time series: dB levels, a loudness value and a balance in [-1, 1]. */
  datatype TimePoint = TimePoint(time: real, peak: Level, rms: Level, lufs: Level, spectralBalance: real)

  /** One point of the band series: the three band levels in dB. */
  datatype BandPoint = BandPoint(time: real, lowBandRms: Level, midBandRms: Level, highBandRms: Level)

  /** The lowest sample rate for which the 100 ms step is at least one sample. */
  const MinSampleRate: nat := 10

  /** The loudness window of the band series, in seconds. */
  const BandWindowSeconds: real := 3.0

  /** `floor(sampleRate * 0.1)`: the grid step and also the peak/RMS window length. */
  function StepSize(sampleRate: nat): (step: nat)
    ensures sampleRate >= MinSampleRate ==> step >= 1
    ensures 10 * step <= sampleRate < 10 * step + 10
  {
    sampleRate / 10
  }

  /**
   * `Math.floor(sampleRate * windowSeconds)`: the loudness window length in
   * samples. It is negative for a negative window; `LoudnessWindow` says what
   * the slice then holds.
   */
  function LoudnessWindowSamples(sampleRate: nat, windowSeconds: real): (w: int)
    ensures w as real <= sampleRate as real * windowSeconds < w as real + 1.0
  {
    (sampleRate as real * windowSeconds).Floor
  }

  function Min(a: int, b: int): int { if a < b then a else b }

  /** `slice(start, min(start + len, n))`: the window of `len` samples at `start`, clamped to the buffer. */
  function Window(xs: seq<real>, start: nat, len: nat): (w: seq<real>)
    requires start <= |xs|
    ensures |w| == Min(len, |xs| - start)
  {
    xs[start..Min(start + len, |xs|)]
  }

  /**
   * JavaScript's `xs.slice(begin, end)` for a `begin` inside the buffer and an
   * `end` not past it: a negative `end` counts back from the end of the
   * buffer, stopping at 0, and a slice that ends at or before `begin` is empty.
   */
  function Slice(xs: seq<real>, begin: nat, end: int): seq<real>
    requires begin <= |xs| && end <= |xs|
  {
    var e := if end >= 0 then end else if |xs| + end > 0 then |xs| + end else 0;
    if e <= begin then [] else xs[begin..e]
  }

  /**
   * `slice(start, min(start + len, n))` for a loudness window of `len`
   * samples, where `len` may be negative. A window of no negative length is
   * the clamped `Window`.
   */
  function LoudnessWindow(xs: seq<real>, start: nat, len: int): (w: seq<real>)
    requires start <= |xs|
    ensures 0 <= len ==> w == Window(xs, start, len)
  {
    Slice(xs, start, Min(start + len, |xs|))
  }

  /**
   * A negative loudness window wraps around: when `start + len` is negative
   * the slice runs from `start` to `len` samples before the end of the buffer
   * moved back by `start`; otherwise it is empty.
   */
  lemma NegativeWindowWrapsAround(xs: seq<real>, start: nat, len: int)
    requires start <= |xs| && len < 0
    ensures start + len < 0 && 0 < |xs| + len ==> LoudnessWindow(xs, start, len) == xs[start..|xs| + start + len]
    ensures !(start + len < 0 && 0 < |xs| + len) ==> LoudnessWindow(xs, start, len) == []
  {
  }

  /** Seconds since the start of the buffer of the sample at `index`. */
  function TimeOf(index: nat, sampleRate: nat): real
    requires sampleRate > 0
  {
    index as real / sampleRate as real
  }

  /** The time-series point measured at grid index `start`. */
  function PointAt(m: Math, xs: seq<real>, sampleRate: nat, lufsWindow: int, start: nat): TimePoint
    requires sampleRate >= MinSampleRate && start < |xs|
  {
    var peakWindow := Window(xs, start, StepSize(sampleRate));
    var lufsWindowData := LoudnessWindow(xs, start, lufsWindow);
    TimePoint(TimeOf(start, sampleRate), AmplitudeToDb(m, Peak(peakWindow)), AmplitudeToDb(m, Rms(m, peakWindow)),
              WindowLufs(m, lufsWindowData), Balance(lufsWindowData))
  }

  /** The `k`-th grid index, `k * step`, reached by `k` steps from index 0. */
  function GridIndex(k: nat, step: nat): nat {
    if k == 0 then 0 else GridIndex(k - 1, step) + step
  }

  /** The number of grid indices `start`, `start + step`, ... below `n`. */
  function CountFrom(n: nat, step: nat, start: nat): nat
    requires step >= 1
    decreases n - start
  {
    if start >= n then 0 else 1 + CountFrom(n, step, start + step)
  }

  /** The number of points of a buffer of `n` samples: one per grid index below `n`. */
  function PointCount(n: nat, sampleRate: nat): nat
    requires sampleRate >= MinSampleRate
  {
    CountFrom(n, StepSize(sampleRate), 0)
  }

  /**
   * The first `k` values of `f` on the grid: value `j` is `f` at the `j`-th
   * grid index. Both series are built this way.
   */
  function Sampled<P>(f: nat -> P, step: nat, k: nat): (r: seq<P>)
    ensures |r| == k
  {
    if k == 0 then [] else Sampled(f, step, k - 1) + [f(GridIndex(k - 1, step))]
  }

  /**
   * `PointAt` as a function of the grid index. Indices past the end, which
   * no walk reaches, give a silent placeholder.
   */
  function PointFn(m: Math, xs: seq<real>, sampleRate: nat, lufsWindow: int): nat -> TimePoint
    requires sampleRate >= MinSampleRate
  {
    (start: nat) =>
      if start < |xs| then PointAt(m, xs, sampleRate, lufsWindow, start)
      else TimePoint(TimeOf(start, sampleRate), Silence, Silence, Silence, 0.0)
  }

  /** The whole time series of a buffer: one point per grid index inside the buffer. */
  function TimeData(m: Math, xs: seq<real>, sampleRate: nat, windowSeconds: real): (r: seq<TimePoint>)
    requires sampleRate >= MinSampleRate
    ensures |r| == PointCount(|xs|, sampleRate)
  {
    Sampled(PointFn(m, xs, sampleRate, LoudnessWindowSamples(sampleRate, windowSeconds)), StepSize(sampleRate), PointCount(|xs|, sampleRate))
  }

  /**
   * `f` gives the time-series point at every index inside the buffer. The
   * walk below reasons about such an `f` rather than about `PointFn` itself,
   * so that a point is unfolded only where it is measured.
   */
  ghost predicate MeasuresPoints(f: nat -> TimePoint, m: Math, xs: seq<real>, sampleRate: nat, lufsWindow: int)
    requires sampleRate >= MinSampleRate
  {
    forall start: nat {:trigger PointAt(m, xs, sampleRate, lufsWindow, start)} ::
      start < |xs| ==> f(start) == PointAt(m, xs, sampleRate, lufsWindow, start)
  }

  lemma PointFnMeasures(m: Math, xs: seq<real>, sampleRate: nat, lufsWindow: int)
    requires sampleRate >= MinSampleRate
    ensures MeasuresPoints(PointFn(m, xs, sampleRate, lufsWindow), m, xs, sampleRate, lufsWindow)
  {
  }

  /** The value `j` of a sampled series is `f` at the `j`-th grid index. */
  lemma {:induction false} SampledAt<P>(f: nat -> P, step: nat, k: nat, j: nat)
    requires j < k
    ensures Sampled(f, step, k)[j] == f(GridIndex(j, step))
  {
    if j < k - 1 {
      SampledAt(f, step, k - 1, j);
    }
  }

  /** Two functions that agree inside a buffer of `n` samples sample to the same series on its grid. */
  lemma {:induction false} SampledAgree<P>(f: nat -> P, g: nat -> P, step: nat, n: nat, k: nat)
    requires step >= 1 && k <= CountFrom(n, step, 0)
    requires forall s: nat :: s < n ==> f(s) == g(s)
    ensures Sampled(f, step, k) == Sampled(g, step, k)
  {
    if k > 0 {
      SampledAgree(f, g, step, n, k - 1);
      GridInside(n, step, 0, k - 1);
    }
  }

  /** A walk that measured every point with an `f` that measures points built the time series. */
  lemma WalkIsTimeData(m: Math, xs: seq<real>, sampleRate: nat, windowSeconds: real, f: nat -> TimePoint, timeData: seq<TimePoint>)
    requires sampleRate >= MinSampleRate
    requires MeasuresPoints(f, m, xs, sampleRate, LoudnessWindowSamples(sampleRate, windowSeconds))
    requires timeData == Sampled(f, StepSize(sampleRate), PointCount(|xs|, sampleRate))
    ensures timeData == TimeData(m, xs, sampleRate, windowSeconds)
  {
    var w := LoudnessWindowSamples(sampleRate, windowSeconds);
    var g := PointFn(m, xs, sampleRate, w);
    forall s: nat | s < |xs|
      ensures f(s) == g(s)
    {
      assert g(s) == PointAt(m, xs, sampleRate, w, s);
    }
    SampledAgree(f, g, StepSize(sampleRate), |xs|, PointCount(|xs|, sampleRate));
  }

  /** Moving the time forward by one step moves it to the next grid index. */
  lemma TimeStep(index: nat, step: nat, sampleRate: nat)
    requires sampleRate > 0
    ensures TimeOf(index, sampleRate) + step as real / sampleRate as real == TimeOf(index + step, sampleRate)
  {
  }

  /** The point at `start`, in terms of the values the walk measures on its windows. */
  lemma PointAtMeasured(m: Math, xs: seq<real>, sampleRate: nat, lufsWindow: int, start: nat,
                        peak: real, rms: real, lufs: Level, balance: real)
    requires sampleRate >= MinSampleRate && start < |xs|
    requires peak == Peak(Window(xs, start, StepSize(sampleRate)))
    requires rms == Rms(m, Window(xs, start, StepSize(sampleRate)))
    requires lufs == WindowLufs(m, LoudnessWindow(xs, start, lufsWindow))
    requires balance == Balance(LoudnessWindow(xs, start, lufsWindow))
    ensures PointAt(m, xs, sampleRate, lufsWindow, start)
         == TimePoint(TimeOf(start, sampleRate), AmplitudeToDb(m, peak), AmplitudeToDb(m, rms), lufs, balance)
  {
  }

  /**
   * The body of the walk in `generateTimeData`: the peak and RMS of the
   * step-long window and the loudness and balance of the loudness window at
   * `currentIndex`, stamped with `currentTime`.
   */
  method MeasurePoint(m: Math, xs: seq<real>, sampleRate: nat, lufsWindowSamples: int, currentIndex: nat, currentTime: real,
                      ghost f: nat -> TimePoint)
    returns (point: TimePoint)
    requires sampleRate >= MinSampleRate && currentIndex < |xs|
    requires currentTime == TimeOf(currentIndex, sampleRate)
    requires MeasuresPoints(f, m, xs, sampleRate, lufsWindowSamples)
    ensures point == f(currentIndex)
  {
    var peakWindow := Window(xs, currentIndex, StepSize(sampleRate));
    var peak := CalculatePeakAmplitude(peakWindow);
    var peakDb := AmplitudeToDb(m, peak);
    var rms := CalculateRms(m, peakWindow);
    var rmsDb := AmplitudeToDb(m, rms);
    var lufsWindow := LoudnessWindow(xs, currentIndex, lufsWindowSamples);
    var lufs := WindowLufs(m, lufsWindow);
    var spectralBalance := CalculateSpectralBalance(lufsWindow);
    PointAtMeasured(m, xs, sampleRate, lufsWindowSamples, currentIndex, peak, rms, lufs, spectralBalance);
    point := TimePoint(currentTime, peakDb, rmsDb, lufs, spectralBalance);
  }

  /**
   * `generateTimeData`: walks the grid, measuring the peak/RMS window and the
   * loudness window at each index, and stops once the index passes the end.
   */
  method GenerateTimeData(m: Math, xs: seq<real>, sampleRate: nat, windowSeconds: real) returns (timeData: seq<TimePoint>)
    requires sampleRate >= MinSampleRate
    ensures timeData == TimeData(m, xs, sampleRate, windowSeconds)
  {
    timeData := [];
    var lufsWindowSamples := LoudnessWindowSamples(sampleRate, windowSeconds);
    var stepSize := StepSize(sampleRate);
    var currentTime := 0.0;
    var currentIndex := 0;
    PointFnMeasures(m, xs, sampleRate, lufsWindowSamples);
    ghost var f :| MeasuresPoints(f, m, xs, sampleRate, lufsWindowSamples);
    ghost var k := 0;
    while currentIndex < |xs|
      invariant currentIndex == GridIndex(k, stepSize)
      invariant currentTime == TimeOf(currentIndex, sampleRate)
      invariant k + CountFrom(|xs|, stepSize, currentIndex) == PointCount(|xs|, sampleRate)
      invariant timeData == Sampled(f, stepSize, k)
    {
      var point := MeasurePoint(m, xs, sampleRate, lufsWindowSamples, currentIndex, currentTime, f);
      timeData := timeData + [point];
      TimeStep(currentIndex, stepSize, sampleRate);
      currentTime := currentTime + stepSize as real / sampleRate as real;
      currentIndex := currentIndex + stepSize;
      k := k + 1;
      if currentIndex >= |xs| {
        break;
      }
    }
    WalkIsTimeData(m, xs, sampleRate, windowSeconds, f, timeData);
  }

  /** `ceil(a / d)` for a positive divisor. */
  function CeilDiv(a: nat, d: nat): nat
    requires d > 0
  {
    (a + d - 1) / d
  }

  lemma DivisionExact(a: int, d: int, q: int)
    requires d > 0 && q * d <= a < q * d + d
    ensures a / d == q
  {
    var r := a / d;
    assert a == r * d + a % d;
    if r < q {
      assert (r + 1) * d <= q * d by { MultiplyAtMost(r + 1, q, d); }
    } else if r > q {
      assert (q + 1) * d <= r * d by { MultiplyAtMost(q + 1, r, d); }
    }
  }

  lemma MultiplyAtMost(a: int, b: int, d: int)
    requires a <= b && 0 < d
    ensures a * d <= b * d
  {
    assert b * d - a * d == (b - a) * d;
  }

  /** One more step past a remaining length above the step adds exactly one point. */
  lemma CeilDivStep(a: nat, d: nat)
    requires d > 0
    ensures a == 0 ==> CeilDiv(a, d) == 0
    ensures 0 < a <= d ==> CeilDiv(a, d) == 1
    ensures a > d ==> CeilDiv(a, d) == 1 + CeilDiv(a - d, d)
  {
    if a == 0 {
      DivisionExact(d - 1, d, 0);
    } else if a <= d {
      DivisionExact(a + d - 1, d, 1);
    } else {
      var q := CeilDiv(a - d, d);
      assert q * d <= a - d + d - 1 < q * d + d;
      DivisionExact(a + d - 1, d, q + 1);
    }
  }

  /** The `k`-th grid index is `k * step`. */
  lemma {:induction false} GridIndexIsProduct(k: nat, step: nat)
    ensures GridIndex(k, step) == k * step
  {
    if k > 0 {
      GridIndexIsProduct(k - 1, step);
      assert (k - 1) * step + step == k * step;
    }
  }

  /** The grid indices from `start` number `ceil((n - start) / step)`. */
  lemma {:induction false} CountFromIsCeiling(n: nat, step: nat, start: nat)
    requires step >= 1
    ensures CountFrom(n, step, start) == if start >= n then 0 else CeilDiv(n - start, step)
    decreases n - start
  {
    if start < n {
      CountFromIsCeiling(n, step, start + step);
      CeilDivStep(n - start, step);
    }
  }

  /** Grid index `k` from `start` lies inside a buffer of `n` samples when `k` is below the count from `start`. */
  lemma {:induction false} GridInside(n: nat, step: nat, start: nat, k: nat)
    requires step >= 1
    ensures k < CountFrom(n, step, start) ==> start + GridIndex(k, step) < n
    decreases k
  {
    if k > 0 && k < CountFrom(n, step, start) {
      GridInside(n, step, start + step, k - 1);
      GridShift(step, k - 1);
    }
  }

  /** `k + 1` steps are one step followed by `k` steps. */
  lemma {:induction false} GridShift(step: nat, k: nat)
    ensures GridIndex(k + 1, step) == step + GridIndex(k, step)
  {
    if k > 0 {
      GridShift(step, k - 1);
    }
  }

  /**
   * The series has `ceil(n / step)` points: none for an empty buffer and
   * exactly one when the buffer is no longer than one step.
   */
  lemma TimeDataLength(n: nat, sampleRate: nat)
    requires sampleRate >= MinSampleRate
    ensures PointCount(n, sampleRate) == CeilDiv(n, StepSize(sampleRate))
    ensures n == 0 ==> PointCount(n, sampleRate) == 0
    ensures 0 < n <= StepSize(sampleRate) ==> PointCount(n, sampleRate) == 1
  {
    CountFromIsCeiling(n, StepSize(sampleRate), 0);
    CeilDivStep(n, StepSize(sampleRate));
  }

  /** Point `k` sits at grid index `k * step`, inside the buffer, and is stamped `k * step / sampleRate` seconds. */
  lemma TimeDataPoint(m: Math, xs: seq<real>, sampleRate: nat, windowSeconds: real, k: nat)
    requires sampleRate >= MinSampleRate
    requires k < PointCount(|xs|, sampleRate)
    ensures k * StepSize(sampleRate) < |xs|
    ensures TimeData(m, xs, sampleRate, windowSeconds)[k].time == (k * StepSize(sampleRate)) as real / sampleRate as real
  {
    var w := LoudnessWindowSamples(sampleRate, windowSeconds);
    GridInside(|xs|, StepSize(sampleRate), 0, k);
    SampledAt(PointFn(m, xs, sampleRate, w), StepSize(sampleRate), PointCount(|xs|, sampleRate), k);
    GridIndexIsProduct(k, StepSize(sampleRate));
  }

  /**
   * The peak window of a grid index inside the buffer is never empty. The
   * loudness window is non-empty for a window of at least one sample, empty
   * for one of less than one sample, and for a negative window non-empty
   * exactly when it wraps around (`NegativeWindowWrapsAround`).
   */
  lemma WindowsNonEmpty(xs: seq<real>, sampleRate: nat, windowSeconds: real, start: nat)
    requires sampleRate >= MinSampleRate && start < |xs|
    ensures 1 <= |Window(xs, start, StepSize(sampleRate))| <= StepSize(sampleRate)
    ensures var w := LoudnessWindowSamples(sampleRate, windowSeconds);
      var nonEmpty := |LoudnessWindow(xs, start, w)| > 0;
      nonEmpty <==> sampleRate as real * windowSeconds >= 1.0 || (start + w < 0 && 0 < |xs| + w)
  {
    var w := LoudnessWindowSamples(sampleRate, windowSeconds);
    if w < 0 {
      NegativeWindowWrapsAround(xs, start, w);
    }
  }

  /** Point times grow strictly with the index and stay below the buffer's duration. */
  lemma TimesIncreasing(m: Math, xs: seq<real>, sampleRate: nat, windowSeconds: real, j: nat, k: nat)
    requires sampleRate >= MinSampleRate
    requires j < k < PointCount(|xs|, sampleRate)
    ensures TimeData(m, xs, sampleRate, windowSeconds)[j].time < TimeData(m, xs, sampleRate, windowSeconds)[k].time
    ensures TimeData(m, xs, sampleRate, windowSeconds)[k].time < |xs| as real / sampleRate as real
  {
    TimeDataPoint(m, xs, sampleRate, windowSeconds, j);
    TimeDataPoint(m, xs, sampleRate, windowSeconds, k);
    GridTimesIncreasing(|xs|, StepSize(sampleRate), sampleRate, j, k);
  }

  lemma GridTimesIncreasing(n: nat, step: nat, sampleRate: nat, j: nat, k: nat)
    requires step >= 1 && sampleRate > 0 && j < k && k * step < n
    ensures (j * step) as real / sampleRate as real < (k * step) as real / sampleRate as real < n as real / sampleRate as real
  {
    MultiplyAtMost(j + 1, k, step);
    assert (j + 1) * step == j * step + step;
    DivideLess((j * step) as real, (k * step) as real, sampleRate as real);
    DivideLess((k * step) as real, n as real, sampleRate as real);
  }

  lemma DivideLess(a: real, b: real, c: real)
    requires a < b && 0.0 < c
    ensures a / c < b / c
  {
  }

  /** The peak/RMS windows of successive grid indices tile the rest of the buffer. */
  lemma {:induction false} PeakWindowsTile(xs: seq<real>, step: nat, start: nat)
    requires step >= 1 && start <= |xs|
    ensures Tiles(xs, step, start) == xs[start..]
    decreases |xs| - start
  {
    if start < |xs| {
      var next := Min(start + step, |xs|);
      PeakWindowsTile(xs, step, next);
      assert xs[start..next] + xs[next..] == xs[start..];
    }
  }

  /** The concatenation of the step-long windows from `start` to the end of the buffer. */
  function Tiles(xs: seq<real>, step: nat, start: nat): seq<real>
    requires step >= 1 && start <= |xs|
    decreases |xs| - start
  {
    if start == |xs| then []
    else Window(xs, start, step) + Tiles(xs, step, Min(start + step, |xs|))
  }

  /** Every point's RMS level is at most its peak level. */
  lemma RmsAtMostPeakLevel(m: Math, xs: seq<real>, sampleRate: nat, lufsWindow: int, start: nat)
    requires Lawful(m) && sampleRate >= MinSampleRate && start < |xs|
    ensures PointAt(m, xs, sampleRate, lufsWindow, start).rms.AtMost(PointAt(m, xs, sampleRate, lufsWindow, start).peak)
  {
    var w := Window(xs, start, StepSize(sampleRate));
    RmsAtMostPeak(m, w);
    DbMonotone(m, Rms(m, w), Peak(w));
  }

  /** The band-series point at grid index `start`, from the band estimate of its loudness window. */
  function BandPointAt(m: Math, xs: seq<real>, sampleRate: nat, start: nat): (p: BandPoint)
    requires sampleRate >= MinSampleRate && start < |xs|
    ensures p.lowBandRms.Db? && p.midBandRms.Db? && p.highBandRms.Db?
  {
    var bands := Bands(m, LoudnessWindow(xs, start, LoudnessWindowSamples(sampleRate, BandWindowSeconds)));
    BandPoint(TimeOf(start, sampleRate), AmplitudeToDb(m, bands.low), AmplitudeToDb(m, bands.mid), AmplitudeToDb(m, bands.high))
  }

  /** `BandPointAt` as a function of the grid index, with a silent placeholder past the end of the buffer. */
  function BandFn(m: Math, xs: seq<real>, sampleRate: nat): nat -> BandPoint
    requires sampleRate >= MinSampleRate
  {
    (start: nat) =>
      if start < |xs| then BandPointAt(m, xs, sampleRate, start)
      else BandPoint(TimeOf(start, sampleRate), Silence, Silence, Silence)
  }

  /** The whole band series of a buffer, on the time series' grid with a 3-second loudness window. */
  function BandSeries(m: Math, xs: seq<real>, sampleRate: nat): (r: seq<BandPoint>)
    requires sampleRate >= MinSampleRate
    ensures |r| == PointCount(|xs|, sampleRate)
  {
    Sampled(BandFn(m, xs, sampleRate), StepSize(sampleRate), PointCount(|xs|, sampleRate))
  }

  /** `f` gives the band-series point at every index inside the buffer (compare `MeasuresPoints`). */
  ghost predicate MeasuresBands(f: nat -> BandPoint, m: Math, xs: seq<real>, sampleRate: nat)
    requires sampleRate >= MinSampleRate
  {
    forall start: nat {:trigger BandPointAt(m, xs, sampleRate, start)} ::
      start < |xs| ==> f(start) == BandPointAt(m, xs, sampleRate, start)
  }

  lemma BandFnMeasures(m: Math, xs: seq<real>, sampleRate: nat)
    requires sampleRate >= MinSampleRate
    ensures MeasuresBands(BandFn(m, xs, sampleRate), m, xs, sampleRate)
  {
  }

  /**
   * The body of the walk in `calculateFrequencyBandsForResult`: the band
   * estimate of the loudness window at `currentIndex`, each band in dB,
   * stamped with `currentTime`.
   */
  method MeasureBandPoint(m: Math, xs: seq<real>, sampleRate: nat, lufsWindowSamples: int, currentIndex: nat, currentTime: real,
                          ghost f: nat -> BandPoint)
    returns (point: BandPoint)
    requires sampleRate >= MinSampleRate && currentIndex < |xs|
    requires lufsWindowSamples == LoudnessWindowSamples(sampleRate, BandWindowSeconds)
    requires currentTime == TimeOf(currentIndex, sampleRate)
    requires MeasuresBands(f, m, xs, sampleRate)
    ensures point == f(currentIndex)
  {
    var lufsWindow := LoudnessWindow(xs, currentIndex, lufsWindowSamples);
    var frequencyBands := CalculateFrequencyBandsSimple(m, lufsWindow);
    var lowBandRms := AmplitudeToDb(m, frequencyBands.low);
    var midBandRms := AmplitudeToDb(m, frequencyBands.mid);
    var highBandRms := AmplitudeToDb(m, frequencyBands.high);
    point := BandPoint(currentTime, lowBandRms, midBandRms, highBandRms);
    assert point == BandPointAt(m, xs, sampleRate, currentIndex);
  }

  /** A walk that measured every band point with an `f` that measures band points built the band series. */
  lemma WalkIsBandSeries(m: Math, xs: seq<real>, sampleRate: nat, f: nat -> BandPoint, bands: seq<BandPoint>)
    requires sampleRate >= MinSampleRate
    requires MeasuresBands(f, m, xs, sampleRate)
    requires bands == Sampled(f, StepSize(sampleRate), PointCount(|xs|, sampleRate))
    ensures bands == BandSeries(m, xs, sampleRate)
  {
    var g := BandFn(m, xs, sampleRate);
    forall s: nat | s < |xs|
      ensures f(s) == g(s)
    {
      assert g(s) == BandPointAt(m, xs, sampleRate, s);
    }
    SampledAgree(f, g, StepSize(sampleRate), |xs|, PointCount(|xs|, sampleRate));
  }

  /** The band series' loudness window is exactly three seconds of samples. */
  lemma BandWindowIsThreeSeconds(sampleRate: nat)
    ensures LoudnessWindowSamples(sampleRate, BandWindowSeconds) == 3 * sampleRate
  {
  }

  /** The band series has one point per time-series point, at the same times. */
  lemma BandSeriesMatchesTimeData(m: Math, xs: seq<real>, sampleRate: nat, windowSeconds: real)
    requires sampleRate >= MinSampleRate
    ensures |BandSeries(m, xs, sampleRate)| == |TimeData(m, xs, sampleRate, windowSeconds)|
    ensures forall k :: 0 <= k < |BandSeries(m, xs, sampleRate)| ==>
      BandSeries(m, xs, sampleRate)[k].time == TimeData(m, xs, sampleRate, windowSeconds)[k].time
  {
    var step, n := StepSize(sampleRate), PointCount(|xs|, sampleRate);
    var w := LoudnessWindowSamples(sampleRate, windowSeconds);
    forall k | 0 <= k < n
      ensures BandSeries(m, xs, sampleRate)[k].time == TimeData(m, xs, sampleRate, windowSeconds)[k].time
    {
      GridInside(|xs|, step, 0, k);
      SampledAt(BandFn(m, xs, sampleRate), step, n, k);
      SampledAt(PointFn(m, xs, sampleRate, w), step, n, k);
    }
  }
}
