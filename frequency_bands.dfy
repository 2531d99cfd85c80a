/**
 * `calculateFrequencyBandsSimple`: a heuristic low/mid/high split of a
 * window's energy, not a filter bank. One of four fixed energy-split
 * profiles is chosen from the window's peak and its mean sample-to-sample
 * change, each band's share of the energy becomes an RMS value, and that
 * value is floored so that its decibel level is always finite.
 */
module FrequencyBands {
  import opened Wrappers
  import opened RealMath
  import opened ScalarMetrics

  /** The four energy-split profiles, named by the shares they give low/mid/high. */
  datatype Profile = Split70_20_10 | Split10_30_60 | Split20_60_20 | Split60_30_10

  datatype Shares = Shares(low: real, mid: real, high: real)

  /** The band levels of one window (linear RMS values). */
  datatype BandLevels = BandLevels(low: real, mid: real, high: real)

  const PeakThreshold: real := 0.05
  const FastChange: real := 0.01
  const ModerateChange: real := 0.005
  /** Energy given to each band of a window whose total energy is zero. */
  const FloorEnergy: real := 0.001
  /** No band RMS is reported below this value. */
  const MinRms: real := 0.0001

  function SharesOf(p: Profile): (s: Shares)
    ensures s.low + s.mid + s.high == 1.0
    ensures 0.0 < s.low && 0.0 < s.mid && 0.0 < s.high
  {
    match p
    case Split70_20_10 => Shares(0.7, 0.2, 0.1)
    case Split10_30_60 => Shares(0.1, 0.3, 0.6)
    case Split20_60_20 => Shares(0.2, 0.6, 0.2)
    case Split60_30_10 => Shares(0.6, 0.3, 0.1)
  }

  /**
   * The profile, tested in priority order. The rate is `None` for a
   * one-sample window, where the source divides 0 by 0: a NaN fails both
   * rate comparisons.
   */
  function ProfileFor(peak: real, rate: Option<real>): Profile {
    if peak > PeakThreshold then Split70_20_10
    else if rate.Some? && rate.value > FastChange then Split10_30_60
    else if rate.Some? && rate.value > ModerateChange then Split20_60_20
    else Split60_30_10
  }

  /** Sum of `|x[i] - x[i-1]|` over consecutive samples. */
  function TotalChange(xs: seq<real>): (r: real)
    ensures 0.0 <= r
  {
    if |xs| <= 1 then 0.0
    else TotalChange(xs[..|xs| - 1]) + Abs(xs[|xs| - 1] - xs[|xs| - 2])
  }

  /** The mean sample-to-sample change; undefined (`None`) for a single sample. */
  function RateOfChange(xs: seq<real>): Option<real>
    requires |xs| > 0
  {
    if |xs| == 1 then None else Some(TotalChange(xs) / (|xs| - 1) as real)
  }

  /** The energy allotted to each band: the profile's shares of the total, or the floor energy when the total is zero. */
  function AllottedEnergy(xs: seq<real>): Shares
    requires |xs| > 0
  {
    var total := SumSquares(xs);
    if total == 0.0 then Shares(FloorEnergy, FloorEnergy, FloorEnergy)
    else
      var s := SharesOf(ProfileFor(Peak(xs), RateOfChange(xs)));
      Shares(total * s.low, total * s.mid, total * s.high)
  }

  function Max(a: real, b: real): real { if a < b then b else a }

  /** The band RMS values of a window; an empty window gets 0.001 for each band. */
  function Bands(m: Math, xs: seq<real>): (r: BandLevels)
    ensures |xs| == 0 ==> r == BandLevels(FloorEnergy, FloorEnergy, FloorEnergy)
    ensures r.low >= MinRms && r.mid >= MinRms && r.high >= MinRms
  {
    if |xs| == 0 then BandLevels(0.001, 0.001, 0.001)
    else
      var e := AllottedEnergy(xs);
      var n := |xs| as real;
      BandLevels(Max(m.sqrt(e.low / n), MinRms), Max(m.sqrt(e.mid / n), MinRms), Max(m.sqrt(e.high / n), MinRms))
  }

  /** What one more sample adds to each of the loop's three accumulators. */
  lemma ExtendPrefix(xs: seq<real>, i: nat)
    requires i < |xs|
    ensures SumSquares(xs[..i + 1]) == SumSquares(xs[..i]) + Square(xs[i])
    ensures Peak(xs[..i + 1]) == Max(Peak(xs[..i]), Abs(xs[i]))
    ensures TotalChange(xs[..i + 1]) == TotalChange(xs[..i]) + if i > 0 then Abs(xs[i] - xs[i - 1]) else 0.0
  {
    assert xs[..i + 1][..i] == xs[..i];
  }

  /**
   * `calculateFrequencyBandsSimple`: one loop measures the window's energy,
   * peak and summed change; then the profile is picked, the energy split and
   * each band's RMS floored.
   */
  method CalculateFrequencyBandsSimple(m: Math, xs: seq<real>) returns (bands: BandLevels)
    ensures bands == Bands(m, xs)
  {
    if |xs| == 0 {
      return BandLevels(0.001, 0.001, 0.001);
    }
    var totalEnergy, maxAmplitude, changeSum := 0.0, 0.0, 0.0;
    var i := 0;
    while i < |xs|
      invariant 0 <= i <= |xs|
      invariant totalEnergy == SumSquares(xs[..i])
      invariant maxAmplitude == Peak(xs[..i])
      invariant changeSum == TotalChange(xs[..i])
    {
      ExtendPrefix(xs, i);
      var sample := xs[i];
      var absSample := Abs(sample);
      totalEnergy := totalEnergy + Square(sample);
      maxAmplitude := Max(maxAmplitude, absSample);
      if i > 0 {
        changeSum := changeSum + Abs(sample - xs[i - 1]);
      }
      i := i + 1;
    }
    assert xs[..i] == xs;
    var rate := if |xs| == 1 then None else Some(changeSum / (|xs| - 1) as real);
    var lowEnergy, midEnergy, highEnergy;
    if maxAmplitude > 0.05 {
      lowEnergy, midEnergy, highEnergy := totalEnergy * 0.7, totalEnergy * 0.2, totalEnergy * 0.1;
    } else if rate.Some? && rate.value > 0.01 {
      lowEnergy, midEnergy, highEnergy := totalEnergy * 0.1, totalEnergy * 0.3, totalEnergy * 0.6;
    } else if rate.Some? && rate.value > 0.005 {
      lowEnergy, midEnergy, highEnergy := totalEnergy * 0.2, totalEnergy * 0.6, totalEnergy * 0.2;
    } else {
      lowEnergy, midEnergy, highEnergy := totalEnergy * 0.6, totalEnergy * 0.3, totalEnergy * 0.1;
    }
    if totalEnergy == 0.0 {
      lowEnergy, midEnergy, highEnergy := 0.001, 0.001, 0.001;
    }
    assert AllottedEnergy(xs) == Shares(lowEnergy, midEnergy, highEnergy);
    var n := |xs| as real;
    var lowRms := m.sqrt(lowEnergy / n);
    var midRms := m.sqrt(midEnergy / n);
    var highRms := m.sqrt(highEnergy / n);
    bands := BandLevels(Max(lowRms, MinRms), Max(midRms, MinRms), Max(highRms, MinRms));
  }

  /**
   * The profile is chosen in priority order: a loud peak wins over any rate,
   * a fast rate over a moderate one, and the 60/30/10 split is the fallback.
   */
  lemma ProfilePriority(peak: real, rate: Option<real>)
    ensures ProfileFor(peak, rate) == Split70_20_10 <==> peak > PeakThreshold
    ensures ProfileFor(peak, rate) == Split10_30_60 <==>
      peak <= PeakThreshold && rate.Some? && rate.value > FastChange
    ensures ProfileFor(peak, rate) == Split20_60_20 <==>
      peak <= PeakThreshold && rate.Some? && ModerateChange < rate.value <= FastChange
    ensures ProfileFor(peak, rate) == Split60_30_10 <==>
      peak <= PeakThreshold && (rate.None? || rate.value <= ModerateChange)
  {
  }

  /**
   * A one-sample window has no defined rate of change, so only its peak
   * matters: 70/20/10 when it is loud, otherwise 60/30/10.
   */
  lemma SingleSampleProfile(x: real)
    ensures ProfileFor(Peak([x]), RateOfChange([x])) ==
      if Abs(x) > PeakThreshold then Split70_20_10 else Split60_30_10
  {
    assert [x][..0] == [];
  }

  /**
   * The three band energies of a window with energy partition its total
   * energy; a silent window gets the floor energy in every band.
   */
  lemma AllottedEnergyPartition(xs: seq<real>)
    requires |xs| > 0
    ensures SumSquares(xs) != 0.0 ==>
      AllottedEnergy(xs).low + AllottedEnergy(xs).mid + AllottedEnergy(xs).high == SumSquares(xs)
    ensures SumSquares(xs) != 0.0 ==>
      0.0 < AllottedEnergy(xs).low && 0.0 < AllottedEnergy(xs).mid && 0.0 < AllottedEnergy(xs).high
    ensures SumSquares(xs) == 0.0 ==> AllottedEnergy(xs) == Shares(FloorEnergy, FloorEnergy, FloorEnergy)
  {
    var total := SumSquares(xs);
    if total != 0.0 {
      var s := SharesOf(ProfileFor(Peak(xs), RateOfChange(xs)));
      assert total * s.low + total * s.mid + total * s.high == total * (s.low + s.mid + s.high);
      ProductPositive(total, s.low);
      ProductPositive(total, s.mid);
      ProductPositive(total, s.high);
    }
  }

  /** The floor only ever raises a band: its square is at least the band's allotted mean energy. */
  lemma FlooredBandEnergy(m: Math, e: real, n: real)
    requires Lawful(m) && 0.0 <= e && 0.0 < n
    ensures Square(Max(m.sqrt(e / n), MinRms)) >= e / n
  {
    var v := e / n;
    assert 0.0 <= v;
    assert IsRoot(m, v);
    SquareMonotone(m.sqrt(v), Max(m.sqrt(v), MinRms));
  }

  /**
   * The band estimate never loses energy: the squares of the three band RMS
   * values add up to at least the window's mean square.
   */
  lemma BandsCoverMeanSquare(m: Math, xs: seq<real>)
    requires Lawful(m) && |xs| > 0
    ensures Square(Bands(m, xs).low) + Square(Bands(m, xs).mid) + Square(Bands(m, xs).high) >= MeanSquare(xs)
  {
    var e := AllottedEnergy(xs);
    var n := |xs| as real;
    AllottedEnergyPartition(xs);
    FlooredBandEnergy(m, e.low, n);
    FlooredBandEnergy(m, e.mid, n);
    FlooredBandEnergy(m, e.high, n);
    var b := Bands(m, xs);
    if SumSquares(xs) != 0.0 {
      CoverFromParts(b.low, b.mid, b.high, e.low, e.mid, e.high, SumSquares(xs), n);
    } else {
      SquareNonNegative(b.low);
      SquareNonNegative(b.mid);
      SquareNonNegative(b.high);
    }
  }

  lemma CoverFromParts(x: real, y: real, z: real, el: real, em: real, eh: real, total: real, n: real)
    requires 0.0 < n && el + em + eh == total
    requires Square(x) >= el / n && Square(y) >= em / n && Square(z) >= eh / n
    ensures Square(x) + Square(y) + Square(z) >= total / n
  {
    assert el / n + em / n + eh / n == total / n;
  }

  lemma SquareNonNegative(x: real)
    ensures Square(x) >= 0.0
  {
  }

  /** No band level of a window is ever the silence sentinel. */
  lemma BandLevelsAudible(m: Math, xs: seq<real>)
    ensures AmplitudeToDb(m, Bands(m, xs).low).Db?
    ensures AmplitudeToDb(m, Bands(m, xs).mid).Db?
    ensures AmplitudeToDb(m, Bands(m, xs).high).Db?
  {
  }
}
