/**
 * The `AudioAnalyzer` class: the batch over files with its progress reports,
 * the one mutable field holding the last batch, lookups into it, and the
 * band series computed on demand and cached on each result.
 */
module Analyzer {
  import opened Wrappers
  import opened RealMath
  import opened ScalarMetrics
  import opened Loudness
  import opened FrequencyBands
  import opened TimeSeries
  import opened Results
  import opened Summary

  /** The results of one batch and their summary. */
  datatype AnalysisData = AnalysisData(results: seq<AnalysisResult>, summary: Summary)

  const NoContextMessage: string := "AudioContext not available"

  /** The error `analyzeFiles` raises when the file `name` fails with `reason`. */
  function FailureMessage(name: string, reason: string): string {
    FailurePrefix + name + ": " + reason
  }

  const FailurePrefix: string := "Failed to analyze "

  /** The error message starts with the fixed prefix, then names the file, then gives the reason after a colon. */
  lemma FailureMessageParts(name: string, reason: string)
    ensures var msg := FailureMessage(name, reason);
      && |msg| == |FailurePrefix| + |name| + 2 + |reason|
      && msg[..|FailurePrefix|] == FailurePrefix
      && msg[|FailurePrefix|..|FailurePrefix| + |name|] == name
      && msg[|FailurePrefix| + |name|..|FailurePrefix| + |name| + 2] == ": "
      && msg[|FailurePrefix| + |name| + 2..] == reason
  {
  }

  /** The index of the first file that does not decode, or the number of files when all do. */
  function FirstFailure(files: seq<AudioFile>): (k: nat)
    ensures k <= |files|
    ensures forall j :: 0 <= j < k ==> files[j].decoded.Success?
    ensures k < |files| ==> files[k].decoded.Failure?
  {
    if |files| == 0 then 0
    else if files[0].decoded.Failure? then 0
    else 1 + FirstFailure(files[1..])
  }

  /**
   * The share of the progress bar one file of a batch of `n` is worth,
   * `100 / n`. JavaScript's `100 / 0` is never added, since an empty batch
   * runs no step, so it is written as 0 here.
   */
  function ProgressShare(n: nat): real {
    if n == 0 then 0.0 else 100.0 / n as real
  }

  /** The value reported after the `k`-th file: `k` additions of `share`, capped at 100. */
  function ProgressAfter(k: nat, share: real): real {
    var total := Scaled(k, share);
    if total < 100.0 then total else 100.0
  }

  /** The first `k` progress reports when each file adds `share`. */
  function ProgressReports(share: real, k: nat): (r: seq<real>)
    ensures |r| == k
  {
    if k == 0 then [] else ProgressReports(share, k - 1) + [ProgressAfter(k, share)]
  }

  /** `data` is a batch built from `files`: one fresh-state result per file, in order, and their summary. */
  ghost predicate BuiltFrom(m: Math, data: AnalysisData, files: seq<AudioFile>, windowSeconds: real)
    reads set r | r in data.results
  {
    && |data.results| == |files|
    && AnalyzedPrefix(m, data.results, files, windowSeconds)
    && (forall r :: r in data.results ==> r.frequencyBandData == None)
    && data.summary == CalculateSummary(data.results)
  }

  /** The first `|results|` files all decoded, and each result describes its file. */
  ghost predicate AnalyzedPrefix(m: Math, results: seq<AnalysisResult>, files: seq<AudioFile>, windowSeconds: real)
  {
    && |results| <= |files|
    && forall i :: 0 <= i < |results| ==>
         && files[i].decoded.Success?
         && Describes(m, results[i], files[i].name, files[i].decoded.value, windowSeconds)
  }

  lemma AnalyzedPrefixExtend(m: Math, results: seq<AnalysisResult>, files: seq<AudioFile>, windowSeconds: real, r: AnalysisResult)
    requires AnalyzedPrefix(m, results, files, windowSeconds) && |results| < |files|
    requires files[|results|].decoded.Success?
    requires Describes(m, r, files[|results|].name, files[|results|].decoded.value, windowSeconds)
    ensures AnalyzedPrefix(m, results + [r], files, windowSeconds)
  {
  }

  class AudioAnalyzer {
    var analysisData: Option<AnalysisData>
    /** Whether the browser provided an `AudioContext` when the analyser was built. */
    const contextAvailable: bool
    /** The square root and base-10 logarithm the analysis uses. */
    const math: Math

    constructor (contextAvailable: bool, math: Math)
      ensures analysisData == None
      ensures this.contextAvailable == contextAvailable && this.math == math
    {
      analysisData := None;
      this.contextAvailable := contextAvailable;
      this.math := math;
    }

    /**
     * `analyzeFile`: decodes the file and measures its first channel: the
     * whole-file peak, RMS and loudness, and the time series.
     */
    method AnalyzeFile(file: AudioFile, windowSeconds: real) returns (outcome: Result<AnalysisResult, string>)
      ensures !contextAvailable ==> outcome == Failure(NoContextMessage)
      ensures contextAvailable && file.decoded.Failure? ==> outcome == Failure(file.decoded.error)
      ensures contextAvailable && file.decoded.Success? ==>
        && outcome.Success? && fresh(outcome.value)
        && Describes(math, outcome.value, file.name, file.decoded.value, windowSeconds)
        && outcome.value.frequencyBandData == None
    {
      if !contextAvailable {
        return Failure(NoContextMessage);
      }
      if file.decoded.Failure? {
        return Failure(file.decoded.error);
      }
      var audioBuffer := file.decoded.value;
      var channelData := audioBuffer.channelData;
      var sampleRate := audioBuffer.sampleRate;
      var duration := audioBuffer.Duration();
      var peakAmplitude := CalculatePeakAmplitude(channelData);
      var peakAmplitudeDb := AmplitudeToDb(math, peakAmplitude);
      var rms := CalculateRms(math, channelData);
      var rmsDb := AmplitudeToDb(math, rms);
      var lufs := WholeFileLufs(math, channelData);
      var timeData := GenerateTimeData(math, channelData, sampleRate, windowSeconds);
      var result := new AnalysisResult(file.name, duration, sampleRate, peakAmplitude, peakAmplitudeDb,
                                       lufs, rms, rmsDb, timeData, audioBuffer);
      return Success(result);
    }

    /**
     * `analyzeFiles`: analyses the files in order, reporting progress after
     * each one. The first file that fails stops the batch with an error
     * naming it, and the previous batch stays in place; only a batch in which
     * every file succeeds replaces it.
     */
    method AnalyzeFiles(files: seq<AudioFile>, windowSeconds: real) returns (outcome: Result<AnalysisData, string>, progress: seq<real>)
      modifies this
      ensures !contextAvailable ==> outcome == Failure(NoContextMessage) && progress == [] && analysisData == old(analysisData)
      ensures contextAvailable ==> progress == ProgressReports(ProgressShare(|files|), FirstFailure(files))
      ensures contextAvailable && FirstFailure(files) < |files| ==>
        var k := FirstFailure(files);
        && outcome == Failure(FailureMessage(files[k].name, files[k].decoded.error))
        && analysisData == old(analysisData)
      ensures contextAvailable && FirstFailure(files) == |files| ==>
        && outcome.Success? && analysisData == Some(outcome.value)
        && BuiltFrom(math, outcome.value, files, windowSeconds)
        && forall r :: r in outcome.value.results ==> fresh(r)
    {
      if !contextAvailable {
        return Failure(NoContextMessage), [];
      }
      var progressPerFile := ProgressShare(|files|);
      var each;
      each, progress := AnalyzeEach(files, windowSeconds, progressPerFile);
      if each.Failure? {
        return Failure(each.error), progress;
      }
      var results := each.value;
      var data := AnalysisData(results, CalculateSummary(results));
      analysisData := Some(data);
      return Success(data), progress;
    }

    /**
     * The loop of `analyzeFiles`: each file in turn, with the running total
     * of `100 / n` reported after each success, up to the first failure.
     */
    method AnalyzeEach(files: seq<AudioFile>, windowSeconds: real, progressPerFile: real) returns (outcome: Result<seq<AnalysisResult>, string>, progress: seq<real>)
      requires contextAvailable
      ensures progress == ProgressReports(progressPerFile, FirstFailure(files))
      ensures FirstFailure(files) < |files| ==>
        var k := FirstFailure(files);
        outcome == Failure(FailureMessage(files[k].name, files[k].decoded.error))
      ensures FirstFailure(files) == |files| ==>
        && outcome.Success? && |outcome.value| == |files|
        && AnalyzedPrefix(math, outcome.value, files, windowSeconds)
        && forall r :: r in outcome.value ==> fresh(r) && r.frequencyBandData == None
    {
      progress := [];
      var results: seq<AnalysisResult> := [];
      var totalProgress := 0.0;
      var i := 0;
      while i < |files|
        invariant 0 <= i <= |files| && i <= FirstFailure(files)
        invariant |results| == i
        invariant AnalyzedPrefix(math, results, files, windowSeconds)
        invariant forall r :: r in results ==> fresh(r) && r.frequencyBandData == None
        invariant totalProgress == Scaled(i, progressPerFile)
        invariant progress == ProgressReports(progressPerFile, i)
      {
        var file := files[i];
        var result := AnalyzeFile(file, windowSeconds);
        if result.Failure? {
          assert i == FirstFailure(files);
          return Failure(FailureMessage(file.name, result.error)), progress;
        }
        AnalyzedPrefixExtend(math, results, files, windowSeconds, result.value);
        results := results + [result.value];
        ProgressStep(i, totalProgress, progressPerFile);
        totalProgress := totalProgress + progressPerFile;
        progress := progress + [if totalProgress < 100.0 then totalProgress else 100.0];
        i := i + 1;
      }
      assert i == FirstFailure(files) == |files|;
      return Success(results), progress;
    }

    /** `reset`: forgets the last batch. */
    method Reset()
      modifies this
      ensures analysisData == None
    {
      analysisData := None;
    }

    /**
     * `getAudioBuffer`: the buffer of the first result of the last batch
     * with the given file name; none without a batch or without a match.
     */
    function GetAudioBuffer(fileName: string): (r: Option<AudioBuffer>)
      reads this
      ensures r.Some? <==> analysisData.Some? && exists i :: 0 <= i < |analysisData.value.results| && analysisData.value.results[i].fileName == fileName
      ensures r.Some? ==>
        exists i :: 0 <= i < |analysisData.value.results|
          && analysisData.value.results[i].fileName == fileName
          && r.value == analysisData.value.results[i].audioBuffer
          && forall j :: 0 <= j < i ==> analysisData.value.results[j].fileName != fileName
    {
      if analysisData.None? then None
      else
        var results := analysisData.value.results;
        var k := FirstMatch(results, fileName);
        if k == |results| then None else Some(results[k].audioBuffer)
    }

    /**
     * `calculateFrequencyBandsForResult`: fills the result's band cache with
     * the band series of its buffer, unless the cache is already filled.
     */
    method CalculateFrequencyBandsForResult(result: AnalysisResult)
      modifies result
      ensures result.frequencyBandData == FillBands(old(result.frequencyBandData), BandsOf(math, result))
    {
      if result.frequencyBandData.Some? {
        return;
      }
      var frequencyBandData: seq<BandPoint> := [];
      var channelData := result.audioBuffer.channelData;
      var sampleRate := result.audioBuffer.sampleRate;
      var lufsWindowSamples := LoudnessWindowSamples(sampleRate, BandWindowSeconds);
      var stepSize := StepSize(sampleRate);
      var currentTime := 0.0;
      var currentIndex := 0;
      BandFnMeasures(math, channelData, sampleRate);
      ghost var f :| MeasuresBands(f, math, channelData, sampleRate);
      ghost var k := 0;
      while currentIndex < |channelData|
        invariant currentIndex == GridIndex(k, stepSize)
        invariant currentTime == TimeOf(currentIndex, sampleRate)
        invariant k + CountFrom(|channelData|, stepSize, currentIndex) == PointCount(|channelData|, sampleRate)
        invariant frequencyBandData == Sampled(f, stepSize, k)
      {
        var point := MeasureBandPoint(math, channelData, sampleRate, lufsWindowSamples, currentIndex, currentTime, f);
        frequencyBandData := frequencyBandData + [point];
        TimeStep(currentIndex, stepSize, sampleRate);
        currentTime := currentTime + stepSize as real / sampleRate as real;
        currentIndex := currentIndex + stepSize;
        k := k + 1;
        if currentIndex >= |channelData| {
          break;
        }
      }
      WalkIsBandSeries(math, channelData, sampleRate, f, frequencyBandData);
      result.frequencyBandData := Some(frequencyBandData);
    }

    /** `calculateFrequencyBandsForAllResults`: fills the band cache of every result of the last batch. */
    method CalculateFrequencyBandsForAllResults()
      modifies if analysisData.Some? then set r | r in analysisData.value.results else {}
      ensures analysisData.Some? ==> forall r :: r in analysisData.value.results ==>
        r.frequencyBandData == FillBands(old(r.frequencyBandData), BandsOf(math, r))
    {
      if analysisData.None? {
        return;
      }
      var results := analysisData.value.results;
      var i := 0;
      while i < |results|
        invariant 0 <= i <= |results|
        invariant forall r :: r in results[..i] ==> r.frequencyBandData == FillBands(old(r.frequencyBandData), BandsOf(math, r))
        invariant forall r :: r in results && r !in results[..i] ==> r.frequencyBandData == old(r.frequencyBandData)
      {
        CalculateFrequencyBandsForResult(results[i]);
        assert results[..i + 1] == results[..i] + [results[i]];
        i := i + 1;
      }
      assert results[..i] == results;
    }
  }

  /** The index of the first result named `name`, or the number of results when none is. */
  function FirstMatch(results: seq<AnalysisResult>, name: string): (k: nat)
    ensures k <= |results|
    ensures forall j :: 0 <= j < k ==> results[j].fileName != name
    ensures k < |results| ==> results[k].fileName == name
  {
    if |results| == 0 then 0
    else if results[0].fileName == name then 0
    else 1 + FirstMatch(results[1..], name)
  }

  /** One more file adds its share to the running total and reports the total, capped at 100. */
  lemma ProgressStep(i: nat, total: real, share: real)
    requires total == Scaled(i, share)
    ensures total + share == Scaled(i + 1, share)
    ensures ProgressReports(share, i + 1) == ProgressReports(share, i) + [if total + share < 100.0 then total + share else 100.0]
  {
  }

  /** Progress never goes down, and the report after the last of `n` files is exactly 100. */
  lemma ProgressMonotone(n: nat, j: nat, k: nat)
    requires 0 < n && j <= k <= n
    ensures ProgressAfter(j, ProgressShare(n)) <= ProgressAfter(k, ProgressShare(n))
    ensures ProgressAfter(n, ProgressShare(n)) == 100.0
  {
    ScaledMonotone(j, k, ProgressShare(n));
    ScaledIsProduct(n, ProgressShare(n));
  }

  lemma {:induction false} ScaledMonotone(j: nat, k: nat, x: real)
    requires j <= k && 0.0 <= x
    ensures Scaled(j, x) <= Scaled(k, x)
    decreases k
  {
    if j < k {
      ScaledMonotone(j, k - 1, x);
    }
  }

  /** Every report of a batch lies between 0 and 100, and the `i`-th is the progress after `i + 1` files. */
  lemma {:induction false} ProgressReportsAt(n: nat, k: nat, i: nat)
    requires i < k
    ensures ProgressReports(ProgressShare(n), k)[i] == ProgressAfter(i + 1, ProgressShare(n))
    ensures 0.0 <= ProgressReports(ProgressShare(n), k)[i] <= 100.0
  {
    if i < k - 1 {
      ProgressReportsAt(n, k - 1, i);
    } else {
      ScaledMonotone(0, i + 1, ProgressShare(n));
    }
  }

  /** A batch of two files reports 50 and then 100. */
  lemma TwoFileProgress()
    ensures ProgressReports(ProgressShare(2), 2) == [50.0, 100.0]
  {
    assert ProgressReports(50.0, 0) == [];
  }
}
