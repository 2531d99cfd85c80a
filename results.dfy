/**
 * The per-file records of `AudioAnalyzer`: the decoded buffer the analyser
 * reads, the file it came from, and the analysis result with its lazily
 * filled band cache.
 */
module Results {
  import opened Wrappers
  import opened RealMath
  import opened ScalarMetrics
  import opened Loudness
  import opened TimeSeries

  /** Sample rates at which the 100 ms grid step is at least one sample. */
  type SampleRate = r: nat | MinSampleRate <= r witness MinSampleRate

  /** The first channel of a decoded buffer: a decoded buffer holds at least one frame. */
  type Channel = xs: seq<real> | |xs| > 0 witness [0.0]

  /** The part of an `AudioBuffer` the analyser reads: its first channel and its sample rate. */
  datatype AudioBuffer = AudioBuffer(channelData: Channel, sampleRate: SampleRate) {

    /** `AudioBuffer.duration`: the number of frames over the sample rate. */
    function Duration(): (d: real)
      ensures d > 0.0
      ensures d * sampleRate as real == |channelData| as real
    {
      |channelData| as real / sampleRate as real
    }
  }

  /**
   * A file handed to the analyser. Reading and decoding it are outside the
   * model, so the file carries the decoder's outcome: the buffer, or the
   * decoder's error message.
   */
  datatype AudioFile = AudioFile(name: string, decoded: Result<AudioBuffer, string>)

  /**
   * `AudioAnalysisResult`. Everything but the band series is fixed when the
   * result is built; the band series starts absent and is filled in place,
   * on demand, at most once.
   */
  class AnalysisResult {
    const fileName: string
    const duration: real
    const sampleRate: nat
    const peakAmplitude: real
    const peakAmplitudeDb: Level
    const lufs: Level
    const rms: real
    const rmsDb: Level
    const timeData: seq<TimePoint>
    const audioBuffer: AudioBuffer
    var frequencyBandData: Option<seq<BandPoint>>

    constructor (fileName: string, duration: real, sampleRate: nat, peakAmplitude: real, peakAmplitudeDb: Level,
                 lufs: Level, rms: real, rmsDb: Level, timeData: seq<TimePoint>, audioBuffer: AudioBuffer)
      ensures this.fileName == fileName && this.duration == duration && this.sampleRate == sampleRate
      ensures this.peakAmplitude == peakAmplitude && this.peakAmplitudeDb == peakAmplitudeDb
      ensures this.lufs == lufs && this.rms == rms && this.rmsDb == rmsDb
      ensures this.timeData == timeData && this.audioBuffer == audioBuffer
      ensures frequencyBandData == None
    {
      this.fileName := fileName;
      this.duration := duration;
      this.sampleRate := sampleRate;
      this.peakAmplitude := peakAmplitude;
      this.peakAmplitudeDb := peakAmplitudeDb;
      this.lufs := lufs;
      this.rms := rms;
      this.rmsDb := rmsDb;
      this.timeData := timeData;
      this.audioBuffer := audioBuffer;
      frequencyBandData := None;
    }
  }

  /**
   * `result` holds what `analyzeFile` computes for the file `name` decoded
   * to `buffer`, with a loudness window of `windowSeconds`.
   */
  ghost predicate Describes(m: Math, result: AnalysisResult, name: string, buffer: AudioBuffer, windowSeconds: real) {
    var xs := buffer.channelData;
    && result.fileName == name
    && result.audioBuffer == buffer
    && result.duration == buffer.Duration()
    && result.sampleRate == buffer.sampleRate
    && result.peakAmplitude == Peak(xs)
    && result.peakAmplitudeDb == AmplitudeToDb(m, Peak(xs))
    && result.rms == Rms(m, xs)
    && result.rmsDb == AmplitudeToDb(m, Rms(m, xs))
    && result.lufs == WholeFileLufs(m, xs)
    && result.timeData == TimeData(m, xs, buffer.sampleRate, windowSeconds)
  }

  /** The band series of a result's buffer: what the band cache holds once filled. */
  function BandsOf(m: Math, result: AnalysisResult): (r: seq<BandPoint>)
    ensures |r| == PointCount(|result.audioBuffer.channelData|, result.audioBuffer.sampleRate)
  {
    BandSeries(m, result.audioBuffer.channelData, result.audioBuffer.sampleRate)
  }

  /** The band cache after a request for the bands: kept when present, otherwise the series. */
  function FillBands(cache: Option<seq<BandPoint>>, series: seq<BandPoint>): Option<seq<BandPoint>> {
    if cache.Some? then cache else Some(series)
  }

  /**
   * A filled cache is never recomputed: after one request the cache is
   * present, and a second request leaves it as the first one did.
   */
  lemma FillBandsIdempotent(cache: Option<seq<BandPoint>>, series: seq<BandPoint>)
    ensures FillBands(cache, series).Some?
    ensures cache.Some? ==> FillBands(cache, series) == cache
    ensures FillBands(FillBands(cache, series), series) == FillBands(cache, series)
  {
  }

  /**
   * Within one result the levels are ordered as the analysis makes them: the
   * RMS level is at most the peak level and, when the buffer is not silent,
   * the loudness is exactly 12 dB below the RMS level.
   */
  lemma ResultLevels(m: Math, result: AnalysisResult, name: string, buffer: AudioBuffer, windowSeconds: real)
    requires Lawful(m) && Describes(m, result, name, buffer, windowSeconds)
    ensures result.rmsDb.AtMost(result.peakAmplitudeDb)
    ensures result.lufs.Silence? <==> result.rmsDb.Silence?
    ensures result.lufs.Db? ==> result.lufs.db == result.rmsDb.db - WholeFileOffset
  {
    RmsAtMostPeak(m, buffer.channelData);
    DbMonotone(m, Rms(m, buffer.channelData), Peak(buffer.channelData));
  }
}
