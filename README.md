# loudness-graph, modelled in Dafny

loudness-graph is a browser tool. It decodes a batch of audio files and measures each one:
- the peak amplitude, the RMS level and an approximate LUFS loudness, in dB;
- every 100 ms, a point with the peak level, the RMS level, the LUFS level of a sliding window (3 s by default) and a spectral-balance value between -1 and 1;
- on demand, a low/mid/high "frequency band" series cached on each result.

It also summarises the batch (total duration, average, minimum and maximum levels, loudness range). It draws the files one after another on a single time axis, with labelled axes. It shows the total duration and a progress line in the page.

This project models that arithmetic and the state of the analyser, and proves what each step promises:

| File | What it models |
|---|---|
| `real_math.dfy` | `Math.sqrt` and `Math.log10`, which stay abstract. A `Math` value supplies them and `Lawful` states the laws the proofs use. |
| `scalar_metrics.dfy` | Peak, RMS and the amplitude-to-dB conversion. Silence is `Level.Silence`, which stands for `-Infinity`. |
| `loudness.dfy` | The whole-file and gated window loudness. |
| `spectral_balance.dfy` | The amplitude-bucket spectral balance. |
| `frequency_bands.dfy` | `calculateFrequencyBandsSimple`. |
| `time_series.dfy` | `generateTimeData` and the band walk of `calculateFrequencyBandsForResult`. Each is a method with a loop, proved equal to a specification function. |
| `results.dfy` | The decoded buffer, and the result record with its mutable band cache. |
| `summary.dfy` | `calculateSummary`, including JavaScript's infinities and `NaN`. |
| `analyzer.dfy` | The `AudioAnalyzer` class: the batch with its progress reports, `reset`, lookups, and the band cache. |
| `js_number.dfy` | `Math.floor`, `%` and `Math.round` over the reals. |
| `decimal.dfy` | `${n}` and `padStart`. |
| `renderer.dfy` | The arithmetic of `GraphRenderer`. Canvas path calls are modelled as a list of operations. |
| `ui.dfy` | `formatDuration` and the progress text of `UIManager`. |

## Model

| member | source | states |
|---|---|---|
| ScalarMetrics.CalculatePeakAmplitude | src/AudioAnalyzer.ts:135-144 | The loop returns `Peak` of the samples. |
| ScalarMetrics.PeakIsMaximum | src/AudioAnalyzer.ts:135-144 | The peak is at least every sample's magnitude. It is attained by some sample, and it is 0 for no samples. |
| ScalarMetrics.CalculateRms | src/AudioAnalyzer.ts:146-152 | The loop returns the square root of the mean square. |
| ScalarMetrics.MeanSquareAtMostPeakSquared | src/AudioAnalyzer.ts:146-151 | The mean square never exceeds the square of the peak. |
| ScalarMetrics.RmsAtMostPeak | src/AudioAnalyzer.ts:146-152 | The RMS lies between 0 and the peak. |
| ScalarMetrics.AmplitudeToDb | src/AudioAnalyzer.ts:391-394 | Silence exactly when the amplitude is at most 0. Otherwise 20·log10 of the amplitude. |
| ScalarMetrics.DbMonotone | src/AudioAnalyzer.ts:391-394 | A larger amplitude never gives a lower level. |
| ScalarMetrics.DbStrictlyMonotone | src/AudioAnalyzer.ts:391-394 | Between positive amplitudes, a larger one gives a strictly higher level. |
| ScalarMetrics.SumSquaresZero | src/AudioAnalyzer.ts:147-150 | The sum of squares is 0 exactly when every sample is 0. |
| ScalarMetrics.RmsSilentIffAllZero | src/AudioAnalyzer.ts:146-152 | The RMS level is silence exactly when every sample is 0. |
| ScalarMetrics.Level.Minus | src/AudioAnalyzer.ts:164 | Subtracting an offset keeps silence as silence and shifts a finite level by the offset. |
| RealMath.GateOnMeanSquare | src/AudioAnalyzer.ts:180-182 | The -70 dB gate on the RMS level holds exactly when the mean square is below 10^-7. |
| RealMath.LogOfGateAmplitude | src/AudioAnalyzer.ts:180 | The square root of 10^-7 is exactly -70 dB. |
| Loudness.WholeFileLufsUngated | src/AudioAnalyzer.ts:154-167 | Whole-file loudness has no gate. It is silence only for an all-zero buffer. |
| Loudness.WholeFileLufsBelowPeak | src/AudioAnalyzer.ts:154-167 | Whole-file loudness is at most the peak level less 12 dB. |
| Loudness.WindowLufs | src/AudioAnalyzer.ts:169-191 | An empty window is silence. A finite window value is never below -83 dB. |
| Loudness.WindowLufsGate | src/AudioAnalyzer.ts:169-191 | A window is silence exactly when it is empty or its mean square is under the gate. Otherwise its value is the whole-file formula 1 dB lower. |
| SpectralBalance.BucketOf | src/AudioAnalyzer.ts:204-220 | Each sample magnitude falls in exactly one of the low (> 0.05), mid (0.01, 0.05] and high (≤ 0.01) buckets. |
| SpectralBalance.CalculateSpectralBalance | src/AudioAnalyzer.ts:193-249 | The loop returns `Balance` of the window. |
| SpectralBalance.BucketsZeroIffSilent | src/AudioAnalyzer.ts:199-232 | The three bucket energies sum to 0 exactly when every sample is 0. |
| SpectralBalance.BalanceIsShareDifference | src/AudioAnalyzer.ts:193-249 | Balance is 0 for an empty or all-zero window. Otherwise it is the high share minus the low share, (h-l)/(l+m+h). It always lies in [-1, 1]. |
| SpectralBalance.NormalisationCancels | src/AudioAnalyzer.ts:223-238 | Dividing the energies by the window length leaves the shares unchanged. |
| SpectralBalance.ShareDifferenceInRange | src/AudioAnalyzer.ts:237-248 | The share difference already lies in [-1, 1], so the clamp never changes it. |
| SpectralBalance.ConstantWindowBalance | src/AudioAnalyzer.ts:193-249 | A constant non-zero window has balance -1, 0 or 1, according to its amplitude bucket. |
| FrequencyBands.SharesOf | src/AudioAnalyzer.ts:286-306 | Each of the four energy splits has positive shares that sum to 1. |
| FrequencyBands.ProfilePriority | src/AudioAnalyzer.ts:286-306 | Chooses the 70/20/10 split exactly when the peak exceeds 0.05. Then 10/30/60 for a rate of change above 0.01, then 20/60/20 for a rate above 0.005, else 60/30/10. A `NaN` rate picks the last. |
| FrequencyBands.SingleSampleProfile | src/AudioAnalyzer.ts:283-306 | A one-sample window divides 0 by 0, so its split depends on its peak alone. |
| FrequencyBands.ExtendPrefix | src/AudioAnalyzer.ts:270-281 | One loop step adds the square to the energy, updates the maximum and adds the change from the previous sample. |
| FrequencyBands.AllottedEnergyPartition | src/AudioAnalyzer.ts:286-313 | Non-zero energy is split into three positive parts that sum to it. Zero energy becomes 0.001 in each band. |
| FrequencyBands.Bands | src/AudioAnalyzer.ts:253-329 | An empty window gives 0.001 for each band. Every band RMS is at least 0.0001. |
| FrequencyBands.CalculateFrequencyBandsSimple | src/AudioAnalyzer.ts:253-329 | The loop returns `Bands` of the window. |
| FrequencyBands.BandsCoverMeanSquare | src/AudioAnalyzer.ts:315-324 | The squares of the three band values together cover the window's mean square. |
| FrequencyBands.BandLevelsAudible | src/AudioAnalyzer.ts:480-482 | Each band's dB value is finite, never `-Infinity`. |
| TimeSeries.StepSize | src/AudioAnalyzer.ts:341 | The step is floor(sampleRate/10) and at least one sample. |
| TimeSeries.LoudnessWindowSamples | src/AudioAnalyzer.ts:340 | The loudness window is floor(sampleRate·windowSeconds) samples. It is negative for a negative window. |
| TimeSeries.LoudnessWindow | src/AudioAnalyzer.ts:361-362 | The loudness slice. For a window of non-negative length it is the clamped window of that length. |
| TimeSeries.NegativeWindowWrapsAround | src/AudioAnalyzer.ts:361-362 | For a negative length, `slice` counts a negative end back from the buffer's end. When start + len < 0 < n + len, the window runs from start to n + start + len. Otherwise it is empty. |
| TimeSeries.Window | src/AudioAnalyzer.ts:351-352 | A slice holds min(len, n-start) samples. |
| TimeSeries.TimeData | src/AudioAnalyzer.ts:332-389 | One point per grid step. |
| TimeSeries.GenerateTimeData | src/AudioAnalyzer.ts:332-389 | The while loop, with its running time and index, produces exactly `TimeData`. |
| TimeSeries.MeasurePoint | src/AudioAnalyzer.ts:350-379 | One iteration's point is the specification's point at the current index. |
| TimeSeries.WalkIsTimeData | src/AudioAnalyzer.ts:349-386 | The sampled walk over the grid equals `TimeData`. |
| TimeSeries.TimeStep | src/AudioAnalyzer.ts:381 | Adding step/sampleRate to the time of an index gives the time of the next index. |
| TimeSeries.TimeDataLength | src/AudioAnalyzer.ts:349-386 | There are ceil(n/step) points: 0 for no samples, and 1 when the samples fit in one step. |
| TimeSeries.TimeDataPoint | src/AudioAnalyzer.ts:373-382 | The k-th point starts at sample k·step, which lies inside the buffer. Its time is k·step/sampleRate. |
| TimeSeries.TimesIncreasing | src/AudioAnalyzer.ts:373-382 | Point times strictly increase and stay below the buffer's duration. |
| TimeSeries.WindowsNonEmpty | src/AudioAnalyzer.ts:351-362 | Every peak window holds 1 to step samples. A loudness window is non-empty exactly when sampleRate·windowSeconds ≥ 1, or when a negative window wraps around. |
| TimeSeries.PeakWindowsTile | src/AudioAnalyzer.ts:349-352 | The peak windows, laid end to end, are exactly the samples. |
| TimeSeries.RmsAtMostPeakLevel | src/AudioAnalyzer.ts:353-358 | Each point's RMS level is at most its peak level. |
| TimeSeries.BandPointAt | src/AudioAnalyzer.ts:475-489 | A band point's three levels are finite. |
| TimeSeries.BandSeries | src/AudioAnalyzer.ts:459-496 | One band point per grid step. |
| TimeSeries.MeasureBandPoint | src/AudioAnalyzer.ts:474-489 | One iteration's band point is the specification's point at the current index. |
| TimeSeries.WalkIsBandSeries | src/AudioAnalyzer.ts:473-496 | The band walk equals `BandSeries`. |
| TimeSeries.BandWindowIsThreeSeconds | src/AudioAnalyzer.ts:466-467 | The band window is always 3·sampleRate samples, whatever window the batch used. |
| TimeSeries.BandSeriesMatchesTimeData | src/AudioAnalyzer.ts:468-496 | The band series has the same number of points as the time series, at the same times. |
| Results.AudioBuffer.Duration | src/AudioAnalyzer.ts:104 | The duration is positive, and duration·sampleRate is the frame count. |
| Results.AnalysisResult.constructor | src/AudioAnalyzer.ts:120-132 | Stores every field. The band cache starts absent. |
| Results.BandsOf | src/AudioAnalyzer.ts:459-496 | The band series of a result's buffer has one point per grid step. |
| Results.FillBandsIdempotent | src/AudioAnalyzer.ts:455-457 | Filling always leaves a series and keeps a cache that is already present. Filling twice is filling once. |
| Results.ResultLevels | src/AudioAnalyzer.ts:107-115 | In an analysed result, the RMS level is at most the peak level. Loudness is silence exactly when the RMS level is, and is otherwise the RMS level less 12 dB. |
| Summary.LevelDifference | src/AudioAnalyzer.ts:415 | maxLufs - minLufs is finite for two finite levels, `NaN` for two silences and `±Infinity` when one side is silence. |
| Summary.AddLevels | src/AudioAnalyzer.ts:410-411 | A sum is silence exactly when one operand is. Otherwise the dB values add. |
| Summary.LufsValues | src/AudioAnalyzer.ts:410 | Maps each result to its loudness, in order. |
| Summary.PeakDbValues | src/AudioAnalyzer.ts:411-412 | Maps each result to its peak level, in order. |
| Summary.CalculateSummary | src/AudioAnalyzer.ts:396-426 | An empty batch gives the all-zero summary. The total duration is the sum of the durations. |
| Summary.MaxLevelIsMaximum | src/AudioAnalyzer.ts:412-414 | `Math.max` bounds every level from above and is one of them. |
| Summary.MinLevelIsMinimum | src/AudioAnalyzer.ts:413 | `Math.min` bounds every level from below and is one of them. |
| Summary.SumLevelsSilent | src/AudioAnalyzer.ts:410 | The reduce is silence exactly when some level is silence. |
| Summary.ScaledIsProduct | src/AudioAnalyzer.ts:77 | Adding a share k times gives k times the share. |
| Summary.SumLevelsBetween | src/AudioAnalyzer.ts:410 | A sum of finite levels in [lo, hi] lies between k·lo and k·hi. |
| Summary.MeanBetween | src/AudioAnalyzer.ts:410-414 | For finite levels, min ≤ average ≤ max. |
| Summary.SummaryOfFiniteLoudness | src/AudioAnalyzer.ts:396-426 | With every loudness finite, min ≤ average ≤ max, and the range is their non-negative finite difference. |
| Summary.SummaryWithSilence | src/AudioAnalyzer.ts:396-426 | With a silent file, the average and minimum loudness are silence. The range is `NaN` exactly when all files are silent, and `+Infinity` exactly when some file is not. |
| Summary.MaxPeakAttained | src/AudioAnalyzer.ts:412 | The maximum peak is at least every file's peak and is some file's peak. |
| Summary.SummaryOfOne | src/AudioAnalyzer.ts:396-426 | One file's summary repeats its levels. The range is 0 for finite loudness and `NaN` for silence. |
| Summary.TotalDurationAppend | src/AudioAnalyzer.ts:409 | The total duration adds over concatenated batches. |
| Analyzer.FirstFailure | src/AudioAnalyzer.ts:71-84 | The index of the first file that fails to decode: every file before it decodes, and it does not. |
| Analyzer.FailureMessageParts | src/AudioAnalyzer.ts:82 | The error reads `Failed to analyze `, the file name, `: `, then the reason. |
| Analyzer.ProgressReports | src/AudioAnalyzer.ts:77-78 | One report per completed file. |
| Analyzer.ProgressStep | src/AudioAnalyzer.ts:77-78 | A step adds one share to the running total and reports min(total, 100). |
| Analyzer.ProgressMonotone | src/AudioAnalyzer.ts:68-78 | Reports never decrease. The report after the last of n files is exactly 100. |
| Analyzer.ScaledMonotone | src/AudioAnalyzer.ts:77 | More additions of a non-negative share never give a smaller total. |
| Analyzer.ProgressReportsAt | src/AudioAnalyzer.ts:77-78 | The i-th report is min((i+1)·share, 100) and lies in [0, 100]. |
| Analyzer.AnalyzedPrefixExtend | src/AudioAnalyzer.ts:71-76 | Appending the result of the next decoded file keeps "each result describes its file". |
| Analyzer.FirstMatch | src/AudioAnalyzer.ts:436 | `find`: the first result with the name, or past the end when there is none. |
| Analyzer.AudioAnalyzer.constructor | src/AudioAnalyzer.ts:42-56 | Starts with no batch. Whether an `AudioContext` exists is fixed at construction. |
| Analyzer.AudioAnalyzer.AnalyzeFile | src/AudioAnalyzer.ts:94-133 | No context fails with `AudioContext not available`. A file that does not decode fails with its decoder error. Otherwise it returns a fresh result describing the first channel, with no band cache. |
| Analyzer.AudioAnalyzer.AnalyzeFiles | src/AudioAnalyzer.ts:58-92 | No context fails with no reports and no change. Otherwise there is one capped report per analysed file, up to the first failure. A failure gives its message and leaves the held batch unchanged. Success holds and returns the batch built from all files, with its summary. |
| Analyzer.AudioAnalyzer.AnalyzeEach | src/AudioAnalyzer.ts:67-84 | The loop: reports up to the first failure, that file's message, or one fresh result per file in order. |
| Analyzer.AudioAnalyzer.Reset | src/AudioAnalyzer.ts:450-452 | Drops the held batch. |
| Analyzer.AudioAnalyzer.GetAudioBuffer | src/AudioAnalyzer.ts:433-438 | None without a batch or without a matching name. Otherwise the buffer of the first result with that name. |
| Analyzer.AudioAnalyzer.CalculateFrequencyBandsForResult | src/AudioAnalyzer.ts:454-499 | Fills the band cache with the buffer's band series when it is empty, and leaves a filled cache alone. |
| Analyzer.AudioAnalyzer.CalculateFrequencyBandsForAllResults | src/AudioAnalyzer.ts:501-507 | Does the same for every result of the held batch, and nothing without a batch. |
| JsNumber.Floor | src/GraphRenderer.ts:253 | `Math.floor` is the greatest integer not above x. |
| JsNumber.Trunc | src/GraphRenderer.ts:254 | Truncation is the floor for x ≥ 0 and minus the floor of -x otherwise. |
| JsNumber.RemainderOfNonNegative | src/GraphRenderer.ts:254 | For a ≥ 0, `a % b` lies in [0, b), and b·floor(a/b) + `a % b` is a. |
| JsNumber.FloorDecomposition | src/UIManager.ts:172-174 | floor(s/b)·b + floor(s % b) is floor(s), with the second term in [0, b). |
| JsNumber.RoundNearest | src/UIManager.ts:108 | `Math.round` is within a half of x, and no integer is closer. |
| JsNumber.RoundMonotone | src/UIManager.ts:108 | Rounding keeps order. |
| Decimal.IntToString | src/GraphRenderer.ts:255 | `${i}`: the digits of i, with a minus sign for a negative i. |
| Decimal.NatToStringValue | src/GraphRenderer.ts:255 | The digits read back as the number. Only 0 begins with the digit 0. |
| Decimal.NatToStringInjective | src/GraphRenderer.ts:255 | Different numbers are written differently. |
| Decimal.PadStart | src/GraphRenderer.ts:255 | `padStart(w, '0')` has length max(w, \|s\|), ends with s and is 0s before it. |
| Decimal.PaddedValue | src/GraphRenderer.ts:255 | Padding a digit string keeps its value. |
| Decimal.TwoDigits | src/GraphRenderer.ts:255 | A number below 100, padded, is two digits that read back as the number. |
| Renderer.FormatTimeFields | src/GraphRenderer.ts:252-254 | For t ≥ 0 the seconds field lies in 0..59, and 60·minutes + seconds is floor(t). |
| Renderer.FormatTimeReadsBack | src/GraphRenderer.ts:252-256 | `formatTime(t)` is an `m:ss` label that reads back as floor(t) seconds. |
| Renderer.ClockReadsBack | src/GraphRenderer.ts:255 | An `m:ss` label reads back as its minutes and seconds. |
| Renderer.FormatTimeOrdered | src/GraphRenderer.ts:252-256 | A later time never gets an earlier label. |
| Renderer.AxisTime | src/GraphRenderer.ts:223 | The i-th axis time lies in [0, total]. It is 0 at i = 0 and total at i = 10. |
| Renderer.AxisTimeIsFraction | src/GraphRenderer.ts:223 | The i-th axis time is (i/10)·total. |
| Renderer.AxisTimesOrdered | src/GraphRenderer.ts:220-223 | Axis times increase with i. |
| Renderer.TimeAxisLabelsIncrease | src/GraphRenderer.ts:220-226 | The eleven time labels read back as non-decreasing seconds. The last one reads as floor(totalDuration). |
| Renderer.TimeAxisStartsAtZero | src/GraphRenderer.ts:220-226 | The first time label is `0:00`, with or without data. |
| Renderer.RangeOfBounds | src/GraphRenderer.ts:105-120 | The scan's pair stays at (Infinity, -Infinity) exactly when no value was seen. Otherwise it is the least and greatest value seen. |
| Renderer.PointsValuesMembers | src/GraphRenderer.ts:109-119 | The values scanned in a file are the finite peak and loudness values of its points. |
| Renderer.PlottedValuesMembers | src/GraphRenderer.ts:108-120 | The values scanned are exactly the finite peak and loudness values of all points of all files. |
| Renderer.RangeOfPlotted | src/GraphRenderer.ts:104-120 | The range is the minimum and maximum of exactly the plotted values. It is empty exactly when nothing is plotted. |
| Renderer.IncludePoint | src/GraphRenderer.ts:111-118 | A point adds its peak and then its loudness, each only when finite. |
| Renderer.ScanAmplitudeRange | src/GraphRenderer.ts:104-120 | The nested loops compute the range of all plotted values. |
| Renderer.PadRangeWidens | src/GraphRenderer.ts:122-125 | Padding moves each end out by a tenth of the width, so it holds the original range. It has zero width exactly when the original does. |
| Renderer.DrawLine | src/GraphRenderer.ts:166-207 | The path `drawLine` builds is `LineOps`. |
| Renderer.LineOpsStep | src/GraphRenderer.ts:188-204 | A line is the line of the earlier points followed by the operations of the next point. |
| Renderer.LineOpsShape | src/GraphRenderer.ts:188-204 | There is one operation per finite value. Only the first can be a move, and it is one exactly when the first point is finite. |
| Renderer.YInsideFrame | src/GraphRenderer.ts:197 | A value inside a non-empty range is drawn inside the graph's height. |
| Renderer.XOfIncreasing | src/GraphRenderer.ts:189 | A later offset time is drawn further right. |
| Renderer.DrawData | src/GraphRenderer.ts:92-164 | One peak line and one loudness line per file. Each uses the padded range of all finite values and starts at the sum of the earlier durations. |
| Renderer.OffsetsGrow | src/GraphRenderer.ts:128-162 | Each file's offset plus its duration is at most any later file's offset. |
| Renderer.PlotTimesIncreasing | src/GraphRenderer.ts:128-189 | Offset times strictly increase across the whole batch, file after file and point after point. |
| Renderer.TimeDataWithin | src/AudioAnalyzer.ts:346-386 | Point times lie in [0, duration) and strictly increase. |
| Renderer.TimeWithin | src/AudioAnalyzer.ts:373-381 | One point's time lies in [0, duration). |
| Renderer.DescribedTimesWithin | src/AudioAnalyzer.ts:104-118 | An analysed result has positive duration, and its points lie within it in order. |
| Renderer.BatchTimesWithin | src/AudioAnalyzer.ts:71-89 | The same holds for every result of a batch. |
| Renderer.AmplitudeLabelsInterpolate | src/GraphRenderer.ts:230-235 | With finite levels, the labels run from maxPeakDb down to minLufs in even eighths, and never rise when the peak is the larger. |
| Renderer.AmplitudeLabelsWithSilence | src/GraphRenderer.ts:233-234 | A silent maximum peak makes every label `NaN`. A silent minimum loudness makes the first label `NaN` and the rest `-Infinity`. |
| Renderer.AmplitudeLabelsWithoutData | src/GraphRenderer.ts:233-235 | Without data every label is 0. |
| Ui.DurationFields | src/UIManager.ts:171-174 | For t ≥ 0, minutes and seconds lie in 0..59 and 3600·h + 60·m + s is floor(t). Hours are positive exactly when floor(t) ≥ 3600. |
| Ui.FormatDurationReadsBack | src/UIManager.ts:171-181 | `formatDuration(t)` reads back as floor(t) seconds. It takes the short `m:ss` form exactly when that is under an hour. |
| Ui.DurationLabelReadsBack | src/UIManager.ts:176-180 | Either layout reads back as the seconds it counts, short exactly without hours. |
| Ui.LongDurationReadsBack | src/UIManager.ts:177 | `h:mm:ss` is not a `m:ss` label, and reads back as its three fields. |
| Ui.AppendSeconds | src/UIManager.ts:177 | A clock followed by `:ss` reads as hours, minutes and seconds. |
| Ui.ProgressTextDigits | src/UIManager.ts:106-108 | A percentage in [0, 100] is shown as the digits of its rounding, which also lies in [0, 100]. |
| Ui.BatchProgressTexts | src/UIManager.ts:106-108 | During a batch the rounded percentages lie in 0..100 and never go down. The last reads `Processing... 100%`. |
| Ui.ShownProgressStartsAtZero | src/UIManager.ts:97-100 | `showProgress` shows `Processing... 0%`. |

## Left out

**Platform and I/O**

- Decoding, file reading, `AudioContext` creation and async control flow are left out, because they are browser I/O. A file is a name together with either its decoded first channel or the decoder's error message. Whether a context exists is a constructor parameter.
- The `'Unknown error'` branch of the failure message is left out. It handles a thrown value that is not an `Error`, and a decoding failure here always carries a message string.
- Progress callbacks are returned as a list of reported values. No callback is called.
- `console.error`, `originalFile`, `getAnalysisData` and `getAllAudioBuffers` are left out, because they only log or return stored values.

**Drawing and the page**

- Canvas styling is left out: colours, line widths, fonts and text placement. The x positions of axis labels and the `stroke` call are also left out.
- The progress-bar width and all DOM handling of `UIManager` other than the two formatters are left out.
- `toFixed(1)` on the amplitude labels is left out. The labels are modelled as numbers, not text.
- `AudioPlayer.ts` and `main.ts` are not part of this model.

**Numbers**

- Samples are reals. Float32 storage, IEEE-754 rounding, and floating-point accumulation order in sums are not modelled.
- `Math.sqrt` and `Math.log10` are abstract functions with stated laws; they are not computed.
- JavaScript's infinities and `NaN` are modelled only where the code produces them: silence levels, the loudness range, the amplitude labels, the one-sample rate of change, the empty range and zero-width divisions in the renderer.

**Input restrictions**

- Results.Channel: a decoded buffer is assumed to have at least one frame. Web Audio never produces an empty buffer.
- Results.SampleRate: the sample rate is assumed to be at least 10 Hz. Below that the 100 ms step is 0 samples and the source's loop would not advance. Web Audio sample rates start at 3000 Hz.
- TimeSeries.PointFn, TimeSeries.BandFn: these specification functions give a placeholder point at indices past the buffer's end. Only indices inside the buffer are ever sampled.

**How the model is written**

- Analyzer.ProgressShare: `100 / 0` for an empty batch is written as 0. It is never added, because an empty batch runs no step.
- Analyzer.AudioAnalyzer.AnalyzeEach: this is the loop of `analyzeFiles`, split out as its own method.
- Renderer.AxisTime: (i/10)·total is computed as i additions of total/10. AxisTimeIsFraction proves that this equals the source's product.

**Behaviour worth knowing**

- Summary.SummaryOfOne: one might expect a single file to give a loudness range of 0. The code gives that only for finite loudness. For a silent file it computes -Infinity - (-Infinity) = `NaN`. The model keeps the code's `NaN`.
