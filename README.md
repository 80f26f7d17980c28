# Voice health monitoring: scoring pipeline and in-memory stores

A Dafny model of the backend of a voice health monitoring service. A patient
uploads a short voice recording; the service extracts four acoustic features
(pitch, speech rate, pause duration, voice energy), classifies each against an
alert band into normal / warning / critical, derives a fatigue score and a
stress indicator, aggregates an overall status (normal / attention_needed /
critical), builds a recommendation list, and appends the result to that
patient's in-memory history. Two more handlers return the latest result and
the last five results, and a configuration handler replaces one metric's alert
band.

Files:

- `wrappers.dfy` (`Wrappers`): `Option` and `Result`.
- `models.dfy` (`Models`): the records of `backend/app/models.py`: `Status`,
  `OverallStatus`, `Metric` (string status), `MetricReading` (literal status),
  `HealthIndicators`, `AnalysisResult`, `ThresholdConfig`, and the validation
  that turns a `Metric` into a `MetricReading`.
- `audio_analysis.dfy` (`AudioAnalysis`): everything in
  `backend/app/audio_analysis.py` after the features exist: the classifier,
  the pitch sentinel, the pause loop (`ComputePauses`, a `while` loop proved
  against `PauseValue`), the metrics map, fatigue and stress, the overall
  status, the recommendation list (`BuildRecommendations`, built by
  conditional appends, proved against `Recommendations`), and the whole
  analysis (`AnalyzeAudio`, proved against `Analysis`).
- `main.dfy` (`Api`): `backend/app/main.py`: the upload filename check,
  `PatientStore` (the per-patient history, with `UploadSample`, `Latest`,
  `History`), `AlertRegistry` (the threshold table and `Configure`), and
  client scenarios from `backend/tests/test_api.py`.

Behaviours of the code that the model keeps as they are:

- There are two threshold tables. `AudioAnalysis.ALERT_THRESHOLDS` is the one
  classification reads; `Api.AlertRegistry.thresholds` is the one
  `Configure` writes. Both start from the same bands, and configuring a band
  does not change any classification (`ConfigurePitchScenario`).
- `Configure` does not check `low <= high`; an inverted band is stored
  (`ConfigureEdgeScenario`).
- Fatigue is `min(1, 1 - energy)` and stress `min(1, pitch / 500)`: capped
  above only. Fatigue is negative for an energy above 1.
- Leading silence before the first non-silent interval is a pause: the first
  gap is measured from sample 0, so one interval starting at sample 8000
  gives a pause of 0.5 s (`SingleIntervalLeadingSilence`). Trailing silence
  is not a pause.
- The history window is fixed at five results.
- Latest and history report not-found both for an unknown id and for an
  empty list; under the store invariant the two coincide
  (`NotFoundOnlyForUnknownIds`).
- Statuses are computed on unrounded values while the metric stores the value
  rounded to two places; likewise the stored fatigue and stress are rounded
  while the medication recommendation reads the unrounded fatigue
  (`AnalysisRoundsOnlyStoredValues` for every input;
  `StatusUsesUnroundedValue` and `MedicationUsesUnroundedFatigue` show inputs
  where the difference decides the outcome).
- A value exactly at a positive band end is a warning, not normal
  (`BandEndsAreWarning`); a narrow band has no normal values at all
  (`NarrowBandHasNoNormal`).

Inputs that stand for code outside the model: `Features` carries what the
signal-processing library computes (the per-frame pitch track with `None` for
a frame without pitch, the mean RMS energy, the tempo, the non-silent
intervals as sample indices); `median` stands for the NaN-ignoring median;
`sampleId` and `timestamp` stand for the random identifier and the UTC clock;
`decoded == None` in `UploadSample` stands for any exception raised while the
upload is written to disk, loaded or analysed.

## Model

| member | source | states |
|---|---|---|
| `Models.ParseStatusRoundTrip` | backend/app/models.py:5 | `ParseStatus`, the `Status` literal type, accepts exactly "normal", "warning", "critical", and parsing a status's literal gives the status back |
| `Models.ReadingOf` | backend/app/models.py:8-16 | a `Metric` with an arbitrary status string becomes a `MetricReading` exactly when its status is one of the three literals, keeping value, unit and status |
| `Models.Validate` | backend/app/models.py:28 | a metrics map is accepted into a result exactly when every metric converts; the keys are kept and each entry is its converted metric |
| `AudioAnalysis.Round2` | backend/app/audio_analysis.py:60-63 | the stored value is within half a hundredth of the raw value and is a whole number of hundredths |
| `AudioAnalysis.ClassifyTiers` | backend/app/audio_analysis.py:51-57 | `Classify` is critical exactly when the value is below `low` or above `high`; warning exactly when inside `[low, high]` and below `low*1.1` or above `high*0.9`; normal exactly in the rest of the band |
| `AudioAnalysis.BandEndsAreWarning` | backend/app/audio_analysis.py:53-56 | `Classify` never calls the ends of an ordered band critical, and calls a positive end a warning |
| `AudioAnalysis.CriticalBelowLowIsMonotone` | backend/app/audio_analysis.py:53-54 | lowering a value that is below `low` keeps `Classify` at critical |
| `AudioAnalysis.NarrowBandHasNoNormal` | backend/app/audio_analysis.py:55-57 | when `low*1.1 > high*0.9`, `Classify` calls no value normal |
| `AudioAnalysis.DefaultNormalRanges` | backend/app/audio_analysis.py:12-17 | under the default bands, `StatusOf` (`Classify` on the analysis table) is normal exactly on pitch [88, 270], speech rate [99, 144], pause [0, 1.8], energy [0.33, 0.9] |
| `AudioAnalysis.Voiced` | backend/app/audio_analysis.py:28 | the voiced pitches are no more than the frames and each comes from a frame that has a pitch |
| `AudioAnalysis.VoicedEmptyIffNoPitch` | backend/app/audio_analysis.py:28 | there is no voiced pitch exactly when no frame has a pitch |
| `AudioAnalysis.VoicedKeepsEveryPitch` | backend/app/audio_analysis.py:28 | the voiced pitches are, as a multiset, exactly the pitches of the frames that have one: every pitch is kept as often as it occurs |
| `AudioAnalysis.PitchSentinel` | backend/app/audio_analysis.py:28 | `PitchValue` is 0.0 with no pitched frame; otherwise it is the median of a non-empty sequence of voiced pitches |
| `AudioAnalysis.Positives` | backend/app/audio_analysis.py:42-44 | only strictly positive gaps are recorded, each one a gap of the input, and no more of them than gaps |
| `AudioAnalysis.PositivesEmptyIff` | backend/app/audio_analysis.py:43-46 | no pause is recorded exactly when no gap is positive |
| `AudioAnalysis.PositivesKeepsEveryPositive` | backend/app/audio_analysis.py:42-44 | as a multiset, the recorded pauses are exactly the positive gaps, each as often as it occurs, and no non-positive gap |
| `AudioAnalysis.PositivesKeepsFirst` | backend/app/audio_analysis.py:40-44 | a positive first gap is the first recorded pause |
| `AudioAnalysis.ComputePauses` | backend/app/audio_analysis.py:38-46 | the loop over the intervals, carrying the previous end from sample 0, yields the mean of the positive gaps before each interval, or 0.0 without any |
| `AudioAnalysis.PausesShape` | backend/app/audio_analysis.py:39-45 | every recorded pause is strictly positive, there are no more pauses than intervals, and leading silence is the first pause, measured from sample 0 |
| `AudioAnalysis.PauseValueSign` | backend/app/audio_analysis.py:38-46 | `PauseValue` is never negative and is positive exactly when some interval starts after the previous end (or after sample 0) |
| `AudioAnalysis.SingleIntervalLeadingSilence` | backend/app/audio_analysis.py:40-46 | `PauseValue` of one interval starting at sample 8000 is 0.5 s |
| `AudioAnalysis.BuildMetrics` | backend/app/audio_analysis.py:59-64 | the metrics map has exactly the four names; each entry stores its raw value rounded to two places, its unit ("Hz", "words/min", "seconds", "normalized") and the status of the unrounded value, always one of the three literals |
| `AudioAnalysis.StatusUsesUnroundedValue` | backend/app/audio_analysis.py:60 | a pitch of 79.999 is stored as 80.0 with status critical, although 80.0 itself is a warning |
| `AudioAnalysis.IndicatorBounds` | backend/app/audio_analysis.py:69-70 | `Fatigue` and `Stress` are at most 1, `Stress` is at least 0 for a non-negative pitch and 1 from 500 Hz, `Fatigue` is `1 - energy` for non-negative energy and negative above energy 1 |
| `AudioAnalysis.OverallPrecedence` | backend/app/audio_analysis.py:72-77 | with literal statuses, `Overall` is critical iff some metric is critical, attention_needed iff none is critical and some is a warning, normal iff all are normal |
| `AudioAnalysis.OverallIsWorst` | backend/app/audio_analysis.py:72-77 | `Overall` is as severe as the most severe metric: none is more severe and one is equally severe |
| `AudioAnalysis.OverallMonotone` | backend/app/audio_analysis.py:72-77 | making metrics more severe never improves `Overall` |
| `AudioAnalysis.BuildRecommendations` | backend/app/audio_analysis.py:79-95 | the list built by conditional appends, with the no-action fallback, is the list `Recommendations` describes |
| `AudioAnalysis.RecommendationsShape` | backend/app/audio_analysis.py:79-95 | `Recommendations` is never empty; follow-up is present iff the overall status is not normal; medication timing iff fatigue exceeds 0.6, after follow-up; exactly ["No action needed"] iff neither fires |
| `AudioAnalysis.Analysis` | backend/app/audio_analysis.py:85-96 | the result carries the given patient id, sample id and timestamp |
| `AudioAnalysis.AnalysisWellFormed` | backend/app/audio_analysis.py:59-95 | every result has exactly the four metrics, a non-empty recommendation list, and an overall status that is critical iff some reading is critical and normal iff all are normal |
| `AudioAnalysis.AnalysisRoundsOnlyStoredValues` | backend/app/audio_analysis.py:59-96 | every stored metric is the rounded raw feature with its unit and the status of the unrounded feature; the stored fatigue and stress are the rounded indicators; the recommendations are decided on the overall status and the unrounded fatigue |
| `AudioAnalysis.AnalyzeAudio` | backend/app/audio_analysis.py:19-97 | the step-by-step analysis returns exactly `Analysis` of its inputs |
| `AudioAnalysis.SilentRecordingIsCritical` | backend/app/audio_analysis.py:60-83 | a recording without pitch and with zero energy is critical on pitch and energy and overall, with recommendations ["Consider follow-up", "Check medication timing"] |
| `AudioAnalysis.MedicationUsesUnroundedFatigue` | backend/app/audio_analysis.py:82-91 | an energy of 0.399 triggers the medication recommendation while the stored fatigue score is 0.6 |
| `Api.EndsWithIffConcat` | backend/app/main.py:54 | `EndsWith`: a filename ends with a suffix exactly when it is some stem followed by that suffix |
| `Api.AudioSuffixExamples` | backend/app/main.py:54-55 | `HasAudioSuffix` refuses "test.txt" and "test.WAV", accepts ".wav", ".mp3" and ".flac" names, and refuses the empty name |
| `Api.LastN` | backend/app/main.py:78 | the window has min(n, length) elements, the last ones of the history in insertion order |
| `Api.LastNAfterAppend` | backend/app/main.py:78 | after an append the window is the previous window one shorter followed by the new element |
| `Api.StoreAppendKeepsInvariant` | backend/app/main.py:63 | appending a well-formed result of the same patient keeps every history non-empty, single-patient and well formed |
| `Api.PatientStore.constructor` | backend/app/main.py:39 | the store starts empty and satisfies its invariant |
| `Api.PatientStore.Latest` | backend/app/main.py:69-72 | not-found exactly when the id is absent or its history empty; otherwise the last element |
| `Api.PatientStore.History` | backend/app/main.py:74-78 | not-found exactly when the id is absent or its history empty; otherwise the last min(5, n) results in insertion order, ending with the latest |
| `Api.NotFoundOnlyForUnknownIds` | backend/app/main.py:70-77 | in a store filled only by uploads, latest and history fail exactly for an id never stored |
| `Api.PatientStore.Record` | backend/app/main.py:63 | appending a well-formed result of the same patient keeps the store invariant; the patient's history (fresh for a new id) grows by exactly the new result, which becomes the latest and ends the history window; other patients are unchanged |
| `Api.PatientStore.UploadSample` | backend/app/main.py:52-66 | a filename without an audio suffix is refused and a failed analysis reported, both leaving the store unchanged; otherwise the analysis of the recording is appended and returned, and the invariant is kept |
| `Api.AlertRegistry.constructor` | backend/app/main.py:40-45 | the registry starts with the four default bands |
| `Api.AlertRegistry.Configure` | backend/app/main.py:80-85 | an unknown metric is refused with every band unchanged; a known one gets exactly `(low, high)`, unchecked, the other bands unchanged, and the new band is returned; the key set never changes |
| `Api.ConfigurePitchScenario` | backend/tests/test_api.py:60-70 | configuring pitch to [50, 400] succeeds and stores that band, but a 60 Hz pitch is still classified critical |
| `Api.ConfigureEdgeScenario` | backend/app/main.py:82-84 | the inverted band (400, 100) is accepted and stored; an unknown metric is refused and leaves every band as it was: pitch keeps the inverted band, speech rate, pause duration and energy their defaults |
| `Api.RefusedUploadScenario` | backend/tests/test_api.py:14-22 | uploading "test.txt" fails with invalid file format and leaves the patient without samples |
| `Api.AcceptedUploadScenario` | backend/tests/test_api.py:25-57 | uploading "test.wav" for a fresh patient succeeds; latest returns the result and history is the one-element list holding it |

## Left out

- Feature extraction by the signal-processing library (loading and resampling, pitch tracking between C2 and C7, RMS energy, tempo tracking, the 30 dB silence split): floating-point signal processing in a foreign library; its outputs are the `Features` inputs.
- The NaN-ignoring median and the mean of the RMS frames: the median is the parameter `median`, and the mean energy is an input; only the mean of the pauses is modelled (`Mean`).
- Binary floating point: values are exact reals. `Round2` rounds half to even on the exact real, so it differs from float rounding where the decimal value has no exact binary form (2.675 rounds to 2.68 here, 2.67 in floats), and the soft margins `low*1.1` and `high*0.9` are exact.
- The random sample id and the UTC timestamp: nondeterministic; both are parameters.
- HTTP plumbing: routing, CORS, the API-key header check, the temporary file under `/tmp`, the mapping of errors to status codes 400, 404 and 500, and request-body parsing of `ThresholdConfig`; upload and I/O failures are the single `decoded == None` case.
- The conversion of a result to a dictionary before it is stored (`result.dict()`): the store holds the result record itself.
- A missing upload filename: the model's filename is always a string.
- Concurrency: the handlers are modelled as sequential operations.
- `backend/app/config.py`: environment-variable configuration, process I/O.
- The unused `Thresholds` record (`backend/app/models.py:33-38`) and the unused `patients_data` of `backend/app/audio_analysis.py:11`: dead code.
- The frontend: UI rendering and the HTTP client.
- StatusOf: requires its metric to be in the analysis table; the code calls it only with the four literal names, so its missing-key error cannot occur.
