/** The scoring pipeline of one voice recording: from the four raw acoustic
    features to the metrics map, the health indicators, the overall status
    and the recommendation list. The signal-processing library that yields
    the features is outside the model; its outputs arrive as `Features`. */
module AudioAnalysis {
  import opened Wrappers
  import opened Models

  /** Every recording is resampled to this rate when it is loaded. */
  const SAMPLE_RATE: int := 16000

  const PITCH: string := "pitch"
  const SPEECH_RATE: string := "speech_rate"
  const PAUSE_DURATION: string := "pause_duration"
  const VOICE_ENERGY: string := "voice_energy"

  /** The fixed set of tracked metrics. */
  const METRIC_NAMES: set<string> := {PITCH, SPEECH_RATE, PAUSE_DURATION, VOICE_ENERGY}

  /** An alert band; nothing forces `low <= high`. */
  datatype Band = Band(low: real, high: real)

  /** The bands both threshold tables start from. */
  const DEFAULT_BANDS: map<string, Band> :=
    map[PITCH := Band(80.0, 300.0),
        SPEECH_RATE := Band(90.0, 160.0),
        PAUSE_DURATION := Band(0.0, 2.0),
        VOICE_ENERGY := Band(0.3, 1.0)]

  /** This module's own threshold table. Classification reads it and nothing
      ever writes it: the table that the configuration endpoint updates is a
      different one (`Api.AlertRegistry`). */
  const ALERT_THRESHOLDS: map<string, Band> := DEFAULT_BANDS

  /** The outputs of feature extraction: the per-frame pitch track (`None`
      for a frame without detected pitch), the mean RMS energy, the tempo
      estimate and the non-silent intervals as sample indices. */
  datatype Features = Features(
    pitchFrames: seq<Option<real>>,
    energy: real,
    tempo: real,
    intervals: seq<Interval>)

  datatype Interval = Interval(start: int, end: int)

  // ---------------------------------------------------------------------
  // Rounding of stored values
  // ---------------------------------------------------------------------

  /** Rounding to two decimal places, half to even, on exact reals. */
  function Round2(x: real): (r: real)
    ensures -0.005 <= r - x <= 0.005
    ensures (r * 100.0).Floor as real == r * 100.0
  {
    var scaled := x * 100.0;
    var k := scaled.Floor;
    var frac := scaled - k as real;
    var n := if frac > 0.5 then k + 1
             else if frac < 0.5 then k
             else if k % 2 == 0 then k else k + 1;
    assert (n as real).Floor == n;
    n as real / 100.0
  }

  // ---------------------------------------------------------------------
  // Threshold classification
  // ---------------------------------------------------------------------

  /** The tiered classifier: outside the band is critical; inside it, within
      10% above `low` or above 90% of `high` is warning; otherwise normal. */
  function Classify(band: Band, value: real): Status
  {
    if value < band.low || value > band.high then Status.Critical
    else if value < band.low * 1.1 || value > band.high * 0.9 then Status.Warning
    else Status.Normal
  }

  /** Classification of a named metric against this module's table. */
  function StatusOf(metric: string, value: real): Status
    requires metric in ALERT_THRESHOLDS
  {
    Classify(ALERT_THRESHOLDS[metric], value)
  }

  /** The three tiers: critical exactly outside `[low, high]`, warning
      exactly inside it and in a soft margin, normal exactly inside it and
      outside the soft margin. */
  lemma ClassifyTiers(band: Band, value: real)
    ensures Classify(band, value) == Status.Critical <==> value < band.low || value > band.high
    ensures Classify(band, value) == Status.Warning <==>
              band.low <= value <= band.high && (value < band.low * 1.1 || value > band.high * 0.9)
    ensures Classify(band, value) == Status.Normal <==>
              band.low <= value <= band.high && band.low * 1.1 <= value <= band.high * 0.9
  {
  }

  /** The band's own ends are never critical; with a positive bound the end
      itself falls in the soft margin, so it is a warning, not normal. */
  lemma BandEndsAreWarning(band: Band)
    requires band.low <= band.high
    ensures Classify(band, band.low) != Status.Critical
    ensures Classify(band, band.high) != Status.Critical
    ensures band.low > 0.0 ==> Classify(band, band.low) == Status.Warning
    ensures band.high > 0.0 ==> Classify(band, band.high) == Status.Warning
  {
  }

  /** Lowering a value that is already below `low` keeps it critical. */
  lemma CriticalBelowLowIsMonotone(band: Band, value: real, lower: real)
    requires lower <= value < band.low
    ensures Classify(band, value) == Status.Critical
    ensures Classify(band, lower) == Status.Critical
  {
  }

  /** With a narrow band (`low * 1.1 > high * 0.9`) no value is normal. */
  lemma NarrowBandHasNoNormal(band: Band, value: real)
    requires band.low * 1.1 > band.high * 0.9
    ensures Classify(band, value) != Status.Normal
  {
  }

  /** The normal range of each default band. */
  lemma DefaultNormalRanges(value: real)
    ensures StatusOf(PITCH, value) == Status.Normal <==> 88.0 <= value <= 270.0
    ensures StatusOf(SPEECH_RATE, value) == Status.Normal <==> 99.0 <= value <= 144.0
    ensures StatusOf(PAUSE_DURATION, value) == Status.Normal <==> 0.0 <= value <= 1.8
    ensures StatusOf(VOICE_ENERGY, value) == Status.Normal <==> 0.33 <= value <= 0.9
  {
  }

  // ---------------------------------------------------------------------
  // Pitch: median over voiced frames, or the 0.0 sentinel
  // ---------------------------------------------------------------------

  /** The pitch values of the frames that have one, in frame order. */
  function Voiced(frames: seq<Option<real>>): (r: seq<real>)
    ensures |r| <= |frames|
    ensures forall x :: x in r ==> Some(x) in frames
  {
    if frames == [] then []
    else (if frames[0].Some? then [frames[0].value] else []) + Voiced(frames[1..])
  }

  /** There is no voiced pitch exactly when every frame lacks a pitch. */
  lemma {:induction false} VoicedEmptyIffNoPitch(frames: seq<Option<real>>)
    ensures Voiced(frames) == [] <==> forall i :: 0 <= i < |frames| ==> frames[i].None?
  {
    if frames != [] {
      VoicedEmptyIffNoPitch(frames[1..]);
      assert forall i :: 1 <= i < |frames| ==> frames[i] == frames[1..][i - 1];
    }
  }

  /** Every pitched frame's value is kept, as often as it occurs: the
      voiced pitches are exactly the frames' pitches as a multiset. */
  lemma {:induction false} VoicedKeepsEveryPitch(frames: seq<Option<real>>)
    ensures forall x :: multiset(Voiced(frames))[x] == multiset(frames)[Some(x)]
  {
    if frames != [] {
      VoicedKeepsEveryPitch(frames[1..]);
      assert frames == [frames[0]] + frames[1..];
    }
  }

  /** The pitch feature: the median (a parameter here) of the voiced frames,
      or 0.0 when no frame has a pitch. */
  function PitchValue(frames: seq<Option<real>>, median: seq<real> -> real): real
  {
    if exists i :: 0 <= i < |frames| && frames[i].Some? then median(Voiced(frames)) else 0.0
  }

  /** No voiced frame gives the 0.0 sentinel, and otherwise the median is
      taken over a non-empty sequence. */
  lemma PitchSentinel(frames: seq<Option<real>>, median: seq<real> -> real)
    ensures (forall i :: 0 <= i < |frames| ==> frames[i].None?) ==> PitchValue(frames, median) == 0.0
    ensures (exists i :: 0 <= i < |frames| && frames[i].Some?) ==>
              Voiced(frames) != [] && PitchValue(frames, median) == median(Voiced(frames))
  {
    VoicedEmptyIffNoPitch(frames);
  }

  // ---------------------------------------------------------------------
  // Pauses between non-silent intervals
  // ---------------------------------------------------------------------

  /** The end of the interval before the `i`th one, or sample 0 for the first. */
  function PrevEnd(intervals: seq<Interval>, i: nat): int
    requires i <= |intervals|
  {
    if i == 0 then 0 else intervals[i - 1].end
  }

  /** For each interval, the gap in seconds from the previous interval's end
      (from sample 0 for the first) to its start; gaps may be negative. */
  function GapsBefore(intervals: seq<Interval>): (r: seq<real>)
    ensures |r| == |intervals|
  {
    seq(|intervals|, i requires 0 <= i < |intervals| =>
      (intervals[i].start - PrevEnd(intervals, i)) as real / SAMPLE_RATE as real)
  }

  /** The strictly positive elements of `s`, in order. */
  function Positives(s: seq<real>): (r: seq<real>)
    ensures |r| <= |s|
    ensures forall x :: x in r ==> x in s && x > 0.0
  {
    if s == [] then []
    else Positives(s[..|s| - 1]) + (if s[|s| - 1] > 0.0 then [s[|s| - 1]] else [])
  }

  /** Nothing is kept exactly when no element is positive. */
  lemma {:induction false} PositivesEmptyIff(s: seq<real>)
    ensures Positives(s) == [] <==> forall i :: 0 <= i < |s| ==> s[i] <= 0.0
  {
    if s != [] {
      var init := s[..|s| - 1];
      PositivesEmptyIff(init);
      assert forall i :: 0 <= i < |s| - 1 ==> s[i] == init[i];
    }
  }

  /** Every positive element is kept, as often as it occurs, and nothing
      else is. */
  lemma {:induction false} PositivesKeepsEveryPositive(s: seq<real>)
    ensures forall x :: multiset(Positives(s))[x] == if x > 0.0 then multiset(s)[x] else 0
  {
    if s != [] {
      PositivesKeepsEveryPositive(s[..|s| - 1]);
      assert s == s[..|s| - 1] + [s[|s| - 1]];
    }
  }

  /** A positive first element is the first element kept. */
  lemma {:induction false} PositivesKeepsFirst(s: seq<real>)
    requires s != [] && s[0] > 0.0
    ensures Positives(s) != [] && Positives(s)[0] == s[0]
  {
    if |s| > 1 {
      var init := s[..|s| - 1];
      PositivesKeepsFirst(init);
    } else {
      assert s[..|s| - 1] == [];
    }
  }

  function Sum(s: seq<real>): real
  {
    if s == [] then 0.0 else Sum(s[..|s| - 1]) + s[|s| - 1]
  }

  function Mean(s: seq<real>): real
    requires s != []
  {
    Sum(s) / |s| as real
  }

  /** A non-empty sequence of positive numbers has a positive sum. */
  lemma {:induction false} SumOfPositivesIsPositive(s: seq<real>)
    requires s != []
    requires forall x :: x in s ==> x > 0.0
    ensures Sum(s) > 0.0
  {
    var init := s[..|s| - 1];
    assert s[|s| - 1] in s;
    if init != [] {
      assert forall x :: x in init ==> x in s;
      SumOfPositivesIsPositive(init);
    }
  }

  /** The recorded pauses of a recording. */
  function Pauses(intervals: seq<Interval>): seq<real>
  {
    Positives(GapsBefore(intervals))
  }

  /** The pause feature: the mean of the recorded pauses, or 0.0 without any. */
  function PauseValue(intervals: seq<Interval>): real
  {
    var pauses := Pauses(intervals);
    if pauses != [] then Mean(pauses) else 0.0
  }

  /** The pause loop: walks the intervals once, keeping the previous end. */
  method ComputePauses(intervals: seq<Interval>) returns (pauseVal: real)
    ensures pauseVal == PauseValue(intervals)
  {
    var pauses: seq<real> := [];
    var lastEnd := 0;
    var i := 0;
    while i < |intervals|
      invariant 0 <= i <= |intervals|
      invariant lastEnd == PrevEnd(intervals, i)
      invariant pauses == Positives(GapsBefore(intervals)[..i])
    {
      var pause := (intervals[i].start - lastEnd) as real / SAMPLE_RATE as real;
      ghost var gaps := GapsBefore(intervals);
      assert gaps[..i + 1][..i] == gaps[..i];
      assert gaps[i] == pause;
      if pause > 0.0 {
        pauses := pauses + [pause];
      }
      lastEnd := intervals[i].end;
      i := i + 1;
    }
    assert GapsBefore(intervals)[..i] == GapsBefore(intervals);
    pauseVal := if pauses != [] then Mean(pauses) else 0.0;
  }

  /** Every recorded pause is strictly positive, there are no more pauses
      than intervals, and leading silence before the first interval is
      measured from sample 0 and counts as a pause. */
  lemma PausesShape(intervals: seq<Interval>)
    ensures forall i :: 0 <= i < |Pauses(intervals)| ==> Pauses(intervals)[i] > 0.0
    ensures |Pauses(intervals)| <= |intervals|
    ensures |intervals| > 0 && intervals[0].start > 0 ==>
              Pauses(intervals) != [] &&
              Pauses(intervals)[0] == intervals[0].start as real / SAMPLE_RATE as real
  {
    var gaps := GapsBefore(intervals);
    assert forall i :: 0 <= i < |Pauses(intervals)| ==> Pauses(intervals)[i] in Pauses(intervals);
    if |intervals| > 0 && intervals[0].start > 0 {
      PositivesKeepsFirst(gaps);
    }
  }

  /** The mean of positive numbers is positive. */
  lemma MeanOfPositivesIsPositive(s: seq<real>)
    requires s != []
    requires forall x :: x in s ==> x > 0.0
    ensures Mean(s) > 0.0
  {
    SumOfPositivesIsPositive(s);
    var n := |s| as real;
    assert n > 0.0;
    assert Sum(s) / n > 0.0;
  }

  /** The pause feature is never negative; it is positive exactly when some
      interval starts strictly after the previous one ended. */
  lemma PauseValueSign(intervals: seq<Interval>)
    ensures PauseValue(intervals) >= 0.0
    ensures PauseValue(intervals) > 0.0 <==>
              exists i :: 0 <= i < |intervals| && intervals[i].start > PrevEnd(intervals, i)
  {
    var gaps := GapsBefore(intervals);
    var pauses := Pauses(intervals);
    PositivesEmptyIff(gaps);
    if pauses != [] {
      MeanOfPositivesIsPositive(pauses);
    }
    forall i | 0 <= i < |intervals|
      ensures gaps[i] > 0.0 <==> intervals[i].start > PrevEnd(intervals, i)
    {
      var d := (intervals[i].start - PrevEnd(intervals, i)) as real;
      assert gaps[i] == d / 16000.0;
    }
  }

  /** One interval that starts half a second in: the leading silence alone
      gives a pause feature of 0.5 seconds. */
  lemma SingleIntervalLeadingSilence()
    ensures PauseValue([Interval(8000, 16000)]) == 0.5
  {
  }

  // ---------------------------------------------------------------------
  // The metrics map
  // ---------------------------------------------------------------------

  /** The four metrics: each stores its value rounded to two places and its
      status computed on the unrounded value. */
  function BuildMetrics(pitch: real, speechRate: real, pause: real, energy: real): (r: map<string, Metric>)
    ensures r.Keys == METRIC_NAMES
    ensures forall k :: k in r ==> ReadingOf(r[k]).Some?
    ensures r[PITCH] == Metric(Round2(pitch), "Hz", StatusOf(PITCH, pitch).Literal())
    ensures r[SPEECH_RATE] == Metric(Round2(speechRate), "words/min", StatusOf(SPEECH_RATE, speechRate).Literal())
    ensures r[PAUSE_DURATION] == Metric(Round2(pause), "seconds", StatusOf(PAUSE_DURATION, pause).Literal())
    ensures r[VOICE_ENERGY] == Metric(Round2(energy), "normalized", StatusOf(VOICE_ENERGY, energy).Literal())
  {
    map[PITCH := Metric(Round2(pitch), "Hz", StatusOf(PITCH, pitch).Literal()),
        SPEECH_RATE := Metric(Round2(speechRate), "words/min", StatusOf(SPEECH_RATE, speechRate).Literal()),
        PAUSE_DURATION := Metric(Round2(pause), "seconds", StatusOf(PAUSE_DURATION, pause).Literal()),
        VOICE_ENERGY := Metric(Round2(energy), "normalized", StatusOf(VOICE_ENERGY, energy).Literal())]
  }

  /** A pitch just under the band is critical although its stored, rounded
      value sits on the band's lower end. */
  lemma StatusUsesUnroundedValue()
    ensures BuildMetrics(79.999, 120.0, 0.5, 0.5)[PITCH].value == 80.0
    ensures BuildMetrics(79.999, 120.0, 0.5, 0.5)[PITCH].status == "critical"
    ensures StatusOf(PITCH, 80.0) == Status.Warning
  {
  }

  // ---------------------------------------------------------------------
  // Health indicators and the overall status
  // ---------------------------------------------------------------------

  /** Fatigue rises as energy falls; it is capped at 1 but not bounded below. */
  function Fatigue(energy: real): real
  {
    if 1.0 < 1.0 - energy then 1.0 else 1.0 - energy
  }

  /** Stress rises with pitch and saturates at 500 Hz; it is capped at 1 only. */
  function Stress(pitch: real): real
  {
    if 1.0 < pitch / 500.0 then 1.0 else pitch / 500.0
  }

  /** Both indicators are at most 1; stress is at least 0 for a non-negative
      pitch; fatigue is negative for an energy above 1. */
  lemma IndicatorBounds(energy: real, pitch: real)
    ensures Fatigue(energy) <= 1.0 && Stress(pitch) <= 1.0
    ensures pitch >= 0.0 ==> Stress(pitch) >= 0.0
    ensures pitch >= 500.0 ==> Stress(pitch) == 1.0
    ensures energy >= 0.0 ==> Fatigue(energy) == 1.0 - energy
    ensures energy > 1.0 ==> Fatigue(energy) < 0.0
  {
  }

  /** Strict precedence over the metrics' status strings. */
  function Overall(metrics: map<string, Metric>): OverallStatus
  {
    if exists k :: k in metrics && metrics[k].status == Status.Critical.Literal() then OverallStatus.Critical
    else if exists k :: k in metrics && metrics[k].status == Status.Warning.Literal() then OverallStatus.AttentionNeeded
    else OverallStatus.Normal
  }

  function Severity(s: Status): nat
  {
    match s
    case Normal => 0
    case Warning => 1
    case Critical => 2
  }

  function Rank(s: OverallStatus): nat
  {
    match s
    case Normal => 0
    case AttentionNeeded => 1
    case Critical => 2
  }

  /** Every metric carries one of the three status literals. */
  ghost predicate AllValid(metrics: map<string, Metric>)
  {
    forall k :: k in metrics ==> ParseStatus(metrics[k].status).Some?
  }

  /** One critical metric overrides any warning; normal overall means every
      metric is normal, once every status is one of the three literals. */
  lemma OverallPrecedence(metrics: map<string, Metric>)
    requires AllValid(metrics)
    ensures Overall(metrics) == OverallStatus.Critical <==>
              exists k :: k in metrics && metrics[k].status == "critical"
    ensures Overall(metrics) == OverallStatus.AttentionNeeded <==>
              (forall k :: k in metrics ==> metrics[k].status != "critical") &&
              (exists k :: k in metrics && metrics[k].status == "warning")
    ensures Overall(metrics) == OverallStatus.Normal <==>
              forall k :: k in metrics ==> metrics[k].status == "normal"
  {
  }

  /** The overall status is the worst metric status: no metric is more
      severe, and some metric is exactly as severe when there is one. */
  lemma OverallIsWorst(metrics: map<string, Metric>)
    requires AllValid(metrics)
    ensures forall k :: k in metrics ==>
              Severity(ParseStatus(metrics[k].status).value) <= Rank(Overall(metrics))
    ensures metrics != map[] ==>
              exists k :: k in metrics && Severity(ParseStatus(metrics[k].status).value) == Rank(Overall(metrics))
  {
  }

  /** Making any metric more severe never makes the overall status better. */
  lemma OverallMonotone(before: map<string, Metric>, after: map<string, Metric>)
    requires AllValid(before) && AllValid(after)
    requires before.Keys == after.Keys
    requires forall k :: k in before ==>
               Severity(ParseStatus(before[k].status).value) <= Severity(ParseStatus(after[k].status).value)
    ensures Rank(Overall(before)) <= Rank(Overall(after))
  {
  }

  // ---------------------------------------------------------------------
  // Recommendations
  // ---------------------------------------------------------------------

  const FOLLOW_UP: string := "Consider follow-up"
  const MEDICATION: string := "Check medication timing"
  const NO_ACTION: string := "No action needed"

  /** The recommendation list: follow-up when the overall status is not
      normal, then medication timing when fatigue exceeds 0.6, and the
      single no-action entry when neither fires. */
  function Recommendations(overall: OverallStatus, fatigue: real): seq<string>
  {
    var fired := (if overall != OverallStatus.Normal then [FOLLOW_UP] else [])
               + (if fatigue > 0.6 then [MEDICATION] else []);
    if fired != [] then fired else [NO_ACTION]
  }

  /** The list built by conditional appends, with the no-action fallback. */
  method BuildRecommendations(overall: OverallStatus, fatigue: real) returns (recs: seq<string>)
    ensures recs == Recommendations(overall, fatigue)
  {
    var list: seq<string> := [];
    if overall != OverallStatus.Normal {
      list := list + [FOLLOW_UP];
    }
    if fatigue > 0.6 {
      list := list + [MEDICATION];
    }
    recs := if list != [] then list else [NO_ACTION];
  }

  /** The list is never empty; each entry is present exactly when its
      condition fires, follow-up comes first, and no-action stands alone. */
  lemma RecommendationsShape(overall: OverallStatus, fatigue: real)
    ensures Recommendations(overall, fatigue) != []
    ensures FOLLOW_UP in Recommendations(overall, fatigue) <==> overall != OverallStatus.Normal
    ensures MEDICATION in Recommendations(overall, fatigue) <==> fatigue > 0.6
    ensures Recommendations(overall, fatigue) == [NO_ACTION] <==>
              overall == OverallStatus.Normal && fatigue <= 0.6
    ensures FOLLOW_UP in Recommendations(overall, fatigue) && MEDICATION in Recommendations(overall, fatigue) ==>
              Recommendations(overall, fatigue) == [FOLLOW_UP, MEDICATION]
  {
  }

  // ---------------------------------------------------------------------
  // The whole analysis
  // ---------------------------------------------------------------------

  /** The analysis result of one recording's features. */
  function Analysis(f: Features, median: seq<real> -> real,
                    patientId: string, sampleId: string, timestamp: string): (r: AnalysisResult)
    ensures r.patientId == patientId && r.sampleId == sampleId && r.timestamp == timestamp
  {
    var pitch := PitchValue(f.pitchFrames, median);
    var metrics := BuildMetrics(pitch, f.tempo, PauseValue(f.intervals), f.energy);
    var fatigue := Fatigue(f.energy);
    var overall := Overall(metrics);
    var readings := Validate(metrics);
    AnalysisResult(
      sampleId, timestamp, patientId, readings.value,
      HealthIndicators(Round2(fatigue), Round2(Stress(pitch)), overall),
      Recommendations(overall, fatigue))
  }

  /** What every stored result satisfies: exactly the four metrics, a
      non-empty recommendation list, and an overall status that follows the
      readings by strict precedence. */
  ghost predicate WellFormed(r: AnalysisResult)
  {
    && r.metrics.Keys == METRIC_NAMES
    && r.recommendations != []
    && (r.healthIndicators.overallStatus == OverallStatus.Critical <==>
          exists k :: k in r.metrics && r.metrics[k].status == Status.Critical)
    && (r.healthIndicators.overallStatus == OverallStatus.Normal <==>
          forall k :: k in r.metrics ==> r.metrics[k].status == Status.Normal)
  }

  /** Every analysis result is well formed. */
  lemma AnalysisWellFormed(f: Features, median: seq<real> -> real,
                           patientId: string, sampleId: string, timestamp: string)
    ensures WellFormed(Analysis(f, median, patientId, sampleId, timestamp))
  {
  }

  /** Only stored numbers are rounded: every metric holds the rounded raw
      feature with the status of the unrounded one, the two indicators are
      the rounded fatigue and stress, and the recommendations are decided on
      the unrounded fatigue. */
  lemma AnalysisRoundsOnlyStoredValues(f: Features, median: seq<real> -> real,
                                       patientId: string, sampleId: string, timestamp: string)
    ensures var r := Analysis(f, median, patientId, sampleId, timestamp);
            var pitch := PitchValue(f.pitchFrames, median);
            && r.metrics[PITCH] == MetricReading(Round2(pitch), "Hz", StatusOf(PITCH, pitch))
            && r.metrics[SPEECH_RATE] == MetricReading(Round2(f.tempo), "words/min", StatusOf(SPEECH_RATE, f.tempo))
            && r.metrics[PAUSE_DURATION] ==
                 MetricReading(Round2(PauseValue(f.intervals)), "seconds",
                               StatusOf(PAUSE_DURATION, PauseValue(f.intervals)))
            && r.metrics[VOICE_ENERGY] ==
                 MetricReading(Round2(f.energy), "normalized", StatusOf(VOICE_ENERGY, f.energy))
            && r.healthIndicators.fatigueScore == Round2(Fatigue(f.energy))
            && r.healthIndicators.stressIndicator == Round2(Stress(pitch))
            && r.recommendations == Recommendations(r.healthIndicators.overallStatus, Fatigue(f.energy))
  {
  }

  /** The analysis loop: the pause feature is computed step by step and the
      recommendation list by conditional appends. */
  method AnalyzeAudio(f: Features, median: seq<real> -> real,
                      patientId: string, sampleId: string, timestamp: string) returns (result: AnalysisResult)
    ensures result == Analysis(f, median, patientId, sampleId, timestamp)
  {
    var pitchVal := PitchValue(f.pitchFrames, median);
    var energyVal := f.energy;
    var speechRateVal := f.tempo;
    var pauseVal := ComputePauses(f.intervals);
    var metrics := BuildMetrics(pitchVal, speechRateVal, pauseVal, energyVal);
    var fatigue := Fatigue(energyVal);
    var stress := Stress(pitchVal);
    var overall := Overall(metrics);
    var recs := BuildRecommendations(overall, fatigue);
    var readings := Validate(metrics);
    result := AnalysisResult(
      sampleId, timestamp, patientId, readings.value,
      HealthIndicators(Round2(fatigue), Round2(stress), overall),
      recs);
  }

  /** A silent recording (no pitch in any frame, zero energy) is critical on
      pitch and energy, hence critical overall, and gets both follow-up and
      medication-timing recommendations. */
  lemma SilentRecordingIsCritical(frames: seq<Option<real>>, tempo: real, intervals: seq<Interval>,
                                  median: seq<real> -> real, id: string, sampleId: string, timestamp: string)
    requires forall i :: 0 <= i < |frames| ==> frames[i].None?
    ensures Analysis(Features(frames, 0.0, tempo, intervals), median, id, sampleId, timestamp).metrics[PITCH].status
              == Status.Critical
    ensures Analysis(Features(frames, 0.0, tempo, intervals), median, id, sampleId, timestamp).metrics[VOICE_ENERGY].status
              == Status.Critical
    ensures Analysis(Features(frames, 0.0, tempo, intervals), median, id, sampleId, timestamp).healthIndicators.overallStatus
              == OverallStatus.Critical
    ensures Analysis(Features(frames, 0.0, tempo, intervals), median, id, sampleId, timestamp).recommendations
              == [FOLLOW_UP, MEDICATION]
  {
  }

  /** The medication recommendation reads the unrounded fatigue: an energy of
      0.399 triggers it although the stored fatigue score is 0.6. */
  lemma MedicationUsesUnroundedFatigue(frames: seq<Option<real>>, tempo: real, intervals: seq<Interval>,
                                       median: seq<real> -> real, id: string, sampleId: string, timestamp: string)
    ensures MEDICATION in Analysis(Features(frames, 0.399, tempo, intervals), median, id, sampleId, timestamp).recommendations
    ensures Analysis(Features(frames, 0.399, tempo, intervals), median, id, sampleId, timestamp).healthIndicators.fatigueScore
              == 0.6
  {
  }
}
