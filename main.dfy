/** The service's handlers and their in-memory state: the per-patient
    history store with upload, latest and history, the alert-threshold
    registry with its configuration handler, and the upload filename check.
    Routing, authentication, temporary files and HTTP status codes are
    outside the model. */
module Api {
  import opened Wrappers
  import opened Models
  import opened AudioAnalysis

  /** The number of most recent results the history handler returns. */
  const HISTORY_WINDOW: nat := 5

  datatype UploadError = InvalidFileFormat | AnalysisFailed
  datatype LookupError = NoSamplesFound | NoHistoryFound
  datatype ConfigError = InvalidMetric

  // ---------------------------------------------------------------------
  // Upload filename check
  // ---------------------------------------------------------------------

  /** Case-sensitive suffix test. */
  predicate EndsWith(s: string, suffix: string)
  {
    |suffix| <= |s| && s[|s| - |suffix|..] == suffix
  }

  /** `s` ends with `suffix` exactly when it is some stem followed by `suffix`. */
  lemma EndsWithIffConcat(s: string, suffix: string)
    ensures EndsWith(s, suffix) <==> exists stem :: s == stem + suffix
  {
    if EndsWith(s, suffix) {
      var stem := s[..|s| - |suffix|];
      assert s == stem + suffix;
    }
    if exists stem :: s == stem + suffix {
      var stem :| s == stem + suffix;
      assert s[|s| - |suffix|..] == suffix;
    }
  }

  /** The accepted upload formats: WAV, MP3 or FLAC, by filename suffix. */
  predicate HasAudioSuffix(filename: string)
  {
    EndsWith(filename, ".wav") || EndsWith(filename, ".mp3") || EndsWith(filename, ".flac")
  }

  /** A text file is refused, a WAV file accepted; the test is case
      sensitive and an empty stem is accepted. */
  lemma AudioSuffixExamples()
    ensures !HasAudioSuffix("test.txt")
    ensures HasAudioSuffix("test.wav") && HasAudioSuffix("a.mp3") && HasAudioSuffix("a.flac")
    ensures !HasAudioSuffix("test.WAV")
    ensures HasAudioSuffix(".wav")
    ensures !HasAudioSuffix("")
  {
  }

  // ---------------------------------------------------------------------
  // History windows
  // ---------------------------------------------------------------------

  /** The last `n` elements of `s` (all of `s` when it is shorter), in order:
      for `n >= 1` the slice `s[-n:]`, and empty for `n == 0`. */
  function LastN<T>(s: seq<T>, n: nat): (r: seq<T>)
    ensures |r| == if n < |s| then n else |s|
    ensures forall i :: 0 <= i < |r| ==> r[i] == s[|s| - |r| + i]
  {
    s[|s| - (if n < |s| then n else |s|)..]
  }

  /** After an append, the window ends with the new element and is preceded
      by the previous window one shorter. */
  lemma LastNAfterAppend<T>(s: seq<T>, x: T, n: nat)
    requires n > 0
    ensures LastN(s + [x], n) == LastN(s, n - 1) + [x]
  {
  }

  /** The history of `id`, empty for an id never seen. */
  function HistoryOf(samples: map<string, seq<AnalysisResult>>, id: string): seq<AnalysisResult>
  {
    if id in samples then samples[id] else []
  }

  // ---------------------------------------------------------------------
  // Patient record store
  // ---------------------------------------------------------------------

  /** Only uploads create histories, so each is non-empty, holds the
      patient's own results only, and every result is well formed. */
  ghost predicate StoreInvariant(samples: map<string, seq<AnalysisResult>>)
  {
    forall id :: id in samples ==>
      && samples[id] != []
      && forall i :: 0 <= i < |samples[id]| ==>
           samples[id][i].patientId == id && WellFormed(samples[id][i])
  }

  /** Appending a well-formed result of patient `id` to that patient's
      history keeps the store invariant. */
  lemma StoreAppendKeepsInvariant(samples: map<string, seq<AnalysisResult>>, id: string, result: AnalysisResult)
    requires StoreInvariant(samples)
    requires result.patientId == id && WellFormed(result)
    ensures StoreInvariant(samples[id := HistoryOf(samples, id) + [result]])
  {
  }

  class PatientStore {
    /** Results per patient id, in insertion order. */
    var samples: map<string, seq<AnalysisResult>>

    /** The store invariant on this object's histories. */
    ghost predicate Valid()
      reads this
    {
      StoreInvariant(samples)
    }

    constructor ()
      ensures Valid() && samples == map[]
    {
      samples := map[];
    }

    /** The most recent result of `id`, or not-found without any. */
    function Latest(id: string): (r: Result<AnalysisResult, LookupError>)
      reads this
      ensures r.Success? <==> id in samples && samples[id] != []
      ensures r.Success? ==> r.value == samples[id][|samples[id]| - 1]
      ensures r.Failure? ==> r.error == NoSamplesFound
    {
      if id !in samples || samples[id] == [] then Failure(NoSamplesFound)
      else Success(samples[id][|samples[id]| - 1])
    }

    /** The last five results of `id` in insertion order, or not-found without any. */
    function History(id: string): (r: Result<seq<AnalysisResult>, LookupError>)
      reads this
      ensures r.Success? <==> id in samples && samples[id] != []
      ensures r.Success? ==>
                |r.value| == (if |samples[id]| < HISTORY_WINDOW then |samples[id]| else HISTORY_WINDOW)
      ensures r.Success? ==> forall i :: 0 <= i < |r.value| ==> r.value[i] == samples[id][|samples[id]| - |r.value| + i]
      ensures r.Success? ==> Latest(id) == Success(r.value[|r.value| - 1])
      ensures r.Failure? ==> r.error == NoHistoryFound
    {
      if id !in samples || samples[id] == [] then Failure(NoHistoryFound)
      else Success(LastN(samples[id], HISTORY_WINDOW))
    }

    /** Appends `result` to the history of `id`, creating the history for a
        new id; a well-formed result of that patient keeps the invariant. */
    method Record(id: string, result: AnalysisResult)
      requires Valid()
      requires result.patientId == id && WellFormed(result)
      modifies this
      ensures Valid()
      ensures samples == old(samples)[id := HistoryOf(old(samples), id) + [result]]
      ensures |HistoryOf(samples, id)| == |HistoryOf(old(samples), id)| + 1
      ensures Latest(id) == Success(result)
      ensures History(id) == Success(LastN(HistoryOf(old(samples), id), HISTORY_WINDOW - 1) + [result])
      ensures forall other :: other != id ==> HistoryOf(samples, other) == HistoryOf(old(samples), other)
    {
      var previous := HistoryOf(samples, id);
      var after := samples[id := previous + [result]];
      StoreAppendKeepsInvariant(samples, id, result);
      LastNAfterAppend(previous, result, HISTORY_WINDOW);
      assert after[id] == previous + [result];
      samples := after;
      assert History(id) == Success(LastN(previous + [result], HISTORY_WINDOW));
    }

    /** Upload handler: refuses a filename without an audio suffix, reports
        a failed analysis (`decoded` is `None` when loading the audio
        raised), and otherwise records the new result. */
    method UploadSample(id: string, filename: string, decoded: Option<Features>,
                        median: seq<real> -> real, sampleId: string, timestamp: string)
      returns (r: Result<AnalysisResult, UploadError>)
      requires Valid()
      modifies this
      ensures Valid()
      ensures !HasAudioSuffix(filename) ==> r == Failure(InvalidFileFormat)
      ensures HasAudioSuffix(filename) && decoded.None? ==> r == Failure(AnalysisFailed)
      ensures HasAudioSuffix(filename) && decoded.Some? ==>
                r == Success(Analysis(decoded.value, median, id, sampleId, timestamp))
      ensures r.Failure? ==> samples == old(samples)
      ensures r.Success? ==> samples == old(samples)[id := HistoryOf(old(samples), id) + [r.value]]
      ensures r.Success? ==> Latest(id) == Success(r.value)
      ensures r.Success? ==> History(id) == Success(LastN(HistoryOf(old(samples), id), HISTORY_WINDOW - 1) + [r.value])
    {
      if !HasAudioSuffix(filename) {
        return Failure(InvalidFileFormat);
      }
      if decoded.None? {
        return Failure(AnalysisFailed);
      }
      var result := AnalyzeAudio(decoded.value, median, id, sampleId, timestamp);
      AnalysisWellFormed(decoded.value, median, id, sampleId, timestamp);
      Record(id, result);
      r := Success(result);
    }
  }

  /** In a store that only uploads have filled, latest and history fail
      exactly for an id that has never been stored. */
  lemma NotFoundOnlyForUnknownIds(store: PatientStore, id: string)
    requires store.Valid()
    ensures store.Latest(id).Failure? <==> id !in store.samples
    ensures store.History(id).Failure? <==> id !in store.samples
  {
  }

  // ---------------------------------------------------------------------
  // Alert-threshold registry
  // ---------------------------------------------------------------------

  class AlertRegistry {
    /** The band per metric name. Classification does not read this table. */
    var thresholds: map<string, Band>

    /** The four metric names are always exactly the keys. */
    ghost predicate Valid()
      reads this
    {
      thresholds.Keys == METRIC_NAMES
    }

    constructor ()
      ensures Valid() && thresholds == DEFAULT_BANDS
    {
      thresholds := DEFAULT_BANDS;
    }

    /** Configuration handler: refuses a metric name that is not a key and
        otherwise replaces that band by `(low, high)`, unchecked, returning
        the stored band. */
    method Configure(cfg: ThresholdConfig) returns (r: Result<Band, ConfigError>)
      modifies this
      ensures thresholds.Keys == old(thresholds).Keys
      ensures old(Valid()) ==> Valid()
      ensures cfg.metric !in old(thresholds) ==> r == Failure(InvalidMetric) && thresholds == old(thresholds)
      ensures cfg.metric in old(thresholds) ==>
                r == Success(Band(cfg.low, cfg.high)) &&
                thresholds == old(thresholds)[cfg.metric := Band(cfg.low, cfg.high)]
      ensures r.Success? ==> r.value == thresholds[cfg.metric]
      ensures forall m :: m in old(thresholds) && m != cfg.metric ==> thresholds[m] == old(thresholds)[m]
    {
      if cfg.metric !in thresholds {
        return Failure(InvalidMetric);
      }
      thresholds := thresholds[cfg.metric := Band(cfg.low, cfg.high)];
      r := Success(thresholds[cfg.metric]);
    }
  }

  // ---------------------------------------------------------------------
  // Client scenarios
  // ---------------------------------------------------------------------

  /** Setting the pitch band to [50, 400] succeeds and stores it, yet a
      60 Hz pitch is still classified critical: classification keeps
      reading its own table, under which the new band would call it normal. */
  method ConfigurePitchScenario() returns (outcome: Result<Band, ConfigError>, stored: Band, pitch60: Status)
    ensures outcome == Success(Band(50.0, 400.0)) && stored == Band(50.0, 400.0)
    ensures pitch60 == Status.Critical
    ensures Classify(stored, 60.0) == Status.Normal
  {
    var registry := new AlertRegistry();
    outcome := registry.Configure(ThresholdConfig(PITCH, 50.0, 400.0));
    stored := registry.thresholds[PITCH];
    pitch60 := StatusOf(PITCH, 60.0);
  }

  /** An inverted band (low 400 above high 100) is accepted and stored; an
      unknown metric name is refused and leaves every band as it was. */
  method ConfigureEdgeScenario() returns (inverted: Result<Band, ConfigError>, unknown: Result<Band, ConfigError>,
                                          pitchAfter: Band, speechAfter: Band, pauseAfter: Band, energyAfter: Band)
    ensures inverted == Success(Band(400.0, 100.0))
    ensures unknown == Failure(InvalidMetric)
    ensures pitchAfter == Band(400.0, 100.0)
    ensures speechAfter == DEFAULT_BANDS[SPEECH_RATE] && pauseAfter == DEFAULT_BANDS[PAUSE_DURATION]
    ensures energyAfter == DEFAULT_BANDS[VOICE_ENERGY]
  {
    var registry := new AlertRegistry();
    inverted := registry.Configure(ThresholdConfig(PITCH, 400.0, 100.0));
    unknown := registry.Configure(ThresholdConfig("heart_rate", 1.0, 2.0));
    pitchAfter := registry.thresholds[PITCH];
    speechAfter := registry.thresholds[SPEECH_RATE];
    pauseAfter := registry.thresholds[PAUSE_DURATION];
    energyAfter := registry.thresholds[VOICE_ENERGY];
  }

  /** A text file is refused and stores nothing: the patient still has no
      samples afterwards. */
  method RefusedUploadScenario(recording: Features, median: seq<real> -> real)
    returns (refused: Result<AnalysisResult, UploadError>, latest: Result<AnalysisResult, LookupError>)
    ensures refused == Failure(InvalidFileFormat)
    ensures latest == Failure(NoSamplesFound)
  {
    var store := new PatientStore();
    AudioSuffixExamples();
    refused := store.UploadSample("P001", "test.txt", Some(recording), median, "s-1", "t-1");
    latest := store.Latest("P001");
  }

  /** A WAV upload of a fresh patient is analysed and stored: latest returns
      it and history is the one-element list holding it. */
  method AcceptedUploadScenario(recording: Features, median: seq<real> -> real)
    returns (accepted: Result<AnalysisResult, UploadError>, latest: Result<AnalysisResult, LookupError>,
             history: Result<seq<AnalysisResult>, LookupError>)
    ensures accepted.Success? && accepted.value.patientId == "P001"
    ensures latest == Success(accepted.value)
    ensures history == Success([accepted.value])
  {
    var store := new PatientStore();
    AudioSuffixExamples();
    assert HistoryOf(store.samples, "P001") == [];
    assert LastN<AnalysisResult>([], HISTORY_WINDOW - 1) == [];
    accepted := store.UploadSample("P001", "test.wav", Some(recording), median, "s-2", "t-2");
    latest := store.Latest("P001");
    history := store.History("P001");
  }
}
