/** The records of the service's data model: per-metric readings, the health
    indicators, one analysis result, and a threshold update request. */
module Models {
  import opened Wrappers

  /** Classification of one metric against its alert band. */
  datatype Status = Normal | Warning | Critical {
    /** The string literal the service uses for this status. */
    function Literal(): string {
      match this
      case Normal => "normal"
      case Warning => "warning"
      case Critical => "critical"
    }
  }

  /** The aggregate status of one analysis. */
  datatype OverallStatus = Normal | AttentionNeeded | Critical {
    function Literal(): string {
      match this
      case Normal => "normal"
      case AttentionNeeded => "attention_needed"
      case Critical => "critical"
    }
  }

  /** Validation of a string against the `Status` literal type: only the
      three literals are accepted. */
  function ParseStatus(s: string): (r: Option<Status>)
    ensures r.Some? ==> r.value.Literal() == s
  {
    if s == "normal" then Some(Status.Normal)
    else if s == "warning" then Some(Status.Warning)
    else if s == "critical" then Some(Status.Critical)
    else None
  }

  /** Parsing a status literal gives back the status, and the accepted
      strings are exactly the three literals. */
  lemma ParseStatusRoundTrip(st: Status, s: string)
    ensures ParseStatus(st.Literal()) == Some(st)
    ensures ParseStatus(s).Some? <==> s in {"normal", "warning", "critical"}
  {
  }

  /** A metric as the analysis builds it: its status is an unconstrained string. */
  datatype Metric = Metric(value: real, unit: string, status: string)

  /** A metric as an analysis result holds it: its status is one of the three literals. */
  datatype MetricReading = MetricReading(value: real, unit: string, status: Status)

  /** Conversion of a `Metric` into a `MetricReading`, which fails when the
      status string is not one of the three literals. */
  function ReadingOf(m: Metric): (r: Option<MetricReading>)
    ensures r.Some? <==> m.status in {"normal", "warning", "critical"}
    ensures r.Some? ==> r.value.value == m.value && r.value.unit == m.unit && r.value.status.Literal() == m.status
  {
    match ParseStatus(m.status)
    case None => None
    case Some(st) => Some(MetricReading(m.value, m.unit, st))
  }

  /** Conversion of a whole metrics map, as done when it is placed into an
      `AnalysisResult`: it succeeds only when every metric converts. */
  function Validate(metrics: map<string, Metric>): (r: Option<map<string, MetricReading>>)
    ensures r.Some? <==> forall k :: k in metrics ==> ReadingOf(metrics[k]).Some?
    ensures r.Some? ==> r.value.Keys == metrics.Keys
    ensures r.Some? ==> forall k :: k in metrics ==> Some(r.value[k]) == ReadingOf(metrics[k])
  {
    if forall k :: k in metrics ==> ReadingOf(metrics[k]).Some? then
      Some(map k | k in metrics :: ReadingOf(metrics[k]).value)
    else
      None
  }

  datatype HealthIndicators = HealthIndicators(
    fatigueScore: real,
    stressIndicator: real,
    overallStatus: OverallStatus)

  datatype AnalysisResult = AnalysisResult(
    sampleId: string,
    timestamp: string,
    patientId: string,
    metrics: map<string, MetricReading>,
    healthIndicators: HealthIndicators,
    recommendations: seq<string>)

  /** A request to replace the alert band of one metric; nothing relates
      `low` to `high`. */
  datatype ThresholdConfig = ThresholdConfig(metric: string, low: real, high: real)
}
