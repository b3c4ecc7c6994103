/** The data of a trial: its spec, its measurements, its verdict, its journaled record. */
module Trials {
  import opened Wrappers
  import opened Contracts

  type U32 = n: nat | n <= U32_MAX
  type U64 = n: nat | n <= U64_MAX

  /** A non-zero 32-bit count. */
  type Count = n: nat | 0 < n <= U32_MAX witness 1

  datatype MetricSample = MetricSample(fps: real, temperatureC: real, powerW: real, errors: U64)

  datatype MetricSummary = MetricSummary(
    samples: nat,
    meanFps: real,
    maxTemperatureC: real,
    maxPowerW: real,
    totalErrors: U64)

  datatype DecisionBounds = DecisionBounds(
    minSamples: Count,
    minFpsImprovement: real,
    maxTemperatureC: real,
    maxPowerW: real,
    maxErrors: U64)

  datatype ExperimentSpec = ExperimentSpec(
    hypothesis: string,
    target: ChangeRequest,
    warmupSamples: U32,
    baselineSamples: Count,
    candidateSamples: Count,
    bounds: DecisionBounds)

  datatype Decision = Promote | Reject

  datatype VerdictReason =
    | Promoted
    | InsufficientSamples
    | TemperatureExceeded
    | PowerExceeded
    | ErrorsExceeded
    | InsufficientImprovement

  datatype Verdict = Verdict(
    decision: Decision,
    reason: VerdictReason,
    fpsImprovement: real,
    baseline: MetricSummary,
    candidate: MetricSummary)

  /** The durable mirror of a lifecycle's error. */
  datatype LifecycleFailure = LifecycleFailure(kind: string, error: ControlPlaneError)

  datatype TrialRecord = TrialRecord(
    spec: ExperimentSpec,
    baselineValue: U64,
    candidateValue: U64,
    baselineSamples: seq<MetricSample>,
    candidateSamples: seq<MetricSample>,
    verdict: Verdict,
    lifecycle: Option<LifecycleResult>,
    lifecycleError: Option<LifecycleFailure>)

  const TRIAL_RECORD_VERSION: nat := 1

  /**
    A row of the trial table as a reader meets it: the version the payload
    states, if it states a readable one, and the record it decodes to, if it does.
   */
  datatype TrialRow = TrialRow(version: Option<nat>, record: Option<TrialRecord>)

  function Written(record: TrialRecord): TrialRow {
    TrialRow(Some(TRIAL_RECORD_VERSION), Some(record))
  }
}
