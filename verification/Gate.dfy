/** The runner's gate on experiment specs and on journaled records. */
module Gates {
  import opened Wrappers
  import opened Contracts
  import opened Trials
  import opened Models
  import opened Evaluators
  import opened ControlPlanes

  /** The policy-owned ceilings (and the one floor) the gate applies. */
  datatype Policy = Policy(
    maxMockValue: nat,
    maxLeaseSeconds: nat,
    maxSamples: nat,
    minHypothesisChars: nat,
    maxHypothesisChars: nat,
    maxTemperatureC: real,
    maxPowerW: real,
    maxErrors: nat)

  const CURRENT: Policy := Policy(
    MAX_MOCK_VALUE, MAX_LEASE_SECONDS, MAX_SAMPLES, MIN_HYPOTHESIS_CHARS, MAX_HYPOTHESIS_CHARS,
    MAX_DECISION_TEMPERATURE_C, MAX_DECISION_POWER_W, MAX_DECISION_ERRORS)

  /** Why a spec, a baseline or a record is refused; texts name the offending field. */
  datatype GateError =
    | Unknown(capability: string)
    | InvalidSpec(field: string)
    | InvalidTarget
    | InvalidBaseline
    | BaselineOutOfPolicy(value: nat)
    | InconsistentRecord(field: string)

  function Need(holds: bool, error: GateError): Result<(), GateError> {
    if holds then Ok(()) else Err(error)
  }

  /** Rejects decision bounds looser than the policy envelope. */
  function ValidateBounds(policy: Policy, bounds: DecisionBounds): Result<(), GateError> {
    var _ :- Need(bounds.minSamples <= policy.maxSamples, InvalidSpec("min_samples"));
    var _ :- Need(0.0 < bounds.maxTemperatureC <= policy.maxTemperatureC, InvalidSpec("max_temperature_c"));
    var _ :- Need(0.0 < bounds.maxPowerW <= policy.maxPowerW, InvalidSpec("max_power_w"));
    var _ :- Need(bounds.minFpsImprovement >= 0.0, InvalidSpec("min_fps_improvement"));
    Need(bounds.maxErrors <= policy.maxErrors, InvalidSpec("max_errors"))
  }

  /** Rejects target parameters the modeled capability does not take. */
  function ValidateParameters(parameters: Json): Result<(), GateError> {
    var _ :- Need(parameters.Obj?, InvalidTarget);
    Need(parameters.fields.Keys <= {"value"}, InvalidSpec("parameters"))
  }

  /** Rejects an unbounded or self-contradictory spec and returns its candidate value. */
  function ValidateSpec(policy: Policy, spec: ExperimentSpec): Result<U64, GateError> {
    var _ :- Need(spec.target.capabilityId == MODELED_CAPABILITY_ID, Unknown(spec.target.capabilityId));
    var _ :- ValidateBounds(policy, spec.bounds);
    var _ :- Need(|spec.hypothesis| >= policy.minHypothesisChars, InvalidSpec("hypothesis"));
    var _ :- Need(|spec.hypothesis| <= policy.maxHypothesisChars, InvalidSpec("hypothesis"));
    var _ :- Need(spec.warmupSamples <= policy.maxSamples, InvalidSpec("warmup_samples"));
    var _ :- Need(spec.baselineSamples <= policy.maxSamples, InvalidSpec("baseline_samples"));
    var _ :- Need(spec.candidateSamples <= policy.maxSamples, InvalidSpec("candidate_samples"));
    var _ :- Need(spec.baselineSamples >= spec.bounds.minSamples, InvalidSpec("baseline_samples"));
    var _ :- Need(spec.candidateSamples >= spec.bounds.minSamples, InvalidSpec("candidate_samples"));
    var _ :- ValidateParameters(spec.target.parameters);
    match FieldU64(spec.target.parameters, "value")
    case None => Err(InvalidTarget)
    case Some(value) =>
      var _ :- Need(value <= policy.maxMockValue, InvalidSpec("value"));
      var _ :- Need(spec.target.leaseSeconds <= policy.maxLeaseSeconds, InvalidSpec("lease_seconds"));
      Ok(value)
  }

  /** Rejects a spec the attached provider cannot serve, then validates it. */
  function ValidateFor(manifest: ProviderManifest, spec: ExperimentSpec): Result<U64, GateError> {
    var _ :- Need(FindCapability(manifest.capabilities, spec.target.capabilityId).Some?,
                  Unknown(spec.target.capabilityId));
    ValidateSpec(CURRENT, spec)
  }

  function HoldsDeclaredCount(samples: seq<MetricSample>, declared: Count): bool {
    |samples| <= U32_MAX && |samples| == declared
  }

  /** Checks a journaled record against the gate and against its own spec. */
  function CheckPolicy(policy: Policy, record: TrialRecord): Result<(), GateError> {
    var candidate :- ValidateSpec(policy, record.spec);
    var _ :- Need(candidate == record.candidateValue, InconsistentRecord("candidate_value"));
    var _ :- Need(record.baselineValue <= policy.maxMockValue, InconsistentRecord("baseline_value"));
    var _ :- Need(HoldsDeclaredCount(record.baselineSamples, record.spec.baselineSamples),
                  InconsistentRecord("baseline_samples"));
    var _ :- Need(HoldsDeclaredCount(record.candidateSamples, record.spec.candidateSamples),
                  InconsistentRecord("candidate_samples"));
    var holds :=
      match record.verdict.decision
      case Promote => record.lifecycle.Some? != record.lifecycleError.Some?
      case Reject => !record.lifecycle.Some? && !record.lifecycleError.Some?;
    var _ :- Need(holds, InconsistentRecord("lifecycle"));
    if record.lifecycle.Some? && !(record.lifecycle.value.verified && record.lifecycle.value.rolledBack)
    then Err(InconsistentRecord("lifecycle"))
    else Ok(())
  }

  // ----- exactly what is accepted ------------------------------------------------

  predicate LegalBounds(policy: Policy, b: DecisionBounds) {
    && b.minSamples <= policy.maxSamples
    && 0.0 < b.maxTemperatureC <= policy.maxTemperatureC
    && 0.0 < b.maxPowerW <= policy.maxPowerW
    && 0.0 <= b.minFpsImprovement
    && b.maxErrors <= policy.maxErrors
  }

  /** The target asks for exactly one knob value, within the ceiling. */
  predicate LegalTarget(policy: Policy, target: ChangeRequest, value: U64) {
    && target.capabilityId == MODELED_CAPABILITY_ID
    && target.parameters == Obj(map["value" := Int(value)])
    && value <= policy.maxMockValue
    && target.leaseSeconds <= policy.maxLeaseSeconds
  }

  predicate LegalSpec(policy: Policy, spec: ExperimentSpec, value: U64) {
    && LegalTarget(policy, spec.target, value)
    && LegalBounds(policy, spec.bounds)
    && policy.minHypothesisChars <= |spec.hypothesis| <= policy.maxHypothesisChars
    && spec.warmupSamples <= policy.maxSamples
    && spec.bounds.minSamples <= spec.baselineSamples <= policy.maxSamples
    && spec.bounds.minSamples <= spec.candidateSamples <= policy.maxSamples
  }

  /** The recorded lifecycle is one the recorded decision could have produced. */
  predicate LegalLifecycle(record: TrialRecord) {
    match (record.verdict.decision, record.lifecycle, record.lifecycleError)
    case (Reject, None, None) => true
    case (Promote, Some(done), None) => done.verified && done.rolledBack
    case (Promote, None, Some(_)) => true
    case _ => false
  }

  predicate Legal(policy: Policy, record: TrialRecord) {
    && LegalSpec(policy, record.spec, record.candidateValue)
    && record.baselineValue <= policy.maxMockValue
    && |record.baselineSamples| == record.spec.baselineSamples
    && |record.candidateSamples| == record.spec.candidateSamples
    && LegalLifecycle(record)
  }

  /** The only parameter objects accepted are the one-key objects of an unsigned value. */
  lemma ParametersAccepted(parameters: Json, value: U64)
    ensures ValidateParameters(parameters).Ok? && FieldU64(parameters, "value") == Some(value)
            <==> parameters == Obj(map["value" := Int(value)])
  {
    if ValidateParameters(parameters).Ok? && FieldU64(parameters, "value") == Some(value) {
      assert parameters.fields == map["value" := Int(value)];
    }
  }

  lemma SpecsAccepted(policy: Policy, spec: ExperimentSpec, value: U64)
    ensures ValidateSpec(policy, spec) == Ok(value) <==> LegalSpec(policy, spec, value)
  {
    ParametersAccepted(spec.target.parameters, value);
  }

  /** The gate accepts exactly the legal records. */
  lemma ExactGate(policy: Policy, record: TrialRecord)
    ensures CheckPolicy(policy, record).Ok? <==> Legal(policy, record)
  {
    SpecsAccepted(policy, record.spec, record.candidateValue);
    if ValidateSpec(policy, record.spec).Ok? {
      SpecsAccepted(policy, record.spec, ValidateSpec(policy, record.spec).value);
    }
  }

  // ----- what a refusal says --------------------------------------------------------

  /** The bound a field of the decision bounds breaks. */
  predicate BreaksBound(policy: Policy, b: DecisionBounds, field: string) {
    || (field == "min_samples" && b.minSamples > policy.maxSamples)
    || (field == "max_temperature_c" && !(0.0 < b.maxTemperatureC <= policy.maxTemperatureC))
    || (field == "max_power_w" && !(0.0 < b.maxPowerW <= policy.maxPowerW))
    || (field == "min_fps_improvement" && b.minFpsImprovement < 0.0)
    || (field == "max_errors" && b.maxErrors > policy.maxErrors)
  }

  /** A refused spec breaks the very rule its refusal names. */
  predicate SpecBreaks(policy: Policy, spec: ExperimentSpec, error: GateError) {
    match error
    case Unknown(capability) => capability == spec.target.capabilityId != MODELED_CAPABILITY_ID
    case InvalidTarget => FieldU64(spec.target.parameters, "value").None?
    case InvalidSpec(field) =>
      || BreaksBound(policy, spec.bounds, field)
      || (field == "hypothesis"
          && !(policy.minHypothesisChars <= |spec.hypothesis| <= policy.maxHypothesisChars))
      || (field == "warmup_samples" && spec.warmupSamples > policy.maxSamples)
      || (field == "baseline_samples"
          && !(spec.bounds.minSamples <= spec.baselineSamples <= policy.maxSamples))
      || (field == "candidate_samples"
          && !(spec.bounds.minSamples <= spec.candidateSamples <= policy.maxSamples))
      || (field == "parameters" && spec.target.parameters.Obj?
          && exists key :: key in spec.target.parameters.fields && key != "value")
      || (field == "value" && FieldU64(spec.target.parameters, "value").Some?
          && FieldU64(spec.target.parameters, "value").value > policy.maxMockValue)
      || (field == "lease_seconds" && spec.target.leaseSeconds > policy.maxLeaseSeconds)
    case _ => false
  }

  /** A refused record breaks a rule of its spec, or the very agreement its refusal names. */
  predicate RecordBreaks(policy: Policy, record: TrialRecord, error: GateError) {
    match error
    case InconsistentRecord(field) =>
      || (field == "candidate_value" && !LegalTarget(policy, record.spec.target, record.candidateValue))
      || (field == "baseline_value" && record.baselineValue > policy.maxMockValue)
      || (field == "baseline_samples" && |record.baselineSamples| != record.spec.baselineSamples)
      || (field == "candidate_samples" && |record.candidateSamples| != record.spec.candidateSamples)
      || (field == "lifecycle" && !LegalLifecycle(record))
    case _ => SpecBreaks(policy, record.spec, error)
  }

  lemma BoundsRefusal(policy: Policy, bounds: DecisionBounds)
    ensures ValidateBounds(policy, bounds).Err? ==>
              var error := ValidateBounds(policy, bounds).error;
              error.InvalidSpec? && BreaksBound(policy, bounds, error.field)
  {
  }

  /** A refusal is true of what it refuses. */
  lemma SpecRefusal(policy: Policy, spec: ExperimentSpec)
    ensures ValidateSpec(policy, spec).Err? ==> SpecBreaks(policy, spec, ValidateSpec(policy, spec).error)
  {
    BoundsRefusal(policy, spec.bounds);
  }

  /** A provider is served the legal specs of what it advertises, and told unknown of exactly the rest of capabilities. */
  lemma ForProvider(manifest: ProviderManifest, spec: ExperimentSpec, value: U64)
    ensures ValidateFor(manifest, spec) == Ok(value)
            <==> LegalSpec(CURRENT, spec, value) && exists c :: c in manifest.capabilities && c.id == MODELED_CAPABILITY_ID
    ensures ValidateFor(manifest, spec) == Err(Unknown(spec.target.capabilityId))
            <==> spec.target.capabilityId != MODELED_CAPABILITY_ID
                 || forall c :: c in manifest.capabilities ==> c.id != MODELED_CAPABILITY_ID
    ensures ValidateFor(manifest, spec).Err? && !ValidateFor(manifest, spec).error.Unknown? ==>
              SpecBreaks(CURRENT, spec, ValidateFor(manifest, spec).error)
  {
    FindsAdvertised(manifest.capabilities, spec.target.capabilityId);
    SpecsAccepted(CURRENT, spec, value);
    SpecRefusal(CURRENT, spec);
  }

  lemma {:induction false} FindsAdvertised(capabilities: seq<Capability>, id: string)
    ensures FindCapability(capabilities, id).Some? <==> exists c :: c in capabilities && c.id == id
  {
    FindsTheFirst(capabilities, id, 0);
    if FindCapability(capabilities, id).Some? {
      var k :| 0 <= k < |capabilities| && capabilities[k].id == id;
      assert capabilities[k] in capabilities;
    }
  }

  lemma RecordRefusal(policy: Policy, record: TrialRecord)
    ensures CheckPolicy(policy, record).Err? ==> RecordBreaks(policy, record, CheckPolicy(policy, record).error)
  {
    SpecRefusal(policy, record.spec);
    SpecsAccepted(policy, record.spec, record.candidateValue);
    if ValidateSpec(policy, record.spec).Ok? {
      SpecsAccepted(policy, record.spec, ValidateSpec(policy, record.spec).value);
      OneTarget(policy, record.spec.target, ValidateSpec(policy, record.spec).value, record.candidateValue);
    }
  }

  /** A target asks for one value. */
  lemma OneTarget(policy: Policy, target: ChangeRequest, value: U64, other: U64)
    requires LegalTarget(policy, target, value)
    ensures LegalTarget(policy, target, other) ==> other == value
  {
    assert map["value" := Int(value)]["value"] == Int(value);
    assert map["value" := Int(other)]["value"] == Int(other);
  }

  /** No ceiling is higher and the floor is no lower. */
  predicate AtLeastAsTight(tight: Policy, loose: Policy) {
    && tight.maxMockValue <= loose.maxMockValue
    && tight.maxLeaseSeconds <= loose.maxLeaseSeconds
    && tight.maxSamples <= loose.maxSamples
    && tight.minHypothesisChars >= loose.minHypothesisChars
    && tight.maxHypothesisChars <= loose.maxHypothesisChars
    && tight.maxTemperatureC <= loose.maxTemperatureC
    && tight.maxPowerW <= loose.maxPowerW
    && tight.maxErrors <= loose.maxErrors
  }

  /** Tightening a ceiling only flags more of the archive. */
  lemma TighteningOnlyFlags(tight: Policy, loose: Policy, record: TrialRecord)
    requires AtLeastAsTight(tight, loose)
    ensures CheckPolicy(tight, record).Ok? ==> CheckPolicy(loose, record).Ok?
  {
    ExactGate(tight, record);
    ExactGate(loose, record);
  }

  // ----- the rewrites the gate cannot see -----------------------------------------

  /** Recomputing the verdict from the recorded samples reproduces it. */
  predicate Consistent(record: TrialRecord) {
    record.verdict == Evaluate(record.baselineSamples, record.candidateSamples, record.spec.bounds)
  }

  function RelabelCandidate(record: TrialRecord, value: U64): TrialRecord {
    var target := record.spec.target.(parameters := Obj(map["value" := Int(value)]));
    record.(candidateValue := value, spec := record.spec.(target := target))
  }

  function RelabelBaseline(record: TrialRecord, value: U64): TrialRecord {
    record.(baselineValue := value)
  }

  function Rehypothesize(record: TrialRecord, hypothesis: string): TrialRecord {
    record.(spec := record.spec.(hypothesis := hypothesis))
  }

  /**
    Of an accepted, consistent record the knob values and the hypothesis can be
    rewritten freely within their bounds, and beyond them not at all.
   */
  lemma RelabellingsPass(policy: Policy, record: TrialRecord, value: U64, hypothesis: string)
    requires CheckPolicy(policy, record).Ok? && Consistent(record)
    ensures CheckPolicy(policy, RelabelCandidate(record, value)).Ok? <==> value <= policy.maxMockValue
    ensures CheckPolicy(policy, RelabelBaseline(record, value)).Ok? <==> value <= policy.maxMockValue
    ensures CheckPolicy(policy, Rehypothesize(record, hypothesis)).Ok?
            <==> policy.minHypothesisChars <= |hypothesis| <= policy.maxHypothesisChars
    ensures Consistent(RelabelCandidate(record, value))
    ensures Consistent(RelabelBaseline(record, value))
    ensures Consistent(Rehypothesize(record, hypothesis))
  {
    ExactGate(policy, record);
    ExactGate(policy, RelabelCandidate(record, value));
    ExactGate(policy, RelabelBaseline(record, value));
    ExactGate(policy, Rehypothesize(record, hypothesis));
  }

  /** Relabelling one of the two copies of the candidate value alone is always caught. */
  lemma HalfRelabellingIsCaught(policy: Policy, record: TrialRecord, value: U64)
    requires CheckPolicy(policy, record).Ok? && value != record.candidateValue
    ensures CheckPolicy(policy, record.(candidateValue := value)).Err?
    ensures CheckPolicy(policy, RelabelCandidate(record, value).(candidateValue := record.candidateValue)).Err?
  {
    ExactGate(policy, record);
    ExactGate(policy, record.(candidateValue := value));
    var half := RelabelCandidate(record, value).(candidateValue := record.candidateValue);
    ExactGate(policy, half);
    assert map["value" := Int(value)]["value"] == Int(value);
    assert map["value" := Int(record.candidateValue)]["value"] == Int(record.candidateValue);
  }

  // ----- against the broker's policy ------------------------------------------------

  /**
    A spec the runner accepts for a provider is accepted by the broker on its
    target exactly when the capability is reversible; capability, value and lease
    can never be the reason for a denial.
   */
  lemma GateRefinesBroker(manifest: ProviderManifest, spec: ExperimentSpec)
    requires ValidateFor(manifest, spec).Ok?
    ensures FindCapability(manifest.capabilities, spec.target.capabilityId).Some?
    ensures var capability := FindCapability(manifest.capabilities, spec.target.capabilityId).value;
            ControlPlanes.Validate(manifest, spec.target)
            == if capability.risk == Reversible then Ok(())
               else Err(PolicyDenied("only reversible mock capabilities are enabled"))
  {
    SpecsAccepted(CURRENT, spec, ValidateFor(manifest, spec).value);
  }

  // ----- promotion in closed form ----------------------------------------------------

  /** The verdict of a measured trial. */
  function TrialVerdict(spec: ExperimentSpec, baseline: U64, candidate: U64): Verdict {
    Evaluate(Measure(baseline, spec.warmupSamples, spec.baselineSamples),
             Measure(candidate, spec.warmupSamples, spec.candidateSamples),
             spec.bounds)
  }

  /**
    A valid spec promotes exactly when the candidate's temperature, power and
    gain over the baseline meet the bounds; then the candidate lies between the
    baseline and 80, and neither too few samples nor errors can be the reason for
    a rejection.
   */
  lemma PromotionClosedForm(spec: ExperimentSpec, baseline: U64, candidate: U64)
    requires ValidateSpec(CURRENT, spec) == Ok(candidate) && baseline <= MAX_MOCK_VALUE
    ensures var verdict := TrialVerdict(spec, baseline, candidate);
            && (verdict.decision == Promote
                <==> && 50.0 + candidate as real / 2.0 <= spec.bounds.maxTemperatureC
                     && 100.0 + candidate as real <= spec.bounds.maxPowerW
                     && candidate as real - baseline as real >= spec.bounds.minFpsImprovement)
            && verdict.reason != InsufficientSamples
            && verdict.reason != ErrorsExceeded
            && (verdict.decision == Promote ==> baseline <= candidate <= 80)
  {
    SpecsAccepted(CURRENT, spec, candidate);
    var b := Measure(baseline, spec.warmupSamples, spec.baselineSamples);
    var c := Measure(candidate, spec.warmupSamples, spec.candidateSamples);
    MeasureIsSteady(baseline, spec.warmupSamples, spec.baselineSamples);
    MeasureIsSteady(candidate, spec.warmupSamples, spec.candidateSamples);
    UniformSummary(b, Steady(baseline));
    UniformSummary(c, Steady(candidate));
    if 50.0 + candidate as real / 2.0 <= spec.bounds.maxTemperatureC {
      assert candidate <= 80;
      assert Summary(c).totalErrors == 0;
    }
  }
}
