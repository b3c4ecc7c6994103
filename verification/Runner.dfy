/** Running a trial end to end, and replaying it from the journal alone. */
module Runners {
  import opened Wrappers
  import opened Contracts
  import opened Journal
  import opened Lifecycle
  import opened Blames
  import opened Trials
  import opened Models
  import opened Evaluators
  import opened Hosts
  import opened ControlPlanes
  import opened Gates

  datatype StoredTrial = StoredTrial(id: nat, record: TrialRecord)

  datatype RunnerError =
    | Refused(cause: GateError)
    | Broker(error: ControlPlaneError)
    | LifecycleFailed(trialId: Option<nat>, journalError: Option<ControlPlaneError>, source: ControlPlaneError)
    | TrialNotJournaled(lifecycle: Option<LifecycleResult>, source: ControlPlaneError)
    | UnsupportedRecordVersion(version: nat)
    | MalformedRecordVersion
    | Decode

  /** What the lifecycle of a promoted trial returned; a rejected trial runs none. */
  type Ran = Option<Result<LifecycleResult, ControlPlaneError>>

  /** The record of a trial, from what was asked, what was found and what ran. */
  function RecordOf(spec: ExperimentSpec, baseline: U64, candidate: U64, ran: Ran): TrialRecord {
    TrialRecord(
      spec, baseline, candidate,
      Measure(baseline, spec.warmupSamples, spec.baselineSamples),
      Measure(candidate, spec.warmupSamples, spec.candidateSamples),
      TrialVerdict(spec, baseline, candidate),
      match ran { case Some(Ok(result)) => Some(result) case _ => None },
      match ran { case Some(Err(error)) => Some(LifecycleFailure(error.Kind(), error)) case _ => None })
  }

  /** A lifecycle ran exactly on a promotion, and a result means observed and restored. */
  predicate Plausible(verdict: Verdict, ran: Ran) {
    && (ran.Some? <==> verdict.decision == Promote)
    && (ran.Some? && ran.value.Ok? ==> ran.value.value.verified && ran.value.value.rolledBack)
  }

  // ----- replay --------------------------------------------------------------------

  datatype ReplayOutcome = ReplayOutcome(
    trialId: int,
    recorded: Verdict,
    recomputed: Verdict,
    policyReason: Option<GateError>)
  {
    predicate IsConsistent() {
      recorded == recomputed
    }

    predicate PolicyLegal() {
      policyReason.None?
    }
  }

  /** What re-evaluating one journaled row says; no provider is consulted. */
  function Replay(id: int, row: TrialRow): Result<ReplayOutcome, RunnerError> {
    match row.version
    case None => Err(MalformedRecordVersion)
    case Some(version) =>
      if version > U32_MAX then Err(MalformedRecordVersion)
      else if version != TRIAL_RECORD_VERSION then Err(UnsupportedRecordVersion(version))
      else
        match row.record
        case None => Err(Decode)
        case Some(record) =>
          Ok(ReplayOutcome(
               id, record.verdict,
               Evaluate(record.baselineSamples, record.candidateSamples, record.spec.bounds),
               match CheckPolicy(CURRENT, record) case Ok(_) => None case Err(error) => Some(error)))
  }

  /**
    A replay answers for the row that was asked for: `recorded` is the verdict it
    stores, `recomputed` that of its samples under its bounds, and the policy verdict
    that of its record; or it says what of the row is unreadable.
   */
  lemma ReplayMeaning(id: int, row: TrialRow)
    ensures Replay(id, row).Ok? <==> row.version == Some(1) && row.record.Some?
    ensures Replay(id, row).Ok? ==>
              var (outcome, record) := (Replay(id, row).value, row.record.value);
              && outcome.trialId == id
              && outcome.recorded == record.verdict
              && outcome.recomputed == Evaluate(record.baselineSamples, record.candidateSamples, record.spec.bounds)
              && (outcome.PolicyLegal() <==> Legal(CURRENT, record))
    ensures Replay(id, row) == Err(MalformedRecordVersion) <==> row.version.None? || row.version.value > 0xFFFF_FFFF
    ensures forall version :: Replay(id, row) == Err(UnsupportedRecordVersion(version))
                              <==> row.version == Some(version) && version <= 0xFFFF_FFFF && version != 1
    ensures Replay(id, row) == Err(Decode) <==> row.version == Some(1) && row.record.None?
  {
    if row.record.Some? {
      ExactGate(CURRENT, row.record.value);
    }
  }

  /** The row replays as consistent and inside the policy, whatever its identifier. */
  predicate ReplaysClean(row: TrialRow) {
    && Replay(0, row).Ok?
    && Replay(0, row).value.IsConsistent()
    && Replay(0, row).value.PolicyLegal()
  }

  ghost predicate ArchiveReplays(trials: seq<TrialRow>) {
    forall k :: 0 <= k < |trials| ==> ReplaysClean(trials[k])
  }

  /** Replay completeness: what a trial stores is consistent and legal. */
  lemma RecordReplaysClean(spec: ExperimentSpec, baseline: U64, candidate: U64, ran: Ran)
    requires ValidateSpec(CURRENT, spec) == Ok(candidate) && baseline <= MAX_MOCK_VALUE
    requires Plausible(TrialVerdict(spec, baseline, candidate), ran)
    ensures ReplaysClean(Written(RecordOf(spec, baseline, candidate, ran)))
  {
    var record := RecordOf(spec, baseline, candidate, ran);
    SpecsAccepted(CURRENT, spec, candidate);
    MeasureIsSteady(baseline, spec.warmupSamples, spec.baselineSamples);
    MeasureIsSteady(candidate, spec.warmupSamples, spec.candidateSamples);
    ExactGate(CURRENT, record);
  }

  /** A replay says clean exactly of the rows a legal, consistent record was written as. */
  lemma CleanMeansLegal(row: TrialRow)
    ensures ReplaysClean(row) <==> row.record.Some? && row == Written(row.record.value)
                                   && Legal(CURRENT, row.record.value) && Consistent(row.record.value)
  {
    if row.record.Some? {
      ExactGate(CURRENT, row.record.value);
    }
  }

  // ----- running ---------------------------------------------------------------------

  /** What a baseline read comes to: the provider's fault, no unsigned value, one over the ceiling, or the value. */
  predicate BaselineRead(r: Result<U64, RunnerError>, device: Json, a: Answer) {
    if a.fault.Some? then r == Err(Broker(Provider(a.fault.value)))
    else if FieldU64(device, "value").None? then r == Err(Refused(InvalidBaseline))
    else if FieldU64(device, "value").value > 100 then
      r == Err(Refused(BaselineOutOfPolicy(FieldU64(device, "value").value)))
    else r.Ok? && Some(r.value) == FieldU64(device, "value")
  }

  /** Reads the baseline from the provider and holds it to the candidate's ceiling. */
  method ReadBaseline(plane: ControlPlane) returns (r: Result<U64, RunnerError>, ghost a: Answer)
    modifies plane.host`now
    ensures plane.host.rows == old(plane.host.rows) && plane.host.devices == old(plane.host.devices)
    ensures BaselineRead(r, Device(old(plane.host.View()), plane.manifest.id), a)
    ensures r.Ok? <==>
              && a.fault.None?
              && FieldU64(Device(old(plane.host.View()), plane.manifest.id), "value").Some?
              && FieldU64(Device(old(plane.host.View()), plane.manifest.id), "value").value <= MAX_MOCK_VALUE
  {
    var snapshot;
    snapshot, a := plane.host.TakeSnapshot(plane.manifest.id);
    if snapshot.Err? {
      return Err(Broker(Provider(snapshot.error))), a;
    }
    var value := FieldU64(snapshot.value.state, "value");
    if value.None? {
      return Err(Refused(InvalidBaseline)), a;
    }
    if value.value > MAX_MOCK_VALUE {
      return Err(Refused(BaselineOutOfPolicy(value.value))), a;
    }
    var baseline: nat := value.value;
    r := Ok(baseline);
  }

  /** What the caller is told of a measured trial, given the trial table before and after. */
  predicate Reported(r: Result<StoredTrial, RunnerError>, record: TrialRecord, ran: Ran,
                     before: seq<TrialRow>, after: seq<TrialRow>, fault: Option<string>)
  {
    match r
    case Ok(stored) =>
      && fault.None? && after == before + [Written(record)]
      && stored == StoredTrial(|after|, record)
      && !(ran.Some? && ran.value.Err?)
    case Err(LifecycleFailed(id, lost, source)) =>
      && ran == Some(Err(source))
      && (id.Some? <==> fault.None?)
      && (lost == if fault.Some? then Some(ControlPlaneError.Journal(fault.value)) else None)
      && after == (if id.Some? then before + [Written(record)] else before)
      && (id.Some? ==> id.value == |after|)
    case Err(TrialNotJournaled(lifecycle, source)) =>
      && after == before
      && fault.Some? && source == ControlPlaneError.Journal(fault.value)
      && lifecycle == record.lifecycle
      && !(ran.Some? && ran.value.Err?)
    case _ => false
  }

  /**
    What a promotion did to the host: the lifecycle of this very target, run from
    `w` against the answers `used` with this result; or nothing, when the control
    plane refuses the target.
   */
  ghost predicate Drove(manifest: ProviderManifest, target: ChangeRequest, w: World, rows: seq<Row>,
                        devices: map<string, Json>, used: seq<Answer>,
                        result: Result<LifecycleResult, ControlPlaneError>)
  {
    if Validate(manifest, target).Err? then
      result == Err(Validate(manifest, target).error) && rows == w.rows && devices == w.devices
    else
      var (o, end) := OwnerRun(TakingSnapshot(manifest.id, target), w, used);
      && o.Finished? && o.result == result && end.rows == rows && end.devices == devices
      && (result.Ok? ==> Completed(w.rows, rows, target, result.value))
  }

  /** A promotion drove the lifecycle; a rejection touched nothing. */
  ghost predicate Acted(manifest: ProviderManifest, spec: ExperimentSpec, decision: Decision, w: World,
                        rows: seq<Row>, devices: map<string, Json>, used: seq<Answer>, ran: Ran)
  {
    match decision
    case Promote => ran.Some? && Drove(manifest, spec.target, w, rows, devices, used, ran.value)
    case Reject => ran.None? && rows == w.rows && devices == w.devices
  }

  /** The record keeps what the lifecycle returned. */
  predicate Keeps(record: TrialRecord, ran: Ran) {
    && (record.lifecycle.Some? <==> ran.Some? && ran.value.Ok?)
    && (record.lifecycle.Some? ==> ran == Some(Ok(record.lifecycle.value)))
    && (record.lifecycleError.Some? <==> ran.Some? && ran.value.Err?)
    && (record.lifecycleError.Some? ==>
          var failure := record.lifecycleError.value;
          ran == Some(Err(failure.error)) && Names(failure.kind, failure.error))
  }

  /** Evaluates the measurements and drives the lifecycle only on a promotion. */
  method RunMeasured(plane: ControlPlane, spec: ExperimentSpec, baseline: U64, candidate: U64)
    returns (record: TrialRecord, ran: Ran, ghost used: seq<Answer>)
    modifies plane.host`devices, plane.host`rows, plane.host`now
    ensures record == RecordOf(spec, baseline, candidate, ran)
    ensures Plausible(record.verdict, ran) && Keeps(record, ran)
    ensures plane.host.trials == old(plane.host.trials)
    ensures Acted(plane.manifest, spec, record.verdict.decision, old(plane.host.View()),
                  plane.host.rows, plane.host.devices, used, ran)
  {
    var baselineSamples := Measure(baseline, spec.warmupSamples, spec.baselineSamples);
    var candidateSamples := Measure(candidate, spec.warmupSamples, spec.candidateSamples);
    var verdict := Evaluate(baselineSamples, candidateSamples, spec.bounds);
    ran, used := None, [];
    if verdict.decision == Promote {
      var result;
      result, used := plane.RunLifecycle(spec.target);
      ran := Some(result);
      if result.Ok? {
        ResultIsOnRecord(Life(plane.manifest.id, spec.target, old(plane.host.View()), used));
      }
    }
    var lifecycle := match ran case Some(Ok(result)) => Some(result) case _ => None;
    var failure := match ran case Some(Err(error)) => Some(LifecycleFailure(error.Kind(), error)) case _ => None;
    record := TrialRecord(spec, baseline, candidate, baselineSamples, candidateSamples, verdict, lifecycle, failure);
    KeepsWhatRan(record, ran);
  }

  lemma KeepsWhatRan(record: TrialRecord, ran: Ran)
    requires record.lifecycle == match ran case Some(Ok(result)) => Some(result) case _ => None
    requires record.lifecycleError
             == match ran case Some(Err(error)) => Some(LifecycleFailure(error.Kind(), error)) case _ => None
    ensures Keeps(record, ran)
  {
  }

  /** Journals the record once and reports where it came to rest. */
  method JournalTrial(plane: ControlPlane, record: TrialRecord, ran: Ran)
    returns (r: Result<StoredTrial, RunnerError>, ghost fault: Option<string>)
    modifies plane.host`now, plane.host`trials
    ensures Reported(r, record, ran, old(plane.host.trials), plane.host.trials, fault)
  {
    var journaled;
    journaled, fault := plane.host.AppendTrial(Written(record));
    if ran.Some? && ran.value.Err? {
      var id := if journaled.Ok? then Some(journaled.value) else None;
      var lost := if journaled.Ok? then None else Some(journaled.error);
      return Err(RunnerError.LifecycleFailed(id, lost, ran.value.error)), fault;
    }
    if journaled.Err? {
      return Err(TrialNotJournaled(record.lifecycle, journaled.error)), fault;
    }
    r := Ok(StoredTrial(journaled.value, record));
  }

  /** Everything the environment chose in one trial, and the host when its lifecycle was to start. */
  datatype Course = Course(read: Answer, start: World, used: seq<Answer>, fault: Option<string>)

  /** Whether the trial is measured at all: its spec is accepted and the baseline can be read. */
  predicate Measurable(manifest: ProviderManifest, spec: ExperimentSpec, device: Json, read: Answer) {
    && ValidateFor(manifest, spec).Ok?
    && read.fault.None?
    && FieldU64(device, "value").Some? && FieldU64(device, "value").value <= 100
  }

  /**
    Runs one trial.  A trial that is not measurable (`measured` is absent) is refused,
    stores nothing and touches no knob.  A measured one is stored at most once, drives
    the lifecycle of its target exactly on a promotion, and reports where its record
    came to rest; an archive that replayed clean still does.
   */
  method RunTrial(plane: ControlPlane, spec: ExperimentSpec)
    returns (r: Result<StoredTrial, RunnerError>, ghost measured: Option<TrialRecord>, ghost ran: Ran,
             ghost course: Course)
    modifies plane.host
    ensures measured.Some? <==>
              Measurable(plane.manifest, spec, Device(old(plane.host.View()), plane.manifest.id), course.read)
    ensures measured.None? ==>
              && r.Err? && (r.error.Refused? || r.error.Broker?)
              && plane.host.trials == old(plane.host.trials)
              && plane.host.rows == old(plane.host.rows) && plane.host.devices == old(plane.host.devices)
    ensures ValidateFor(plane.manifest, spec).Err? ==> r == Err(Refused(ValidateFor(plane.manifest, spec).error))
    ensures measured.None? && ValidateFor(plane.manifest, spec).Ok? ==>
              BaselineRead(Err(r.error), Device(old(plane.host.View()), plane.manifest.id), course.read)
    ensures measured.Some? ==>
              var record := measured.value;
              && ValidateFor(plane.manifest, spec) == Ok(record.candidateValue)
              && FieldU64(Device(old(plane.host.View()), plane.manifest.id), "value") == Some(record.baselineValue)
              && record == RecordOf(spec, record.baselineValue, record.candidateValue, ran)
              && Plausible(record.verdict, ran) && Keeps(record, ran)
              && Reported(r, record, ran, old(plane.host.trials), plane.host.trials, course.fault)
    ensures measured.Some? ==>
              && course.start.rows == old(plane.host.rows) && course.start.devices == old(plane.host.devices)
              && Acted(plane.manifest, spec, measured.value.verdict.decision, course.start,
                       plane.host.rows, plane.host.devices, course.used, ran)
    ensures ArchiveReplays(old(plane.host.trials)) ==> ArchiveReplays(plane.host.trials)
  {
    measured, ran := None, None;
    course := Course(Answer(None, None, Null, true, "", 0), plane.host.View(), [], None);
    var valid := ValidateFor(plane.manifest, spec);
    if valid.Err? {
      return Err(Refused(valid.error)), measured, ran, course;
    }
    ghost var a, used, fault;
    var read;
    read, a := ReadBaseline(plane);
    course := course.(read := a, start := plane.host.View());
    if read.Err? {
      return Err(read.error), measured, ran, course;
    }
    var record, outcome;
    record, outcome, used := RunMeasured(plane, spec, read.value, valid.value);
    r, fault := JournalTrial(plane, record, outcome);
    measured, ran := Some(record), outcome;
    course := course.(used := used, fault := fault);
    RecordReplaysClean(spec, read.value, valid.value, ran);
  }

  /** Replays one stored trial; it changes nothing, and over a clean archive says clean. */
  method ReplayTrial(plane: ControlPlane, id: int)
    returns (r: Result<ReplayOutcome, RunnerError>, ghost fault: Option<string>)
    modifies plane.host`now
    ensures r == if fault.Some? then Err(Broker(ControlPlaneError.Journal(fault.value)))
                 else if 1 <= id <= |plane.host.trials| then Replay(id, plane.host.trials[id - 1])
                 else Err(Broker(UnknownTrial(id)))
    ensures r.Ok? ==>
              && 1 <= id <= |plane.host.trials| && plane.host.trials[id - 1].record.Some?
              && r.value.trialId == id
              && r.value.recorded == plane.host.trials[id - 1].record.value.verdict
    ensures ArchiveReplays(plane.host.trials) && r.Ok? ==> r.value.IsConsistent() && r.value.PolicyLegal()
  {
    var payload;
    payload, fault := plane.host.SelectTrial(id);
    if payload.Err? {
      return Err(Broker(payload.error)), fault;
    }
    r := Replay(id, payload.value);
    ReplayMeaning(id, payload.value);
    assert ReplaysClean(payload.value) && r.Ok? ==> r.value.IsConsistent() && r.value.PolicyLegal();
  }
}
