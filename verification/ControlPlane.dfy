/** The broker lifecycle as the control plane runs it, against its step machine. */
module ControlPlanes {
  import opened Wrappers
  import opened Contracts
  import opened Journal
  import opened Lifecycle
  import opened Hosts
  import opened Dirtiness
  import opened Blames
  import opened Trials

  /** The first advertised capability with this identifier. */
  function FindCapability(capabilities: seq<Capability>, id: string): Option<Capability> {
    if capabilities == [] then None
    else if capabilities[0].id == id then Some(capabilities[0])
    else FindCapability(capabilities[1..], id)
  }

  /** The bounded alpha policy. */
  function Validate(manifest: ProviderManifest, request: ChangeRequest): Result<(), ControlPlaneError> {
    match FindCapability(manifest.capabilities, request.capabilityId)
    case None => Err(UnknownCapability(request.capabilityId))
    case Some(capability) =>
      if capability.risk != Reversible then
        Err(PolicyDenied("only reversible mock capabilities are enabled"))
      else if request.leaseSeconds > MAX_LEASE_SECONDS then
        Err(PolicyDenied("lease exceeds 300 seconds"))
      else
        match FieldU64(request.parameters, "value")
        case None => Err(PolicyDenied("mock.value requires an unsigned value"))
        case Some(value) =>
          if value > MAX_MOCK_VALUE then Err(PolicyDenied("mock.value is bounded to 0..=100")) else Ok(())
  }

  /** The first capability of a list with this identifier stands at `k`. */
  predicate FirstAt(capabilities: seq<Capability>, id: string, k: nat) {
    k < |capabilities| && capabilities[k].id == id && forall j :: 0 <= j < k ==> capabilities[j].id != id
  }

  lemma {:induction false} FindsTheFirst(capabilities: seq<Capability>, id: string, k: nat)
    ensures FirstAt(capabilities, id, k) ==> FindCapability(capabilities, id) == Some(capabilities[k])
    ensures (forall j :: 0 <= j < |capabilities| ==> capabilities[j].id != id) <==> FindCapability(capabilities, id).None?
  {
    if capabilities != [] {
      var rest := capabilities[1..];
      FindsTheFirst(rest, id, if k > 0 then k - 1 else 0);
      assert forall j :: 0 <= j < |rest| ==> rest[j] == capabilities[j + 1];
      assert forall j :: 0 < j < |capabilities| ==> capabilities[j] == rest[j - 1];
    }
  }

  /**
    The policy in one sentence: an advertised capability whose first descriptor is
    reversible, a lease of at most 300 seconds, and an unsigned value of at most
    100; and an unknown capability is refused as such exactly when it is not advertised.
   */
  lemma ExactPolicy(manifest: ProviderManifest, request: ChangeRequest, k: nat)
    ensures FirstAt(manifest.capabilities, request.capabilityId, k) ==>
              (Validate(manifest, request).Ok?
               <==> && manifest.capabilities[k].risk == Reversible
                    && request.leaseSeconds <= 300
                    && FieldU64(request.parameters, "value").Some?
                    && FieldU64(request.parameters, "value").value <= 100)
    ensures FirstAt(manifest.capabilities, request.capabilityId, k) && Validate(manifest, request).Err? ==>
              Validate(manifest, request).error
              == PolicyDenied(if manifest.capabilities[k].risk != Reversible then
                                "only reversible mock capabilities are enabled"
                              else if request.leaseSeconds > 300 then "lease exceeds 300 seconds"
                              else if FieldU64(request.parameters, "value").None? then
                                "mock.value requires an unsigned value"
                              else "mock.value is bounded to 0..=100")
    ensures Validate(manifest, request) == Err(UnknownCapability(request.capabilityId))
            <==> forall j :: 0 <= j < |manifest.capabilities| ==> manifest.capabilities[j].id != request.capabilityId
  {
    FindsTheFirst(manifest.capabilities, request.capabilityId, k);
  }

  class ControlPlane {
    const manifest: ProviderManifest
    const host: Host

    constructor (manifest: ProviderManifest, host: Host)
      ensures this.manifest == manifest && this.host == host
    {
      this.manifest := manifest;
      this.host := host;
    }

    /**
      Runs every stage of one lifecycle.  `used` lists the environment's answers;
      the run of the step machine against them gives the same result and leaves
      the same host.  A request the policy refuses changes nothing.
     */
    method RunLifecycle(request: ChangeRequest)
      returns (r: Result<LifecycleResult, ControlPlaneError>, ghost used: seq<Answer>)
      modifies host`devices, host`rows, host`now
      ensures Validate(manifest, request).Err? ==>
                r == Err(Validate(manifest, request).error) && used == [] && host.View() == old(host.View())
      ensures Validate(manifest, request).Ok? ==>
                var (o, w) := OwnerRun(TakingSnapshot(manifest.id, request), old(host.View()), used);
                o.Finished? && o.result == r && w == host.View()
      ensures Validate(manifest, request).Ok? ==>
                ToldByFaults(Life(manifest.id, request, old(host.View()), used), r)
      ensures host.trials == old(host.trials)
      ensures old(host.rows) <= host.rows
      ensures forall k :: |old(host.rows)| <= k < |host.rows| ==> host.rows[k].id == MaxId(old(host.rows)) + 1
      ensures r.Ok? ==>
                && r.value.providerId == manifest.id && r.value.verified && r.value.rolledBack
                && Device(host.View(), manifest.id) == old(Device(host.View(), manifest.id))
    {
      var valid := Validate(manifest, request);
      if valid.Err? {
        return Err(valid.error), [];
      }
      r, used := RunAccepted(request);
      LifecycleWritesOneBlock(manifest.id, request, old(host.View()), used);
      ResultMeansRestored(manifest.id, request, old(host.View()), used);
      FaultDecidesResult(Life(manifest.id, request, old(host.View()), used));
    }

    /** The lifecycle of a request the policy has accepted. */
    method RunAccepted(request: ChangeRequest)
      returns (r: Result<LifecycleResult, ControlPlaneError>, ghost used: seq<Answer>)
      modifies host`devices, host`rows, host`now
      ensures var (o, w) := OwnerRun(TakingSnapshot(manifest.id, request), old(host.View()), used);
              o.Finished? && o.result == r && w == host.View()
    {
      used := [];
      ghost var start, w0 := TakingSnapshot(manifest.id, request), host.View();
      var snapshot, a0 := host.TakeSnapshot(manifest.id);
      OwnerRunStep(start, w0, used, a0);
      used := used + [a0];
      if snapshot.Err? {
        return Err(Provider(snapshot.error)), used;
      }
      assert OwnerRun(start, w0, used) == (Beginning(manifest.id, request, snapshot.value), host.View());
      var experiment, a1 := host.AppendFresh(manifest.id, snapshot.value);
      OwnerRunStep(start, w0, used, a1);
      used := used + [a1];
      if experiment.Err? {
        return Err(experiment.error), used;
      }
      ghost var t := Ticket(experiment.value, manifest.id, request, snapshot.value);
      assert OwnerRun(start, w0, used) == (Previewing(t), host.View());
      ghost var stages;
      r, stages := RunExperiment(experiment.value, request, snapshot.value);
      OwnerRunConcat(start, w0, used, stages);
      used := used + stages;
    }

    /** Every stage after the snapshot row, and the closing row. */
    method RunExperiment(experiment: nat, request: ChangeRequest, snapshot: StateSnapshot)
      returns (r: Result<LifecycleResult, ControlPlaneError>, ghost used: seq<Answer>)
      modifies host`devices, host`rows, host`now
      ensures var t := Ticket(experiment, manifest.id, request, snapshot);
              OwnerRun(Previewing(t), old(host.View()), used) == (Finished(Some(t), r), host.View())
    {
      ghost var t := Ticket(experiment, manifest.id, request, snapshot);
      ghost var w0 := host.View();
      var outcome;
      outcome, used := RunStages(experiment, request, snapshot);
      assert OwnerRun(Previewing(t), w0, used) == (Lifecycle.Closing(t, outcome), host.View());
      ghost var a;
      r, a := RecordOutcome(experiment, outcome);
      OwnerRunStep(Previewing(t), w0, used, a);
      used := used + [a];
    }

    /** From the preview to the verified restore. */
    method RunStages(experiment: nat, request: ChangeRequest, snapshot: StateSnapshot)
      returns (outcome: Outcome, ghost used: seq<Answer>)
      modifies host`devices, host`rows, host`now
      ensures var t := Ticket(experiment, manifest.id, request, snapshot);
              OwnerRun(Previewing(t), old(host.View()), used) == (Lifecycle.Closing(t, outcome), host.View())
    {
      ghost var t := Ticket(experiment, manifest.id, request, snapshot);
      ghost var start, w0 := Previewing(t), host.View();
      used := [];
      var preview, a0 := host.Preview(manifest.id, request);
      OwnerRunStep(start, w0, used, a0);
      used := used + [a0];
      if preview.Err? {
        return Err(Failure(AtPreview, Provider(preview.error))), used;
      }
      var recorded, a1 := host.Append(experiment, AtPreview, manifest.id, PreviewP(preview.value));
      OwnerRunStep(start, w0, used, a1);
      used := used + [a1];
      if recorded.Err? {
        return Err(Failure(AtPreview, recorded.error)), used;
      }
      var intended, a2 := host.Append(experiment, AtApplyIntent, manifest.id, RequestP(request));
      OwnerRunStep(start, w0, used, a2);
      used := used + [a2];
      if intended.Err? {
        return Err(Failure(AtApplyIntent, intended.error)), used;
      }
      assert OwnerRun(start, w0, used) == (Lifecycle.Applying(t, preview.value), host.View());
      ghost var answers;
      outcome, answers := ApplyAndRestore(experiment, request, snapshot, preview.value);
      OwnerRunConcat(start, w0, used, answers);
      used := used + answers;
    }

    /** From the apply on; the restore runs whatever the apply came to. */
    method ApplyAndRestore(experiment: nat, request: ChangeRequest, snapshot: StateSnapshot, text: string)
      returns (outcome: Outcome, ghost used: seq<Answer>)
      modifies host`devices, host`rows, host`now
      ensures var t := Ticket(experiment, manifest.id, request, snapshot);
              OwnerRun(Lifecycle.Applying(t, text), old(host.View()), used)
              == (Lifecycle.Closing(t, outcome), host.View())
    {
      ghost var t := Ticket(experiment, manifest.id, request, snapshot);
      ghost var start, w0 := Lifecycle.Applying(t, text), host.View();
      var applied, a := host.Drive(manifest.id);
      OwnerRunStep(start, w0, [], a);
      used := [] + [a];
      var observed: Observation;
      if applied.Err? {
        observed := Err(Failure(AtApply, Provider(applied.error)));
      } else {
        ghost var answers;
        observed, answers := ObserveApplied(experiment, request, t, text);
        OwnerRunConcat(start, w0, used, answers);
        used := used + answers;
      }
      assert OwnerRun(start, w0, used) == (Lifecycle.RollingBack(t, text, observed), host.View());
      var restored, answers := Restore(experiment, snapshot, t, text, observed);
      OwnerRunConcat(start, w0, used, answers);
      used := used + answers;
      outcome := Combine(text, observed, restored);
    }

    /** A failed restore wins and keeps the failure it hides. */
    method Combine(text: string, observed: Observation, restored: Result<(), StageFailure>) returns (outcome: Outcome)
      ensures restored.Err? ==>
                && outcome.Err? && outcome.error.error == restored.error.error
                && outcome.error.stage == restored.error.stage
                && (observed.Err? ==> outcome.error.suppressed == Some(observed.error))
                && (observed.Ok? ==> outcome == Err(restored.error))
      ensures restored.Ok? && observed.Err? ==> outcome == Err(observed.error)
      ensures restored.Ok? && observed.Ok? ==>
                outcome == Ok(LifecycleResult(manifest.id, text, observed.value, true))
      ensures forall t: Ticket :: t.provider == manifest.id ==> outcome == Conclude(t, text, observed, restored)
    {
      if restored.Err? {
        if observed.Err? {
          return Err(restored.error.(suppressed := Some(observed.error)));
        }
        return Err(restored.error);
      }
      if observed.Err? {
        return Err(observed.error);
      }
      outcome := Ok(LifecycleResult(manifest.id, text, observed.value, true));
    }

    /** Records the apply and probes for its effect. */
    method ObserveApplied(experiment: nat, request: ChangeRequest, ghost t: Ticket, ghost text: string)
      returns (observed: Observation, ghost used: seq<Answer>)
      requires t.id == experiment && t.provider == manifest.id
      modifies host`devices, host`rows, host`now
      ensures OwnerRun(Lifecycle.RecordingApply(t, text), old(host.View()), used)
              == (Lifecycle.RollingBack(t, text, observed), host.View())
    {
      ghost var start, w0 := Lifecycle.RecordingApply(t, text), host.View();
      used := [];
      var recorded, a0 := host.Append(experiment, AtApply, manifest.id, AppliedP);
      OwnerRunStep(start, w0, used, a0);
      used := used + [a0];
      if recorded.Err? {
        return Err(Failure(AtApply, recorded.error)), used;
      }
      var verified, a1 := host.Verify(manifest.id, request);
      OwnerRunStep(start, w0, used, a1);
      used := used + [a1];
      if verified.Err? {
        return Err(Failure(AtVerify, Provider(verified.error))), used;
      }
      var noted, a2 := host.Append(experiment, AtVerify, manifest.id, VerifiedP(verified.value));
      OwnerRunStep(start, w0, used, a2);
      used := used + [a2];
      if noted.Err? {
        return Err(Failure(AtVerify, noted.error)), used;
      }
      observed := if verified.value then Ok(true) else Err(Failure(AtVerify, VerificationFailed));
    }

    /** Rolls back and re-reads the provider, whatever the phase before reported. */
    method Restore(experiment: nat, snapshot: StateSnapshot,
                   ghost t: Ticket, ghost text: string, ghost observed: Observation)
      returns (r: Result<(), StageFailure>, ghost used: seq<Answer>)
      requires t.id == experiment && t.provider == manifest.id && t.snapshot == snapshot
      modifies host`devices, host`rows, host`now
      ensures OwnerRun(Lifecycle.RollingBack(t, text, observed), old(host.View()), used)
              == (Lifecycle.Closing(t, Conclude(t, text, observed, r)), host.View())
    {
      ghost var start, w0 := Lifecycle.RollingBack(t, text, observed), host.View();
      used := [];
      var rolled, a0 := host.Drive(manifest.id);
      OwnerRunStep(start, w0, used, a0);
      used := used + [a0];
      if rolled.Err? {
        return Err(Failure(AtRollback, Provider(rolled.error))), used;
      }
      var recorded, a1 := host.Append(experiment, AtRollback, manifest.id, SnapshotP(snapshot));
      OwnerRunStep(start, w0, used, a1);
      used := used + [a1];
      if recorded.Err? {
        return Err(Failure(AtRollback, recorded.error)), used;
      }
      var restored, a2 := host.TakeSnapshot(manifest.id);
      OwnerRunStep(start, w0, used, a2);
      used := used + [a2];
      if restored.Err? {
        return Err(Failure(AtRollbackVerify, Provider(restored.error))), used;
      }
      var rolledBack := restored.value == snapshot;
      var noted, a3 := host.Append(experiment, AtRollbackVerify, manifest.id, RestoredP(rolledBack));
      OwnerRunStep(start, w0, used, a3);
      used := used + [a3];
      if noted.Err? {
        return Err(Failure(AtRollbackVerify, noted.error)), used;
      }
      r := if rolledBack then Ok(()) else Err(Failure(AtRollbackVerify, RollbackVerificationFailed));
    }

    /** Writes the terminal row; a `failed` row that cannot be written hides nothing. */
    method RecordOutcome(experiment: nat, outcome: Outcome)
      returns (r: Result<LifecycleResult, ControlPlaneError>, ghost a: Answer)
      modifies host`devices, host`rows, host`now
      ensures host.View() == Insert(old(host.View()), a, experiment, TerminalStage(outcome), manifest.id,
                                    TerminalPayload(outcome))
      ensures r == Returned(outcome, a)
    {
      match outcome
      case Ok(result) =>
        var recorded;
        recorded, a := host.Append(experiment, AtCompleted, manifest.id,
                                   CompletedP(result.verified, result.rolledBack));
        r := if recorded.Err? then Err(recorded.error) else Ok(result);
      case Err(failure) =>
        var suppressed := None;
        if failure.suppressed.Some? {
          suppressed := Some(Note(failure.suppressed.value));
        }
        var recorded;
        recorded, a := host.Append(experiment, AtFailed, manifest.id, FailedP(Note(failure), suppressed));
        r := Err(failure.error);
    }
  }
}
