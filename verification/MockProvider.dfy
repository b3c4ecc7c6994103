/** The in-memory provider: the honest instance of the provider contract. */
module MockProviders {
  import opened Wrappers
  import opened Contracts
  import opened Journal
  import opened Lifecycle
  import opened ControlPlanes
  import opened Texts

  const MOCK_ID: string := "mock"
  const MOCK_VALUE: string := "mock.value"

  /** A 64-bit unsigned setting. */
  type Setting = n: nat | n <= U64_MAX

  function Manifest(): ProviderManifest {
    ProviderManifest(MOCK_ID, [Capability(MOCK_VALUE, Reversible)])
  }

  function State(value: Setting): Json {
    Obj(map["value" := Int(value)])
  }

  function Requested(request: ChangeRequest): Result<Setting, ProviderError> {
    match FieldU64(request.parameters, "value")
    case Some(value) => Ok(value)
    case None => Err(InvalidRequest("value must be a u64"))
  }

  function PreviewOf(value: Setting, request: ChangeRequest): Result<string, ProviderError> {
    match Requested(request)
    case Ok(wanted) => Ok("set mock.value from " + Decimal(value) + " to " + Decimal(wanted))
    case Err(error) => Err(error)
  }

  /** The outcome of an apply and the value it leaves. */
  function ApplyTo(value: Setting, request: ChangeRequest): (Result<(), ProviderError>, Setting) {
    if request.capabilityId != MOCK_VALUE then (Err(UnsupportedCapability(request.capabilityId)), value)
    else
      match Requested(request)
      case Ok(wanted) => (Ok(()), wanted)
      case Err(error) => (Err(error), value)
  }

  function VerifyOn(value: Setting, request: ChangeRequest): bool {
    FieldU64(request.parameters, "value") == Some(value)
  }

  function RollbackTo(value: Setting, snapshot: StateSnapshot): (Result<(), ProviderError>, Setting) {
    match FieldU64(snapshot.state, "value")
    case Some(baseline) => (Ok(()), baseline)
    case None => (Err(RollbackFailed("snapshot has no value")), value)
  }

  class MockProvider {
    var value: Setting

    constructor (value: Setting)
      ensures this.value == value
    {
      this.value := value;
    }

    method TakeSnapshot() returns (r: Result<StateSnapshot, ProviderError>)
      ensures r == Ok(StateSnapshot(MOCK_ID, State(value)))
      ensures forall v: Setting :: RollbackTo(v, r.value) == (Ok(()), value)
    {
      r := Ok(StateSnapshot(MOCK_ID, Obj(map["value" := Int(value)])));
    }

    method Preview(request: ChangeRequest) returns (r: Result<string, ProviderError>)
      ensures r == PreviewOf(value, request)
      ensures FieldU64(request.parameters, "value").Some? ==>
                r == Ok("set mock.value from " + Decimal(value) + " to "
                        + Decimal(FieldU64(request.parameters, "value").value))
      ensures FieldU64(request.parameters, "value").None? ==> r == Err(InvalidRequest("value must be a u64"))
    {
      var wanted :- Requested(request);
      r := Ok("set mock.value from " + Decimal(value) + " to " + Decimal(wanted));
    }

    /** A refused request leaves the value alone; an accepted one is seen by the next verify. */
    method Apply(request: ChangeRequest) returns (r: Result<(), ProviderError>)
      modifies this
      ensures (r, value) == ApplyTo(old(value), request)
      ensures r.Err? ==> value == old(value)
      ensures r.Ok? ==> VerifyOn(value, request) && FieldU64(request.parameters, "value") == Some(value)
      ensures r.Ok? <==> request.capabilityId == "mock.value" && FieldU64(request.parameters, "value").Some?
      ensures r.Err? ==> r.error == if request.capabilityId != "mock.value"
                                    then UnsupportedCapability(request.capabilityId)
                                    else InvalidRequest("value must be a u64")
    {
      if request.capabilityId != MOCK_VALUE {
        return Err(UnsupportedCapability(request.capabilityId));
      }
      var wanted :- Requested(request);
      value := wanted;
      r := Ok(());
    }

    method Verify(request: ChangeRequest) returns (r: Result<bool, ProviderError>)
      ensures r == Ok(VerifyOn(value, request))
      ensures r == Ok(FieldU64(request.parameters, "value") == Some(value))
    {
      r := Ok(FieldU64(request.parameters, "value") == Some(value));
    }

    method Rollback(snapshot: StateSnapshot) returns (r: Result<(), ProviderError>)
      modifies this
      ensures (r, value) == RollbackTo(old(value), snapshot)
      ensures r.Ok? ==> FieldU64(snapshot.state, "value") == Some(value)
      ensures r.Err? ==> value == old(value) && FieldU64(snapshot.state, "value").None?
    {
      var baseline := FieldU64(snapshot.state, "value");
      if baseline.None? {
        return Err(RollbackFailed("snapshot has no value"));
      }
      value := baseline.value;
      r := Ok(());
    }
  }

  // ----- the lifecycle over the mock provider --------------------------------------

  /** The setting a world's mock device holds. */
  function ValueIn(w: World): Setting {
    match FieldU64(Device(w, MOCK_ID), "value")
    case Some(value) => value
    case None => 0
  }

  /** How the mock provider and a healthy journal answer the owner's next call. */
  function MockAnswer(o: Owner, w: World, elapsed: int): Answer {
    var quiet := Answer(None, None, Device(w, MOCK_ID), true, "", elapsed);
    var value := ValueIn(w);
    match o
    case Previewing(t) =>
      (match PreviewOf(value, t.request)
       case Ok(text) => quiet.(text := text)
       case Err(error) => quiet.(fault := Some(error)))
    case Applying(t, _) =>
      var (r, landed) := ApplyTo(value, t.request);
      quiet.(landed := State(landed), fault := if r.Err? then Some(r.error) else None)
    case Verifying(t, _) => quiet.(verified := VerifyOn(value, t.request))
    case RollingBack(t, _, _) =>
      var (r, landed) := RollbackTo(value, t.snapshot);
      quiet.(landed := State(landed), fault := if r.Err? then Some(r.error) else None)
    case _ => quiet
  }

  /** The owner run against the mock; `times` gives the milliseconds each call takes. */
  function MockRun(o: Owner, w: World, times: seq<int>): (Owner, World)
    decreases |times|
  {
    if times == [] then (o, w)
    else
      var (o', w') := OwnerStep(o, w, MockAnswer(o, w, times[0]));
      MockRun(o', w', times[1..])
  }

  lemma {:induction false} MockRunConcat(o: Owner, w: World, first: seq<int>, second: seq<int>)
    ensures MockRun(o, w, first + second) == MockRun(MockRun(o, w, first).0, MockRun(o, w, first).1, second)
    decreases |first|
  {
    if first == [] {
      assert first + second == second;
    } else {
      var (o', w') := OwnerStep(o, w, MockAnswer(o, w, first[0]));
      MockRunConcat(o', w', first[1..], second);
      assert (first + second)[1..] == first[1..] + second;
    }
  }

  /** The stages of some rows, in order. */
  function Stages(rows: seq<Row>): seq<Stage> {
    if rows == [] then [] else Stages(Front(rows)) + [Last(rows).stage]
  }

  /** One step against the mock, from what it does to the rest of the run. */
  lemma {:induction false} MockStep(o: Owner, w: World, times: seq<int>)
    requires times != []
    ensures var (o', w') := OwnerStep(o, w, MockAnswer(o, w, times[0]));
            && MockRun(o, w, times) == MockRun(o', w', times[1..])
            && (w'.rows != w.rows ==> Stages(w'.rows) == Stages(w.rows) + [Last(w'.rows).stage])
  {
    var (o', w') := OwnerStep(o, w, MockAnswer(o, w, times[0]));
    if w'.rows != w.rows {
      assert w'.rows == w.rows + [Last(w'.rows)];
      assert Front(w'.rows) == w.rows;
    }
  }

  /** What the control plane accepts for the mock: its one capability and a value in range. */
  lemma AcceptedByMock(request: ChangeRequest)
    requires Validate(Manifest(), request).Ok?
    ensures request.capabilityId == MOCK_VALUE
    ensures Requested(request).Ok? && Requested(request).value <= MAX_MOCK_VALUE
  {
    var capabilities := Manifest().capabilities;
    assert capabilities[1..] == [];
    assert FindCapability(capabilities[1..], request.capabilityId).None?;
  }

  ghost predicate AtBaseline(w: World, value: Setting) {
    Device(w, MOCK_ID) == State(value)
  }

  /** The owner's next state and world against the mock. */
  function MockNext(o: Owner, w: World, time: int): (Owner, World) {
    OwnerStep(o, w, MockAnswer(o, w, time))
  }

  lemma {:induction false} MockSnapshots(request: ChangeRequest, value: Setting, w: World, times: seq<int>)
    requires AtBaseline(w, value) && |times| == 2
    ensures var (o, w') := MockRun(TakingSnapshot(MOCK_ID, request), w, times);
            && o == Previewing(Ticket(MaxId(w.rows) + 1, MOCK_ID, request, StateSnapshot(MOCK_ID, State(value))))
            && Stages(w'.rows) == Stages(w.rows) + [AtSnapshot]
            && AtBaseline(w', value)
  {
    var o0 := TakingSnapshot(MOCK_ID, request);
    MockStep(o0, w, times);
    var (o1, w1) := MockNext(o0, w, times[0]);
    assert o1 == Beginning(MOCK_ID, request, StateSnapshot(MOCK_ID, State(value))) && w1.rows == w.rows;
    MockStep(o1, w1, times[1..]);
  }

  lemma {:induction false} MockPreviews(t: Ticket, value: Setting, w: World, times: seq<int>)
    requires t.provider == MOCK_ID && Requested(t.request).Ok?
    requires AtBaseline(w, value) && |times| == 3
    ensures var (o, w') := MockRun(Previewing(t), w, times);
            && o == Applying(t, PreviewOf(value, t.request).value)
            && Stages(w'.rows) == Stages(w.rows) + [AtPreview] + [AtApplyIntent]
            && AtBaseline(w', value)
  {
    var text := PreviewOf(value, t.request).value;
    MockStep(Previewing(t), w, times);
    var (o1, w1) := MockNext(Previewing(t), w, times[0]);
    assert o1 == RecordingPreview(t, text) && w1.rows == w.rows;
    MockStep(o1, w1, times[1..]);
    var (o2, w2) := MockNext(o1, w1, times[1]);
    assert o2 == RecordingIntent(t, text);
    MockStep(o2, w2, times[2..]);
  }

  lemma {:induction false} MockApplies(t: Ticket, text: string, value: Setting, w: World, times: seq<int>)
    requires t.provider == MOCK_ID && t.request.capabilityId == MOCK_VALUE && Requested(t.request).Ok?
    requires AtBaseline(w, value) && |times| == 2
    ensures var (o, w') := MockRun(Applying(t, text), w, times);
            && o == Verifying(t, text)
            && Stages(w'.rows) == Stages(w.rows) + [AtApply]
            && AtBaseline(w', Requested(t.request).value)
  {
    MockStep(Applying(t, text), w, times);
    var (o1, w1) := MockNext(Applying(t, text), w, times[0]);
    assert o1 == RecordingApply(t, text) && w1.rows == w.rows && AtBaseline(w1, Requested(t.request).value);
    MockStep(o1, w1, times[1..]);
  }

  lemma {:induction false} MockVerifies(t: Ticket, text: string, w: World, times: seq<int>)
    requires t.provider == MOCK_ID && Requested(t.request).Ok?
    requires AtBaseline(w, Requested(t.request).value) && |times| == 2
    ensures var (o, w') := MockRun(Verifying(t, text), w, times);
            && o == RollingBack(t, text, Ok(true))
            && Stages(w'.rows) == Stages(w.rows) + [AtVerify]
  {
    MockStep(Verifying(t, text), w, times);
    var (o1, w1) := MockNext(Verifying(t, text), w, times[0]);
    assert o1 == RecordingVerify(t, text, true) && w1.rows == w.rows;
    MockStep(o1, w1, times[1..]);
  }

  lemma {:induction false} MockRollsBack(t: Ticket, text: string, value: Setting, w: World, times: seq<int>)
    requires t.provider == MOCK_ID && t.snapshot == StateSnapshot(MOCK_ID, State(value)) && |times| == 2
    ensures var (o, w') := MockRun(RollingBack(t, text, Ok(true)), w, times);
            && o == Resampling(t, text, Ok(true))
            && Stages(w'.rows) == Stages(w.rows) + [AtRollback]
            && AtBaseline(w', value)
  {
    var o0 := RollingBack(t, text, Ok(true));
    MockStep(o0, w, times);
    var (o1, w1) := MockNext(o0, w, times[0]);
    assert o1 == RecordingRollback(t, text, Ok(true)) && w1.rows == w.rows && AtBaseline(w1, value);
    MockStep(o1, w1, times[1..]);
  }

  lemma {:induction false} MockCloses(t: Ticket, text: string, value: Setting, w: World, times: seq<int>)
    requires t.provider == MOCK_ID && t.snapshot == StateSnapshot(MOCK_ID, State(value))
    requires AtBaseline(w, value) && |times| == 3
    ensures var (o, w') := MockRun(Resampling(t, text, Ok(true)), w, times);
            && o == Finished(Some(t), Ok(LifecycleResult(MOCK_ID, text, true, true)))
            && Stages(w'.rows) == Stages(w.rows) + [AtRollbackVerify] + [AtCompleted]
            && AtBaseline(w', value)
  {
    var o0 := Resampling(t, text, Ok(true));
    MockStep(o0, w, times);
    var (o1, w1) := MockNext(o0, w, times[0]);
    assert o1 == RecordingRestore(t, text, Ok(true), true) && w1.rows == w.rows;
    MockStep(o1, w1, times[1..]);
    var (o2, w2) := MockNext(o1, w1, times[1]);
    assert o2 == Lifecycle.Closing(t, Ok(LifecycleResult(MOCK_ID, text, true, true)));
    MockStep(o2, w2, times[2..]);
  }

  lemma {:induction false} MockBegins(request: ChangeRequest, value: Setting, w: World, times: seq<int>)
    requires Requested(request).Ok? && AtBaseline(w, value) && |times| == 5
    ensures var (o, w') := MockRun(TakingSnapshot(MOCK_ID, request), w, times);
            && o == Applying(Ticket(MaxId(w.rows) + 1, MOCK_ID, request, StateSnapshot(MOCK_ID, State(value))),
                             PreviewOf(value, request).value)
            && Stages(w'.rows) == Stages(w.rows) + [AtSnapshot] + [AtPreview] + [AtApplyIntent]
            && AtBaseline(w', value)
  {
    MockSnapshots(request, value, w, times[..2]);
    var (o, w') := MockRun(TakingSnapshot(MOCK_ID, request), w, times[..2]);
    MockPreviews(o.ticket, value, w', times[2..]);
    MockRunConcat(TakingSnapshot(MOCK_ID, request), w, times[..2], times[2..]);
    assert times == times[..2] + times[2..];
  }

  lemma {:induction false} MockActs(t: Ticket, text: string, value: Setting, w: World, times: seq<int>)
    requires t.provider == MOCK_ID && t.request.capabilityId == MOCK_VALUE && Requested(t.request).Ok?
    requires AtBaseline(w, value) && |times| == 4
    ensures var (o, w') := MockRun(Applying(t, text), w, times);
            && o == RollingBack(t, text, Ok(true))
            && Stages(w'.rows) == Stages(w.rows) + [AtApply] + [AtVerify]
  {
    MockApplies(t, text, value, w, times[..2]);
    var (o, w') := MockRun(Applying(t, text), w, times[..2]);
    MockVerifies(t, text, w', times[2..]);
    MockRunConcat(Applying(t, text), w, times[..2], times[2..]);
    assert times == times[..2] + times[2..];
  }

  lemma {:induction false} MockRestores(t: Ticket, text: string, value: Setting, w: World, times: seq<int>)
    requires t.provider == MOCK_ID && t.snapshot == StateSnapshot(MOCK_ID, State(value)) && |times| == 5
    ensures var (o, w') := MockRun(RollingBack(t, text, Ok(true)), w, times);
            && o == Finished(Some(t), Ok(LifecycleResult(MOCK_ID, text, true, true)))
            && Stages(w'.rows) == Stages(w.rows) + [AtRollback] + [AtRollbackVerify] + [AtCompleted]
            && AtBaseline(w', value)
  {
    var o0 := RollingBack(t, text, Ok(true));
    MockRollsBack(t, text, value, w, times[..2]);
    var (o, w') := MockRun(o0, w, times[..2]);
    MockCloses(t, text, value, w', times[2..]);
    MockRunConcat(o0, w, times[..2], times[2..]);
    assert times == times[..2] + times[2..];
  }

  /** The rows up to the verify row, and those of the restore. */
  const ACT_WORD: seq<Stage> := [AtSnapshot, AtPreview, AtApplyIntent, AtApply, AtVerify]
  const RESTORE_WORD: seq<Stage> := [AtRollback, AtRollbackVerify, AtCompleted]

  lemma ActWord(before: seq<Stage>)
    ensures before + [AtSnapshot] + [AtPreview] + [AtApplyIntent] + [AtApply] + [AtVerify] == before + ACT_WORD
  {
  }

  lemma RestoreWord(before: seq<Stage>)
    ensures before + [AtRollback] + [AtRollbackVerify] + [AtCompleted] == before + RESTORE_WORD
  {
  }

  /** From the start to the rollback. */
  lemma {:induction false} MockReachesRollback(request: ChangeRequest, value: Setting, w: World, times: seq<int>)
    requires request.capabilityId == MOCK_VALUE && Requested(request).Ok?
    requires AtBaseline(w, value) && |times| == 9
    ensures var t := Ticket(MaxId(w.rows) + 1, MOCK_ID, request, StateSnapshot(MOCK_ID, State(value)));
            var (o, w') := MockRun(TakingSnapshot(MOCK_ID, request), w, times);
            && o == RollingBack(t, PreviewOf(value, request).value, Ok(true))
            && Stages(w'.rows) == Stages(w.rows) + ACT_WORD
  {
    var start := TakingSnapshot(MOCK_ID, request);
    MockBegins(request, value, w, times[..5]);
    var (o, w') := MockRun(start, w, times[..5]);
    MockActs(o.ticket, o.text, value, w', times[5..]);
    MockRunConcat(start, w, times[..5], times[5..]);
    assert times == times[..5] + times[5..];
    ActWord(Stages(w.rows));
  }

  /**
    The provider contract is met by the mock: every accepted request, from any
    baseline and any journal, runs to a verified, rolled-back result, writes the
    eight stages in order, and leaves the setting where it was.
   */
  lemma {:induction false} MockLifecycle(request: ChangeRequest, value: Setting, w: World, times: seq<int>)
    requires Validate(Manifest(), request).Ok? && AtBaseline(w, value) && |times| == 14
    ensures PreviewOf(value, request).Ok?
    ensures var (o, w') := MockRun(TakingSnapshot(MOCK_ID, request), w, times);
            && o.Finished? && o.result == Ok(LifecycleResult(MOCK_ID, PreviewOf(value, request).value, true, true))
            && Stages(w'.rows) == Stages(w.rows) + ACT_WORD + RESTORE_WORD
            && AtBaseline(w', value)
  {
    AcceptedByMock(request);
    var start := TakingSnapshot(MOCK_ID, request);
    MockReachesRollback(request, value, w, times[..9]);
    var (o, w') := MockRun(start, w, times[..9]);
    MockRestores(o.ticket, o.text, value, w', times[9..]);
    MockRunConcat(start, w, times[..9], times[9..]);
    assert times == times[..9] + times[9..];
    RestoreWord(Stages(w'.rows));
  }
}
