/**
  The trusted end of the boundary: which requests reach the control plane, what
  each is answered, and the worker that serves them one at a time.
 */
module Brokers {
  import opened Wrappers
  import opened Contracts
  import opened Journal
  import opened Lifecycle
  import opened Hosts
  import opened Dirtiness
  import opened Blames
  import opened ControlPlanes
  import opened Ownership
  import opened Texts

  /** An error message is text as it goes out: UTF-8 bytes. */
  datatype BrokerResponse =
    | Capabilities(manifest: ProviderManifest)
    | Report(report: LifecycleResult)
    | Error(kind: BrokerErrorKind, message: seq<Byte>)

  const LIFECYCLE_FAILED: string := "lifecycle failed: "
  const CAPABILITY: string := "capability "
  const NOT_IN_CATALOG: string := " is not in the catalog"
  const OWNER_REQUIRED: string := "run-lifecycle requires a non-empty owner"
  const CHANGE_REQUIRED: string := "run-lifecycle requires a change"

  /** Unicode White_Space, which str::trim removes. */
  predicate IsSpace(c: char) {
    var n := c as int;
    || 0x09 <= n <= 0x0D || n == 0x20 || n == 0x85 || n == 0xA0 || n == 0x1680
    || 0x2000 <= n <= 0x200A || n == 0x2028 || n == 0x2029 || n == 0x202F || n == 0x205F || n == 0x3000
  }

  /** Nothing is left of the text once trimmed. */
  predicate Blank(text: string) {
    forall k :: 0 <= k < |text| ==> IsSpace(text[k])
  }

  function Catalog(manifest: ProviderManifest): set<string> {
    set c | c in manifest.capabilities :: c.id
  }

  /** Reduces a control-plane failure to what may cross the boundary. */
  function WireError(error: ControlPlaneError): BrokerResponse {
    match error
    case UnknownCapability(id) => Error(UncataloguedCapability, Echoed("unknown capability: " + id))
    case PolicyDenied(detail) => Error(RequestDenied, Echoed("policy denied request: " + detail))
    case _ => Error(LifecycleFailed, Utf8(LIFECYCLE_FAILED) + Utf8(error.Kind()))
  }

  function Respond(outcome: Result<LifecycleResult, ControlPlaneError>): BrokerResponse {
    match outcome
    case Ok(result) => Report(result)
    case Err(error) => WireError(error)
  }

  /** The request names an owner and a change. */
  predicate WellFormedRequest(request: BrokerRequest) {
    request.owner.Some? && !Blank(request.owner.value) && request.change.Some?
  }

  /**
    One request and the answer it got: the lifecycle it ran, if it ran one, took
    the host from `w` to `w'` against the answers `used`.
   */
  ghost predicate Handled(manifest: ProviderManifest, owners: map<string, string>, request: BrokerRequest,
                          w: World, w': World, used: seq<Answer>, response: BrokerResponse) {
    if request.op == Discover then response == Capabilities(manifest) && w' == w
    else if !WellFormedRequest(request) then
      response.Error? && response.kind == Malformed && w' == w
      && response.message == Utf8(if request.owner.None? || Blank(request.owner.value)
                                  then OWNER_REQUIRED
                                  else CHANGE_REQUIRED)
    else
      HandledChange(manifest, owners, request.change.value, w, w', used, response)
  }

  /** The part of it after the request is known to name an owner and a change. */
  ghost predicate HandledChange(manifest: ProviderManifest, owners: map<string, string>, change: ChangeRequest,
                                w: World, w': World, used: seq<Answer>, response: BrokerResponse) {
    if change.capabilityId !in Catalog(manifest) then
      response == Error(UncataloguedCapability,
                        Utf8(CAPABILITY) + Echoed(change.capabilityId) + Utf8(NOT_IN_CATALOG))
      && w' == w
    else if change.capabilityId in owners then
      response == Error(KnobOwned, Echoed(OwnerConflict(change.capabilityId, owners[change.capabilityId]).Display()))
      && w' == w
    else
      HandledOwned(manifest, change, w, w', used, response)
  }

  /** The part of it after the knob is the request's own. */
  ghost predicate HandledOwned(manifest: ProviderManifest, change: ChangeRequest,
                               w: World, w': World, used: seq<Answer>, response: BrokerResponse) {
    if Validate(manifest, change).Err? then
      response == WireError(Validate(manifest, change).error) && w' == w
    else
      var (o, end) := OwnerRun(TakingSnapshot(manifest.id, change), w, used);
      o.Finished? && response == Respond(o.result) && w' == end
  }

  class BrokerService {
    const plane: ControlPlane
    const ledger: OwnershipLedger
    const catalog: set<string>

    constructor (plane: ControlPlane, ledger: OwnershipLedger)
      ensures this.plane == plane && this.ledger == ledger && catalog == Catalog(plane.manifest)
    {
      this.plane := plane;
      this.ledger := ledger;
      this.catalog := set c | c in plane.manifest.capabilities :: c.id;
    }

    ghost predicate Valid()
      reads ledger
    {
      catalog == Catalog(plane.manifest) && ledger.Valid()
    }

    /**
      Answers one request.  The knob is free again whatever happened, and the
      guards of everybody else are as they were.
     */
    method Handle(request: BrokerRequest) returns (response: BrokerResponse, ghost used: seq<Answer>)
      requires Valid()
      modifies ledger, plane.host`devices, plane.host`rows, plane.host`now
      ensures Valid() && ledger.owners == old(ledger.owners) && ledger.guards == old(ledger.guards)
      ensures Handled(plane.manifest, old(ledger.owners), request,
                      old(plane.host.View()), plane.host.View(), used, response)
    {
      used := [];
      match request.op
      case Discover => response := Capabilities(plane.manifest);
      case RunLifecycle => response, used := RunLifecycle(request);
    }

    method RunLifecycle(request: BrokerRequest) returns (response: BrokerResponse, ghost used: seq<Answer>)
      requires Valid() && request.op == BrokerOp.RunLifecycle
      modifies ledger, plane.host`devices, plane.host`rows, plane.host`now
      ensures Valid() && ledger.owners == old(ledger.owners) && ledger.guards == old(ledger.guards)
      ensures Handled(plane.manifest, old(ledger.owners), request,
                      old(plane.host.View()), plane.host.View(), used, response)
    {
      used := [];
      if request.owner.None? || Blank(request.owner.value) {
        return Error(Malformed, Utf8(OWNER_REQUIRED)), used;
      }
      if request.change.None? {
        return Error(Malformed, Utf8(CHANGE_REQUIRED)), used;
      }
      response, used := RunChange(request.owner.value, request.change.value);
    }

    /** Checks the catalog, takes the knob, runs the lifecycle and frees the knob. */
    method RunChange(owner: string, change: ChangeRequest) returns (response: BrokerResponse, ghost used: seq<Answer>)
      requires Valid()
      modifies ledger, plane.host`devices, plane.host`rows, plane.host`now
      ensures Valid() && ledger.owners == old(ledger.owners) && ledger.guards == old(ledger.guards)
      ensures HandledChange(plane.manifest, old(ledger.owners), change,
                            old(plane.host.View()), plane.host.View(), used, response)
    {
      used := [];
      if change.capabilityId !in catalog {
        return Error(UncataloguedCapability,
                     Utf8(CAPABILITY) + Echoed(change.capabilityId) + Utf8(NOT_IN_CATALOG)), used;
      }
      var claim := ledger.Acquire(change.capabilityId, owner);
      if claim.Err? {
        return Error(KnobOwned, Echoed(claim.error.Display())), used;
      }
      response, used := RunOwned(claim.value, change);
    }

    /** Runs the lifecycle of a request that holds its knob, and frees the knob. */
    method RunOwned(guard: OwnershipGuard, change: ChangeRequest)
      returns (response: BrokerResponse, ghost used: seq<Answer>)
      requires Valid() && guard in ledger.guards
      modifies ledger, plane.host`devices, plane.host`rows, plane.host`now
      ensures Valid() && ledger.owners == old(ledger.owners) - {guard.capabilityId}
      ensures ledger.guards == old(ledger.guards) - {guard}
      ensures HandledOwned(plane.manifest, change, old(plane.host.View()), plane.host.View(), used, response)
    {
      var outcome;
      outcome, used := plane.RunLifecycle(change);
      guard.Drop();
      response := Respond(outcome);
    }

    /**
      The worker: takes queued jobs in order, each to its end before the next.
      `worlds` is the host between jobs.
     */
    method Work(jobs: seq<BrokerRequest>)
      returns (responses: seq<BrokerResponse>, ghost worlds: seq<World>, ghost runs: seq<seq<Answer>>)
      requires Valid()
      modifies ledger, plane.host`devices, plane.host`rows, plane.host`now
      ensures Valid() && ledger.owners == old(ledger.owners)
      ensures ServedInOrder(plane.manifest, ledger.owners, jobs, worlds, runs, responses)
      ensures worlds[0] == old(plane.host.View()) && worlds[|jobs|] == plane.host.View()
    {
      responses, worlds, runs := [], [plane.host.View()], [];
      for next := 0 to |jobs|
        invariant Valid() && ledger.owners == old(ledger.owners)
        invariant ServedInOrder(plane.manifest, ledger.owners, jobs[..next], worlds, runs, responses)
        invariant worlds[0] == old(plane.host.View()) && worlds[next] == plane.host.View()
      {
        var response;
        ghost var used;
        response, used := Handle(jobs[next]);
        assert jobs[..next] + [jobs[next]] == jobs[..next + 1];
        ServedOneMore(plane.manifest, ledger.owners, jobs[..next], worlds, runs, responses,
                      jobs[next], plane.host.View(), used, response);
        responses := responses + [response];
        runs := runs + [used];
        worlds := worlds + [plane.host.View()];
      }
      assert jobs[..|jobs|] == jobs;
    }
  }

  /** Every job was answered in its place, and each began where the one before ended. */
  ghost predicate ServedInOrder(manifest: ProviderManifest, owners: map<string, string>, jobs: seq<BrokerRequest>,
                                worlds: seq<World>, runs: seq<seq<Answer>>, responses: seq<BrokerResponse>) {
    && |responses| == |runs| == |jobs| && |worlds| == |jobs| + 1
    && forall k :: 0 <= k < |jobs| ==>
         Handled(manifest, owners, jobs[k], worlds[k], worlds[k + 1], runs[k], responses[k])
  }

  lemma ServedOneMore(manifest: ProviderManifest, owners: map<string, string>, jobs: seq<BrokerRequest>,
                      worlds: seq<World>, runs: seq<seq<Answer>>, responses: seq<BrokerResponse>,
                      request: BrokerRequest, w: World, used: seq<Answer>, response: BrokerResponse)
    requires ServedInOrder(manifest, owners, jobs, worlds, runs, responses)
    requires Handled(manifest, owners, request, worlds[|jobs|], w, used, response)
    ensures ServedInOrder(manifest, owners, jobs + [request], worlds + [w], runs + [used], responses + [response])
  {
  }

  /** Jobs the worker handled, the host between them, the runs they made and their answers. */
  datatype Trail = Trail(jobs: seq<BrokerRequest>, worlds: seq<World>, runs: seq<seq<Answer>>,
                         responses: seq<BrokerResponse>) {
    ghost predicate Served(manifest: ProviderManifest, owners: map<string, string>) {
      ServedInOrder(manifest, owners, jobs, worlds, runs, responses)
    }

    /** The last job was this one, and this was its answer. */
    predicate EndsWith(request: BrokerRequest, response: BrokerResponse) {
      && jobs != [] && jobs[|jobs| - 1] == request
      && responses != [] && responses[|responses| - 1] == response
    }

    function Then(request: BrokerRequest, w: World, used: seq<Answer>, response: BrokerResponse): Trail {
      Trail(jobs + [request], worlds + [w], runs + [used], responses + [response])
    }
  }

  lemma TrailGoesOn(manifest: ProviderManifest, owners: map<string, string>, trail: Trail,
                    request: BrokerRequest, w: World, used: seq<Answer>, response: BrokerResponse)
    requires trail.Served(manifest, owners)
    requires Handled(manifest, owners, request, trail.worlds[|trail.jobs|], w, used, response)
    ensures trail.Then(request, w, used, response).Served(manifest, owners)
  {
    ServedOneMore(manifest, owners, trail.jobs, trail.worlds, trail.runs, trail.responses, request, w, used, response);
  }

  // ----- what an answer means ---------------------------------------------------

  /** The catalog check is the control plane's own: past it, no capability is unknown. */
  lemma {:induction false} CataloguedIsKnown(capabilities: seq<Capability>, id: string)
    ensures FindCapability(capabilities, id).Some? <==> exists c :: c in capabilities && c.id == id
  {
    if capabilities != [] {
      assert capabilities[0] in capabilities;
      CataloguedIsKnown(capabilities[1..], id);
      if FindCapability(capabilities, id).None? {
        forall c | c in capabilities
          ensures c.id != id
        {
          assert c == capabilities[0] || c in capabilities[1..];
        }
      } else if capabilities[0].id != id {
        var c :| c in capabilities[1..] && c.id == id;
        assert c in capabilities;
      }
    }
  }

  /** The errors a stage of a lifecycle can fail with. */
  predicate StageError(error: ControlPlaneError) {
    error.Provider? || error.VerificationFailed? || error.RollbackVerificationFailed? || error.Journal?
  }

  predicate OnlyStageErrors(o: Owner) {
    match o
    case RollingBack(_, _, observed) => observed.Err? ==> StageError(observed.error.error)
    case RecordingRollback(_, _, observed) => observed.Err? ==> StageError(observed.error.error)
    case Resampling(_, _, observed) => observed.Err? ==> StageError(observed.error.error)
    case RecordingRestore(_, _, observed, _) => observed.Err? ==> StageError(observed.error.error)
    case Closing(_, outcome) => outcome.Err? ==> StageError(outcome.error.error)
    case Finished(_, result) => result.Err? ==> StageError(result.error)
    case _ => true
  }

  lemma {:induction false} RunsFailWithStageErrors(p: string, change: ChangeRequest, w: World, used: seq<Answer>)
    ensures OnlyStageErrors(OwnerRun(TakingSnapshot(p, change), w, used).0)
  {
    if used != [] {
      RunsFailWithStageErrors(p, change, w, used[..|used| - 1]);
    }
  }

  /** A broker run that got past every check. */
  predicate Reaches(manifest: ProviderManifest, owners: map<string, string>, request: BrokerRequest) {
    && request.op == RunLifecycle && WellFormedRequest(request)
    && request.change.value.capabilityId !in owners
    && Validate(manifest, request.change.value).Ok?
  }

  /**
    What the answer to a request that reached the lifecycle says of the rows it
    left, `e` being the identifier they are under.
   */
  predicate TellsRows(p: string, before: seq<Row>, after: seq<Row>, e: nat, response: BrokerResponse) {
    var wrote := |after| > |before|;
    // A report exactly when the last row is the completion, and then of this provider and its preview.
    && (response.Report? <==> wrote && Last(after).stage == AtCompleted)
    && (response.Report? ==>
          && response.report.providerId == p
          && HasRow(after, e, AtPreview, PreviewP(response.report.preview)))
    // Otherwise the kind the failed row names.
    && (wrote && Last(after).stage == AtFailed ==>
          && Last(after).payload.FailedP?
          && response == Error(LifecycleFailed, Utf8("lifecycle failed: ") + Utf8(Last(after).payload.note.kind)))
    // A success that could not be recorded.
    && (Uncompleted(after, e) ==>
          response == Error(LifecycleFailed, Utf8("lifecycle failed: ") + Utf8("journal")))
  }

  lemma NamesTheKind(kind: string, error: ControlPlaneError)
    ensures Names(kind, error) <==> kind == error.Kind()
  {
  }

  /** What the rows show of a result, they show of the answer it is reduced to. */
  lemma ShownIsTold(p: string, before: seq<Row>, after: seq<Row>, result: Result<LifecycleResult, ControlPlaneError>)
    requires ShowsOutcome(p, before, after, result)
    requires result.Err? ==> StageError(result.error)
    ensures TellsRows(p, before, after, MaxId(before) + 1, Respond(result))
  {
    if result.Err? {
      NamesTheKind(result.error.Kind(), result.error);
    }
  }

  /** What the answer to a request that reached the lifecycle says. */
  predicate TellsRun(manifest: ProviderManifest, w: World, w': World, response: BrokerResponse) {
    && (response.Report? || (response.Error? && response.kind == LifecycleFailed))
    && (response.Report? ==>
          && response.report.verified && response.report.rolledBack
          && Device(w', manifest.id) == Device(w, manifest.id))
    && TellsRows(manifest.id, w.rows, w'.rows, MaxId(w.rows) + 1, response)
  }

  /** One of the four texts a failed lifecycle is answered with. */
  ghost predicate FixedText(message: seq<Byte>) {
    exists kind :: kind in {"provider", "verification-failed", "rollback-verification-failed", "journal"}
                   && message == Utf8("lifecycle failed: ") + Utf8(kind)
  }

  lemma FixedTextOf(error: ControlPlaneError)
    requires StageError(error)
    ensures WireError(error).Error? && WireError(error).kind == LifecycleFailed && FixedText(WireError(error).message)
  {
    assert WireError(error).message == Utf8("lifecycle failed: ") + Utf8(error.Kind());
  }

  /** What is known of a finished lifecycle, apart from the lifecycle. */
  predicate Known(p: string, w: World, w': World, result: Result<LifecycleResult, ControlPlaneError>) {
    && ShowsOutcome(p, w.rows, w'.rows, result)
    && (result.Err? ==> StageError(result.error))
    && (result.Ok? ==> result.value.verified && result.value.rolledBack && Device(w', p) == Device(w, p))
  }

  lemma FinishedIsKnown(life: Life)
    requires life.End().0.Finished?
    ensures Known(life.provider, life.w0, life.End().1, life.Result())
  {
    OutcomeIsShown(life);
    RunsFailWithStageErrors(life.provider, life.request, life.w0, life.answers);
    ResultMeansRestored(life.provider, life.request, life.w0, life.answers);
  }

  lemma KnownIsTold(manifest: ProviderManifest, w: World, w': World,
                    result: Result<LifecycleResult, ControlPlaneError>)
    requires Known(manifest.id, w, w', result)
    ensures TellsRun(manifest, w, w', Respond(result))
    ensures result.Err? ==> Respond(result).Error? && FixedText(Respond(result).message)
  {
    ShownIsTold(manifest.id, w.rows, w'.rows, result);
    if result.Err? {
      FixedTextOf(result.error);
    }
  }

  lemma RunIsTold(manifest: ProviderManifest, change: ChangeRequest, w: World, w': World, used: seq<Answer>,
                  response: BrokerResponse)
    requires Validate(manifest, change).Ok? && HandledOwned(manifest, change, w, w', used, response)
    ensures TellsRun(manifest, w, w', response)
    ensures response.Error? ==> FixedText(response.message)
  {
    var life := Life(manifest.id, change, w, used);
    FinishedIsKnown(life);
    KnownIsTold(manifest, w, w', life.Result());
  }

  /** What a request that does not reach it is answered, check by check. */
  predicate TellsRefusal(manifest: ProviderManifest, owners: map<string, string>, request: BrokerRequest,
                         response: BrokerResponse)
  {
    if request.op == Discover then response == Capabilities(manifest)
    else if request.owner.None? || Blank(request.owner.value) then
      response == Error(Malformed, Utf8("run-lifecycle requires a non-empty owner"))
    else if request.change.None? then
      response == Error(Malformed, Utf8("run-lifecycle requires a change"))
    else
      var id := request.change.value.capabilityId;
      if forall c :: c in manifest.capabilities ==> c.id != id then
        response == Error(UncataloguedCapability, Utf8("capability ") + Echoed(id) + Utf8(" is not in the catalog"))
      else if id in owners then
        response == Error(KnobOwned, Echoed("capability " + id + " is already owned by " + owners[id]))
      else
        && response.Error? && response.kind == RequestDenied
        && Validate(manifest, request.change.value).Err?
        && Validate(manifest, request.change.value).error.PolicyDenied?
        && response.message
           == Echoed("policy denied request: " + Validate(manifest, request.change.value).error.detail)
  }

  lemma RefusalIsTold(manifest: ProviderManifest, owners: map<string, string>, request: BrokerRequest,
                      w: World, w': World, used: seq<Answer>, response: BrokerResponse)
    requires Handled(manifest, owners, request, w, w', used, response) && !Reaches(manifest, owners, request)
    ensures TellsRefusal(manifest, owners, request, response) && w' == w
  {
    if request.op == RunLifecycle && WellFormedRequest(request) {
      CataloguedIsKnown(manifest.capabilities, request.change.value.capabilityId);
    }
  }

  /**
    What each answer says, both ways.  A report or `lifecycle-failed` means that a
    lifecycle ran, and what it says is read off the rows it left; its failure text is
    one of four, so no host detail crosses.  Anything else means that the host was not
    touched, and which check it was.
   */
  lemma AnswerMeaning(manifest: ProviderManifest, owners: map<string, string>, request: BrokerRequest,
                      w: World, w': World, used: seq<Answer>, response: BrokerResponse)
    requires Handled(manifest, owners, request, w, w', used, response)
    ensures response.Report? || (response.Error? && response.kind == LifecycleFailed)
            <==> Reaches(manifest, owners, request)
    ensures Reaches(manifest, owners, request) ==>
              TellsRun(manifest, w, w', response) && (response.Error? ==> FixedText(response.message))
    ensures !Reaches(manifest, owners, request) ==>
              TellsRefusal(manifest, owners, request, response) && w' == w
    ensures response.Error? && response.kind == RequestDenied <==>
              request.op == RunLifecycle && WellFormedRequest(request)
              && request.change.value.capabilityId in Catalog(manifest) && request.change.value.capabilityId !in owners
              && Validate(manifest, request.change.value).Err?
    ensures response.Error? ==> response.kind != Unauthenticated && response.kind != Internal
    ensures owners == map[] ==> !(response.Error? && response.kind == KnobOwned)
  {
    if Reaches(manifest, owners, request) {
      CataloguedIsKnown(manifest.capabilities, request.change.value.capabilityId);
      RunIsTold(manifest, request.change.value, w, w', used, response);
    } else {
      RefusalIsTold(manifest, owners, request, w, w', used, response);
    }
  }

  /** The text an answer ends in is the name of the fault that decided, wherever the rows stop. */
  lemma FailureNamesFault(life: Life, response: BrokerResponse, phase: Phase, k: nat, error: ControlPlaneError)
    requires life.End().0.Finished? && response == Respond(life.Result())
    requires Decides(life, phase, k, error)
    ensures exists kind :: Names(kind, error)
                           && response == Error(LifecycleFailed, Utf8("lifecycle failed: ") + Utf8(kind))
  {
    FaultDecidesResult(life);
    RunsFailWithStageErrors(life.provider, life.request, life.w0, life.answers);
    NamesTheKind(error.Kind(), error);
  }

  // ----- one lifecycle at a time --------------------------------------------------

  /** A request's rows, if any, are one block of one fresh experiment. */
  lemma HandledWritesOneBlock(manifest: ProviderManifest, owners: map<string, string>, request: BrokerRequest,
                              w: World, w': World, used: seq<Answer>, response: BrokerResponse)
    requires Handled(manifest, owners, request, w, w', used, response)
    ensures w.rows <= w'.rows
    ensures forall k :: |w.rows| <= k < |w'.rows| ==> w'.rows[k].id == MaxId(w.rows) + 1
  {
    if Reaches(manifest, owners, request) {
      LifecycleWritesOneBlock(manifest.id, request.change.value, w, used);
    } else {
      AnswerMeaning(manifest, owners, request, w, w', used, response);
    }
  }

  /**
    Over any number of jobs the rows the worker adds are sorted by experiment: the
    lifecycles of one broker never interleave in its journal.
   */
  lemma {:induction false} WorkNeverInterleaves(
    manifest: ProviderManifest, owners: map<string, string>, jobs: seq<BrokerRequest>,
    worlds: seq<World>, runs: seq<seq<Answer>>, responses: seq<BrokerResponse>)
    requires ServedInOrder(manifest, owners, jobs, worlds, runs, responses)
    ensures var before, after := worlds[0].rows, worlds[|jobs|].rows;
            && before <= after
            && forall i, j :: |before| <= j < |after| && 0 <= i < j ==>
                 if i < |before| then after[i].id < after[j].id else after[i].id <= after[j].id
  {
    if jobs != [] {
      var n := |jobs| - 1;
      WorkNeverInterleaves(manifest, owners, jobs[..n], worlds[..n + 1], runs[..n], responses[..n]);
      HandledWritesOneBlock(manifest, owners, jobs[n], worlds[n], worlds[n + 1], runs[n], responses[n]);
      MaxIdBounds(worlds[n].rows);
    }
  }

  // ----- every error is small -----------------------------------------------------

  /** No error message is longer: an echo of 123 bytes and 33 characters of fixed text. */
  const MAX_MESSAGE_BYTES: nat := 255

  /** What a worker may answer: anything but an over-long error. */
  predicate Bounded(response: BrokerResponse) {
    response.Error? ==> |response.message| <= MAX_MESSAGE_BYTES
  }

  lemma KindIsShort(error: ControlPlaneError)
    ensures |Utf8(error.Kind())| <= 112
  {
    Utf8Size(error.Kind());
  }

  lemma FixedTexts()
    ensures |Utf8(LIFECYCLE_FAILED)| <= 72
    ensures |Utf8(CAPABILITY)| <= 44
    ensures |Utf8(NOT_IN_CATALOG)| <= 88
  {
    Utf8Size(LIFECYCLE_FAILED);
    Utf8Size(CAPABILITY);
    Utf8Size(NOT_IN_CATALOG);
  }

  lemma FixedRefusals()
    ensures |Utf8(OWNER_REQUIRED)| <= 160
    ensures |Utf8(CHANGE_REQUIRED)| <= 124
  {
    Utf8Size(OWNER_REQUIRED);
    Utf8Size(CHANGE_REQUIRED);
  }

  lemma WireErrorIsBounded(error: ControlPlaneError)
    ensures Bounded(WireError(error))
  {
    match error
    case UnknownCapability(id) => EchoedSize("unknown capability: " + id);
    case PolicyDenied(detail) => EchoedSize("policy denied request: " + detail);
    case _ =>
      FixedTexts();
      KindIsShort(error);
  }

  lemma RespondIsBounded(outcome: Result<LifecycleResult, ControlPlaneError>)
    ensures Bounded(Respond(outcome))
  {
    if outcome.Err? {
      WireErrorIsBounded(outcome.error);
    }
  }

  /** Whatever the client sent, an error answer is at most 255 bytes of message. */
  lemma AnswersAreBounded(manifest: ProviderManifest, owners: map<string, string>, request: BrokerRequest,
                          w: World, w': World, used: seq<Answer>, response: BrokerResponse)
    requires Handled(manifest, owners, request, w, w', used, response)
    ensures Bounded(response)
  {
    FixedRefusals();
    if request.op == RunLifecycle && WellFormedRequest(request) {
      var change := request.change.value;
      if change.capabilityId !in Catalog(manifest) {
        FixedTexts();
        EchoedSize(change.capabilityId);
      } else if change.capabilityId in owners {
        EchoedSize(OwnerConflict(change.capabilityId, owners[change.capabilityId]).Display());
      } else if Validate(manifest, change).Err? {
        WireErrorIsBounded(Validate(manifest, change).error);
      } else {
        RespondIsBounded(OwnerRun(TakingSnapshot(manifest.id, change), w, used).0.result);
      }
    }
  }
}
