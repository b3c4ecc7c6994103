/**
  One lifecycle as a step machine.  Every step is one call the control plane
  makes to its provider or one insert into the journal; an `Answer` says how the
  environment responds to it.  A crash is a machine that takes no further step.
 */
module Lifecycle {
  import opened Wrappers
  import opened Contracts
  import opened Journal

  /** What every process on the host shares: knob states, the journal, the clock. */
  datatype World = World(devices: map<string, Json>, rows: seq<Row>, now: int)

  /**
    How the environment answers one call.  Each call reads the parts it needs:
    a provider fault or none, a journal fault or none, the state a write leaves
    behind (whether or not it reports a fault), the outcome of a verify probe,
    the preview text, and the milliseconds that went by.
   */
  datatype Answer = Answer(
    fault: Option<ProviderError>,
    journal: Option<string>,
    landed: Json,
    verified: bool,
    text: string,
    elapsed: int)

  function Device(w: World, p: string): Json {
    if p in w.devices then w.devices[p] else Null
  }

  /** Provider::snapshot is honest: it reports the device or a fault. */
  function Snapshot(w: World, p: string): StateSnapshot {
    StateSnapshot(p, Device(w, p))
  }

  function Wait(w: World, a: Answer): World {
    w.(now := w.now + a.elapsed)
  }

  /** Provider::apply and Provider::rollback leave the device wherever it landed. */
  function Write(w: World, p: string, a: Answer): World {
    Wait(w, a).(devices := w.devices[p := a.landed])
  }

  /** One INSERT: it appends the row, or the journal reports a fault. */
  function Insert(w: World, a: Answer, id: nat, stage: Stage, p: string, payload: Payload): World {
    var w := Wait(w, a);
    if a.journal.Some? then w else w.(rows := w.rows + [Row(id, w.now, stage, p, payload)])
  }

  // ----- failures --------------------------------------------------------

  datatype StageFailure = StageFailure(
    stage: Stage,
    error: ControlPlaneError,
    suppressed: Option<StageFailure>)

  function Failure(stage: Stage, error: ControlPlaneError): StageFailure {
    StageFailure(stage, error, None)
  }

  function ProviderFailure(stage: Stage, a: Answer): StageFailure
    requires a.fault.Some?
  {
    Failure(stage, Provider(a.fault.value))
  }

  function JournalFailure(stage: Stage, a: Answer): StageFailure
    requires a.journal.Some?
  {
    Failure(stage, ControlPlaneError.Journal(a.journal.value))
  }

  function Note(failure: StageFailure): FailureNote {
    FailureNote(failure.error.Kind(), failure.stage, failure.error)
  }

  // ----- the owner -------------------------------------------------------

  /** An experiment that has been given its identifier. */
  datatype Ticket = Ticket(id: nat, provider: string, request: ChangeRequest, snapshot: StateSnapshot)

  /** What the apply-and-verify phase reported. */
  type Observation = Result<bool, StageFailure>

  type Outcome = Result<LifecycleResult, StageFailure>

  /** Where the owner of one lifecycle stands: the call it makes next. */
  datatype Owner =
    | TakingSnapshot(provider: string, request: ChangeRequest)
    | Beginning(provider: string, request: ChangeRequest, snapshot: StateSnapshot)
    | Previewing(ticket: Ticket)
    | RecordingPreview(ticket: Ticket, text: string)
    | RecordingIntent(ticket: Ticket, text: string)
    | Applying(ticket: Ticket, text: string)
    | RecordingApply(ticket: Ticket, text: string)
    | Verifying(ticket: Ticket, text: string)
    | RecordingVerify(ticket: Ticket, text: string, verified: bool)
    | RollingBack(ticket: Ticket, text: string, observed: Observation)
    | RecordingRollback(ticket: Ticket, text: string, observed: Observation)
    | Resampling(ticket: Ticket, text: string, observed: Observation)
    | RecordingRestore(ticket: Ticket, text: string, observed: Observation, matched: bool)
    | Closing(ticket: Ticket, outcome: Outcome)
    | Finished(was: Option<Ticket>, result: Result<LifecycleResult, ControlPlaneError>)
    | Crashed(was: Option<Ticket>)

  function TicketOf(o: Owner): Option<Ticket> {
    match o
    case TakingSnapshot(_, _) => None
    case Beginning(_, _, _) => None
    case Finished(t, _) => t
    case Crashed(t) => t
    case _ => Some(o.ticket)
  }

  predicate Stopped(o: Owner) {
    o.Finished? || o.Crashed?
  }

  function Crash(o: Owner): Owner {
    Crashed(TicketOf(o))
  }

  /** How the two phases combine: a failed restore wins and keeps what it hides. */
  function Conclude(t: Ticket, text: string, observed: Observation, restore: Result<(), StageFailure>): Outcome {
    match (restore, observed)
    case (Err(failure), Err(original)) => Err(failure.(suppressed := Some(original)))
    case (Err(failure), Ok(_)) => Err(failure)
    case (Ok(_), Err(original)) => Err(original)
    case (Ok(_), Ok(verified)) => Ok(LifecycleResult(t.provider, text, verified, true))
  }

  /** The terminal row an outcome calls for. */
  function TerminalStage(outcome: Outcome): Stage {
    if outcome.Ok? then AtCompleted else AtFailed
  }

  function TerminalPayload(outcome: Outcome): Payload {
    match outcome
    case Ok(result) => CompletedP(result.verified, result.rolledBack)
    case Err(failure) =>
      FailedP(Note(failure), match failure.suppressed case Some(original) => Some(Note(original)) case None => None)
  }

  /** What the caller is told: only a `completed` row that cannot be written changes it. */
  function Returned(outcome: Outcome, a: Answer): Result<LifecycleResult, ControlPlaneError> {
    match outcome
    case Ok(result) =>
      if a.journal.Some? then Err(ControlPlaneError.Journal(a.journal.value)) else Ok(result)
    case Err(failure) => Err(failure.error)
  }

  /** One step of the owner; a stopped owner takes none. */
  function OwnerStep(o: Owner, w: World, a: Answer): (Owner, World) {
    match o
    case TakingSnapshot(p, request) =>
      if a.fault.Some? then (Finished(None, Err(Provider(a.fault.value))), Wait(w, a))
      else (Beginning(p, request, Snapshot(w, p)), Wait(w, a))
    case Beginning(p, request, snapshot) =>
      var t := Ticket(MaxId(w.rows) + 1, p, request, snapshot);
      var w' := Insert(w, a, t.id, AtSnapshot, p, SnapshotP(snapshot));
      if a.journal.Some? then (Finished(None, Err(ControlPlaneError.Journal(a.journal.value))), w')
      else (Previewing(t), w')
    case Previewing(t) =>
      if a.fault.Some? then (Closing(t, Err(ProviderFailure(AtPreview, a))), Wait(w, a))
      else (RecordingPreview(t, a.text), Wait(w, a))
    case RecordingPreview(t, text) =>
      var w' := Insert(w, a, t.id, AtPreview, t.provider, PreviewP(text));
      if a.journal.Some? then (Closing(t, Err(JournalFailure(AtPreview, a))), w')
      else (RecordingIntent(t, text), w')
    case RecordingIntent(t, text) =>
      var w' := Insert(w, a, t.id, AtApplyIntent, t.provider, RequestP(t.request));
      if a.journal.Some? then (Closing(t, Err(JournalFailure(AtApplyIntent, a))), w')
      else (Applying(t, text), w')
    case Applying(t, text) =>
      if a.fault.Some? then (RollingBack(t, text, Err(ProviderFailure(AtApply, a))), Write(w, t.provider, a))
      else (RecordingApply(t, text), Write(w, t.provider, a))
    case RecordingApply(t, text) =>
      var w' := Insert(w, a, t.id, AtApply, t.provider, AppliedP);
      if a.journal.Some? then (RollingBack(t, text, Err(JournalFailure(AtApply, a))), w')
      else (Verifying(t, text), w')
    case Verifying(t, text) =>
      if a.fault.Some? then (RollingBack(t, text, Err(ProviderFailure(AtVerify, a))), Wait(w, a))
      else (RecordingVerify(t, text, a.verified), Wait(w, a))
    case RecordingVerify(t, text, verified) =>
      var w' := Insert(w, a, t.id, AtVerify, t.provider, VerifiedP(verified));
      if a.journal.Some? then (RollingBack(t, text, Err(JournalFailure(AtVerify, a))), w')
      else if verified then (RollingBack(t, text, Ok(true)), w')
      else (RollingBack(t, text, Err(Failure(AtVerify, VerificationFailed))), w')
    case RollingBack(t, text, observed) =>
      var w' := Write(w, t.provider, a);
      if a.fault.Some? then (Closing(t, Conclude(t, text, observed, Err(ProviderFailure(AtRollback, a)))), w')
      else (RecordingRollback(t, text, observed), w')
    case RecordingRollback(t, text, observed) =>
      var w' := Insert(w, a, t.id, AtRollback, t.provider, SnapshotP(t.snapshot));
      if a.journal.Some? then (Closing(t, Conclude(t, text, observed, Err(JournalFailure(AtRollback, a)))), w')
      else (Resampling(t, text, observed), w')
    case Resampling(t, text, observed) =>
      if a.fault.Some?
      then (Closing(t, Conclude(t, text, observed, Err(ProviderFailure(AtRollbackVerify, a)))), Wait(w, a))
      else (RecordingRestore(t, text, observed, Snapshot(w, t.provider) == t.snapshot), Wait(w, a))
    case RecordingRestore(t, text, observed, matched) =>
      var w' := Insert(w, a, t.id, AtRollbackVerify, t.provider, RestoredP(matched));
      if a.journal.Some?
      then (Closing(t, Conclude(t, text, observed, Err(JournalFailure(AtRollbackVerify, a)))), w')
      else if matched then (Closing(t, Conclude(t, text, observed, Ok(()))), w')
      else (Closing(t, Conclude(t, text, observed, Err(Failure(AtRollbackVerify, RollbackVerificationFailed)))), w')
    case Closing(t, outcome) =>
      (Finished(Some(t), Returned(outcome, a)),
       Insert(w, a, t.id, TerminalStage(outcome), t.provider, TerminalPayload(outcome)))
    case Finished(_, _) => (o, w)
    case Crashed(_) => (o, w)
  }

  /** The owner run from `o` in `w` against a list of answers. */
  function OwnerRun(o: Owner, w: World, answers: seq<Answer>): (Owner, World) {
    if answers == [] then (o, w)
    else
      var (o', w') := OwnerRun(o, w, answers[..|answers| - 1]);
      OwnerStep(o', w', answers[|answers| - 1])
  }

  lemma {:induction false} OwnerRunStep(o: Owner, w: World, answers: seq<Answer>, a: Answer)
    ensures OwnerRun(o, w, answers + [a])
            == OwnerStep(OwnerRun(o, w, answers).0, OwnerRun(o, w, answers).1, a)
  {
    assert (answers + [a])[..|answers|] == answers;
  }

  /** A run continued is a run. */
  lemma {:induction false} OwnerRunConcat(o: Owner, w: World, first: seq<Answer>, second: seq<Answer>)
    ensures OwnerRun(o, w, first + second)
            == OwnerRun(OwnerRun(o, w, first).0, OwnerRun(o, w, first).1, second)
  {
    if second == [] {
      assert first + second == first;
    } else {
      var init, last := second[..|second| - 1], second[|second| - 1];
      assert first + second == (first + init) + [last];
      OwnerRunStep(o, w, first + init, last);
      OwnerRunConcat(o, w, first, init);
    }
  }

  // ----- what every step keeps -------------------------------------------

  /** The observation agrees with the rows written so far. */
  predicate ObservationFits(seen: Seen, observed: Observation) {
    match observed
    case Ok(verified) => verified && seen == Verified
    case Err(failure) =>
      && seen != Verified
      && failure.stage == SeenStage(seen)
      && failure.suppressed.None?
      && (seen == Unverified ==> failure.error == VerificationFailed)
  }

  /** A suppressed failure suppresses none itself. */
  predicate Flat(failure: StageFailure) {
    failure.suppressed.Some? ==> failure.suppressed.value.suppressed.None?
  }

  /** The outcome the owner is about to record agrees with the rows written so far. */
  predicate OutcomeFits(q: Progress, outcome: Outcome) {
    match outcome
    case Ok(result) => q == Acting(Verified, Restored) && result.verified && result.rolledBack
    case Err(failure) =>
      && Flat(failure)
      && match q {
           case Snapped => failure.stage == AtPreview && failure.suppressed.None?
           case Previewed => failure.stage == AtApplyIntent && failure.suppressed.None?
           case Acting(seen, back) =>
             TerminalPayload(outcome).FailedP?
             && FailureFits(seen, back, TerminalPayload(outcome).note, TerminalPayload(outcome).suppressed)
           case _ => false
         }
  }

  /** Where an owner stands, told from the rows of its own experiment. */
  predicate OwnerFits(o: Owner, q: Progress) {
    match o
    case Previewing(_) => q == Snapped
    case RecordingPreview(_, _) => q == Snapped
    case RecordingIntent(_, _) => q == Previewed
    case Applying(_, _) => q == Acting(Unapplied, NotBack)
    case RecordingApply(_, _) => q == Acting(Unapplied, NotBack)
    case Verifying(_, _) => q == Acting(Applied, NotBack)
    case RecordingVerify(_, _, _) => q == Acting(Applied, NotBack)
    case RollingBack(_, _, observed) => q.Acting? && q.back == NotBack && ObservationFits(q.seen, observed)
    case RecordingRollback(_, _, observed) => q.Acting? && q.back == NotBack && ObservationFits(q.seen, observed)
    case Resampling(_, _, observed) => q.Acting? && q.back == RolledBack && ObservationFits(q.seen, observed)
    case RecordingRestore(_, _, observed, _) => q.Acting? && q.back == RolledBack && ObservationFits(q.seen, observed)
    case Closing(_, outcome) => OutcomeFits(q, outcome)
    case Finished(ticket, _) => ticket.Some? ==> q != Nothing && q != Invalid
    case Crashed(ticket) => ticket.Some? ==> q != Nothing && q != Invalid
    case _ => true
  }

  /** An owner that has an identifier stands where the rows of that identifier say. */
  predicate InStep(o: Owner, rows: seq<Row>) {
    TicketOf(o).Some? ==> OwnerFits(o, ProgressOf(rows, TicketOf(o).value.id))
  }

  /** An owner keeps the ticket it has. */
  lemma KeepsTicket(o: Owner, w: World, a: Answer)
    ensures TicketOf(o).Some? ==> TicketOf(OwnerStep(o, w, a).0) == TicketOf(o)
    ensures Stopped(o) ==> OwnerStep(o, w, a) == (o, w)
    ensures o.RecordingIntent? ==> TicketOf(o).Some?
  {
  }

  lemma FitsMeansBegun(o: Owner, q: Progress)
    requires TicketOf(o).Some? && OwnerFits(o, q)
    ensures q != Nothing && q != Invalid
  {
  }

  /** A step appends at most one row, under the owner's own identifier. */
  predicate Extends(rows: seq<Row>, rows': seq<Row>, e: nat) {
    rows' == rows
    || (rows' != [] && rows' == rows + [Last(rows')] && Last(rows').id == e && !ByWatchdog(Last(rows')))
  }

  /** Calls that write no row. */
  predicate Silent(o: Owner) {
    o.Previewing? || o.Applying? || o.Verifying? || o.RollingBack? || o.Resampling? || Stopped(o)
  }

  lemma SilentStepFits(o: Owner, w: World, a: Answer, q: Progress)
    requires Silent(o) && TicketOf(o).Some? && OwnerFits(o, q)
    ensures OwnerStep(o, w, a).1.rows == w.rows
    ensures TicketOf(OwnerStep(o, w, a).0) == TicketOf(o)
    ensures OwnerFits(OwnerStep(o, w, a).0, q)
  {
  }

  /** What a recording step must establish. */
  predicate RecordsFit(o: Owner, w: World, q: Progress, o': Owner, w': World)
    requires TicketOf(o).Some?
  {
    && TicketOf(o') == TicketOf(o)
    && Extends(w.rows, w'.rows, TicketOf(o).value.id)
    && OwnerFits(o', if w'.rows == w.rows || w'.rows == [] then q else Advance(q, Last(w'.rows)))
  }

  lemma ApplyPhaseFits(o: Owner, w: World, a: Answer, q: Progress)
    requires o.RecordingPreview? || o.RecordingIntent? || o.RecordingApply? || o.RecordingVerify?
    requires OwnerFits(o, q)
    ensures RecordsFit(o, w, q, OwnerStep(o, w, a).0, OwnerStep(o, w, a).1)
  {
  }

  lemma RollbackRowFits(o: Owner, w: World, a: Answer, q: Progress)
    requires o.RecordingRollback? && OwnerFits(o, q)
    ensures RecordsFit(o, w, q, OwnerStep(o, w, a).0, OwnerStep(o, w, a).1)
  {
  }

  lemma RestoreRowFits(o: Owner, w: World, a: Answer, q: Progress)
    requires o.RecordingRestore? && OwnerFits(o, q)
    ensures RecordsFit(o, w, q, OwnerStep(o, w, a).0, OwnerStep(o, w, a).1)
  {
  }

  lemma ClosingFits(o: Owner, w: World, a: Answer, q: Progress)
    requires o.Closing? && OwnerFits(o, q)
    ensures RecordsFit(o, w, q, OwnerStep(o, w, a).0, OwnerStep(o, w, a).1)
  {
  }

  lemma RecordingStepFits(o: Owner, w: World, a: Answer, q: Progress)
    requires !Silent(o) && TicketOf(o).Some? && OwnerFits(o, q)
    ensures TicketOf(OwnerStep(o, w, a).0) == TicketOf(o)
    ensures Extends(w.rows, OwnerStep(o, w, a).1.rows, TicketOf(o).value.id)
    ensures var (o', w') := OwnerStep(o, w, a);
            OwnerFits(o', if w'.rows == w.rows then q else Advance(q, Last(w'.rows)))
  {
    match o
    case Closing(_, _) => ClosingFits(o, w, a, q);
    case RecordingRollback(_, _, _) => RollbackRowFits(o, w, a, q);
    case RecordingRestore(_, _, _, _) => RestoreRowFits(o, w, a, q);
    case _ => ApplyPhaseFits(o, w, a, q);
  }

  /**
    One step of an owner keeps it in step with its rows, appends at most one row
    of its own experiment, and takes a fresh identifier when it takes one.
   */
  lemma OwnerStepKeepsStep(o: Owner, w: World, a: Answer)
    requires InStep(o, w.rows)
    requires TicketOf(o).None? ==> ProgressOf(w.rows, MaxId(w.rows) + 1) == Nothing
    ensures var (o', w') := OwnerStep(o, w, a);
            && InStep(o', w'.rows)
            && (TicketOf(o).Some? ==> TicketOf(o') == TicketOf(o))
            && (TicketOf(o').None? ==> w'.rows == w.rows)
            && (TicketOf(o').Some? ==> Extends(w.rows, w'.rows, TicketOf(o').value.id))
            && (TicketOf(o).None? && TicketOf(o').Some? ==>
                  TicketOf(o').value.id == MaxId(w.rows) + 1 && w'.rows != w.rows)
  {
    var (o', w') := OwnerStep(o, w, a);
    if TicketOf(o).Some? {
      var q := ProgressOf(w.rows, TicketOf(o).value.id);
      if Silent(o) {
        SilentStepFits(o, w, a, q);
      } else {
        RecordingStepFits(o, w, a, q);
        if w'.rows != w.rows {
          Appended(w.rows, Last(w'.rows), TicketOf(o).value.id);
        }
      }
    } else if w'.rows != w.rows {
      Appended(w.rows, Last(w'.rows), MaxId(w.rows) + 1);
    }
  }
}
