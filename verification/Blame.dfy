/**
  Which of the faults a lifecycle met decides what its caller is told and what its
  terminal row says: told from the calls and their answers alone.
 */
module Blames {
  import opened Wrappers
  import opened Contracts
  import opened Journal
  import opened Lifecycle
  import opened Dirtiness

  /** The parts of a lifecycle: up to the intent row, up to the verify row, the restore, the terminal row. */
  datatype Phase = Opening | Trying | Restoring | Ending

  function PhaseOf(o: Owner): Option<Phase> {
    match o
    case TakingSnapshot(_, _) => Some(Opening)
    case Beginning(_, _, _) => Some(Opening)
    case Previewing(_) => Some(Opening)
    case RecordingPreview(_, _) => Some(Opening)
    case RecordingIntent(_, _) => Some(Opening)
    case Applying(_, _) => Some(Trying)
    case RecordingApply(_, _) => Some(Trying)
    case Verifying(_, _) => Some(Trying)
    case RecordingVerify(_, _, _) => Some(Trying)
    case RollingBack(_, _, _) => Some(Restoring)
    case RecordingRollback(_, _, _) => Some(Restoring)
    case Resampling(_, _, _) => Some(Restoring)
    case RecordingRestore(_, _, _, _) => Some(Restoring)
    case Closing(_, _) => Some(Ending)
    case _ => None
  }

  /** The call goes to the provider; any other is an insert. */
  predicate AsksProvider(o: Owner) {
    o.TakingSnapshot? || o.Previewing? || o.Applying? || o.Verifying? || o.RollingBack? || o.Resampling?
  }

  /** What is wrong with the answer to a call: a fault, or a recorded observation of the wrong value. */
  function FaultIn(o: Owner, a: Answer): Option<ControlPlaneError> {
    if Stopped(o) then None
    else if AsksProvider(o) then
      if a.fault.Some? then Some(Provider(a.fault.value)) else None
    else if a.journal.Some? then Some(ControlPlaneError.Journal(a.journal.value))
    else if o.RecordingVerify? && !o.verified then Some(VerificationFailed)
    else if o.RecordingRestore? && !o.matched then Some(RollbackVerificationFailed)
    else None
  }

  /** The fault of each phase, as far as the run has come. */
  datatype Blame = Blame(opening: Option<ControlPlaneError>, trying: Option<ControlPlaneError>,
                         restoring: Option<ControlPlaneError>, ending: Option<ControlPlaneError>)
  {
    function In(phase: Phase): Option<ControlPlaneError> {
      match phase
      case Opening => opening
      case Trying => trying
      case Restoring => restoring
      case Ending => ending
    }

    /** The one the outcome is put down to: a failed restore before what it restored from. */
    function Deciding(): Option<ControlPlaneError> {
      if restoring.Some? then restoring else if trying.Some? then trying else opening
    }
  }

  const BLAMELESS: Blame := Blame(None, None, None, None)

  function Then(b: Blame, o: Owner, a: Answer): Blame {
    var fault := FaultIn(o, a);
    if fault.None? then b
    else
      match PhaseOf(o)
      case Some(Opening) => b.(opening := fault)
      case Some(Trying) => b.(trying := fault)
      case Some(Restoring) => b.(restoring := fault)
      case Some(Ending) => b.(ending := fault)
      case None => b
  }

  /** A lifecycle, from where it starts and the answers it got so far. */
  datatype Life = Life(provider: string, request: ChangeRequest, w0: World, answers: seq<Answer>) {
    function End(): (Owner, World) {
      OwnerRun(TakingSnapshot(provider, request), w0, answers)
    }

    function Result(): Result<LifecycleResult, ControlPlaneError>
      requires End().0.Finished?
    {
      End().0.result
    }

    /** Its first `k` answers. */
    function Upto(k: nat): Life
      requires k <= |answers|
    {
      this.(answers := answers[..k])
    }

    function Blame(): Blame
      decreases |answers|
    {
      if answers == [] then BLAMELESS
      else Then(Upto(|answers| - 1).Blame(), Upto(|answers| - 1).End().0, answers[|answers| - 1])
    }

    /** The answer to the `k`-th call, a call of this phase, reports this. */
    predicate FaultAt(phase: Phase, k: nat, error: ControlPlaneError) {
      && k < |answers|
      && PhaseOf(Upto(k).End().0) == Some(phase)
      && FaultIn(Upto(k).End().0, answers[k]) == Some(error)
    }

    ghost predicate Faulty(phase: Phase) {
      exists k: nat, error :: FaultAt(phase, k, error)
    }
  }

  // ----- what every state of the owner is to be blamed for --------------------------------

  /** The phase before the restore failed with exactly this. */
  predicate ObservedBlamed(observed: Observation, trying: Option<ControlPlaneError>) {
    if trying.Some? then observed.Err? && observed.error.error == trying.value && observed.error.suppressed.None?
    else observed.Ok?
  }

  /** An outcome is put down to the deciding fault; only a failed restore suppresses one. */
  predicate OutcomeBlamed(outcome: Outcome, b: Blame) {
    match outcome
    case Ok(_) => b.Deciding().None?
    case Err(failure) =>
      && b.Deciding() == Some(failure.error)
      && match failure.suppressed {
           case None => b.restoring.None? || b.trying.None?
           case Some(original) => b.restoring.Some? && b.trying == Some(original.error)
         }
  }

  /** What the caller is told: the deciding fault, or that success could not be recorded. */
  predicate ResultBlamed(result: Result<LifecycleResult, ControlPlaneError>, b: Blame) {
    if b.Deciding().Some? then result == Err(b.Deciding().value)
    else if b.ending.Some? then result == Err(b.ending.value)
    else result.Ok?
  }

  predicate Blamed(o: Owner, b: Blame) {
    && (b.opening.Some? ==> b.trying.None? && b.restoring.None?)
    && match PhaseOf(o)
       case Some(Opening) => b == BLAMELESS
       case Some(Trying) => b == BLAMELESS
       case Some(Restoring) => b.opening.None? && b.restoring.None? && b.ending.None?
                               && ObservedBlamed(o.observed, b.trying)
       case Some(Ending) => b.ending.None? && OutcomeBlamed(o.outcome, b)
       case None => o.Finished? ==> ResultBlamed(o.result, b)
  }

  lemma OpeningBlames(o: Owner, w: World, a: Answer, b: Blame)
    requires PhaseOf(o) == Some(Opening) && Blamed(o, b)
    ensures Blamed(OwnerStep(o, w, a).0, Then(b, o, a))
  {
  }

  lemma TryingBlames(o: Owner, w: World, a: Answer, b: Blame)
    requires PhaseOf(o) == Some(Trying) && Blamed(o, b)
    ensures Blamed(OwnerStep(o, w, a).0, Then(b, o, a))
  {
  }

  lemma RestoringBlames(o: Owner, w: World, a: Answer, b: Blame)
    requires PhaseOf(o) == Some(Restoring) && Blamed(o, b)
    ensures Blamed(OwnerStep(o, w, a).0, Then(b, o, a))
  {
  }

  lemma EndingBlames(o: Owner, w: World, a: Answer, b: Blame)
    requires PhaseOf(o) == Some(Ending) && Blamed(o, b)
    ensures Blamed(OwnerStep(o, w, a).0, Then(b, o, a))
  {
  }

  lemma StepBlames(o: Owner, w: World, a: Answer, b: Blame)
    requires Blamed(o, b)
    ensures Blamed(OwnerStep(o, w, a).0, Then(b, o, a))
  {
    match PhaseOf(o)
    case Some(Opening) => OpeningBlames(o, w, a, b);
    case Some(Trying) => TryingBlames(o, w, a, b);
    case Some(Restoring) => RestoringBlames(o, w, a, b);
    case Some(Ending) => EndingBlames(o, w, a, b);
    case None =>
  }

  lemma {:induction false} RunBlamed(life: Life)
    ensures Blamed(life.End().0, life.Blame())
    decreases |life.answers|
  {
    if life.answers != [] {
      var n := |life.answers| - 1;
      var init := life.Upto(n);
      RunBlamed(init);
      StepBlames(init.End().0, init.End().1, life.answers[n], init.Blame());
    }
  }

  // ----- the terminal row ---------------------------------------------------------------

  /** The documented name of what went wrong. */
  predicate Names(kind: string, error: ControlPlaneError) {
    match error
    case Provider(_) => kind == "provider"
    case VerificationFailed => kind == "verification-failed"
    case RollbackVerificationFailed => kind == "rollback-verification-failed"
    case Journal(_) => kind == "journal"
    case UnknownCapability(_) => kind == "unknown-capability"
    case PolicyDenied(_) => kind == "policy-denied"
    case UnknownTrial(_) => kind == "unknown-trial"
    case Serialization(_) => kind == "serialization"
  }

  predicate NoteBlames(note: FailureNote, error: ControlPlaneError) {
    note.error == error && Names(note.kind, error)
  }

  /** A terminal row says what decided, and what that hid. */
  predicate RowBlames(row: Row, b: Blame) {
    if b.Deciding().None? then row.stage == AtCompleted
    else
      && row.stage == AtFailed && row.payload.FailedP?
      && NoteBlames(row.payload.note, b.Deciding().value)
      && match row.payload.suppressed {
           case None => b.restoring.None? || b.trying.None?
           case Some(original) => b.restoring.Some? && b.trying.Some? && NoteBlames(original, b.trying.value)
         }
  }

  /** Until it ends there is no terminal row; then there is one, or its insert met the fault. */
  predicate TerminalBlamed(o: Owner, rows: seq<Row>, b: Blame) {
    TicketOf(o).Some? ==>
      var row := OwnerTerminal(rows, TicketOf(o).value.id);
      if o.Finished? && b.ending.None? then
        row.Some? && RowBlames(row.value, b) && rows != [] && Last(rows) == row.value
      else row.None?
  }

  lemma OutcomeRowBlames(row: Row, outcome: Outcome, b: Blame)
    requires OutcomeBlamed(outcome, b)
    requires row.stage == TerminalStage(outcome) && row.payload == TerminalPayload(outcome)
    ensures RowBlames(row, b)
  {
  }

  lemma ClosingUnfolds(o: Owner, w: World, a: Answer)
    requires o.Closing?
    ensures var (o', w') := OwnerStep(o, w, a);
            && o'.Finished? && TicketOf(o') == Some(o.ticket)
            && w' == Insert(w, a, o.ticket.id, TerminalStage(o.outcome), o.ticket.provider, TerminalPayload(o.outcome))
    ensures !TerminalPayload(o.outcome).WatchdogTerminalP?
    ensures FaultIn(o, a) == if a.journal.Some? then Some(ControlPlaneError.Journal(a.journal.value)) else None
  {
  }

  /** The step that ends a lifecycle. */
  lemma EndingRow(o: Owner, w: World, a: Answer, b: Blame)
    requires o.Closing? && b.ending.None? && OutcomeBlamed(o.outcome, b)
    requires OwnerTerminal(w.rows, o.ticket.id).None?
    ensures TerminalBlamed(OwnerStep(o, w, a).0, OwnerStep(o, w, a).1.rows, Then(b, o, a))
  {
    ClosingUnfolds(o, w, a);
    if a.journal.None? {
      var row := Row(o.ticket.id, w.now + a.elapsed, TerminalStage(o.outcome), o.ticket.provider,
                     TerminalPayload(o.outcome));
      AppendedRow(w.rows, row, o.ticket.id);
      OutcomeRowBlames(row, o.outcome, b);
    }
  }

  /** Any other row is not a terminal one. */
  lemma OtherRow(o: Owner, w: World, a: Answer)
    requires !o.Closing? && !Stopped(o)
    ensures var (o', w') := OwnerStep(o, w, a);
            && !(TicketOf(o').Some? && o'.Finished?)
            && (w'.rows == w.rows || (w'.rows == w.rows + [Last(w'.rows)] && !Terminal(Last(w'.rows))))
            && (TicketOf(o').Some? ==> TicketOf(o).Some? || TicketOf(o').value.id == MaxId(w.rows) + 1)
            && (TicketOf(o).Some? ==> TicketOf(o') == TicketOf(o))
  {
  }

  lemma StepTerminalBlamed(o: Owner, w: World, a: Answer, b: Blame)
    requires Blamed(o, b) && TerminalBlamed(o, w.rows, b)
    ensures TerminalBlamed(OwnerStep(o, w, a).0, OwnerStep(o, w, a).1.rows, Then(b, o, a))
  {
    var (o', w') := OwnerStep(o, w, a);
    if o.Closing? {
      EndingRow(o, w, a, b);
    } else if !Stopped(o) {
      OtherRow(o, w, a);
      if TicketOf(o').Some? {
        var e := TicketOf(o').value.id;
        if TicketOf(o).None? {
          FreshHasNoRows(w.rows, e);
        }
        if w'.rows != w.rows {
          AppendedRow(w.rows, Last(w'.rows), e);
        }
      }
    }
  }

  lemma {:induction false} RunTerminalBlamed(life: Life)
    ensures TerminalBlamed(life.End().0, life.End().1.rows, life.Blame())
    decreases |life.answers|
  {
    if life.answers != [] {
      var n := |life.answers| - 1;
      var init := life.Upto(n);
      RunBlamed(init);
      RunTerminalBlamed(init);
      StepTerminalBlamed(init.End().0, init.End().1, life.answers[n], init.Blame());
    }
  }

  // ----- call by call --------------------------------------------------------------------

  /** A phase is blamed once. */
  lemma BlameStays(o: Owner, a: Answer, b: Blame, phase: Phase)
    requires Blamed(o, b) && b.In(phase).Some?
    ensures Then(b, o, a).In(phase) == b.In(phase)
  {
  }

  /** The fault of a call is blamed on its phase. */
  lemma {:induction false} FaultIsBlamed(life: Life, phase: Phase, k: nat, error: ControlPlaneError)
    requires life.FaultAt(phase, k, error)
    ensures life.Blame().In(phase) == Some(error)
    decreases |life.answers|
  {
    var n := |life.answers| - 1;
    if k < n {
      var init := life.Upto(n);
      assert init.answers[..k] == life.answers[..k];
      FaultIsBlamed(init, phase, k, error);
      RunBlamed(init);
      BlameStays(init.End().0, life.answers[n], init.Blame(), phase);
    }
  }

  /** What is blamed on a phase is the fault of one of its calls. */
  lemma {:induction false} BlameIsFault(life: Life, phase: Phase) returns (k: nat)
    requires life.Blame().In(phase).Some?
    ensures life.FaultAt(phase, k, life.Blame().In(phase).value)
    decreases |life.answers|
  {
    var n := |life.answers| - 1;
    var init := life.Upto(n);
    if life.Blame().In(phase) == init.Blame().In(phase) {
      k := BlameIsFault(init, phase);
      assert init.answers[..k] == life.answers[..k];
    } else {
      k := n;
    }
  }

  lemma PhaseFault(life: Life, phase: Phase)
    ensures forall k: nat, error :: life.FaultAt(phase, k, error) ==> life.Blame().In(phase) == Some(error)
    ensures life.Faulty(phase) <==> life.Blame().In(phase).Some?
  {
    forall k: nat, error | life.FaultAt(phase, k, error)
      ensures life.Blame().In(phase) == Some(error)
    {
      FaultIsBlamed(life, phase, k, error);
    }
    if life.Blame().In(phase).Some? {
      var k := BlameIsFault(life, phase);
      assert life.FaultAt(phase, k, life.Blame().In(phase).value);
    }
  }

  /** The fault the outcome is put down to, told by the calls: nothing after its phase failed. */
  ghost predicate Decides(life: Life, phase: Phase, k: nat, error: ControlPlaneError) {
    && life.FaultAt(phase, k, error)
    && (phase.Restoring?
        || (phase.Trying? && !life.Faulty(Restoring))
        || phase.Opening?)
  }

  /** No call before the closing insert failed. */
  ghost predicate Faultless(life: Life) {
    !life.Faulty(Opening) && !life.Faulty(Trying) && !life.Faulty(Restoring)
  }

  lemma DecidingMeaning(life: Life)
    ensures forall phase, k: nat, error :: Decides(life, phase, k, error) ==> life.Blame().Deciding() == Some(error)
    ensures Faultless(life) <==> life.Blame().Deciding().None?
    ensures forall k: nat, error :: life.FaultAt(Ending, k, error) ==> life.Blame().ending == Some(error)
    ensures life.Faulty(Ending) <==> life.Blame().ending.Some?
    ensures life.Blame().Deciding().Some? ==>
              exists phase, k: nat :: Decides(life, phase, k, life.Blame().Deciding().value)
  {
    RunBlamed(life);
    PhaseFault(life, Opening);
    PhaseFault(life, Trying);
    PhaseFault(life, Restoring);
    PhaseFault(life, Ending);
    if life.Blame().Deciding().Some? {
      var phase := if life.Blame().restoring.Some? then Restoring
                   else if life.Blame().trying.Some? then Trying
                   else Opening;
      var k := BlameIsFault(life, phase);
      assert Decides(life, phase, k, life.Blame().Deciding().value);
    }
  }

  /**
    What a caller is to be told, from the answers a lifecycle got.  The fault of the
    restore wins over everything, whatever the closing insert is answered; then that
    of the apply and its probe; then an early one.  Only when none of these failed
    does the closing insert matter, and without a fault there it succeeded.
   */
  ghost predicate ToldByFaults(life: Life, result: Result<LifecycleResult, ControlPlaneError>) {
    && (forall phase, k: nat, error :: Decides(life, phase, k, error) ==> result == Err(error))
    && (forall k: nat, error :: Faultless(life) && life.FaultAt(Ending, k, error) ==> result == Err(error))
    && (result.Ok? <==> Faultless(life) && !life.Faulty(Ending))
  }

  /** That is what a finished lifecycle tells its caller. */
  lemma FaultDecidesResult(life: Life)
    requires life.End().0.Finished?
    ensures ToldByFaults(life, life.Result())
  {
    RunBlamed(life);
    DecidingMeaning(life);
  }

  /**
    What the terminal row says.  It is written unless its insert met a fault; it is
    `completed` exactly when nothing before it failed; a `failed` one names the
    fault that decided, and as suppressed, exactly when both phases failed, that of
    the apply and its probe.
   */
  lemma FaultDecidesRow(life: Life)
    requires life.End().0.Finished? && TicketOf(life.End().0).Some?
    ensures var closed := OwnerTerminal(life.End().1.rows, TicketOf(life.End().0).value.id);
            && (closed.Some? <==> !life.Faulty(Ending))
            && (closed.Some? ==> life.End().1.rows != [] && Last(life.End().1.rows) == closed.value)
            && (closed.Some? ==>
                  && (closed.value.stage == AtCompleted <==> Faultless(life))
                  && (closed.value.stage == AtFailed <==> !Faultless(life))
                  && (!Faultless(life) ==> closed.value.payload.FailedP?)
                  && (forall phase, k: nat, error :: Decides(life, phase, k, error) ==>
                        NoteBlames(closed.value.payload.note, error))
                  && (!Faultless(life) ==>
                        (closed.value.payload.suppressed.Some? <==> life.Faulty(Trying) && life.Faulty(Restoring)))
                  && (forall k: nat, error :: life.FaultAt(Trying, k, error) && life.Faulty(Restoring) ==>
                        NoteBlames(closed.value.payload.suppressed.value, error)))
  {
    RunTerminalBlamed(life);
    RunBlamed(life);
    DecidingMeaning(life);
    PhaseFault(life, Trying);
    PhaseFault(life, Restoring);
  }

  /** A failed row and the caller are told the same error. */
  lemma RowAgreesWithResult(life: Life)
    requires life.End().0.Finished? && TicketOf(life.End().0).Some?
    ensures var closed := OwnerTerminal(life.End().1.rows, TicketOf(life.End().0).value.id);
            closed.Some? ==>
              && Last(life.End().1.rows) == closed.value
              && (closed.value.stage == AtCompleted <==> life.Result().Ok?)
              && (closed.value.stage == AtFailed <==> life.Result().Err?)
              && (life.Result().Err? ==>
                    closed.value.payload.FailedP? && NoteBlames(closed.value.payload.note, life.Result().error))
    ensures life.Result().Ok? ==> OwnerTerminal(life.End().1.rows, TicketOf(life.End().0).value.id).Some?
  {
    RunTerminalBlamed(life);
    RunBlamed(life);
  }

  // ----- what is observed is what was answered ---------------------------------------------

  /** The value a recording step writes down is that of the call right before it. */
  lemma {:induction false} ObservationsAreAnswers(life: Life)
    ensures var o := life.End().0;
            o.RecordingPreview? || o.RecordingVerify? || o.RecordingRestore? ==>
              && life.answers != []
              && var (before, a) := (life.Upto(|life.answers| - 1).End(), life.answers[|life.answers| - 1]);
              && (o.RecordingPreview? ==> before.0.Previewing? && o.text == a.text)
              && (o.RecordingVerify? ==> before.0.Verifying? && o.verified == a.verified)
              && (o.RecordingRestore? ==>
                    && before.0.Resampling?
                    && (o.matched <==> Device(before.1, o.ticket.provider) == o.ticket.snapshot.state
                                       && o.ticket.snapshot.providerId == o.ticket.provider))
  {
    if life.answers != [] {
      var n := |life.answers| - 1;
      StepObserves(life.Upto(n).End().0, life.Upto(n).End().1, life.answers[n]);
    }
  }

  lemma StepObserves(o: Owner, w: World, a: Answer)
    ensures var o' := OwnerStep(o, w, a).0;
            && (o'.RecordingPreview? ==> o.Previewing? && o'.text == a.text)
            && (o'.RecordingVerify? ==> o.Verifying? && o'.verified == a.verified)
            && (o'.RecordingRestore? ==>
                  && o.Resampling? && o'.ticket == o.ticket
                  && (o'.matched <==> Device(w, o.ticket.provider) == o.ticket.snapshot.state
                                      && o.ticket.snapshot.providerId == o.ticket.provider))
  {
  }

  // ----- success that could not be recorded -----------------------------------------------

  /** The rows observe the effect and the restore, and no terminal row follows. */
  predicate Uncompleted(rows: seq<Row>, e: nat) {
    OwnerTerminal(rows, e).None? && SawEffect(rows, e) && SawRestore(rows, e)
  }

  /** With the effect and the restore observed, all that can have failed is the closing insert. */
  lemma {:induction false} UnwrittenCompletion(life: Life)
    requires life.End().0.Finished? && TicketOf(life.End().0).Some?
    requires Uncompleted(life.End().1.rows, TicketOf(life.End().0).value.id)
    ensures life.Result().Err? && life.Result().error.Journal?
    decreases |life.answers|
  {
    var n := |life.answers| - 1;
    var init := life.Upto(n);
    LifeGoesOn(life);
    if init.End().0.Finished? {
      FinishedStays(init.End().0, init.End().1, life.answers[n]);
      UnwrittenCompletion(init);
    } else {
      assert InStep(init.End().0, init.End().1.rows) by {
        AloneRun(life.provider, life.request, life.w0, init.answers);
      }
      OnlyClosingEnds(init.End().0, init.End().1, life.answers[n]);
      UnwrittenClosing(init.End().0, init.End().1, life.answers[n]);
    }
  }

  lemma LifeGoesOn(life: Life)
    requires life.answers != []
    ensures var n := |life.answers| - 1;
            life.End() == OwnerStep(life.Upto(n).End().0, life.Upto(n).End().1, life.answers[n])
  {
  }

  lemma OnlyClosingEnds(o: Owner, w: World, a: Answer)
    requires !o.Finished? && OwnerStep(o, w, a).0.Finished? && TicketOf(OwnerStep(o, w, a).0).Some?
    ensures o.Closing?
  {
  }

  /** A closing row that is written is there. */
  lemma ClosingShows(o: Owner, w: World, a: Answer)
    requires o.Closing?
    ensures a.journal.None? ==> OwnerTerminal(OwnerStep(o, w, a).1.rows, o.ticket.id).Some?
  {
    ClosingUnfolds(o, w, a);
    var row := Row(o.ticket.id, w.now + a.elapsed, TerminalStage(o.outcome), o.ticket.provider, TerminalPayload(o.outcome));
    AppendedRow(w.rows, row, o.ticket.id);
  }

  lemma UnwrittenClosing(o: Owner, w: World, a: Answer)
    requires o.Closing? && InStep(o, w.rows)
    requires Uncompleted(OwnerStep(o, w, a).1.rows, o.ticket.id)
    ensures OwnerStep(o, w, a).0.result.Err? && OwnerStep(o, w, a).0.result.error.Journal?
  {
    var e := o.ticket.id;
    ClosingUnfolds(o, w, a);
    ClosingShows(o, w, a);
    FitsMeansBegun(o, ProgressOf(w.rows, e));
    ProgressShowsRows(w.rows, e);
  }

  // ----- the preview -----------------------------------------------------------------------

  /** The preview an owner carries on, once it is recorded. */
  function PreviewOf(o: Owner): Option<string> {
    match o
    case RecordingIntent(_, text) => Some(text)
    case Applying(_, text) => Some(text)
    case RecordingApply(_, text) => Some(text)
    case Verifying(_, text) => Some(text)
    case RecordingVerify(_, text, _) => Some(text)
    case RollingBack(_, text, _) => Some(text)
    case RecordingRollback(_, text, _) => Some(text)
    case Resampling(_, text, _) => Some(text)
    case RecordingRestore(_, text, _, _) => Some(text)
    case Closing(_, outcome) => if outcome.Ok? then Some(outcome.value.preview) else None
    case Finished(_, result) => if result.Ok? then Some(result.value.preview) else None
    case _ => None
  }

  /** It is in the journal. */
  predicate PreviewShown(o: Owner, rows: seq<Row>) {
    PreviewOf(o).Some? ==>
      TicketOf(o).Some? && HasRow(rows, TicketOf(o).value.id, AtPreview, PreviewP(PreviewOf(o).value))
  }

  lemma {:induction false} HasRowStays(rows: seq<Row>, row: Row, e: nat, stage: Stage, payload: Payload)
    ensures HasRow(rows + [row], e, stage, payload)
            <==> HasRow(rows, e, stage, payload) || (row.id == e && row.stage == stage && row.payload == payload)
  {
    assert Front(rows + [row]) == rows && Last(rows + [row]) == row;
  }

  /** A step keeps the preview, or it is the step that records it. */
  lemma StepPreview(o: Owner, w: World, a: Answer)
    requires PreviewOf(o).Some? ==> TicketOf(o).Some?
    ensures var (o', w') := OwnerStep(o, w, a);
            PreviewOf(o').Some? ==>
              && TicketOf(o').Some? && TicketOf(o) == TicketOf(o')
              && (PreviewOf(o) == PreviewOf(o')
                  || (o.RecordingPreview? && PreviewOf(o') == Some(o.text)
                      && w'.rows == w.rows + [Row(o.ticket.id, w'.now, AtPreview, o.ticket.provider, PreviewP(o.text))]))
  {
  }

  lemma StepRows(o: Owner, w: World, a: Answer)
    ensures var w' := OwnerStep(o, w, a).1; w'.rows == w.rows || w'.rows == w.rows + [Last(w'.rows)]
  {
  }

  /** The preview a result reports is the text of the experiment's preview row. */
  lemma {:induction false} PreviewIsShown(life: Life)
    ensures PreviewShown(life.End().0, life.End().1.rows)
    decreases |life.answers|
  {
    if life.answers != [] {
      var n := |life.answers| - 1;
      var (o, w) := life.Upto(n).End();
      PreviewIsShown(life.Upto(n));
      StepPreview(o, w, life.answers[n]);
      StepRows(o, w, life.answers[n]);
      var (o', w') := OwnerStep(o, w, life.answers[n]);
      if PreviewOf(o').Some? && w'.rows != w.rows {
        HasRowStays(w.rows, Last(w'.rows), TicketOf(o').value.id, AtPreview, PreviewP(PreviewOf(o').value));
      }
    }
  }

  // ----- the request ------------------------------------------------------------------------

  /** Apply is to be called, or was, in a lifecycle that can still succeed. */
  predicate Tried(o: Owner) {
    match PhaseOf(o)
    case Some(Opening) => false
    case Some(Ending) => o.outcome.Ok?
    case None => o.Finished? && o.result.Ok?
    case _ => true
  }

  /** Its intent row carries the very request. */
  predicate IntentShown(o: Owner, rows: seq<Row>) {
    Tried(o) ==>
      TicketOf(o).Some? && HasRow(rows, TicketOf(o).value.id, AtApplyIntent, RequestP(TicketOf(o).value.request))
  }

  lemma StepTries(o: Owner, w: World, a: Answer)
    requires Tried(o) ==> TicketOf(o).Some?
    ensures var (o', w') := OwnerStep(o, w, a);
            Tried(o') ==>
              && TicketOf(o').Some? && TicketOf(o) == TicketOf(o')
              && (Tried(o) || (o.RecordingIntent?
                               && w'.rows == w.rows + [Row(o.ticket.id, w'.now, AtApplyIntent, o.ticket.provider,
                                                           RequestP(o.ticket.request))]))
  {
  }

  lemma {:induction false} IntentIsShown(life: Life)
    ensures IntentShown(life.End().0, life.End().1.rows)
    decreases |life.answers|
  {
    if life.answers != [] {
      var n := |life.answers| - 1;
      var (o, w) := life.Upto(n).End();
      IntentIsShown(life.Upto(n));
      StepTries(o, w, life.answers[n]);
      StepRows(o, w, life.answers[n]);
      var (o', w') := OwnerStep(o, w, life.answers[n]);
      if Tried(o') && w'.rows != w.rows {
        var t := TicketOf(o').value;
        HasRowStays(w.rows, Last(w'.rows), t.id, AtApplyIntent, RequestP(t.request));
      }
    }
  }

  /** A finished lifecycle's rows: where its terminal row is, and what it says of the result. */
  lemma RowsOfRun(life: Life)
    requires life.End().0.Finished?
    ensures var (before, after, e) := (life.w0.rows, life.End().1.rows, MaxId(life.w0.rows) + 1);
            && (TicketOf(life.End().0).Some? ==> TicketOf(life.End().0).value.id == e)
            && (if |after| > |before| then TicketOf(life.End().0).Some?
                else OwnerTerminal(after, e).None? && !SawEffect(after, e))
            && (|after| > |before| && Terminal(Last(after)) ==> OwnerTerminal(after, e) == Some(Last(after)))
  {
    var (o, w) := life.End();
    var (before, e) := (life.w0.rows, MaxId(life.w0.rows) + 1);
    AloneRun(life.provider, life.request, life.w0, life.answers);
    LifecycleWritesOneBlock(life.provider, life.request, life.w0, life.answers);
    FreshHasNoRows(before, e);
    ProgressShowsRows(before, e);
    if |w.rows| == |before| {
      assert w.rows == before;
    }
  }

  /** What a success left behind: one block of one fresh experiment, of this request, down to its completion. */
  predicate Completed(before: seq<Row>, after: seq<Row>, request: ChangeRequest, result: LifecycleResult) {
    var e := MaxId(before) + 1;
    && before <= after && |before| < |after|
    && (forall k :: |before| <= k < |after| ==> after[k].id == e)
    && Last(after).stage == AtCompleted
    && HasRow(after, e, AtApplyIntent, RequestP(request))
    && HasRow(after, e, AtPreview, PreviewP(result.preview))
  }

  lemma ResultIsOnRecord(life: Life)
    requires life.End().0.Finished? && life.Result().Ok?
    ensures Completed(life.w0.rows, life.End().1.rows, life.request, life.Result().value)
  {
    RowsOfRun(life);
    LifecycleWritesOneBlock(life.provider, life.request, life.w0, life.answers);
    PreviewIsShown(life);
    IntentIsShown(life);
    RowAgreesWithResult(life);
    assert TicketOf(life.End().0).value.request == life.request by {
      AloneRun(life.provider, life.request, life.w0, life.answers);
    }
  }

  // ----- every row --------------------------------------------------------------------------

  /** A row of a lifecycle: its provider, and in the rows that carry one the snapshot or the request. */
  predicate Stamped(row: Row, p: string, request: ChangeRequest, snapshot: StateSnapshot) {
    && row.provider == p
    && (row.stage == AtSnapshot || row.stage == AtRollback ==> row.payload == SnapshotP(snapshot))
    && (row.stage == AtApplyIntent ==> row.payload == RequestP(request))
  }

  /** The new rows are in the order of the clock, from where it stood to where it stands. */
  predicate InTime(before: seq<Row>, from: int, after: seq<Row>, now: int) {
    && before <= after
    && (forall k :: |before| <= k < |after| ==> from <= after[k].at <= now)
    && (forall j, k :: |before| <= j < k < |after| ==> after[j].at <= after[k].at)
  }

  lemma StepStamps(o: Owner, w: World, a: Answer)
    ensures var (o', w') := OwnerStep(o, w, a);
            && w'.now == (if Stopped(o) then w.now else w.now + a.elapsed)
            && (w'.rows != w.rows ==>
                  && w'.rows == w.rows + [Last(w'.rows)] && TicketOf(o').Some?
                  && Last(w'.rows).at == w'.now
                  && Stamped(Last(w'.rows), TicketOf(o').value.provider, TicketOf(o').value.request,
                             TicketOf(o').value.snapshot))
  {
  }

  /** Every row a lifecycle writes is stamped with its provider and the time, and carries its own snapshot and request. */
  lemma {:induction false} RowsAreStamped(life: Life)
    requires forall k :: 0 <= k < |life.answers| ==> life.answers[k].elapsed >= 0
    ensures var (before, w) := (life.w0.rows, life.End().1);
            && InTime(before, life.w0.now, w.rows, w.now) && life.w0.now <= w.now
            && forall k :: |before| <= k < |w.rows| ==>
                 Stamped(w.rows[k], life.provider, life.request, Lifecycle.Snapshot(life.w0, life.provider))
    decreases |life.answers|
  {
    if life.answers != [] {
      var n := |life.answers| - 1;
      var (o, w) := life.Upto(n).End();
      RowsAreStamped(life.Upto(n));
      StepStamps(o, w, life.answers[n]);
      var (o', w') := OwnerStep(o, w, life.answers[n]);
      if w'.rows != w.rows {
        assert TicketOf(o').value.provider == life.provider && TicketOf(o').value.request == life.request
               && TicketOf(o').value.snapshot == Lifecycle.Snapshot(life.w0, life.provider) by {
          AloneRun(life.provider, life.request, life.w0, life.answers);
        }
      }
    }
  }

  /** What the rows a lifecycle left show of its result. */
  predicate ShowsOutcome(p: string, before: seq<Row>, after: seq<Row>,
                         result: Result<LifecycleResult, ControlPlaneError>)
  {
    var wrote, e := |after| > |before|, MaxId(before) + 1;
    && (result.Ok? <==> wrote && Last(after).stage == AtCompleted)
    && (result.Ok? ==>
          result.value.providerId == p && HasRow(after, e, AtPreview, PreviewP(result.value.preview)))
    && (wrote && Last(after).stage == AtFailed ==>
          && Last(after).payload.FailedP? && result.Err?
          && Names(Last(after).payload.note.kind, result.error))
    && (Uncompleted(after, e) ==> result.Err? && result.error.Journal?)
  }

  lemma OutcomeIsShown(life: Life)
    requires life.End().0.Finished?
    ensures ShowsOutcome(life.provider, life.w0.rows, life.End().1.rows, life.Result())
  {
    RowsOfRun(life);
    if life.Result().Ok? {
      ResultIsOnRecord(life);
      assert ResultHolds(life.provider, life.w0, life.End().0, life.End().1) by {
        ResultMeansRestored(life.provider, life.request, life.w0, life.answers);
      }
    }
    if TicketOf(life.End().0).Some? {
      RowAgreesWithResult(life);
      if Uncompleted(life.End().1.rows, TicketOf(life.End().0).value.id) {
        UnwrittenCompletion(life);
      }
    }
  }
}
