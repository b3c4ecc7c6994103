/**
  What the journal says about the device once the owner of an experiment has
  stopped, wherever it stopped, while nothing else touched the device.
 */
module Dirtiness {
  import opened Wrappers
  import opened Contracts
  import opened Journal
  import opened Lifecycle

  /** The terminal row a control plane wrote for `e`, if it wrote one. */
  function OwnerTerminal(rows: seq<Row>, e: nat): Option<Row> {
    if rows == [] then None
    else if Last(rows).id == e && Terminal(Last(rows)) && !ByWatchdog(Last(rows)) then Some(Last(rows))
    else OwnerTerminal(Front(rows), e)
  }

  /** Whether `e` has a row of this stage with this payload. */
  predicate HasRow(rows: seq<Row>, e: nat, stage: Stage, payload: Payload) {
    rows != []
    && ((Last(rows).id == e && Last(rows).stage == stage && Last(rows).payload == payload)
        || HasRow(Front(rows), e, stage, payload))
  }

  /** The stage a `failed` record of a control plane names. */
  function FailedAt(row: Row): Option<Stage> {
    if row.stage == AtFailed && row.payload.FailedP? then Some(row.payload.note.stage) else None
  }

  predicate Suppresses(row: Row) {
    row.payload.FailedP? && row.payload.suppressed.Some?
  }

  /** The requested value was observed and the observation recorded. */
  predicate SawEffect(rows: seq<Row>, e: nat) {
    HasRow(rows, e, AtVerify, VerifiedP(true))
  }

  /** The restored state was observed and the observation recorded. */
  predicate SawRestore(rows: seq<Row>, e: nat) {
    HasRow(rows, e, AtRollbackVerify, RestoredP(true))
  }

  /** An identifier larger than every one allocated has no rows. */
  lemma {:induction false} FreshHasNoRows(rows: seq<Row>, e: nat)
    requires e > MaxId(rows)
    ensures ProgressOf(rows, e) == Nothing
    ensures OwnerTerminal(rows, e) == None
    ensures forall w :: TerminalsBy(rows, e, w) == 0
    ensures forall s :: StageCount(rows, e, s) == 0
    ensures forall k :: 0 <= k < |rows| ==> rows[k].id != e
  {
    if rows != [] {
      FreshHasNoRows(Front(rows), e);
      assert forall k :: 0 <= k < |rows| ==> rows[k] == if k == |rows| - 1 then Last(rows) else Front(rows)[k];
    }
  }

  /** A terminal row says what the state it was accepted in calls for. */
  predicate TerminalFits(q: Progress, row: Row) {
    match q
    case ClosedEarly =>
      row.stage == AtFailed && (EarlyFailure(row, AtPreview) || EarlyFailure(row, AtApplyIntent))
    case Closed(seen, back) =>
      || (row.stage == AtCompleted && row.payload.CompletedP? && seen == Verified && back == Restored)
      || (row.stage == AtFailed && row.payload.FailedP?
          && FailureFits(seen, back, row.payload.note, row.payload.suppressed))
    case _ => false
  }

  predicate Effective(q: Progress) {
    q.Intended() && q.seen == Verified
  }

  predicate Undone(q: Progress) {
    q.Intended() && q.back == Restored
  }

  /** One accepted row: which facts it adds. */
  lemma AdvanceShowsRow(q: Progress, row: Row)
    requires Advance(q, row) != Invalid && !ByWatchdog(row)
    ensures Effective(Advance(q, row))
            <==> Effective(q) || (row.stage == AtVerify && row.payload == VerifiedP(true))
    ensures Undone(Advance(q, row))
            <==> Undone(q) || (row.stage == AtRollbackVerify && row.payload == RestoredP(true))
    ensures Advance(q, row).Shut() <==> Terminal(row)
    ensures Terminal(row) ==> TerminalFits(Advance(q, row), row)
    ensures !q.Shut()
  {
  }

  /** The state of the language is exactly what these rows say. */
  lemma {:induction false} ProgressShowsRows(rows: seq<Row>, e: nat)
    requires ProgressOf(rows, e) != Invalid
    ensures SawEffect(rows, e) <==> Effective(ProgressOf(rows, e))
    ensures SawRestore(rows, e) <==> Undone(ProgressOf(rows, e))
    ensures ProgressOf(rows, e).Shut() <==> OwnerTerminal(rows, e).Some?
    ensures OwnerTerminal(rows, e).Some? ==> TerminalFits(ProgressOf(rows, e), OwnerTerminal(rows, e).value)
  {
    if rows != [] {
      ProgressShowsRows(Front(rows), e);
      if Last(rows).id == e && !ByWatchdog(Last(rows)) {
        AdvanceShowsRow(ProgressOf(Front(rows), e), Last(rows));
      }
    }
  }

  lemma {:induction false} AppendedRow(rows: seq<Row>, row: Row, e: nat)
    ensures OwnerTerminal(rows + [row], e)
            == if row.id == e && Terminal(row) && !ByWatchdog(row) then Some(row) else OwnerTerminal(rows, e)
  {
    assert Front(rows + [row]) == rows && Last(rows + [row]) == row;
  }

  // ----- the device ------------------------------------------------------

  /** What is known of the device while an owner that has a ticket runs alone. */
  predicate DeviceFits(o: Owner, q: Progress, device: Json, baseline: Json) {
    && (!q.Intended() || o.Applying? ==> device == baseline)
    && (o.RecordingRestore? && o.matched ==> device == baseline)
    && (q.Intended() && q.back == Restored ==> device == baseline)
  }

  /** What a run of one owner from the start of its lifecycle keeps. */
  ghost predicate AloneInv(p: string, request: ChangeRequest, w0: World, o: Owner, w: World) {
    match TicketOf(o)
    case None =>
      && w.rows == w0.rows
      && Device(w, p) == Device(w0, p)
      && (o == TakingSnapshot(p, request) || o == Beginning(p, request, Lifecycle.Snapshot(w0, p)) || o.Finished?)
    case Some(t) =>
      && t == Ticket(MaxId(w0.rows) + 1, p, request, Lifecycle.Snapshot(w0, p))
      && InStep(o, w.rows)
      && ProgressOf(w.rows, t.id) != Invalid
      && TerminalsBy(w.rows, t.id, true) == 0
      && DeviceFits(o, ProgressOf(w.rows, t.id), Device(w, p), Device(w0, p))
  }

  lemma SilentStepDevice(o: Owner, w: World, a: Answer, q: Progress, baseline: Json)
    requires Silent(o) && TicketOf(o).Some? && OwnerFits(o, q)
    requires TicketOf(o).value.snapshot.state == baseline
    requires DeviceFits(o, q, Device(w, TicketOf(o).value.provider), baseline)
    ensures var (o', w') := OwnerStep(o, w, a); DeviceFits(o', q, Device(w', TicketOf(o).value.provider), baseline)
  {
  }

  /** The device fits what a recording step comes to. */
  predicate RecordedFits(o: Owner, w: World, a: Answer, q: Progress, baseline: Json)
    requires TicketOf(o).Some?
  {
    var (o', w') := OwnerStep(o, w, a);
    DeviceFits(o', if w'.rows == w.rows || w'.rows == [] then q else Advance(q, Last(w'.rows)),
               Device(w', TicketOf(o).value.provider), baseline)
  }

  lemma ApplyRowDevice(o: Owner, w: World, a: Answer, q: Progress, baseline: Json)
    requires o.RecordingPreview? || o.RecordingIntent? || o.RecordingApply? || o.RecordingVerify?
    requires OwnerFits(o, q) && DeviceFits(o, q, Device(w, o.ticket.provider), baseline)
    ensures RecordedFits(o, w, a, q, baseline)
  {
  }

  lemma RestoreRowDevice(o: Owner, w: World, a: Answer, q: Progress, baseline: Json)
    requires o.RecordingRollback? || o.RecordingRestore?
    requires OwnerFits(o, q) && DeviceFits(o, q, Device(w, o.ticket.provider), baseline)
    ensures RecordedFits(o, w, a, q, baseline)
  {
  }

  lemma ClosingRowDevice(o: Owner, w: World, a: Answer, q: Progress, baseline: Json)
    requires o.Closing?
    requires OwnerFits(o, q) && DeviceFits(o, q, Device(w, o.ticket.provider), baseline)
    ensures RecordedFits(o, w, a, q, baseline)
  {
  }

  lemma RecordingStepDevice(o: Owner, w: World, a: Answer, q: Progress, baseline: Json)
    requires !Silent(o) && TicketOf(o).Some? && OwnerFits(o, q)
    requires DeviceFits(o, q, Device(w, TicketOf(o).value.provider), baseline)
    ensures RecordedFits(o, w, a, q, baseline)
    ensures OwnerStep(o, w, a).1.rows == w.rows || OwnerStep(o, w, a).1.rows != []
  {
    match o
    case Closing(_, _) => ClosingRowDevice(o, w, a, q, baseline);
    case RecordingRollback(_, _, _) => RestoreRowDevice(o, w, a, q, baseline);
    case RecordingRestore(_, _, _, _) => RestoreRowDevice(o, w, a, q, baseline);
    case _ => ApplyRowDevice(o, w, a, q, baseline);
  }

  /** A step that takes no ticket. */
  lemma UnticketedStep(p: string, request: ChangeRequest, w0: World, o: Owner, w: World, a: Answer)
    requires AloneInv(p, request, w0, o, w) && TicketOf(o).None?
    ensures AloneInv(p, request, w0, OwnerStep(o, w, a).0, OwnerStep(o, w, a).1)
  {
    var (o', w') := OwnerStep(o, w, a);
    var e := MaxId(w0.rows) + 1;
    FreshHasNoRows(w0.rows, e);
    if w'.rows != w.rows {
      Appended(w.rows, Last(w'.rows), e);
    }
  }

  lemma TicketedStep(p: string, request: ChangeRequest, w0: World, o: Owner, w: World, a: Answer)
    requires AloneInv(p, request, w0, o, w) && TicketOf(o).Some?
    ensures AloneInv(p, request, w0, OwnerStep(o, w, a).0, OwnerStep(o, w, a).1)
    ensures TicketOf(OwnerStep(o, w, a).0) == TicketOf(o)
    ensures ProgressOf(w.rows, TicketOf(o).value.id).Intended() ==>
              ProgressOf(OwnerStep(o, w, a).1.rows, TicketOf(o).value.id).Intended()
  {
    var (o', w') := OwnerStep(o, w, a);
    var e := TicketOf(o).value.id;
    var q := ProgressOf(w.rows, e);
    if Silent(o) {
      SilentStepFits(o, w, a, q);
      SilentStepDevice(o, w, a, q, Device(w0, p));
    } else {
      RecordingStepFits(o, w, a, q);
      RecordingStepDevice(o, w, a, q, Device(w0, p));
      if w'.rows != w.rows {
        Appended(w.rows, Last(w'.rows), e);
        FitsMeansBegun(o', Advance(q, Last(w'.rows)));
      }
    }
  }

  lemma AloneStep(p: string, request: ChangeRequest, w0: World, o: Owner, w: World, a: Answer)
    requires AloneInv(p, request, w0, o, w)
    ensures AloneInv(p, request, w0, OwnerStep(o, w, a).0, OwnerStep(o, w, a).1)
    ensures TicketOf(o).Some? && ProgressOf(w.rows, TicketOf(o).value.id).Intended() ==>
              && TicketOf(OwnerStep(o, w, a).0) == TicketOf(o)
              && ProgressOf(OwnerStep(o, w, a).1.rows, TicketOf(o).value.id).Intended()
  {
    if TicketOf(o).Some? {
      TicketedStep(p, request, w0, o, w, a);
    } else {
      UnticketedStep(p, request, w0, o, w, a);
    }
  }

  lemma {:induction false} AloneRun(p: string, request: ChangeRequest, w0: World, answers: seq<Answer>)
    ensures var (o, w) := OwnerRun(TakingSnapshot(p, request), w0, answers); AloneInv(p, request, w0, o, w)
  {
    if answers != [] {
      var init := answers[..|answers| - 1];
      AloneRun(p, request, w0, init);
      var (o, w) := OwnerRun(TakingSnapshot(p, request), w0, init);
      AloneStep(p, request, w0, o, w, answers[|answers| - 1]);
    }
  }

  /** The first `k` answers leave the owner about to call apply, and it goes on. */
  predicate AppliesAt(p: string, request: ChangeRequest, w0: World, answers: seq<Answer>, k: nat) {
    k < |answers| && OwnerRun(TakingSnapshot(p, request), w0, answers[..k]).0.Applying?
  }

  /** Once apply has been called the experiment has an intent for good. */
  lemma {:induction false} AppliedMeansIntended(p: string, request: ChangeRequest, w0: World,
                                                answers: seq<Answer>, k: nat)
    requires AppliesAt(p, request, w0, answers, k)
    ensures var (o, w) := OwnerRun(TakingSnapshot(p, request), w0, answers);
            TicketOf(o).Some? && ProgressOf(w.rows, TicketOf(o).value.id).Intended()
    decreases |answers|
  {
    var init := answers[..|answers| - 1];
    AloneRun(p, request, w0, init);
    if k < |init| {
      assert init[..k] == answers[..k];
      AppliedMeansIntended(p, request, w0, init, k);
    } else {
      assert init == answers[..k];
    }
    var (o, w) := OwnerRun(TakingSnapshot(p, request), w0, init);
    AloneStep(p, request, w0, o, w, answers[|answers| - 1]);
  }

  /** The rows rule a dirty device out: no intent, a restore observed, or closed by anything but a failed restore. */
  predicate PromisesClean(rows: seq<Row>, e: nat) {
    || StageCount(rows, e, AtApplyIntent) != 1
    || SawRestore(rows, e)
    || !(Unclosed(rows, e) || RestoreFailed(rows, e))
  }

  /** What the rows of an experiment mean, for the device its snapshot was taken from. */
  predicate MeansDirtiness(t: Ticket, rows: seq<Row>, device: Json) {
    var closed := OwnerTerminal(rows, t.id);
    // A dirty device has an intent and is unclosed or closed by a failed restore.
    && (device != t.snapshot.state ==> !PromisesClean(rows, t.id))
    // An early failure: no intent, so apply was never called.
    && (closed.Some? && FailedAt(closed.value) in {Some(AtPreview), Some(AtApplyIntent)} ==>
          StageCount(rows, t.id, AtApplyIntent) == 0 && device == t.snapshot.state)
    // A completion, or a failure of the apply or verify phase alone: the restore was observed.
    && (closed.Some?
        && (closed.value.stage == AtCompleted || FailedAt(closed.value) in {Some(AtApply), Some(AtVerify)}) ==>
          SawRestore(rows, t.id) && device == t.snapshot.state)
    // Completed exactly when both phases were observed.
    && (closed.Some? ==>
          (closed.value.stage == AtCompleted <==> SawEffect(rows, t.id) && SawRestore(rows, t.id)))
    // Suppressed exactly when both phases failed.
    && (closed.Some? && closed.value.stage == AtFailed ==>
          (Suppresses(closed.value) <==>
             && StageCount(rows, t.id, AtApplyIntent) == 1
             && !SawEffect(rows, t.id)
             && !SawRestore(rows, t.id)))
  }

  /** The owner closed `e` with a failure of its restore. */
  predicate RestoreFailed(rows: seq<Row>, e: nat) {
    var closed := OwnerTerminal(rows, e);
    closed.Some? && FailedAt(closed.value) in {Some(AtRollback), Some(AtRollbackVerify)}
  }

  /** The rows and the device are in agreement wherever the owner stands. */
  lemma FitsMeansDirtiness(o: Owner, rows: seq<Row>, device: Json)
    requires TicketOf(o).Some? && InStep(o, rows)
    requires TerminalsBy(rows, TicketOf(o).value.id, true) == 0
    requires DeviceFits(o, ProgressOf(rows, TicketOf(o).value.id), device, TicketOf(o).value.snapshot.state)
    ensures MeansDirtiness(TicketOf(o).value, rows, device)
  {
    var e := TicketOf(o).value.id;
    FitsMeansBegun(o, ProgressOf(rows, e));
    CountsFollowProgress(rows, e);
    ProgressShowsRows(rows, e);
  }

  /**
    The exact meaning of the journal about one experiment whose owner stopped
    anywhere while nothing else touched the device: which records allow the device
    to differ from the snapshot, which prove apply was never called, which prove
    the restore was observed, and when a failure is recorded as suppressed.
   */
  lemma {:induction false} JournalMeansDirtiness(p: string, request: ChangeRequest, w0: World, answers: seq<Answer>)
    requires TicketOf(OwnerRun(TakingSnapshot(p, request), w0, answers).0).Some?
    ensures var (o, w) := OwnerRun(TakingSnapshot(p, request), w0, answers);
            var t := TicketOf(o).value;
            && t.snapshot == Lifecycle.Snapshot(w0, p)
            && MeansDirtiness(t, w.rows, Device(w, p))
            && (StageCount(w.rows, t.id, AtApplyIntent) == 0 ==>
                  forall k: nat :: !AppliesAt(p, request, w0, answers, k))
  {
    AloneRun(p, request, w0, answers);
    var (o, w) := OwnerRun(TakingSnapshot(p, request), w0, answers);
    FitsMeansDirtiness(o, w.rows, Device(w, p));
    CountsFollowProgress(w.rows, TicketOf(o).value.id);
    forall k: nat | AppliesAt(p, request, w0, answers, k)
      ensures ProgressOf(w.rows, TicketOf(o).value.id).Intended()
    {
      AppliedMeansIntended(p, request, w0, answers, k);
    }
  }

  /** What a returned result says of the device and of the journal. */
  predicate ResultHolds(p: string, w0: World, o: Owner, w: World) {
    o.Finished? && o.result.Ok? ==>
      && o.result.value.providerId == p
      && o.result.value.verified
      && o.result.value.rolledBack
      && Device(w, p) == Device(w0, p)
      && TicketOf(o).Some?
      && ProgressOf(w.rows, TicketOf(o).value.id) == Closed(Verified, Restored)
  }

  /** Only a completed row that was written returns a result. */
  lemma ClosingReturns(p: string, request: ChangeRequest, w0: World, o: Owner, w: World, a: Answer)
    requires AloneInv(p, request, w0, o, w) && o.Closing? && ResultNames(p, o)
    ensures ResultHolds(p, w0, OwnerStep(o, w, a).0, OwnerStep(o, w, a).1)
  {
    if o.outcome.Ok? && a.journal.None? {
      Appended(w.rows, Last(OwnerStep(o, w, a).1.rows), o.ticket.id);
    }
  }

  /** A successful outcome names the provider of the lifecycle. */
  predicate ResultNames(p: string, o: Owner) {
    o.Closing? && o.outcome.Ok? ==> o.outcome.value.providerId == p
  }

  lemma OthersReturnNothing(p: string, o: Owner, w: World, a: Answer)
    requires !o.Closing? && !Stopped(o)
    requires TicketOf(o).Some? ==> TicketOf(o).value.provider == p
    ensures ResultNames(p, OwnerStep(o, w, a).0)
    ensures OwnerStep(o, w, a).0.Finished? ==> OwnerStep(o, w, a).0.result.Err?
  {
  }

  /** A lifecycle that returns a result verified its effect and left the device as it found it. */
  lemma {:induction false} ResultMeansRestored(p: string, request: ChangeRequest, w0: World, answers: seq<Answer>)
    ensures var (o, w) := OwnerRun(TakingSnapshot(p, request), w0, answers);
            ResultHolds(p, w0, o, w) && ResultNames(p, o)
  {
    if answers != [] {
      var init, a := answers[..|answers| - 1], answers[|answers| - 1];
      ResultMeansRestored(p, request, w0, init);
      AloneRun(p, request, w0, init);
      var (o, w) := OwnerRun(TakingSnapshot(p, request), w0, init);
      if o.Closing? {
        ClosingReturns(p, request, w0, o, w, a);
      } else if !Stopped(o) {
        OthersReturnNothing(p, o, w, a);
      }
    }
  }

  /** All rows a lifecycle writes are one block of one fresh experiment. */
  lemma {:induction false} LifecycleWritesOneBlock(p: string, request: ChangeRequest, w0: World, answers: seq<Answer>)
    ensures var w := OwnerRun(TakingSnapshot(p, request), w0, answers).1;
            && w0.rows <= w.rows
            && forall k :: |w0.rows| <= k < |w.rows| ==> w.rows[k].id == MaxId(w0.rows) + 1
  {
    if answers != [] {
      var init := answers[..|answers| - 1];
      LifecycleWritesOneBlock(p, request, w0, init);
      AloneRun(p, request, w0, init);
      AloneRun(p, request, w0, answers);
      var (o, w) := OwnerRun(TakingSnapshot(p, request), w0, init);
      FreshHasNoRows(w0.rows, MaxId(w0.rows) + 1);
      OwnerStepKeepsStep(o, w, answers[|answers| - 1]);
    }
  }

  /** A `completed` row that cannot be written leaves the experiment restored but unclosed. */
  lemma {:induction false} UnrecordedCompletion(p: string, request: ChangeRequest, w0: World,
                                               answers: seq<Answer>, a: Answer)
    requires var o := OwnerRun(TakingSnapshot(p, request), w0, answers).0;
             o.Closing? && o.outcome.Ok? && a.journal.Some?
    ensures var (o, w) := OwnerRun(TakingSnapshot(p, request), w0, answers + [a]);
            && o.Finished? && o.result == Err(ControlPlaneError.Journal(a.journal.value))
            && Unclosed(w.rows, TicketOf(o).value.id)
            && SawRestore(w.rows, TicketOf(o).value.id)
            && Device(w, p) == Device(w0, p)
  {
    OwnerRunStep(TakingSnapshot(p, request), w0, answers, a);
    AloneRun(p, request, w0, answers);
    var (o, w) := OwnerRun(TakingSnapshot(p, request), w0, answers);
    CountsFollowProgress(w.rows, o.ticket.id);
    ProgressShowsRows(w.rows, o.ticket.id);
  }

  // ----- exactly one terminal row ---------------------------------------------

  /** The first `k` answers leave the owner about to write its terminal row, and it goes on. */
  predicate ClosesAt(p: string, request: ChangeRequest, w0: World, answers: seq<Answer>, k: nat) {
    k < |answers| && OwnerRun(TakingSnapshot(p, request), w0, answers[..k]).0.Closing?
  }

  /** An owner that is neither finished nor crashed has written no terminal row yet. */
  lemma LiveHasNoTerminal(p: string, request: ChangeRequest, w0: World, o: Owner, w: World)
    requires AloneInv(p, request, w0, o, w) && TicketOf(o).Some? && !Stopped(o)
    ensures Terminals(w.rows, TicketOf(o).value.id) == 0
  {
    CountsFollowProgress(w.rows, TicketOf(o).value.id);
  }

  /** The closing step finishes the owner and writes one terminal row, or none when the insert fails. */
  lemma ClosingStep(p: string, request: ChangeRequest, w0: World, o: Owner, w: World, a: Answer)
    requires AloneInv(p, request, w0, o, w) && o.Closing?
    ensures var (o', w') := OwnerStep(o, w, a);
            && o'.Finished? && TicketOf(o') == TicketOf(o)
            && Terminals(w'.rows, o.ticket.id) == (if a.journal.None? then 1 else 0)
  {
    LiveHasNoTerminal(p, request, w0, o, w);
    var w' := OwnerStep(o, w, a).1;
    if w'.rows != w.rows {
      Appended(w.rows, Last(w'.rows), o.ticket.id);
    }
  }

  /** What is left of an owner whose closing insert was answered by `a`. */
  predicate HasClosed(o: Owner, w: World, a: Answer) {
    && o.Finished? && TicketOf(o).Some?
    && Terminals(w.rows, TicketOf(o).value.id) == (if a.journal.None? then 1 else 0)
  }

  lemma FinishedStays(o: Owner, w: World, a: Answer)
    requires o.Finished?
    ensures OwnerStep(o, w, a) == (o, w)
  {
  }

  lemma ClosesNow(p: string, request: ChangeRequest, w0: World, answers: seq<Answer>)
    requires answers != [] && ClosesAt(p, request, w0, answers, |answers| - 1)
    ensures var (o, w) := OwnerRun(TakingSnapshot(p, request), w0, answers); HasClosed(o, w, answers[|answers| - 1])
  {
    var init := answers[..|answers| - 1];
    AloneRun(p, request, w0, init);
    var (o, w) := OwnerRun(TakingSnapshot(p, request), w0, init);
    ClosingStep(p, request, w0, o, w, answers[|answers| - 1]);
  }

  /** From its closing step on, the owner and its terminal row stay as they are. */
  lemma {:induction false} ClosedOnce(p: string, request: ChangeRequest, w0: World, answers: seq<Answer>, k: nat)
    requires ClosesAt(p, request, w0, answers, k)
    ensures var (o, w) := OwnerRun(TakingSnapshot(p, request), w0, answers); HasClosed(o, w, answers[k])
    decreases |answers|
  {
    var n := |answers| - 1;
    if k < n {
      var init := answers[..n];
      assert init[..k] == answers[..k] && init[k] == answers[k];
      ClosedOnce(p, request, w0, init, k);
      var (o, w) := OwnerRun(TakingSnapshot(p, request), w0, init);
      FinishedStays(o, w, answers[n]);
    } else {
      ClosesNow(p, request, w0, answers);
    }
  }

  /** A finished owner that has a ticket got there by its closing step. */
  lemma {:induction false} FinishedHasClosed(p: string, request: ChangeRequest, w0: World, answers: seq<Answer>)
    returns (k: nat)
    requires var o := OwnerRun(TakingSnapshot(p, request), w0, answers).0; o.Finished? && TicketOf(o).Some?
    ensures ClosesAt(p, request, w0, answers, k)
  {
    var init := answers[..|answers| - 1];
    var (o, w) := OwnerRun(TakingSnapshot(p, request), w0, init);
    if o.Finished? {
      k := FinishedHasClosed(p, request, w0, init);
      assert init[..k] == answers[..k];
    } else {
      AloneRun(p, request, w0, init);
      k := |init|;
    }
  }

  /** A run that has come to its end made the closing insert exactly once. */
  lemma ClosesOnlyOnce(p: string, request: ChangeRequest, w0: World, answers: seq<Answer>, j: nat, k: nat)
    requires ClosesAt(p, request, w0, answers, j) && ClosesAt(p, request, w0, answers, k)
    ensures j == k
  {
    if j < k {
      assert answers[..k][..j] == answers[..j];
      ClosedOnce(p, request, w0, answers[..k], j);
    } else if k < j {
      assert answers[..j][..k] == answers[..k];
      ClosedOnce(p, request, w0, answers[..j], k);
    }
  }

  /**
    Exactly when a lifecycle nobody interferes with has its one terminal row:
    when its closing insert, which a finished lifecycle makes exactly once, met no
    journal fault, whatever the outcome.  With a fault, or when the process died
    before it, there is none.
   */
  lemma OneTerminalExactly(p: string, request: ChangeRequest, w0: World, answers: seq<Answer>)
    requires TicketOf(OwnerRun(TakingSnapshot(p, request), w0, answers).0).Some?
    ensures var (o, w) := OwnerRun(TakingSnapshot(p, request), w0, answers);
            var e := TicketOf(o).value.id;
            && (o.Finished? <==> exists k: nat :: ClosesAt(p, request, w0, answers, k))
            && (forall j: nat, k: nat :: ClosesAt(p, request, w0, answers, j) && ClosesAt(p, request, w0, answers, k) ==>
                                           j == k)
            && (forall k: nat :: ClosesAt(p, request, w0, answers, k) ==>
                  (Terminals(w.rows, e) == 1 <==> answers[k].journal.None?))
            && (Terminals(w.rows, e) == 0
                <==> (!o.Finished? || exists k: nat :: ClosesAt(p, request, w0, answers, k)
                                                       && answers[k].journal.Some?))
  {
    AloneRun(p, request, w0, answers);
    var (o, w) := OwnerRun(TakingSnapshot(p, request), w0, answers);
    forall k: nat | ClosesAt(p, request, w0, answers, k)
      ensures o.Finished? && Terminals(w.rows, TicketOf(o).value.id) == (if answers[k].journal.None? then 1 else 0)
    {
      ClosedOnce(p, request, w0, answers, k);
    }
    forall j: nat, k: nat | ClosesAt(p, request, w0, answers, j) && ClosesAt(p, request, w0, answers, k)
      ensures j == k
    {
      ClosesOnlyOnce(p, request, w0, answers, j, k);
    }
    if o.Finished? {
      var k := FinishedHasClosed(p, request, w0, answers);
      assert ClosesAt(p, request, w0, answers, k);
    } else {
      NeverCrashed(p, request, w0, answers);
      LiveHasNoTerminal(p, request, w0, o, w);
    }
  }

  lemma {:induction false} NeverCrashed(p: string, request: ChangeRequest, w0: World, answers: seq<Answer>)
    ensures !OwnerRun(TakingSnapshot(p, request), w0, answers).0.Crashed?
  {
    if answers != [] {
      NeverCrashed(p, request, w0, answers[..|answers| - 1]);
    }
  }
}
