/**
  The append-only experiment journal: its rows, the facts its queries ask for,
  and the language the control plane's rows of one experiment are written in.
 */
module Journal {
  import opened Wrappers
  import opened Contracts

  datatype Stage =
    | AtSnapshot
    | AtPreview
    | AtApplyIntent
    | AtApply
    | AtVerify
    | AtRollback
    | AtRollbackVerify
    | AtCompleted
    | AtFailed
    | AtWatchdogRestore

  datatype ReclaimReason = LeaseExpired | CrashRecovery

  /** The `kind`, `stage` and error of a failed terminal record. */
  datatype FailureNote = FailureNote(kind: string, stage: Stage, error: ControlPlaneError)

  /** What the JSON payload column holds, one constructor per shape written. */
  datatype Payload =
    | SnapshotP(snapshot: StateSnapshot)
    | PreviewP(description: string)
    | RequestP(request: ChangeRequest)
    | AppliedP
    | VerifiedP(verified: bool)
    | RestoredP(restored: bool)
    | CompletedP(verified: bool, rolledBack: bool)
    | FailedP(note: FailureNote, suppressed: Option<FailureNote>)
    | WatchdogRestoreP(reason: ReclaimReason, error: Option<string>, baseline: StateSnapshot)
    | WatchdogTerminalP(reason: ReclaimReason)

  /** One row; its sequence number is its position. Times are in milliseconds. */
  datatype Row = Row(id: nat, at: int, stage: Stage, provider: string, payload: Payload)

  /** The last part of a non-empty journal. */
  function Last(rows: seq<Row>): Row
    requires rows != []
  {
    rows[|rows| - 1]
  }

  function Front(rows: seq<Row>): seq<Row>
    requires rows != []
  {
    rows[..|rows| - 1]
  }

  /** SELECT COALESCE(MAX(experiment_id), 0). */
  function MaxId(rows: seq<Row>): nat {
    if rows == [] then 0
    else if Last(rows).id > MaxId(Front(rows)) then Last(rows).id
    else MaxId(Front(rows))
  }

  predicate Terminal(row: Row) {
    row.stage == AtCompleted || row.stage == AtFailed
  }

  /** Whether the watchdog, rather than a control plane, wrote the row. */
  predicate ByWatchdog(row: Row) {
    row.stage == AtWatchdogRestore || (row.stage == AtFailed && row.payload.WatchdogTerminalP?)
  }

  /** SELECT COUNT(*) ... WHERE experiment_id = e AND stage = s. */
  function StageCount(rows: seq<Row>, e: nat, stage: Stage): nat {
    if rows == [] then 0
    else StageCount(Front(rows), e, stage)
         + if Last(rows).id == e && Last(rows).stage == stage then 1 else 0
  }

  /** The terminal rows of `e` written by the watchdog (or by control planes). */
  function TerminalsBy(rows: seq<Row>, e: nat, watchdog: bool): nat {
    if rows == [] then 0
    else TerminalsBy(Front(rows), e, watchdog)
         + if Last(rows).id == e && Terminal(Last(rows)) && ByWatchdog(Last(rows)) == watchdog then 1 else 0
  }

  function Terminals(rows: seq<Row>, e: nat): nat {
    TerminalsBy(rows, e, true) + TerminalsBy(rows, e, false)
  }

  /** The simple meaning of "unclosed": an apply intent and no terminal row. */
  predicate Unclosed(rows: seq<Row>, e: nat) {
    StageCount(rows, e, AtApplyIntent) > 0 && Terminals(rows, e) == 0
  }

  // ----- the language of one experiment ---------------------------------

  /** How far the apply-and-verify phase got, as far as rows tell. */
  datatype Seen = Unapplied | Applied | Unverified | Verified

  /** How far the restore phase got, as far as rows tell. */
  datatype Back = NotBack | RolledBack | Mismatched | Restored

  /** States of the automaton accepting the control-plane rows of one experiment. */
  datatype Progress =
    | Nothing
    | Snapped
    | Previewed
    | Acting(seen: Seen, back: Back)
    | ClosedEarly
    | Closed(seen: Seen, back: Back)
    | Invalid
  {
    /** An apply-intent row has been written. */
    predicate Intended() {
      Acting? || Closed?
    }

    predicate Shut() {
      ClosedEarly? || Closed?
    }
  }

  /** The stage at which an apply-and-verify phase that got this far failed. */
  function SeenStage(seen: Seen): Stage {
    if seen == Unapplied then AtApply else AtVerify
  }

  /** What a `failed` record must say about the phases the rows before it show. */
  predicate FailureFits(seen: Seen, back: Back, note: FailureNote, suppressed: Option<FailureNote>) {
    && note.kind == note.error.Kind()
    && (suppressed.Some? ==> suppressed.value.kind == suppressed.value.error.Kind())
    && match back {
      case Restored =>
        seen != Verified && note.stage == SeenStage(seen) && suppressed.None?
        && (seen == Unverified ==> note.error == VerificationFailed)
      case _ =>
        && note.stage == (if back == NotBack then AtRollback else AtRollbackVerify)
        && (back == Mismatched ==> note.error == RollbackVerificationFailed)
        && (suppressed.Some? <==> seen != Verified)
        && (suppressed.Some? ==> suppressed.value.stage == SeenStage(seen))
    }
  }

  predicate EarlyFailure(row: Row, stage: Stage) {
    && row.payload.FailedP?
    && row.payload.note.stage == stage
    && row.payload.note.kind == row.payload.note.error.Kind()
    && row.payload.suppressed.None?
  }

  /** One transition of the automaton; a row it does not expect is `Invalid`. */
  function Advance(q: Progress, row: Row): Progress {
    match row.stage
    case AtSnapshot =>
      if q == Nothing && row.payload.SnapshotP? then Snapped else Invalid
    case AtPreview =>
      if q == Snapped && row.payload.PreviewP? then Previewed else Invalid
    case AtApplyIntent =>
      if q == Previewed && row.payload.RequestP? then Acting(Unapplied, NotBack) else Invalid
    case AtApply =>
      if q == Acting(Unapplied, NotBack) && row.payload.AppliedP? then Acting(Applied, NotBack) else Invalid
    case AtVerify =>
      if q == Acting(Applied, NotBack) && row.payload.VerifiedP?
      then Acting(if row.payload.verified then Verified else Unverified, NotBack)
      else Invalid
    case AtRollback =>
      if q.Acting? && q.back == NotBack && row.payload.SnapshotP? then Acting(q.seen, RolledBack) else Invalid
    case AtRollbackVerify =>
      if q.Acting? && q.back == RolledBack && row.payload.RestoredP?
      then Acting(q.seen, if row.payload.restored then Restored else Mismatched)
      else Invalid
    case AtCompleted =>
      if q == Acting(Verified, Restored) && row.payload == CompletedP(true, true)
      then Closed(Verified, Restored)
      else Invalid
    case AtFailed =>
      if q == Snapped && EarlyFailure(row, AtPreview) then ClosedEarly
      else if q == Previewed && EarlyFailure(row, AtApplyIntent) then ClosedEarly
      else if q.Acting? && row.payload.FailedP?
              && FailureFits(q.seen, q.back, row.payload.note, row.payload.suppressed)
      then Closed(q.seen, q.back)
      else Invalid
    case AtWatchdogRestore => Invalid
  }

  /** The automaton's state after the control-plane rows of `e`. */
  function ProgressOf(rows: seq<Row>, e: nat): Progress {
    if rows == [] then Nothing
    else if Last(rows).id == e && !ByWatchdog(Last(rows))
    then Advance(ProgressOf(Front(rows), e), Last(rows))
    else ProgressOf(Front(rows), e)
  }

  /**
    A journal every experiment of which is in the language, whose identifiers
    are exactly 1 up to the largest, and which the watchdog only writes to
    after an intent.
   */
  ghost predicate WellFormed(rows: seq<Row>) {
    && (forall e: nat :: ProgressOf(rows, e) != Invalid)
    && (forall e: nat :: ProgressOf(rows, e) != Nothing <==> 1 <= e <= MaxId(rows))
    && (forall e: nat :: TerminalsBy(rows, e, true) > 0 ==> ProgressOf(rows, e).Intended())
  }

  /** The largest identifier bounds every row's. */
  lemma {:induction false} MaxIdBounds(rows: seq<Row>)
    ensures forall k :: 0 <= k < |rows| ==> rows[k].id <= MaxId(rows)
  {
    if rows != [] {
      MaxIdBounds(Front(rows));
    }
  }

  // ----- appending -------------------------------------------------------

  /** What one more row does to every query. */
  lemma {:induction false} Appended(rows: seq<Row>, row: Row, e: nat)
    ensures MaxId(rows + [row]) == if row.id > MaxId(rows) then row.id else MaxId(rows)
    ensures forall s :: StageCount(rows + [row], e, s)
                        == StageCount(rows, e, s) + if row.id == e && row.stage == s then 1 else 0
    ensures forall w :: TerminalsBy(rows + [row], e, w)
                        == TerminalsBy(rows, e, w)
                           + if row.id == e && Terminal(row) && ByWatchdog(row) == w then 1 else 0
    ensures ProgressOf(rows + [row], e)
            == if row.id == e && !ByWatchdog(row) then Advance(ProgressOf(rows, e), row) else ProgressOf(rows, e)
  {
    assert Front(rows + [row]) == rows;
    assert Last(rows + [row]) == row;
  }

  /** In the language, the row counts of an experiment follow from its state. */
  lemma {:induction false} CountsFollowProgress(rows: seq<Row>, e: nat)
    requires ProgressOf(rows, e) != Invalid
    ensures StageCount(rows, e, AtSnapshot) == if ProgressOf(rows, e) == Nothing then 0 else 1
    ensures StageCount(rows, e, AtApplyIntent) == if ProgressOf(rows, e).Intended() then 1 else 0
    ensures TerminalsBy(rows, e, false) == if ProgressOf(rows, e).Shut() then 1 else 0
  {
    if rows != [] {
      assert rows == Front(rows) + [Last(rows)];
      Appended(Front(rows), Last(rows), e);
      CountsFollowProgress(Front(rows), e);
    }
  }

  /** Every prefix of a word in the language is in the language. */
  lemma {:induction false} PrefixInLanguage(rows: seq<Row>, k: nat, e: nat)
    requires k <= |rows|
    requires ProgressOf(rows, e) != Invalid
    ensures ProgressOf(rows[..k], e) != Invalid
    decreases |rows| - k
  {
    if k < |rows| {
      PrefixInLanguage(rows, k + 1, e);
      assert rows[..k + 1] == rows[..k] + [rows[k]];
      Appended(rows[..k], rows[k], e);
    } else {
      assert rows[..k] == rows;
    }
  }
}
