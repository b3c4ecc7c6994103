/** The journal language is exact: every word of it is written by some lifecycle. */
module Language {
  import opened Wrappers
  import opened Contracts
  import opened Journal
  import opened Lifecycle
  import opened Dirtiness
  import opened Protocol
  import opened Systems

  /** Where an owner stands and what the rows of its experiment say. */
  predicate Stands(o: Owner, w: World, q: Progress) {
    TicketOf(o).Some? && ProgressOf(w.rows, TicketOf(o).value.id) == q && OwnerFits(o, q)
  }

  /** The state after a step: the row it writes, if it writes one, advances it. */
  function Advanced(w: World, w': World, q: Progress): Progress {
    if w'.rows == w.rows || w'.rows == [] then q else Advance(q, Last(w'.rows))
  }

  lemma OneStep(o: Owner, w: World, q: Progress, a: Answer)
    requires Stands(o, w, q)
    ensures Stands(OwnerStep(o, w, a).0, OwnerStep(o, w, a).1, Advanced(w, OwnerStep(o, w, a).1, q))
  {
    var w' := OwnerStep(o, w, a).1;
    if Silent(o) {
      SilentStepFits(o, w, a, q);
    } else {
      RecordingStepFits(o, w, a, q);
      if w'.rows != w.rows {
        Appended(w.rows, Last(w'.rows), TicketOf(o).value.id);
      }
    }
  }

  /** A run from `start` in `w0` and where it has come to. */
  datatype Walk = Walk(start: Owner, w0: World, answers: seq<Answer>, o: Owner, w: World, q: Progress) {
    predicate Valid() {
      OwnerRun(start, w0, answers) == (o, w) && Stands(o, w, q)
    }
  }

  function Go(walk: Walk, a: Answer): Walk {
    var (o, w) := OwnerStep(walk.o, walk.w, a);
    walk.(answers := walk.answers + [a], o := o, w := w, q := Advanced(walk.w, w, walk.q))
  }

  lemma GoKeepsValid(walk: Walk, a: Answer)
    requires walk.Valid()
    ensures Go(walk, a).Valid()
  {
    OwnerRunStep(walk.start, walk.w0, walk.answers, a);
    OneStep(walk.o, walk.w, walk.q, a);
  }

  const QUIET: Answer := Answer(None, None, Null, true, "", 0)
  const FAULT: Answer := Answer(Some(Unavailable("")), None, Null, true, "", 0)

  /** The walk went on by one step of the same lifecycle. */
  predicate Follows(walk: Walk, next: Walk) {
    next.Valid() && next.start == walk.start && next.w0 == walk.w0 && TicketOf(next.o) == TicketOf(walk.o)
  }

  /** One step of a walk, and nothing else about it. */
  lemma GoOn(walk: Walk, a: Answer) returns (next: Walk)
    requires walk.Valid()
    ensures Follows(walk, next)
    ensures (next.o, next.w) == OwnerStep(walk.o, walk.w, a) && next.q == Advanced(walk.w, next.w, walk.q)
    ensures next.q != Invalid
  {
    GoKeepsValid(walk, a);
    KeepsTicket(walk.o, walk.w, a);
    next := Go(walk, a);
    FitsMeansBegun(next.o, next.q);
  }

  /** The stage of the row an owner is about to write. */
  function RowStage(o: Owner): Stage {
    match o
    case RecordingPreview(_, _) => AtPreview
    case RecordingIntent(_, _) => AtApplyIntent
    case RecordingApply(_, _) => AtApply
    case RecordingVerify(_, _, _) => AtVerify
    case RecordingRollback(_, _, _) => AtRollback
    case RecordingRestore(_, _, _, _) => AtRollbackVerify
    case Closing(_, outcome) => TerminalStage(outcome)
    case _ => AtSnapshot
  }

  /** On a healthy journal the row is written. */
  lemma RowIsWritten(o: Owner, w: World)
    requires !Silent(o) && TicketOf(o).Some?
    ensures var w' := OwnerStep(o, w, QUIET).1;
            && w'.rows == w.rows + [Last(w'.rows)]
            && Last(w'.rows).id == TicketOf(o).value.id
            && Last(w'.rows).stage == RowStage(o)
            && !ByWatchdog(Last(w'.rows))
            && (o.RecordingVerify? ==> Last(w'.rows).payload == VerifiedP(o.verified))
            && (o.RecordingRestore? ==> Last(w'.rows).payload == RestoredP(o.matched))
            && w'.devices == w.devices
  {
  }

  /** And the owner goes on. */
  lemma RowLeadsOn(o: Owner, w: World)
    ensures var o' := OwnerStep(o, w, QUIET).0;
            && (o.RecordingPreview? ==> o'.RecordingIntent?)
            && (o.RecordingIntent? ==> o'.Applying?)
            && (o.RecordingApply? ==> o'.Verifying?)
            && (o.RecordingVerify? ==> o'.RollingBack?)
            && (o.RecordingRollback? ==> o'.Resampling?)
            && (o.RecordingRestore? ==> o'.Closing?)
  {
  }

  /** A terminal row shuts whatever state accepts it. */
  lemma TerminalShuts(q: Progress, row: Row)
    requires Terminal(row) && !ByWatchdog(row) && Advance(q, row) != Invalid
    ensures q.Acting? ==> Advance(q, row) == Closed(q.seen, q.back)
    ensures q == Snapped || q == Previewed ==> Advance(q, row) == ClosedEarly && row.stage == AtFailed
  {
  }

  /** The row of a healthy step and the state it leads to. */
  lemma GoRow(walk: Walk) returns (next: Walk)
    requires walk.Valid() && !Silent(walk.o)
    ensures Follows(walk, next) && next.w.devices == walk.w.devices
    ensures next.w.rows == walk.w.rows + [Last(next.w.rows)] && next.q == Advance(walk.q, Last(next.w.rows))
    ensures Last(next.w.rows).id == walk.o.ticket.id && !ByWatchdog(Last(next.w.rows))
    ensures Last(next.w.rows).stage == RowStage(walk.o) && next.q != Invalid
    ensures walk.o.RecordingVerify? ==> Last(next.w.rows).payload == VerifiedP(walk.o.verified)
    ensures walk.o.RecordingRestore? ==> Last(next.w.rows).payload == RestoredP(walk.o.matched)
    ensures next.o == OwnerStep(walk.o, walk.w, QUIET).0
  {
    next := GoOn(walk, QUIET);
    RowIsWritten(walk.o, walk.w);
  }

  /** A provider fault ends the phase it happens in and writes nothing. */
  lemma GoFault(walk: Walk) returns (next: Walk)
    requires walk.Valid() && walk.q.Acting?
    requires walk.o.Applying? || walk.o.Verifying? || walk.o.RollingBack? || walk.o.Resampling?
    ensures Follows(walk, next) && next.q == walk.q
    ensures if walk.o.Applying? || walk.o.Verifying? then next.o.RollingBack? else next.o.Closing?
  {
    next := GoOn(walk, FAULT);
  }

  lemma GoApply(walk: Walk) returns (next: Walk)
    requires walk.Valid() && walk.o.Applying?
    ensures Follows(walk, next) && next.o.RecordingApply?
  {
    next := GoOn(walk, QUIET);
  }

  lemma GoRecordApply(walk: Walk) returns (next: Walk)
    requires walk.Valid() && walk.o.RecordingApply?
    ensures Follows(walk, next) && next.o.Verifying? && next.q == Acting(Applied, NotBack)
  {
    next := GoRow(walk);
    RowLeadsOn(walk.o, walk.w);
  }

  lemma GoProbe(walk: Walk, verified: bool) returns (next: Walk)
    requires walk.Valid() && walk.o.Verifying?
    ensures Follows(walk, next) && next.o.RecordingVerify? && next.o.verified == verified
  {
    var probe := QUIET.(verified := verified);
    next := GoOn(walk, probe);
  }

  lemma GoRecordVerify(walk: Walk) returns (next: Walk)
    requires walk.Valid() && walk.o.RecordingVerify?
    ensures Follows(walk, next) && next.o.RollingBack?
    ensures next.q == Acting(if walk.o.verified then Verified else Unverified, NotBack)
  {
    next := GoRow(walk);
    RowLeadsOn(walk.o, walk.w);
  }

  lemma GoRollback(walk: Walk, landed: Json) returns (next: Walk)
    requires walk.Valid() && walk.o.RollingBack?
    ensures Follows(walk, next) && next.o.RecordingRollback? && next.q == walk.q
    ensures Device(next.w, next.o.ticket.provider) == landed
  {
    var write := QUIET.(landed := landed);
    next := GoOn(walk, write);
  }

  lemma GoRecordRollback(walk: Walk) returns (next: Walk)
    requires walk.Valid() && walk.o.RecordingRollback?
    ensures Follows(walk, next) && next.o.Resampling? && next.q == Acting(walk.q.seen, RolledBack)
    ensures next.w.devices == walk.w.devices
  {
    next := GoRow(walk);
    RowLeadsOn(walk.o, walk.w);
  }

  lemma GoReread(walk: Walk) returns (next: Walk)
    requires walk.Valid() && walk.o.Resampling?
    ensures Follows(walk, next) && next.o.RecordingRestore? && next.q == walk.q
    ensures next.o.matched <==> Lifecycle.Snapshot(walk.w, walk.o.ticket.provider) == walk.o.ticket.snapshot
  {
    next := GoOn(walk, QUIET);
  }

  lemma GoRecordRestore(walk: Walk) returns (next: Walk)
    requires walk.Valid() && walk.o.RecordingRestore?
    ensures Follows(walk, next) && next.o.Closing?
    ensures next.q == Acting(walk.q.seen, if walk.o.matched then Restored else Mismatched)
  {
    next := GoRow(walk);
    RowLeadsOn(walk.o, walk.w);
  }

  /** The terminal row closes whatever state the owner is in. */
  lemma GoClose(walk: Walk) returns (next: Walk)
    requires walk.Valid() && walk.o.Closing? && walk.q.Acting?
    ensures Follows(walk, next) && next.q == Closed(walk.q.seen, walk.q.back)
  {
    next := GoRow(walk);
    TerminalShuts(walk.q, Last(next.w.rows));
  }

  // ----- every outcome of the two phases --------------------------------------------

  /** Apply faults, or it is recorded and the probe faults, fails or succeeds. */
  lemma ReachSeen(walk: Walk, seen: Seen) returns (next: Walk)
    requires walk.Valid() && walk.o.Applying?
    ensures Follows(walk, next) && next.o.RollingBack? && next.q == Acting(seen, NotBack)
  {
    if seen == Unapplied {
      next := GoFault(walk);
    } else {
      next := GoApply(walk);
      next := GoRecordApply(next);
      if seen == Applied {
        next := GoFault(next);
      } else {
        next := GoProbe(next, seen == Verified);
        next := GoRecordVerify(next);
      }
    }
  }

  /** The call an owner makes next when its rows show this much of the restore. */
  predicate At(o: Owner, back: Back) {
    match back
    case NotBack => o.RollingBack?
    case RolledBack => o.Resampling?
    case _ => o.Closing?
  }

  /** The rollback has not run, is recorded, and is read back as something else or as the snapshot. */
  lemma ReachBack(walk: Walk, back: Back) returns (next: Walk)
    requires walk.Valid() && walk.o.RollingBack? && walk.q == Acting(walk.q.seen, NotBack)
    requires walk.o.ticket.snapshot.providerId == walk.o.ticket.provider
    ensures Follows(walk, next) && At(next.o, back) && next.q == Acting(walk.q.seen, back)
  {
    next := walk;
    if back != NotBack {
      var baseline := walk.o.ticket.snapshot.state;
      var other := if baseline == Null then Bool(true) else Null;
      next := GoRollback(walk, if back == Restored then baseline else other);
      next := GoRecordRollback(next);
      if back != RolledBack {
        next := GoReread(next);
        next := GoRecordRestore(next);
      }
    }
  }

  /** From any of these an owner can come to its terminal row, which closes that very state. */
  lemma ReachClosed(walk: Walk) returns (next: Walk)
    requires walk.Valid() && walk.q.Acting? && At(walk.o, walk.q.back)
    ensures Follows(walk, next) && next.q == Closed(walk.q.seen, walk.q.back)
  {
    next := walk;
    if !walk.o.Closing? {
      next := GoFault(walk);
    }
    next := GoClose(next);
  }

  // ----- the phase before apply --------------------------------------------------------

  /** Two quiet steps give a lifecycle on an empty journal its identifier and its snapshot row. */
  lemma Begin(p: string, request: ChangeRequest, devices: map<string, Json>) returns (walk: Walk)
    ensures walk.Valid() && walk.o.Previewing? && walk.q == Snapped && walk.o.ticket.id == 1
    ensures walk.o.ticket.provider == p && walk.o.ticket.snapshot.providerId == p
    ensures walk.start == TakingSnapshot(p, request) && walk.w0 == World(devices, [], 0)
  {
    var start, w0 := TakingSnapshot(p, request), World(devices, [], 0);
    var t := Ticket(1, p, request, Lifecycle.Snapshot(w0, p));
    var row := Row(1, 0, AtSnapshot, p, SnapshotP(t.snapshot));
    OwnerRunStep(start, w0, [], QUIET);
    var first := [] + [QUIET];
    assert OwnerRun(start, w0, first) == (Beginning(p, request, t.snapshot), w0);
    OwnerRunStep(start, w0, first, QUIET);
    Appended([], row, 1);
    walk := Walk(start, w0, first + [QUIET], Previewing(t), World(devices, [] + [row], 0), Snapped);
  }

  lemma GoPreview(walk: Walk) returns (next: Walk)
    requires walk.Valid() && walk.o.Previewing?
    ensures Follows(walk, next) && next.o.RecordingPreview? && next.q == walk.q
  {
    assert OwnerStep(walk.o, walk.w, QUIET) == (RecordingPreview(walk.o.ticket, QUIET.text), Wait(walk.w, QUIET));
    next := GoOn(walk, QUIET);
  }

  lemma GoRecordPreview(walk: Walk) returns (next: Walk)
    requires walk.Valid() && walk.o.RecordingPreview?
    ensures Follows(walk, next) && next.o.RecordingIntent? && next.q == Previewed
  {
    next := GoRow(walk);
    RowLeadsOn(walk.o, walk.w);
  }

  lemma GoRecordIntent(walk: Walk) returns (next: Walk)
    requires walk.Valid() && walk.o.RecordingIntent?
    ensures Follows(walk, next) && next.o.Applying? && next.q == Acting(Unapplied, NotBack)
  {
    next := GoRow(walk);
    RowLeadsOn(walk.o, walk.w);
  }

  const LOST: Answer := Answer(None, Some(""), Null, true, "", 0)

  /** The preview faults, or the intent cannot be recorded: on to a terminal row, nothing written. */
  lemma GoEarlyFailure(walk: Walk) returns (next: Walk)
    requires walk.Valid() && (walk.o.Previewing? || walk.o.RecordingIntent?)
    ensures Follows(walk, next) && next.o.Closing? && next.q == walk.q && next.w.rows == walk.w.rows
  {
    var a := if walk.o.Previewing? then FAULT else LOST;
    next := GoOn(walk, a);
  }

  /** The terminal row of an early failure ends the word. */
  lemma GoCloseEarly(walk: Walk) returns (next: Walk)
    requires walk.Valid() && walk.o.Closing? && (walk.q == Snapped || walk.q == Previewed)
    ensures Follows(walk, next) && next.q == ClosedEarly
    ensures OwnerStages(next.w.rows, walk.o.ticket.id)
            == OwnerStages(walk.w.rows, walk.o.ticket.id) + [AtFailed]
  {
    next := GoRow(walk);
    TerminalShuts(walk.q, Last(next.w.rows));
    StagesSnoc(walk.w.rows, Last(next.w.rows), walk.o.ticket.id);
  }

  lemma {:induction false} StagesSnoc(rows: seq<Row>, row: Row, e: nat)
    requires row.id == e && !ByWatchdog(row)
    ensures OwnerStages(rows + [row], e) == OwnerStages(rows, e) + [row.stage]
  {
    assert Front(rows + [row]) == rows && Last(rows + [row]) == row;
  }

  lemma ReachEarly(walk: Walk, q: Progress, word: seq<Stage>) returns (next: Walk)
    requires walk.Valid() && walk.o.Previewing? && walk.q == Snapped
    requires (q == Snapped || q == Previewed || q == ClosedEarly) && Spells(q, word)
    ensures Follows(walk, next) && next.q == q && OwnerStages(next.w.rows, walk.o.ticket.id) == word
  {
    var e := walk.o.ticket.id;
    next := walk;
    StagesSpell(next.w.rows, e);
    if q == Previewed || |word| == 3 {
      next := GoPreview(next);
      next := GoRecordPreview(next);
      StagesSpell(next.w.rows, e);
    }
    if q == ClosedEarly {
      next := GoEarlyFailure(next);
      next := GoCloseEarly(next);
    }
  }

  /** From the start of a lifecycle to any outcome of its two phases, open or closed. */
  lemma ReachActing(walk: Walk, seen: Seen, back: Back, closed: bool) returns (next: Walk)
    requires walk.Valid() && walk.o.Previewing? && walk.q == Snapped
    requires walk.o.ticket.snapshot.providerId == walk.o.ticket.provider
    ensures Follows(walk, next) && next.q == if closed then Closed(seen, back) else Acting(seen, back)
  {
    next := GoPreview(walk);
    next := GoRecordPreview(next);
    next := GoRecordIntent(next);
    next := ReachSeen(next, seen);
    next := ReachBack(next, back);
    if closed {
      next := ReachClosed(next);
    }
  }

  /**
    The language is exact: every word of it, of whatever length, is what some
    lifecycle has written when it stops.  With `Protocol.JournalLanguage`, which
    says that nothing else is ever written, the words are exactly the stages an
    experiment can have.
   */
  lemma EveryWordIsWritten(p: string, request: ChangeRequest, devices: map<string, Json>,
                           q: Progress, word: seq<Stage>)
    returns (answers: seq<Answer>)
    requires Spells(q, word) && q != Nothing
    ensures var (o, w) := OwnerRun(TakingSnapshot(p, request), World(devices, [], 0), answers);
            && TicketOf(o).Some? && TicketOf(o).value.id == 1
            && ProgressOf(w.rows, 1) == q && OwnerStages(w.rows, 1) == word
  {
    var walk := Begin(p, request, devices);
    match q {
      case Acting(seen, back) => walk := ReachActing(walk, seen, back, false);
      case Closed(seen, back) => walk := ReachActing(walk, seen, back, true);
      case _ => walk := ReachEarly(walk, q, word);
    }
    StagesSpell(walk.w.rows, 1);
    answers := walk.answers;
  }
}
