/**
  What holds of every reachable state of the interleaved system: the journal
  language, write-ahead order, and how many terminal rows an experiment can get.
 */
module Protocol {
  import opened Wrappers
  import opened Contracts
  import opened Journal
  import opened Leases
  import opened Lifecycle
  import opened ControlPlanes
  import opened Dirtiness
  import opened Scans
  import opened Recovery
  import opened Systems

  // ----- the language as words -------------------------------------------------

  /** The stages of the control-plane rows of `e`, in order. */
  function OwnerStages(rows: seq<Row>, e: nat): seq<Stage> {
    if rows == [] then []
    else OwnerStages(Front(rows), e)
         + if Last(rows).id == e && !ByWatchdog(Last(rows)) then [Last(rows).stage] else []
  }

  function ApplyWord(seen: Seen): seq<Stage> {
    match seen
    case Unapplied => []
    case Applied => [AtApply]
    case _ => [AtApply, AtVerify]
  }

  function RestoreWord(back: Back): seq<Stage> {
    match back
    case NotBack => []
    case RolledBack => [AtRollback]
    case _ => [AtRollback, AtRollbackVerify]
  }

  /** The one word that leads to a state, up to its last letter when it is closed. */
  predicate Spells(q: Progress, word: seq<Stage>) {
    match q
    case Nothing => word == []
    case Snapped => word == [AtSnapshot]
    case Previewed => word == [AtSnapshot, AtPreview]
    case Acting(seen, back) => word == [AtSnapshot, AtPreview, AtApplyIntent] + ApplyWord(seen) + RestoreWord(back)
    case ClosedEarly => word == [AtSnapshot, AtFailed] || word == [AtSnapshot, AtPreview, AtFailed]
    case Closed(seen, back) =>
      var acting := [AtSnapshot, AtPreview, AtApplyIntent] + ApplyWord(seen) + RestoreWord(back);
      word == acting + [if seen == Verified && back == Restored then AtCompleted else AtFailed]
    case Invalid => false
  }

  lemma SpellsNext(q: Progress, word: seq<Stage>, row: Row)
    requires Spells(q, word) && Advance(q, row) != Invalid && !ByWatchdog(row)
    ensures Spells(Advance(q, row), word + [row.stage])
  {
  }

  /** An accepted experiment's stages are the word its state spells. */
  lemma {:induction false} StagesSpell(rows: seq<Row>, e: nat)
    requires ProgressOf(rows, e) != Invalid
    ensures Spells(ProgressOf(rows, e), OwnerStages(rows, e))
  {
    if rows != [] {
      StagesSpell(Front(rows), e);
      if Last(rows).id == e && !ByWatchdog(Last(rows)) {
        SpellsNext(ProgressOf(Front(rows), e), OwnerStages(Front(rows), e), Last(rows));
      }
    }
  }

  const FULL_WORD: seq<Stage> :=
    [AtSnapshot, AtPreview, AtApplyIntent, AtApply, AtVerify, AtRollback, AtRollbackVerify, AtCompleted]

  lemma {:induction false} CompletedIsTheLastStage(rows: seq<Row>, e: nat)
    requires ProgressOf(rows, e) != Invalid
    requires OwnerTerminal(rows, e).Some?
    ensures OwnerStages(rows, e) != []
    ensures OwnerStages(rows, e)[|OwnerStages(rows, e)| - 1] == OwnerTerminal(rows, e).value.stage
  {
    if !(Last(rows).id == e && !ByWatchdog(Last(rows))) {
      CompletedIsTheLastStage(Front(rows), e);
    } else if !Terminal(Last(rows)) {
      ProgressShowsRows(Front(rows), e);
    }
  }

  /**
    With any number of control planes, crashes, journal faults and watchdog
    passes: identifiers are exactly 1..n with one snapshot row each, every
    experiment's control-plane rows spell a word of one regular language, and a
    `completed` row ends the full word with the effect and the restore observed.
   */
  lemma {:induction false} JournalLanguage(devices: map<string, Json>, xs: seq<Action>, e: nat)
    ensures var rows := Run(Initial(devices), xs).world.rows;
            && Spells(ProgressOf(rows, e), OwnerStages(rows, e))
            && StageCount(rows, e, AtSnapshot) == (if 1 <= e <= MaxId(rows) then 1 else 0)
            && (OwnerTerminal(rows, e).Some? && OwnerTerminal(rows, e).value.stage == AtCompleted ==>
                  OwnerStages(rows, e) == FULL_WORD && SawEffect(rows, e) && SawRestore(rows, e))
  {
    Reachable(devices, xs);
    var rows := Run(Initial(devices), xs).world.rows;
    StagesSpell(rows, e);
    CountsFollowProgress(rows, e);
    ProgressShowsRows(rows, e);
    if OwnerTerminal(rows, e).Some? {
      CompletedIsTheLastStage(rows, e);
    }
  }

  // ----- write-ahead order -----------------------------------------------------

  /** The journal rows a ticket was cut from. */
  predicate TicketOnRecord(o: Owner, rows: seq<Row>) {
    match TicketOf(o)
    case None => true
    case Some(t) =>
      && StageRow(rows, t.id, AtSnapshot).Some?
      && StageRow(rows, t.id, AtSnapshot).value.payload == SnapshotP(t.snapshot)
      && StageRow(rows, t.id, AtSnapshot).value.provider == t.provider
      && (ProgressOf(rows, t.id).Intended() ==>
            && StageRow(rows, t.id, AtApplyIntent).Some?
            && StageRow(rows, t.id, AtApplyIntent).value.payload == RequestP(t.request)
            && StageRow(rows, t.id, AtApplyIntent).value.provider == t.provider)
  }

  lemma {:induction false} AppendedStageRow(rows: seq<Row>, row: Row, e: nat, stage: Stage)
    ensures StageRow(rows + [row], e, stage)
            == if row.id == e && row.stage == stage then Some(row) else StageRow(rows, e, stage)
  {
    assert Front(rows + [row]) == rows && Last(rows + [row]) == row;
  }

  /** What a recording step writes when it writes the snapshot or the intent. */
  lemma RecordsTicket(o: Owner, w: World, a: Answer)
    ensures var (o', w') := OwnerStep(o, w, a);
            w'.rows != w.rows ==>
              var row := Last(w'.rows);
              && w'.rows == w.rows + [row]
              && row.id == IdOf(o')
              && TicketOf(o').Some?
              && row.provider == TicketOf(o').value.provider
              && (row.stage == AtSnapshot ==> o.Beginning? && row.payload == SnapshotP(TicketOf(o').value.snapshot))
              && (o.Beginning? ==> row.stage == AtSnapshot)
              && (row.stage == AtApplyIntent <==> o.RecordingIntent?)
              && (row.stage == AtApplyIntent ==> row.payload == RequestP(TicketOf(o').value.request))
  {
  }

  /** The two rows a ticket refers to, after one more row of its experiment. */
  lemma RowKeepsRecord(rows: seq<Row>, row: Row, e: nat)
    requires row.id == e
    ensures StageRow(rows + [row], e, AtSnapshot)
            == if row.stage == AtSnapshot then Some(row) else StageRow(rows, e, AtSnapshot)
    ensures StageRow(rows + [row], e, AtApplyIntent)
            == if row.stage == AtApplyIntent then Some(row) else StageRow(rows, e, AtApplyIntent)
    ensures ProgressOf(rows + [row], e)
            == if ByWatchdog(row) then ProgressOf(rows, e) else Advance(ProgressOf(rows, e), row)
  {
    AppendedStageRow(rows, row, e, AtSnapshot);
    AppendedStageRow(rows, row, e, AtApplyIntent);
    Appended(rows, row, e);
  }

  /** Only an intent row makes an experiment intended, and only a snapshot row begins one. */
  lemma AdvanceIntends(q: Progress, row: Row)
    ensures Advance(q, row).Intended() ==> q.Intended() || row.stage == AtApplyIntent
    ensures q != Nothing && row.stage == AtSnapshot ==> Advance(q, row) == Invalid
    ensures row.stage == AtSnapshot ==> !Advance(q, row).Intended()
  {
  }

  lemma ActKeepsRecord(o: Owner, w: World, a: Answer)
    requires WellFormed(w.rows) && OwnerInPlace(o, w.rows) && TicketOnRecord(o, w.rows)
    ensures TicketOnRecord(OwnerStep(o, w, a).0, OwnerStep(o, w, a).1.rows)
  {
    var (o', w') := OwnerStep(o, w, a);
    RecordsTicket(o, w, a);
    OwnerStepKeepsStep(o, w, a);
    if w'.rows != w.rows {
      RowKeepsRecord(w.rows, Last(w'.rows), IdOf(o'));
      AdvanceIntends(ProgressOf(w.rows, IdOf(o')), Last(w'.rows));
    }
  }

  /** Rows of another experiment, or of the watchdog, leave a ticket's records alone. */
  lemma OthersKeepRecord(o: Owner, rows: seq<Row>, rows': seq<Row>, f: nat)
    requires TicketOnRecord(o, rows) && Extends(rows, rows', f) && IdOf(o) != f
    ensures TicketOnRecord(o, rows')
  {
    if rows' != rows && TicketOf(o).Some? {
      AppendedStageRow(rows, Last(rows'), IdOf(o), AtSnapshot);
      AppendedStageRow(rows, Last(rows'), IdOf(o), AtApplyIntent);
      Appended(rows, Last(rows'), IdOf(o));
    }
  }

  /** The watchdog writes neither snapshots nor intents. */
  lemma {:induction false} DogKeepsStageRows(d: Dog, w: World, a: Answer, e: nat)
    ensures StageRow(DogStep(d, w, a).1.rows, e, AtSnapshot) == StageRow(w.rows, e, AtSnapshot)
    ensures StageRow(DogStep(d, w, a).1.rows, e, AtApplyIntent) == StageRow(w.rows, e, AtApplyIntent)
    ensures OwnerTerminal(DogStep(d, w, a).1.rows, e) == OwnerTerminal(w.rows, e)
  {
    var (d', w') := DogStep(d, w, a);
    DogStepRows(d, w, a);
    if w'.rows != w.rows {
      if d.Settling? {
        var pair := SuccessRows(d.pass.current, d.pass.provider, w'.now);
        assert w'.rows == (w.rows + [pair[0]]) + [pair[1]];
        WatchdogKeepsStageRows(w.rows, pair[0], e);
        WatchdogKeepsStageRows(w.rows + [pair[0]], pair[1], e);
      } else {
        WatchdogKeepsStageRows(w.rows, Last(w'.rows), e);
      }
    }
  }

  lemma {:induction false} WatchdogKeepsStageRows(rows: seq<Row>, row: Row, e: nat)
    requires ByWatchdog(row)
    ensures StageRow(rows + [row], e, AtSnapshot) == StageRow(rows, e, AtSnapshot)
    ensures StageRow(rows + [row], e, AtApplyIntent) == StageRow(rows, e, AtApplyIntent)
    ensures OwnerTerminal(rows + [row], e) == OwnerTerminal(rows, e)
  {
    AppendedStageRow(rows, row, e, AtSnapshot);
    AppendedStageRow(rows, row, e, AtApplyIntent);
    AppendedRow(rows, row, e);
  }

  ghost predicate OnRecord(s: Sys) {
    forall i :: 0 <= i < |s.owners| ==> TicketOnRecord(s.owners[i], s.world.rows)
  }

  lemma NextKeepsRecord(s: Sys, x: Action)
    requires Inv(s) && OnRecord(s)
    ensures OnRecord(Next(s, x))
  {
    var s' := Next(s, x);
    match x
    case Act(i, a) =>
      if i < |s.owners| {
        OwnerKeepsJournal(s.owners[i], s.world, a);
        forall j | 0 <= j < |s.owners|
          ensures TicketOnRecord(s'.owners[j], s'.world.rows)
        {
          if j == i {
            ActKeepsRecord(s.owners[i], s.world, a);
          } else if TicketOf(s'.owners[i]).Some? && TicketOf(s.owners[j]).Some? {
            OthersKeepRecord(s.owners[j], s.world.rows, s'.world.rows, IdOf(s'.owners[i]));
          }
        }
      }
    case DogAct(a) =>
      forall j | 0 <= j < |s.owners|
        ensures TicketOnRecord(s'.owners[j], s'.world.rows)
      {
        DogKeepsStageRows(s.dog, s.world, a, IdOf(s.owners[j]));
        DogStepEffect(s.dog, s.world, a, IdOf(s.owners[j]));
      }
    case _ =>
  }

  lemma {:induction false} ReachableOnRecord(devices: map<string, Json>, xs: seq<Action>)
    ensures Inv(Run(Initial(devices), xs)) && OnRecord(Run(Initial(devices), xs))
  {
    Reachable(devices, xs);
    if xs != [] {
      ReachableOnRecord(devices, xs[..|xs| - 1]);
      NextKeepsRecord(Run(Initial(devices), xs[..|xs| - 1]), xs[|xs| - 1]);
    }
  }

  /**
    Write-ahead order: whoever is about to call apply has its snapshot row and
    its intent row, holding the snapshot it will restore and the request it will
    apply, in the journal, and no terminal row of its own.
   */
  lemma {:induction false} WriteAhead(devices: map<string, Json>, xs: seq<Action>, i: nat)
    requires i < |Run(Initial(devices), xs).owners| && Run(Initial(devices), xs).owners[i].Applying?
    ensures var s := Run(Initial(devices), xs);
            var t := s.owners[i].ticket;
            && StageRow(s.world.rows, t.id, AtSnapshot).Some?
            && StageRow(s.world.rows, t.id, AtSnapshot).value.payload == SnapshotP(t.snapshot)
            && StageRow(s.world.rows, t.id, AtApplyIntent).Some?
            && StageRow(s.world.rows, t.id, AtApplyIntent).value.payload == RequestP(t.request)
            && TerminalsBy(s.world.rows, t.id, false) == 0
  {
    ReachableOnRecord(devices, xs);
    var s := Run(Initial(devices), xs);
    CountsFollowProgress(s.world.rows, s.owners[i].ticket.id);
  }

  // ----- terminal rows ---------------------------------------------------------

  /** At most one terminal row from each side, so at most two. */
  lemma {:induction false} AtMostTwoTerminals(devices: map<string, Json>, xs: seq<Action>, e: nat)
    ensures var rows := Run(Initial(devices), xs).world.rows;
            TerminalsBy(rows, e, true) <= 1 && TerminalsBy(rows, e, false) <= 1 && Terminals(rows, e) <= 2
  {
    Reachable(devices, xs);
    CountsFollowProgress(Run(Initial(devices), xs).world.rows, e);
  }

  /** Every pass reclaims expired leases only, and the clock never runs backwards. */
  predicate Patient(x: Action) {
    match x
    case Act(_, a) => a.elapsed >= 0
    case Sweep(_, policy, a) => policy == ExpiredLeasesOnly && a.elapsed >= 0
    case DogAct(a) => a.elapsed >= 0
    case _ => true
  }

  /** A pass at this time finds the lease of this intent elapsed. */
  predicate SelectableAt(intent: Row, time: int) {
    intent.payload.RequestP? && Selected(time, intent.at, intent.payload.request.leaseSeconds)
  }

  /** A reclaimed experiment is selectable, and was when its owner wrote its terminal row. */
  predicate Overdue(rows: seq<Row>, now: int, e: nat) {
    && StageRow(rows, e, AtApplyIntent).Some?
    && SelectableAt(StageRow(rows, e, AtApplyIntent).value, now)
    && (OwnerTerminal(rows, e).Some? ==>
          SelectableAt(StageRow(rows, e, AtApplyIntent).value, OwnerTerminal(rows, e).value.at))
  }

  ghost predicate InHand(d: Dog, e: nat) {
    exists i :: 0 <= i < |Todo(d)| && Todo(d)[i].id == e
  }

  ghost predicate ReclaimsAreOverdue(s: Sys) {
    forall e: nat :: InHand(s.dog, e) || TerminalsBy(s.world.rows, e, true) > 0 ==> Overdue(s.world.rows, s.world.now, e)
  }

  lemma {:induction false} ActKeepsOverdue(o: Owner, w: World, a: Answer, e: nat)
    requires WellFormed(w.rows) && OwnerInPlace(o, w.rows) && a.elapsed >= 0
    requires Overdue(w.rows, w.now, e) && ProgressOf(w.rows, e).Intended()
    ensures Overdue(OwnerStep(o, w, a).1.rows, OwnerStep(o, w, a).1.now, e)
  {
    var (o', w') := OwnerStep(o, w, a);
    StepTakesTime(o, w, a);
    if w'.rows != w.rows {
      OwnerKeepsJournal(o, w, a);
      var row := Last(w'.rows);
      assert ProgressOf(w.rows + [row], e) != Invalid;
      IntentIsNotWrittenAgain(w.rows, row, e);
      AppendedRow(w.rows, row, e);
    }
    OverdueLasts(w.rows, w'.rows, w.now, w'.now, e);
  }

  /** An intended experiment's intent row stays the latest of its stage. */
  lemma IntentIsNotWrittenAgain(rows: seq<Row>, row: Row, e: nat)
    requires ProgressOf(rows, e).Intended() && ProgressOf(rows + [row], e) != Invalid
    ensures StageRow(rows + [row], e, AtApplyIntent) == StageRow(rows, e, AtApplyIntent)
  {
    Appended(rows, row, e);
    AppendedStageRow(rows, row, e, AtApplyIntent);
  }

  /** Time passes, and a terminal row is written no earlier than now. */
  lemma OverdueLasts(rows: seq<Row>, rows': seq<Row>, now: int, now': int, e: nat)
    requires Overdue(rows, now, e) && now <= now'
    requires StageRow(rows', e, AtApplyIntent) == StageRow(rows, e, AtApplyIntent)
    requires OwnerTerminal(rows', e) == OwnerTerminal(rows, e)
             || (OwnerTerminal(rows', e).Some? && OwnerTerminal(rows', e).value.at >= now)
    ensures Overdue(rows', now', e)
  {
  }

  lemma StepTakesTime(o: Owner, w: World, a: Answer)
    requires a.elapsed >= 0
    ensures OwnerStep(o, w, a).1.now >= w.now
    ensures OwnerStep(o, w, a).1.rows != w.rows ==>
              Last(OwnerStep(o, w, a).1.rows).at == OwnerStep(o, w, a).1.now
  {
  }

  /** A pass that selects by lease only picks up overdue, unclosed experiments. */
  lemma SweepIsOverdue(p: string, w: World, a: Answer, e: nat)
    requires WellFormed(w.rows) && InHand(StartPass(p, ExpiredLeasesOnly, w, a).0, e)
    ensures Overdue(w.rows, StartPass(p, ExpiredLeasesOnly, w, a).1.now, e)
  {
    var (d, w') := StartPass(p, ExpiredLeasesOnly, w, a);
    StartPassMeaning(p, ExpiredLeasesOnly, w, a);
    var i :| 0 <= i < |Todo(d)| && Todo(d)[i].id == e;
    ProgressShowsRows(w.rows, e);
    CountsFollowProgress(w.rows, e);
  }

  /** A step puts nothing new into a pass's hands. */
  lemma HandsShrink(d: Dog, w: World, a: Answer, e: nat)
    requires InHand(DogStep(d, w, a).0, e)
    ensures InHand(d, e)
  {
    var d' := DogStep(d, w, a).0;
    DogStepRows(d, w, a);
    if !Resting(d) {
      assert Todo(d)[0] == d.pass.current && Todo(d)[1..] == d.pass.rest;
      var i :| 0 <= i < |Todo(d')| && Todo(d')[i].id == e;
      assert Todo(d)[i].id == e || Todo(d)[i + 1].id == e;
    }
  }

  lemma DogKeepsOverdue(s: Sys, a: Answer)
    requires Inv(s) && ReclaimsAreOverdue(s) && a.elapsed >= 0
    ensures ReclaimsAreOverdue(Next(s, DogAct(a)))
  {
    var s' := Next(s, DogAct(a));
    forall e: nat | InHand(s'.dog, e) || TerminalsBy(s'.world.rows, e, true) > 0
      ensures Overdue(s'.world.rows, s'.world.now, e)
    {
      DogStepOverdue(s.dog, s.world, a, e);
    }
  }

  lemma DogStepOverdue(d: Dog, w: World, a: Answer, e: nat)
    requires WellFormed(w.rows) && DogFits(d, w.rows) && a.elapsed >= 0
    requires InHand(d, e) || TerminalsBy(w.rows, e, true) > 0 ==> Overdue(w.rows, w.now, e)
    ensures var (d', w') := DogStep(d, w, a);
            InHand(d', e) || TerminalsBy(w'.rows, e, true) > 0 ==> Overdue(w'.rows, w'.now, e)
  {
    var (d', w') := DogStep(d, w, a);
    DogStepEffect(d, w, a, e);
    DogKeepsStageRows(d, w, a, e);
    if InHand(d', e) {
      HandsShrink(d, w, a, e);
    }
    if d.Settling? {
      assert Todo(d)[0] == d.pass.current;
    }
  }

  lemma NextKeepsOverdue(s: Sys, x: Action)
    requires Inv(s) && ReclaimsAreOverdue(s) && Patient(x)
    ensures ReclaimsAreOverdue(Next(s, x))
  {
    var s' := Next(s, x);
    match x
    case Act(i, a) =>
      if i < |s.owners| {
        OwnerKeepsJournal(s.owners[i], s.world, a);
        forall e: nat | InHand(s'.dog, e) || TerminalsBy(s'.world.rows, e, true) > 0
          ensures Overdue(s'.world.rows, s'.world.now, e)
        {
          ActKeepsOverdue(s.owners[i], s.world, a, e);
        }
      }
    case Sweep(p, policy, a) =>
      if Resting(s.dog) {
        StartPassMeaning(p, policy, s.world, a);
        forall e: nat | InHand(s'.dog, e) || TerminalsBy(s'.world.rows, e, true) > 0
          ensures Overdue(s'.world.rows, s'.world.now, e)
        {
          if InHand(s'.dog, e) {
            SweepIsOverdue(p, s.world, a, e);
          }
        }
      }
    case DogAct(a) => DogKeepsOverdue(s, a);
    case KillDog =>
      assert forall e: nat :: !InHand(Idle, e);
    case _ =>
  }

  lemma {:induction false} PatientRuns(devices: map<string, Json>, xs: seq<Action>)
    requires forall k :: 0 <= k < |xs| ==> Patient(xs[k])
    ensures ReclaimsAreOverdue(Run(Initial(devices), xs))
  {
    if xs != [] {
      PatientRuns(devices, xs[..|xs| - 1]);
      Reachable(devices, xs[..|xs| - 1]);
      NextKeepsOverdue(Run(Initial(devices), xs[..|xs| - 1]), xs[|xs| - 1]);
    }
  }

  /** The owner of `e` wrote no terminal row, or wrote it while no pass could select the experiment yet. */
  predicate Timely(rows: seq<Row>, e: nat) {
    OwnerTerminal(rows, e).Some? && StageRow(rows, e, AtApplyIntent).Some? ==>
      !SelectableAt(StageRow(rows, e, AtApplyIntent).value, OwnerTerminal(rows, e).value.at)
  }

  /** With lease-only passes, a timely owner and the watchdog never both close an experiment. */
  lemma {:induction false} TimelyMeansOneTerminal(devices: map<string, Json>, xs: seq<Action>, e: nat)
    requires forall k :: 0 <= k < |xs| ==> Patient(xs[k])
    requires Timely(Run(Initial(devices), xs).world.rows, e)
    ensures Terminals(Run(Initial(devices), xs).world.rows, e) <= 1
  {
    var rows := Run(Initial(devices), xs).world.rows;
    PatientRuns(devices, xs);
    Reachable(devices, xs);
    CountsFollowProgress(rows, e);
    ProgressShowsRows(rows, e);
  }

  // ----- exactly one terminal row -----------------------------------------------

  /** An owner about to write the terminal row of `e`, whose insert succeeds. */
  predicate OwnerCloses(s: Sys, x: Action, e: nat) {
    x.Act? && x.owner < |s.owners| && s.owners[x.owner].Closing? && IdOf(s.owners[x.owner]) == e
    && x.answer.journal.None?
  }

  /** A pass about to record the restore of `e`, whose transaction succeeds. */
  predicate DogCloses(s: Sys, x: Action, e: nat) {
    x.DogAct? && s.dog.Settling? && s.dog.pass.current.id == e && x.answer.journal.None?
  }

  predicate OwnerClosesAt(devices: map<string, Json>, xs: seq<Action>, k: nat, e: nat)
    requires k < |xs|
  {
    OwnerCloses(Run(Initial(devices), xs[..k]), xs[k], e)
  }

  predicate DogClosesAt(devices: map<string, Json>, xs: seq<Action>, k: nat, e: nat)
    requires k < |xs|
  {
    DogCloses(Run(Initial(devices), xs[..k]), xs[k], e)
  }

  ghost predicate OwnerClosed(devices: map<string, Json>, xs: seq<Action>, e: nat) {
    exists k :: 0 <= k < |xs| && OwnerClosesAt(devices, xs, k, e)
  }

  ghost predicate DogClosed(devices: map<string, Json>, xs: seq<Action>, e: nat) {
    exists k :: 0 <= k < |xs| && DogClosesAt(devices, xs, k, e)
  }

  /** An owner's step writes a terminal row exactly when it closes. */
  lemma ClosingWritesTerminal(o: Owner, w: World, a: Answer)
    ensures var rows := OwnerStep(o, w, a).1.rows;
            if rows == w.rows then !(o.Closing? && a.journal.None?)
            else rows != [] && rows == w.rows + [Last(rows)] && !ByWatchdog(Last(rows))
                 && (Terminal(Last(rows)) <==> o.Closing? && a.journal.None?)
                 && (o.Closing? ==> Last(rows).id == o.ticket.id)
  {
  }

  /** What one step adds to the terminal rows of an experiment. */
  lemma NextTerminals(s: Sys, x: Action, e: nat)
    requires Inv(s)
    ensures var rows := Next(s, x).world.rows;
            && TerminalsBy(rows, e, false)
               == TerminalsBy(s.world.rows, e, false) + (if OwnerCloses(s, x, e) then 1 else 0)
            && TerminalsBy(rows, e, true)
               == TerminalsBy(s.world.rows, e, true) + (if DogCloses(s, x, e) then 1 else 0)
  {
    match x
    case Act(i, a) =>
      if i < |s.owners| {
        ClosingWritesTerminal(s.owners[i], s.world, a);
        var rows := Next(s, x).world.rows;
        if rows != s.world.rows {
          Appended(s.world.rows, Last(rows), e);
        }
      }
    case DogAct(a) => DogStepEffect(s.dog, s.world, a, e);
    case _ =>
  }

  /** What a step closes depends on the run up to it alone. */
  lemma ClosingInPrefix(devices: map<string, Json>, xs: seq<Action>, n: nat, k: nat, e: nat)
    requires k < n <= |xs|
    ensures OwnerClosesAt(devices, xs[..n], k, e) == OwnerClosesAt(devices, xs, k, e)
    ensures DogClosesAt(devices, xs[..n], k, e) == DogClosesAt(devices, xs, k, e)
  {
    assert xs[..n][..k] == xs[..k] && xs[..n][k] == xs[k];
  }

  lemma ClosedSnoc(devices: map<string, Json>, xs: seq<Action>, e: nat)
    requires xs != []
    ensures var n := |xs| - 1;
            && (OwnerClosed(devices, xs, e) <==> OwnerClosed(devices, xs[..n], e) || OwnerClosesAt(devices, xs, n, e))
            && (DogClosed(devices, xs, e) <==> DogClosed(devices, xs[..n], e) || DogClosesAt(devices, xs, n, e))
  {
    var n := |xs| - 1;
    forall k: nat | k < n
      ensures OwnerClosesAt(devices, xs[..n], k, e) == OwnerClosesAt(devices, xs, k, e)
      ensures DogClosesAt(devices, xs[..n], k, e) == DogClosesAt(devices, xs, k, e)
    {
      ClosingInPrefix(devices, xs, n, k, e);
    }
  }

  /** In every run each side's terminal row is there exactly when that side's insert went through. */
  lemma {:induction false} TerminalsBySide(devices: map<string, Json>, xs: seq<Action>, e: nat)
    ensures var rows := Run(Initial(devices), xs).world.rows;
            && TerminalsBy(rows, e, false) == (if OwnerClosed(devices, xs, e) then 1 else 0)
            && TerminalsBy(rows, e, true) == (if DogClosed(devices, xs, e) then 1 else 0)
  {
    if xs != [] {
      var n := |xs| - 1;
      TerminalsBySide(devices, xs[..n], e);
      Reachable(devices, xs[..n]);
      NextTerminals(Run(Initial(devices), xs[..n]), xs[n], e);
      AtMostTwoTerminals(devices, xs, e);
      ClosedSnoc(devices, xs, e);
    }
  }

  /**
    "Exactly one terminal record" holds of an experiment in a run if and only if
    exactly one of two inserts went through: the closing insert of its owner, and
    the watchdog's record of its restore.
   */
  lemma ExactlyOneTerminal(devices: map<string, Json>, xs: seq<Action>, e: nat)
    ensures Terminals(Run(Initial(devices), xs).world.rows, e) == 1
            <==> (OwnerClosed(devices, xs, e) <==> !DogClosed(devices, xs, e))
  {
    TerminalsBySide(devices, xs, e);
  }
}
