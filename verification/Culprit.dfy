/**
  Over whole runs, whatever faults: a device off the state it had at a vacant
  moment has a culprit on record, an experiment begun since that is unclosed or whose
  restore failed.
 */
module Culprits {
  import opened Wrappers
  import opened Contracts
  import opened Journal
  import opened Lifecycle
  import opened Dirtiness
  import opened Scans
  import opened Recovery
  import opened Systems
  import opened Protocol
  import opened Repairs
  import opened Sharing
  import opened Orderly

  /** The users of the device take turns, and a lifecycle starts only when nothing of `p` is unclosed. */
  ghost predicate TidyTurn(p: string, s: Sys, x: Action) {
    && TakesTurns(p, s, x)
    && (x.Start? && x.manifest.id == p ==> forall e: nat :: !UnclosedOf(s.world.rows, p, e))
  }

  /** From the `n`-th step on. */
  ghost predicate TidyFrom(p: string, devices: map<string, Json>, xs: seq<Action>, n: nat) {
    forall k :: n <= k < |xs| ==> TidyAt(p, devices, xs, k)
  }

  ghost predicate TidyAt(p: string, devices: map<string, Json>, xs: seq<Action>, k: nat)
    requires k < |xs|
  {
    TidyTurn(p, Run(Initial(devices), xs[..k]), xs[k])
  }

  /** Nobody uses the device of `p` and nothing of it is unclosed. */
  ghost predicate Vacant(p: string, s: Sys) {
    OwnersQuiet(s, p) && !DogOn(s.dog, p) && forall e: nat :: !UnclosedOf(s.world.rows, p, e)
  }

  /** A moment to look back to: what the device held, and the last identifier allocated. */
  datatype Mark = Mark(state: Json, last: nat)

  function MarkOf(p: string, w: World): Mark {
    Mark(Device(w, p), MaxId(w.rows))
  }

  /** An experiment of `p` that its owner closed with a failed restore. */
  predicate BrokenAt(rows: seq<Row>, p: string, e: nat) {
    && RestoreFailed(rows, e)
    && StageRow(rows, e, AtApplyIntent).Some? && StageRow(rows, e, AtApplyIntent).value.provider == p
  }

  /** An experiment begun since the mark was. */
  ghost predicate Broken(rows: seq<Row>, p: string, mark: Mark) {
    exists e: nat :: e > mark.last && BrokenAt(rows, p, e)
  }

  ghost predicate HasUnclosed(rows: seq<Row>, p: string) {
    exists e: nat :: UnclosedOf(rows, p, e)
  }

  /** All that is unclosed was begun since the mark. */
  ghost predicate OnlyNew(rows: seq<Row>, p: string, mark: Mark) {
    mark.last <= MaxId(rows) && forall e: nat :: UnclosedOf(rows, p, e) ==> e > mark.last
  }

  /** A snapshot row of `p` holds this state. */
  predicate SnapshotHolds(row: Row, p: string, state: Json) {
    row.stage == AtSnapshot && row.payload.SnapshotP? && row.payload.snapshot.providerId == p ==>
      row.payload.snapshot.state == state
  }

  /** Every snapshot taken of `p` since the mark holds its state. */
  predicate SnapshotsAre(rows: seq<Row>, p: string, mark: Mark) {
    forall k :: 0 <= k < |rows| && rows[k].id > mark.last ==> SnapshotHolds(rows[k], p, mark.state)
  }

  /** A running lifecycle of `p` started since the mark, and from its state. */
  predicate FromMark(o: Owner, p: string, w: World, mark: Mark) {
    Undisturbed(o, w) && Took(o, p, w, mark)
  }

  /** The snapshot it took, or is about to take, is the state at the mark. */
  predicate Took(o: Owner, p: string, w: World, mark: Mark) {
    && (o.TakingSnapshot? ==> Device(w, p) == mark.state)
    && (o.Beginning? ==> o.snapshot.state == mark.state)
    && (TicketOf(o).Some? ==> TicketOf(o).value.snapshot.state == mark.state && IdOf(o) > mark.last)
  }

  /** A pass over `p` at work will restore the state at the mark, or has. */
  predicate DogTidy(p: string, mark: Mark, d: Dog, w: World) {
    DogOn(d, p) ==>
      && (forall i :: 0 <= i < |Todo(d)| ==>
            Todo(d)[i].snapshot == StateSnapshot(p, mark.state) && UnclosedOf(w.rows, p, Todo(d)[i].id))
      && (d.Settling? ==> Device(w, p) == mark.state)
  }

  ghost predicate Traceable(p: string, mark: Mark, s: Sys) {
    && SnapshotsAre(s.world.rows, p, mark)
    && OnlyNew(s.world.rows, p, mark)
    && (Device(s.world, p) == mark.state || HasUnclosed(s.world.rows, p))
    && (forall i :: 0 <= i < |s.owners| && !Stopped(s.owners[i]) && Drives(s.owners[i], p) ==>
          FromMark(s.owners[i], p, s.world, mark))
    && DogTidy(p, mark, s.dog, s.world)
  }

  // ----- a step of a lifecycle of p -----------------------------------------------------

  lemma OwnActSnapshots(p: string, mark: Mark, o: Owner, w: World, a: Answer)
    requires SnapshotsAre(w.rows, p, mark) && HonestOwner(o)
    requires Drives(o, p) ==> FromMark(o, p, w, mark)
    ensures SnapshotsAre(OwnerStep(o, w, a).1.rows, p, mark)
  {
    var (o', w') := OwnerStep(o, w, a);
    RecordsTicket(o, w, a);
    OwnerStaysHonest(o, w, a);
    if w'.rows != w.rows {
      assert forall k :: 0 <= k < |w.rows| ==> w'.rows[k] == w.rows[k];
    }
  }

  lemma OwnActTook(p: string, mark: Mark, o: Owner, w: World, a: Answer)
    requires Drives(o, p) && Took(o, p, w, mark) && mark.last <= MaxId(w.rows)
    ensures var (o', w') := OwnerStep(o, w, a);
            && Took(o', p, w', mark)
            && (TicketOf(o').None? ==> Device(w', p) == Device(w, p) && w'.rows == w.rows)
  {
  }

  lemma OwnActFromMark(p: string, mark: Mark, o: Owner, w: World, a: Answer)
    requires WellFormed(w.rows) && OwnerInPlace(o, w.rows) && mark.last <= MaxId(w.rows)
    requires Drives(o, p) && FromMark(o, p, w, mark)
    ensures var (o', w') := OwnerStep(o, w, a);
            && FromMark(o', p, w', mark)
            && (TicketOf(o').None? ==> Device(w', p) == Device(w, p) && w'.rows == w.rows)
  {
    OwnStepUndisturbed(o, w, a);
    OwnActTook(p, mark, o, w, a);
  }

  /** After a step of a lifecycle of `p` a dirty device has that lifecycle as its culprit. */
  lemma OwnActTraceable(p: string, mark: Mark, o: Owner, w: World, a: Answer)
    requires WellFormed(w.rows) && OwnerInPlace(o, w.rows) && TicketOnRecord(o, w.rows)
    requires Drives(o, p) && FromMark(o, p, w, mark) && mark.last <= MaxId(w.rows)
    requires TicketOf(OwnerStep(o, w, a).0).Some?
    ensures var (o', w') := OwnerStep(o, w, a);
            && IdOf(o') > mark.last
            && (Device(w', p) != mark.state ==>
                  UnclosedOf(w'.rows, p, IdOf(o')) || BrokenAt(w'.rows, p, IdOf(o')))
  {
    var (o', w') := OwnerStep(o, w, a);
    OwnActFromMark(p, mark, o, w, a);
    OwnerKeepsJournal(o, w, a);
    ActKeepsRecord(o, w, a);
    StepDrives(o, w, a, p);
    SameProvider(o, w, a, p);
    FitsMeansDirtiness(o', w'.rows, Device(w', p));
    CountsFollowProgress(w'.rows, IdOf(o'));
  }

  lemma SameProvider(o: Owner, w: World, a: Answer, p: string)
    requires Drives(o, p) && TicketOf(OwnerStep(o, w, a).0).Some?
    ensures TicketOf(OwnerStep(o, w, a).0).value.provider == p
  {
  }

  /** A control plane makes only its own experiment unclosed. */
  lemma ActUncloses(o: Owner, w: World, a: Answer, p: string, e: nat)
    requires WellFormed(w.rows) && OwnerInPlace(o, w.rows)
    requires UnclosedOf(OwnerStep(o, w, a).1.rows, p, e) && !UnclosedOf(w.rows, p, e)
    ensures !Stopped(o) && Drives(o, p) && TicketOf(o).Some? && IdOf(o) == e
  {
    var w' := OwnerStep(o, w, a).1;
    RecordsTicket(o, w, a);
    if w'.rows != w.rows {
      var row := Last(w'.rows);
      Appended(w.rows, row, e);
      AppendedStageRow(w.rows, row, e, AtApplyIntent);
    }
    KeepsTicket(o, w, a);
  }

  lemma ActOnlyNew(o: Owner, w: World, a: Answer, p: string, mark: Mark)
    requires WellFormed(w.rows) && OwnerInPlace(o, w.rows) && OnlyNew(w.rows, p, mark)
    requires !Stopped(o) && Drives(o, p) && TicketOf(o).Some? ==> IdOf(o) > mark.last
    ensures OnlyNew(OwnerStep(o, w, a).1.rows, p, mark)
  {
    var rows := OwnerStep(o, w, a).1.rows;
    OwnerKeepsJournal(o, w, a);
    forall e: nat | UnclosedOf(rows, p, e)
      ensures e > mark.last
    {
      if !UnclosedOf(w.rows, p, e) {
        ActUncloses(o, w, a, p, e);
      }
    }
  }

  lemma PassOnlyNew(d: Dog, w: World, a: Answer, p: string, mark: Mark)
    requires WellFormed(w.rows) && DogFits(d, w.rows) && OnlyNew(w.rows, p, mark)
    ensures OnlyNew(DogStep(d, w, a).1.rows, p, mark)
  {
    var rows := DogStep(d, w, a).1.rows;
    DogStepEffect(d, w, a, 0);
    forall e: nat | UnclosedOf(rows, p, e)
      ensures e > mark.last
    {
      DogStepEffect(d, w, a, e);
      DogKeepsStageRows(d, w, a, e);
      assert UnclosedOf(w.rows, p, e);
    }
  }

  // ----- steps of everybody else ----------------------------------------------------------

  /** A step of a lifecycle of another provider closes nothing of `p`. */
  lemma ActKeepsListed(j: Owner, w: World, a: Answer, p: string, e: nat)
    requires WellFormed(w.rows) && OwnerInPlace(j, w.rows) && TicketOnRecord(j, w.rows)
    requires (Stopped(j) || !Drives(j, p)) && UnclosedOf(w.rows, p, e)
    ensures UnclosedOf(OwnerStep(j, w, a).1.rows, p, e)
  {
    var (j', w') := OwnerStep(j, w, a);
    CountsFollowProgress(w.rows, e);
    OwnerKeepsJournal(j, w, a);
    if w'.rows != w.rows {
      assert IdOf(j') != e by {
        FreshHasNoRows(w.rows, MaxId(w.rows) + 1);
      }
      OtherExperiments(w.rows, w'.rows, IdOf(j'), e);
      AppendedStageRow(w.rows, Last(w'.rows), e, AtApplyIntent);
    }
  }

  /** A pass closes only what it settles. */
  lemma PassKeepsListed(d: Dog, w: World, a: Answer, p: string, e: nat)
    requires WellFormed(w.rows) && DogFits(d, w.rows) && UnclosedOf(w.rows, p, e)
    requires !(d.Settling? && d.pass.current.id == e)
    ensures UnclosedOf(DogStep(d, w, a).1.rows, p, e)
  {
    DogStepEffect(d, w, a, e);
    DogKeepsStageRows(d, w, a, e);
  }

  lemma PassSnapshots(d: Dog, w: World, a: Answer, p: string, mark: Mark)
    requires SnapshotsAre(w.rows, p, mark)
    ensures SnapshotsAre(DogStep(d, w, a).1.rows, p, mark)
  {
    var w' := DogStep(d, w, a).1;
    DogStepRows(d, w, a);
    assert forall k :: 0 <= k < |w.rows| ==> w'.rows[k] == w.rows[k];
  }

  /** A failed restore stays on record. */
  lemma ActKeepsBroken(o: Owner, w: World, a: Answer, p: string, e: nat)
    requires WellFormed(w.rows) && OwnerInPlace(o, w.rows) && BrokenAt(w.rows, p, e)
    ensures BrokenAt(OwnerStep(o, w, a).1.rows, p, e)
  {
    var (o', w') := OwnerStep(o, w, a);
    ActKeepsIntents(o, w, a, e);
    OwnerKeepsJournal(o, w, a);
    ProgressShowsRows(w.rows, e);
    if w'.rows != w.rows {
      var row := Last(w'.rows);
      AppendedRow(w.rows, row, e);
      Appended(w.rows, row, e);
      if row.id == e {
        AdvanceShowsRow(ProgressOf(w.rows, e), row);
      }
    }
  }

  lemma NextKeepsBroken(s: Sys, x: Action, p: string, mark: Mark)
    requires Inv(s) && Broken(s.world.rows, p, mark)
    ensures Broken(Next(s, x).world.rows, p, mark)
  {
    var e: nat :| e > mark.last && BrokenAt(s.world.rows, p, e);
    match x
    case Act(i, a) =>
      if i < |s.owners| {
        ActKeepsBroken(s.owners[i], s.world, a, p, e);
      }
    case DogAct(a) =>
      DogKeepsStageRows(s.dog, s.world, a, e);
      assert BrokenAt(Next(s, x).world.rows, p, e);
    case Sweep(q, policy, a) => StartPassMeaning(q, policy, s.world, a);
    case _ =>
  }

  // ----- every step keeps the trace ---------------------------------------------------------

  /** While one lifecycle of `p` runs there is no other, and no pass. */
  lemma SoleUser(p: string, s: Sys, i: nat)
    requires OneUser(p, s) && i < |s.owners| && !Stopped(s.owners[i]) && Drives(s.owners[i], p)
    ensures !DogOn(s.dog, p)
    ensures forall j :: 0 <= j < |s.owners| && j != i && !Stopped(s.owners[j]) ==> !Drives(s.owners[j], p)
  {
    forall j | 0 <= j < |s.owners| && j != i && !Stopped(s.owners[j])
      ensures !Drives(s.owners[j], p)
    {
      assert j < i || i < j;
    }
  }

  /** A dirty device after its lifecycle's step has a culprit. */
  lemma OwnActBlames(p: string, mark: Mark, o: Owner, w: World, a: Answer)
    requires WellFormed(w.rows) && OwnerInPlace(o, w.rows) && TicketOnRecord(o, w.rows)
    requires Drives(o, p) && FromMark(o, p, w, mark) && mark.last <= MaxId(w.rows)
    requires Device(w, p) == mark.state || HasUnclosed(w.rows, p)
    ensures var w' := OwnerStep(o, w, a).1;
            Device(w', p) == mark.state || HasUnclosed(w'.rows, p) || Broken(w'.rows, p, mark)
  {
    var (o', w') := OwnerStep(o, w, a);
    OwnActFromMark(p, mark, o, w, a);
    if TicketOf(o').Some? {
      OwnActTraceable(p, mark, o, w, a);
    }
  }

  lemma OwnActKeeps(p: string, mark: Mark, s: Sys, i: nat, a: Answer)
    requires Sane(s) && OneUser(p, s) && Traceable(p, mark, s)
    requires i < |s.owners| && !Stopped(s.owners[i]) && Drives(s.owners[i], p)
    ensures var s' := Next(s, Act(i, a)); Broken(s'.world.rows, p, mark) || Traceable(p, mark, s')
  {
    var o := s.owners[i];
    SoleUser(p, s, i);
    OwnActSnapshots(p, mark, o, s.world, a);
    OwnActFromMark(p, mark, o, s.world, a);
    OwnActBlames(p, mark, o, s.world, a);
    ActOnlyNew(o, s.world, a, p, mark);
  }

  lemma OtherActKeeps(p: string, mark: Mark, s: Sys, j: nat, a: Answer)
    requires Sane(s) && Traceable(p, mark, s)
    requires j < |s.owners| && (Stopped(s.owners[j]) || !Drives(s.owners[j], p))
    ensures Traceable(p, mark, Next(s, Act(j, a)))
  {
    var o, w := s.owners[j], s.world;
    var (o', w') := OwnerStep(o, w, a);
    ActElsewhere(o, w, a, p);
    StepDrives(o, w, a, p);
    if Stopped(o) {
      assert Next(s, Act(j, a)) == s;
    } else {
      OwnActSnapshots(p, mark, o, w, a);
      ActOnlyNew(o, w, a, p, mark);
      forall e: nat | UnclosedOf(w.rows, p, e)
        ensures UnclosedOf(w'.rows, p, e)
      {
        ActKeepsListed(o, w, a, p, e);
      }
      forall i | 0 <= i < |s.owners| && i != j && !Stopped(s.owners[i]) && Drives(s.owners[i], p)
        ensures FromMark(s.owners[i], p, w', mark)
      {
        OtherOwnerUndisturbed(s.owners[i], p, o, w, a);
      }
    }
  }

  lemma OtherPassKeeps(p: string, mark: Mark, s: Sys, a: Answer)
    requires Sane(s) && Traceable(p, mark, s) && !DogOn(s.dog, p)
    ensures Traceable(p, mark, Next(s, DogAct(a)))
  {
    var w, w' := s.world, Next(s, DogAct(a)).world;
    PassElsewhere(s.dog, w, a, p);
    PassSnapshots(s.dog, w, a, p, mark);
    PassOnlyNew(s.dog, w, a, p, mark);
    PassStaysOn(s.dog, w, a, p);
    forall e: nat | UnclosedOf(w.rows, p, e)
      ensures UnclosedOf(w'.rows, p, e)
    {
      if !Resting(s.dog) {
        assert Todo(s.dog)[0] == s.dog.pass.current;
      }
      PassKeepsListed(s.dog, w, a, p, e);
    }
    forall i | 0 <= i < |s.owners| && !Stopped(s.owners[i]) && Drives(s.owners[i], p)
      ensures FromMark(s.owners[i], p, w', mark)
    {
      OtherPassUndisturbed(s.owners[i], p, s.dog, w, a);
    }
  }

  /** A pass over `p`: wherever it leaves the device, the experiment in hand is still listed, or it was restored. */
  lemma OwnPassTidy(p: string, mark: Mark, d: Dog, w: World, a: Answer)
    requires WellFormed(w.rows) && DogFits(d, w.rows) && DogOn(d, p) && DogTidy(p, mark, d, w)
    ensures var (d', w') := DogStep(d, w, a);
            && DogTidy(p, mark, d', w')
            && (Device(w', p) == mark.state || HasUnclosed(w'.rows, p) || Device(w', p) == Device(w, p))
            && (Device(w', p) == Device(w, p) && Device(w, p) != mark.state && HasUnclosed(w.rows, p) ==>
                  HasUnclosed(w'.rows, p))
  {
    var (d', w') := DogStep(d, w, a);
    DogStepRows(d, w, a);
    assert Todo(d)[0] == d.pass.current && Todo(d)[1..] == d.pass.rest;
    forall e: nat | UnclosedOf(w.rows, p, e) && !(d.Settling? && d.pass.current.id == e)
      ensures UnclosedOf(w'.rows, p, e)
    {
      PassKeepsListed(d, w, a, p, e);
    }
    PassHandsTidy(p, mark, d, w, a);
  }

  lemma PassHandsTidy(p: string, mark: Mark, d: Dog, w: World, a: Answer)
    requires WellFormed(w.rows) && DogFits(d, w.rows) && DogOn(d, p) && DogTidy(p, mark, d, w)
    ensures DogTidy(p, mark, DogStep(d, w, a).0, DogStep(d, w, a).1)
  {
    var (d', w') := DogStep(d, w, a);
    DogStepRows(d, w, a);
    assert Todo(d)[0] == d.pass.current && Todo(d)[1..] == d.pass.rest;
    forall i | 0 <= i < |Todo(d')|
      ensures Todo(d')[i].snapshot == StateSnapshot(p, mark.state) && UnclosedOf(w'.rows, p, Todo(d')[i].id)
    {
      assert Todo(d')[i] == Todo(d)[i] || Todo(d')[i] == Todo(d)[i + 1];
      DogStepEffect(d, w, a, Todo(d')[i].id);
      DogKeepsStageRows(d, w, a, Todo(d')[i].id);
    }
  }

  lemma OwnPassKeeps(p: string, mark: Mark, s: Sys, a: Answer)
    requires Sane(s) && OneUser(p, s) && Traceable(p, mark, s) && DogOn(s.dog, p)
    ensures Traceable(p, mark, Next(s, DogAct(a)))
  {
    OwnPassTidy(p, mark, s.dog, s.world, a);
    PassSnapshots(s.dog, s.world, a, p, mark);
    PassOnlyNew(s.dog, s.world, a, p, mark);
  }

  /** What a pass over `p` takes up holds the mark. */
  lemma SweepTidy(p: string, mark: Mark, policy: ReclaimPolicy, w: World, a: Answer)
    requires WellFormed(w.rows) && OwnSnapshots(w.rows) && SnapshotsAre(w.rows, p, mark) && OnlyNew(w.rows, p, mark)
    ensures DogTidy(p, mark, StartPass(p, policy, w, a).0, StartPass(p, policy, w, a).1)
  {
    var d := StartPass(p, policy, w, a).0;
    StartPassMeaning(p, policy, w, a);
    SweepNotSettling(p, policy, w, a);
    forall i | 0 <= i < |Todo(d)|
      ensures Todo(d)[i].snapshot == StateSnapshot(p, mark.state)
    {
      assert OwnSnapshot(w.rows, Todo(d)[i].id);
      StageRowIsUnique(w.rows, Todo(d)[i].id, AtSnapshot);
    }
  }

  lemma SweepKeeps(p: string, mark: Mark, s: Sys, q: string, policy: ReclaimPolicy, a: Answer)
    requires Sane(s) && Traceable(p, mark, s)
    ensures Traceable(p, mark, Next(s, Sweep(q, policy, a)))
  {
    SweepNotSettling(q, policy, s.world, a);
    if Resting(s.dog) {
      if q == p {
        SweepTidy(p, mark, policy, s.world, a);
      }
      forall i | 0 <= i < |s.owners| && FromMark(s.owners[i], p, s.world, mark)
        ensures FromMark(s.owners[i], p, Wait(s.world, a), mark)
      {
      }
      assert Traceable(p, mark, s.(world := Wait(s.world, a)));
    }
  }

  lemma SweepNotSettling(q: string, policy: ReclaimPolicy, w: World, a: Answer)
    ensures var (d, w') := StartPass(q, policy, w, a);
            !d.Settling? && (!Resting(d) ==> d.pass.provider == q) && w' == Wait(w, a)
  {
  }

  lemma ActKeepsTrace(p: string, mark: Mark, s: Sys, i: nat, a: Answer)
    requires Sane(s) && OneUser(p, s) && Traceable(p, mark, s)
    ensures var s' := Next(s, Act(i, a));
            Broken(s'.world.rows, p, mark) || Traceable(p, mark, s')
  {
    if i < |s.owners| {
      if !Stopped(s.owners[i]) && Drives(s.owners[i], p) {
        OwnActKeeps(p, mark, s, i, a);
      } else {
        OtherActKeeps(p, mark, s, i, a);
      }
    }
  }

  lemma NoAnswerKeepsTrace(p: string, mark: Mark, s: Sys, x: Action)
    requires x.Start? || x.Kill? || x.KillDog?
    requires Sane(s) && OneUser(p, s) && Traceable(p, mark, s) && TidyTurn(p, s, x)
    ensures Traceable(p, mark, Next(s, x))
  {
  }

  lemma NextKeepsTrace(p: string, mark: Mark, s: Sys, x: Action)
    requires Sane(s) && OneUser(p, s) && Traceable(p, mark, s) && TidyTurn(p, s, x)
    ensures Broken(Next(s, x).world.rows, p, mark) || Traceable(p, mark, Next(s, x))
  {
    match x
    case Act(i, a) => ActKeepsTrace(p, mark, s, i, a);
    case DogAct(a) =>
      if DogOn(s.dog, p) {
        OwnPassKeeps(p, mark, s, a);
      } else {
        OtherPassKeeps(p, mark, s, a);
      }
    case Sweep(q, policy, a) => SweepKeeps(p, mark, s, q, policy, a);
    case _ => NoAnswerKeepsTrace(p, mark, s, x);
  }

  lemma NextKeepsTraceOrBreaks(p: string, mark: Mark, s: Sys, x: Action)
    requires Sane(s) && OneUser(p, s) && TidyTurn(p, s, x)
    requires Broken(s.world.rows, p, mark) || Traceable(p, mark, s)
    ensures Broken(Next(s, x).world.rows, p, mark) || Traceable(p, mark, Next(s, x))
  {
    if Broken(s.world.rows, p, mark) {
      NextKeepsBroken(s, x, p, mark);
    } else {
      NextKeepsTrace(p, mark, s, x);
    }
  }

  /** Nothing has happened since a vacant moment. */
  lemma VacantIsTraceable(p: string, s: Sys)
    requires Vacant(p, s)
    ensures OneUser(p, s) && Traceable(p, MarkOf(p, s.world), s)
  {
    MaxIdBounds(s.world.rows);
  }

  /** After the first `m` steps. */
  ghost predicate TracedAt(p: string, devices: map<string, Json>, xs: seq<Action>, m: nat, mark: Mark)
    requires m <= |xs|
  {
    var s := Run(Initial(devices), xs[..m]);
    OneUser(p, s) && (Broken(s.world.rows, p, mark) || Traceable(p, mark, s))
  }

  lemma {:induction false} TracedGoesOn(p: string, devices: map<string, Json>, xs: seq<Action>, m: nat, mark: Mark)
    requires m < |xs| && TidyAt(p, devices, xs, m)
    requires TracedAt(p, devices, xs, m, mark)
    ensures TracedAt(p, devices, xs, m + 1, mark)
  {
    assert xs[..m + 1][..m] == xs[..m];
    var s := Run(Initial(devices), xs[..m]);
    ReachableSane(devices, xs[..m]);
    NextOneUser(p, s, xs[m]);
    NextKeepsTraceOrBreaks(p, mark, s, xs[m]);
  }

  lemma {:induction false} TidyRunsAreTraced(p: string, devices: map<string, Json>, xs: seq<Action>,
                                             n: nat, m: nat, mark: Mark)
    requires n <= m <= |xs| && TidyFrom(p, devices, xs, n)
    requires TracedAt(p, devices, xs, n, mark)
    ensures TracedAt(p, devices, xs, m, mark)
  {
    if m > n {
      TidyRunsAreTraced(p, devices, xs, n, m - 1, mark);
      TracedGoesOn(p, devices, xs, m - 1, mark);
    }
  }

  /** Every tidy start of a lifecycle is a vacant moment, and so is the beginning of the run. */
  lemma StartsAreVacant(p: string, s: Sys, x: Action)
    ensures x.Start? && x.manifest.id == p && TidyTurn(p, s, x) ==> Vacant(p, s)
    ensures forall devices :: Vacant(p, Initial(devices))
  {
  }

  /**
    No fault hides a dirty device.  Take any moment of any run when nobody uses the
    device and nothing of its provider is unclosed, such as each start of a
    lifecycle.  If from then on its users take turns and a lifecycle starts only
    when nothing of the provider is unclosed - provider faults, failed rollbacks,
    journal faults and crashes anywhere, other providers interleaving freely - a
    device that is off its state at that moment has an experiment begun since that
    is unclosed, or that its owner closed with `failed` at the rollback or its
    verification.
   */
  lemma DirtyHasCulprit(p: string, devices: map<string, Json>, xs: seq<Action>, n: nat)
    requires n <= |xs| && Vacant(p, Run(Initial(devices), xs[..n])) && TidyFrom(p, devices, xs, n)
    ensures var w0, w := Run(Initial(devices), xs[..n]).world, Run(Initial(devices), xs).world;
            Device(w, p) != Device(w0, p) ==>
              exists e: nat :: e > MaxId(w0.rows) && (UnclosedOf(w.rows, p, e) || BrokenAt(w.rows, p, e))
  {
    var mark := MarkOf(p, Run(Initial(devices), xs[..n]).world);
    var s := Run(Initial(devices), xs);
    VacantIsTraceable(p, Run(Initial(devices), xs[..n]));
    TidyRunsAreTraced(p, devices, xs, n, |xs|, mark);
    assert xs[..|xs|] == xs;
    assert Broken(s.world.rows, p, mark) || Traceable(p, mark, s);
    if Device(s.world, p) != mark.state {
      CulpritIsNew(p, mark, s);
    }
  }

  lemma CulpritIsNew(p: string, mark: Mark, s: Sys)
    requires Broken(s.world.rows, p, mark) || Traceable(p, mark, s)
    requires Device(s.world, p) != mark.state
    ensures exists e: nat :: e > mark.last && (UnclosedOf(s.world.rows, p, e) || BrokenAt(s.world.rows, p, e))
  {
    var rows := s.world.rows;
    if Broken(rows, p, mark) {
      var e: nat :| e > mark.last && BrokenAt(rows, p, e);
      assert UnclosedOf(rows, p, e) || BrokenAt(rows, p, e);
    } else {
      var e: nat :| UnclosedOf(rows, p, e);
      assert e > mark.last && (UnclosedOf(rows, p, e) || BrokenAt(rows, p, e));
    }
  }
}
