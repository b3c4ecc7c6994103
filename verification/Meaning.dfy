/**
  When the journal keeps its meaning while others use the device too: step by step
  and over whole runs, exactly which steps take it away.
 */
module Meanings {
  import opened Wrappers
  import opened Contracts
  import opened Journal
  import opened Lifecycle
  import opened Dirtiness
  import opened Recovery
  import opened Systems
  import opened Protocol
  import opened Sharing

  // ----- what the rows promise ---------------------------------------------------------

  /** The state of an experiment in which its device may be dirty. */
  predicate AdmitsDirt(q: Progress, reclaimed: bool) {
    q.Intended() && q.back != Restored && (q.Closed? || !reclaimed)
  }

  /** The rows promise a clean device exactly in the states that do not admit a dirty one. */
  lemma PromiseFollowsProgress(rows: seq<Row>, e: nat)
    requires ProgressOf(rows, e) != Invalid
    ensures PromisesClean(rows, e) <==> !AdmitsDirt(ProgressOf(rows, e), TerminalsBy(rows, e, true) > 0)
    ensures PromisesClean(rows, e) || (RestoreFailed(rows, e) <==> ProgressOf(rows, e).Closed?)
  {
    CountsFollowProgress(rows, e);
    ProgressShowsRows(rows, e);
  }

  /** The device of a ticket is at its snapshot, or its rows admit that it is not. */
  predicate Consistent(t: Ticket, w: World) {
    || Device(w, t.provider) == t.snapshot.state
    || AdmitsDirt(ProgressOf(w.rows, t.id), TerminalsBy(w.rows, t.id, true) > 0)
  }

  /** Of all that rows mean, only the promise of a clean device depends on the device. */
  lemma MeaningIsPromise(t: Ticket, w: World)
    requires ProgressOf(w.rows, t.id) != Invalid && ProgressOf(w.rows, t.id) != Nothing
    ensures MeansDirtiness(t, w.rows, Device(w, t.provider)) <==> Consistent(t, w)
  {
    PromiseFollowsProgress(w.rows, t.id);
    CountsFollowProgress(w.rows, t.id);
    ProgressShowsRows(w.rows, t.id);
  }

  /** The rows of owner `i`, if it has any, mean what they say about its device. */
  predicate Meaningful(s: Sys, i: nat) {
    i < |s.owners| && TicketOf(s.owners[i]).Some? ==>
      var t := TicketOf(s.owners[i]).value;
      MeansDirtiness(t, s.world.rows, Device(s.world, t.provider))
  }

  // ----- which steps take the meaning away ---------------------------------------------

  predicate OwnerWrites(o: Owner, p: string) {
    (o.Applying? || o.RollingBack?) && o.ticket.provider == p
  }

  predicate DogWrites(d: Dog, p: string) {
    d.Restoring? && d.pass.provider == p
  }

  /** The step is a call that writes the device of `p`. */
  predicate WritesDevice(s: Sys, x: Action, p: string) {
    match x
    case Act(j, _) => j < |s.owners| && OwnerWrites(s.owners[j], p)
    case DogAct(_) => DogWrites(s.dog, p)
    case _ => false
  }

  /** The owner records that its restore was observed, on a reading the device no longer agrees with. */
  predicate RecordsRestore(o: Owner, a: Answer) {
    o.RecordingRestore? && o.matched && a.journal.None?
  }

  /**
    The guard, told before the step: a write off the snapshot of a device promised
    clean; a snapshot recorded, a restore recorded or an experiment closed by the
    watchdog when the device has moved since it was last read.
   */
  predicate BreaksPromise(s: Sys, x: Action, i: nat)
    requires i < |s.owners|
  {
    var o, w := s.owners[i], s.world;
    match TicketOf(o)
    case None =>
      x.Act? && x.owner == i && o.Beginning? && x.answer.journal.None? && Device(w, o.provider) != o.snapshot.state
    case Some(t) =>
      || (WritesDevice(s, x, t.provider) && x.answer.landed != t.snapshot.state && PromisesClean(w.rows, t.id))
      || (Device(w, t.provider) != t.snapshot.state
          && ((x.Act? && x.owner == i && RecordsRestore(o, x.answer))
              || (DogCloses(s, x, t.id) && !RestoreFailed(w.rows, t.id))))
  }

  // ----- the device after a step --------------------------------------------------------

  lemma OwnerStepDevice(o: Owner, w: World, a: Answer, p: string)
    ensures Device(OwnerStep(o, w, a).1, p) == if OwnerWrites(o, p) then a.landed else Device(w, p)
    ensures o.Applying? || o.RollingBack? ==> OwnerStep(o, w, a).1.rows == w.rows
  {
  }

  lemma DogStepWrites(d: Dog, w: World, a: Answer, p: string)
    ensures Device(DogStep(d, w, a).1, p) == if DogWrites(d, p) then a.landed else Device(w, p)
    ensures d.Restoring? ==> DogStep(d, w, a).1.rows == w.rows
  {
  }

  // ----- the owner's own steps -----------------------------------------------------------

  /** What a row of the owner does to what its rows admit. */
  lemma RowAdmits(o: Owner, w: World, a: Answer, q: Progress, reclaimed: bool)
    requires !Silent(o) && TicketOf(o).Some? && OwnerFits(o, q) && AdmitsDirt(q, reclaimed)
    ensures var w' := OwnerStep(o, w, a).1;
            var q' := if w'.rows == w.rows then q else Advance(q, Last(w'.rows));
            AdmitsDirt(q', reclaimed) <==> !RecordsRestore(o, a)
  {
  }

  lemma OwnRowSurvives(o: Owner, w: World, a: Answer)
    requires WellFormed(w.rows) && OwnerInPlace(o, w.rows) && !Silent(o) && TicketOf(o).Some?
    requires Consistent(TicketOf(o).value, w)
    ensures var t := TicketOf(o).value;
            Consistent(t, OwnerStep(o, w, a).1)
            <==> !(Device(w, t.provider) != t.snapshot.state && RecordsRestore(o, a))
  {
    var t := TicketOf(o).value;
    var w' := OwnerStep(o, w, a).1;
    var q := ProgressOf(w.rows, t.id);
    OwnerStepDevice(o, w, a, t.provider);
    OwnerKeepsJournal(o, w, a);
    RecordingStepFits(o, w, a, q);
    if Device(w, t.provider) != t.snapshot.state {
      RowAdmits(o, w, a, q, TerminalsBy(w.rows, t.id, true) > 0);
      if w'.rows != w.rows {
        Appended(w.rows, Last(w'.rows), t.id);
      }
    }
  }

  lemma OwnCallSurvives(o: Owner, w: World, a: Answer)
    requires WellFormed(w.rows) && OwnerInPlace(o, w.rows) && Silent(o) && TicketOf(o).Some?
    requires Consistent(TicketOf(o).value, w)
    ensures var t := TicketOf(o).value;
            Consistent(t, OwnerStep(o, w, a).1)
            <==> !(OwnerWrites(o, t.provider) && a.landed != t.snapshot.state && PromisesClean(w.rows, t.id))
  {
    var t := TicketOf(o).value;
    SilentStepFits(o, w, a, ProgressOf(w.rows, t.id));
    OwnerStepDevice(o, w, a, t.provider);
    PromiseFollowsProgress(w.rows, t.id);
  }

  /** The step that takes an identifier inserts the snapshot row under it. */
  lemma TakesTicket(o: Owner, w: World, a: Answer)
    requires TicketOf(o).None? && TicketOf(OwnerStep(o, w, a).0).Some?
    ensures o.Beginning? && a.journal.None?
    ensures var e := MaxId(w.rows) + 1;
            OwnerStep(o, w, a)
            == (Previewing(Ticket(e, o.provider, o.request, o.snapshot)),
                Insert(w, a, e, AtSnapshot, o.provider, SnapshotP(o.snapshot)))
  {
  }

  /** A lifecycle that takes its identifier begins with a promise. */
  lemma BeginningSurvives(o: Owner, w: World, a: Answer)
    requires TicketOf(o).None? && TicketOf(OwnerStep(o, w, a).0).Some?
    ensures o.Beginning? && a.journal.None?
    ensures var (o', w') := OwnerStep(o, w, a);
            Consistent(TicketOf(o').value, w') <==> Device(w, o.provider) == o.snapshot.state
  {
    TakesTicket(o, w, a);
    SnappedAdmitsNone(w, a, o.provider, o.snapshot);
  }

  lemma SnappedAdmitsNone(w: World, a: Answer, p: string, snapshot: StateSnapshot)
    requires a.journal.None?
    ensures var e := MaxId(w.rows) + 1;
            var w' := Insert(w, a, e, AtSnapshot, p, SnapshotP(snapshot));
            ProgressOf(w'.rows, e) == Snapped && Device(w', p) == Device(w, p)
  {
    var e := MaxId(w.rows) + 1;
    var row := Row(e, w.now + a.elapsed, AtSnapshot, p, SnapshotP(snapshot));
    FreshHasNoRows(w.rows, e);
    Appended(w.rows, row, e);
  }

  lemma OwnTicketedSurvives(o: Owner, w: World, a: Answer)
    requires WellFormed(w.rows) && OwnerInPlace(o, w.rows) && TicketOf(o).Some?
    requires Consistent(TicketOf(o).value, w)
    ensures TicketOf(OwnerStep(o, w, a).0) == TicketOf(o)
    ensures var t := TicketOf(o).value;
            Consistent(t, OwnerStep(o, w, a).1)
            <==> !((OwnerWrites(o, t.provider) && a.landed != t.snapshot.state && PromisesClean(w.rows, t.id))
                   || (Device(w, t.provider) != t.snapshot.state && RecordsRestore(o, a)))
  {
    KeepsTicket(o, w, a);
    if Silent(o) {
      OwnCallSurvives(o, w, a);
    } else {
      OwnRowSurvives(o, w, a);
    }
  }

  /** For an owner in place the meaning of its rows is their promise. */
  lemma InPlaceMeans(o: Owner, w: World)
    requires OwnerInPlace(o, w.rows) && TicketOf(o).Some?
    ensures var t := TicketOf(o).value;
            MeansDirtiness(t, w.rows, Device(w, t.provider)) <==> Consistent(t, w)
  {
    FitsMeansBegun(o, ProgressOf(w.rows, IdOf(o)));
    MeaningIsPromise(TicketOf(o).value, w);
  }

  lemma OwnStepSurvives(s: Sys, a: Answer, i: nat)
    requires Sane(s) && i < |s.owners| && Meaningful(s, i)
    ensures Meaningful(Next(s, Act(i, a)), i) <==> !BreaksPromise(s, Act(i, a), i)
  {
    var o, w := s.owners[i], s.world;
    var (o', w') := OwnerStep(o, w, a);
    assert WellFormed(w.rows) && OwnerInPlace(o, w.rows);
    assert OwnerInPlace(o', w'.rows) by {
      OwnerKeepsJournal(o, w, a);
    }
    if TicketOf(o).Some? {
      InPlaceMeans(o, w);
      OwnTicketedSurvives(o, w, a);
      InPlaceMeans(o', w');
    } else if TicketOf(o').Some? {
      InPlaceMeans(o', w');
      BeginningSurvives(o, w, a);
    }
  }

  // ----- everybody else's steps ----------------------------------------------------------

  lemma OtherActSurvives(s: Sys, j: nat, a: Answer, i: nat)
    requires Sane(s) && i < |s.owners| && j < |s.owners| && i != j && Meaningful(s, i)
    ensures Meaningful(Next(s, Act(j, a)), i) <==> !BreaksPromise(s, Act(j, a), i)
  {
    var o, w := s.owners[i], s.world;
    var w' := OwnerStep(s.owners[j], w, a).1;
    if TicketOf(o).Some? {
      var t := TicketOf(o).value;
      ActOnOtherRows(o, s.owners[j], w, a);
      OwnerStepDevice(s.owners[j], w, a, t.provider);
      FitsMeansBegun(o, ProgressOf(w.rows, t.id));
      MeaningIsPromise(t, w);
      MeaningIsPromise(t, w');
      PromiseFollowsProgress(w.rows, t.id);
    }
  }

  lemma PassSurvives(s: Sys, a: Answer, i: nat)
    requires Sane(s) && i < |s.owners| && Meaningful(s, i)
    ensures Meaningful(Next(s, DogAct(a)), i) <==> !BreaksPromise(s, DogAct(a), i)
  {
    var o, w := s.owners[i], s.world;
    var w' := DogStep(s.dog, w, a).1;
    if TicketOf(o).Some? {
      var t := TicketOf(o).value;
      DogStepEffect(s.dog, w, a, t.id);
      DogStepWrites(s.dog, w, a, t.provider);
      FitsMeansBegun(o, ProgressOf(w.rows, t.id));
      MeaningIsPromise(t, w);
      MeaningIsPromise(t, w');
      PromiseFollowsProgress(w.rows, t.id);
    }
  }

  lemma OthersSurvive(s: Sys, x: Action, i: nat)
    requires Sane(s) && i < |s.owners| && Meaningful(s, i) && !x.Act? && !x.DogAct?
    ensures Meaningful(Next(s, x), i) && !BreaksPromise(s, x, i)
  {
    if x.Sweep? {
      StartPassMeaning(x.provider, x.policy, s.world, x.answer);
    }
  }

  // ----- the theorems ---------------------------------------------------------------------

  /**
    One step, whoever takes it: in a reachable state whose rows mean what they say
    about the device of owner `i`, they still do after the step if and only if it is
    not one the guard names.
   */
  lemma MeaningSurvivesStep(s: Sys, x: Action, i: nat)
    requires Sane(s) && i < |s.owners| && Meaningful(s, i)
    ensures Meaningful(Next(s, x), i) <==> !BreaksPromise(s, x, i)
  {
    match x
    case Act(j, a) =>
      if j == i {
        OwnStepSurvives(s, a, i);
      } else if j < |s.owners| {
        OtherActSurvives(s, j, a, i);
      }
    case DogAct(a) => PassSurvives(s, a, i);
    case _ => OthersSurvive(s, x, i);
  }

  /** The same step with another outcome for the device. */
  function Landing(x: Action, v: Json): Action {
    match x
    case Act(j, a) => Act(j, a.(landed := v))
    case DogAct(a) => DogAct(a.(landed := v))
    case _ => x
  }

  /**
    A call that writes the device, by whomever, is harmless wherever it lands if and
    only if the rows did not promise a clean device.
   */
  lemma WriteSurvivesAnywhere(s: Sys, x: Action, i: nat)
    requires Sane(s) && i < |s.owners| && Meaningful(s, i) && TicketOf(s.owners[i]).Some?
    requires WritesDevice(s, x, TicketOf(s.owners[i]).value.provider)
    ensures (forall v :: Meaningful(Next(s, Landing(x, v)), i))
            <==> !PromisesClean(s.world.rows, TicketOf(s.owners[i]).value.id)
  {
    var t := TicketOf(s.owners[i]).value;
    forall v
      ensures Meaningful(Next(s, Landing(x, v)), i)
              <==> !(v != t.snapshot.state && PromisesClean(s.world.rows, t.id))
    {
      MeaningSurvivesStep(s, Landing(x, v), i);
    }
    var v := if t.snapshot.state == Null then Bool(true) else Null;
    assert Meaningful(Next(s, Landing(x, v)), i) <==> !PromisesClean(s.world.rows, t.id);
  }

  /** The rows of owner `i` mean what they say after the first `n` steps. */
  predicate MeaningfulAt(devices: map<string, Json>, xs: seq<Action>, n: nat, i: nat)
    requires n <= |xs|
  {
    Meaningful(Run(Initial(devices), xs[..n]), i)
  }

  /** The next step after the first `k` breaks what they promise. */
  predicate BreaksAt(devices: map<string, Json>, xs: seq<Action>, k: nat, i: nat)
    requires k < |xs|
  {
    var s := Run(Initial(devices), xs[..k]);
    i < |s.owners| && BreaksPromise(s, xs[k], i)
  }

  /** A lifecycle that has just started has no rows yet. */
  lemma NewcomerIsMeaningful(s: Sys, x: Action, i: nat)
    requires i >= |s.owners|
    ensures Meaningful(Next(s, x), i)
  {
  }

  lemma NothingIsMeaningful(devices: map<string, Json>, xs: seq<Action>, i: nat)
    ensures MeaningfulAt(devices, xs, 0, i)
  {
  }

  lemma {:induction false} MeaningAtNext(devices: map<string, Json>, xs: seq<Action>, k: nat, i: nat)
    requires k < |xs| && MeaningfulAt(devices, xs, k, i)
    ensures MeaningfulAt(devices, xs, k + 1, i) <==> !BreaksAt(devices, xs, k, i)
  {
    var s := Run(Initial(devices), xs[..k]);
    assert xs[..k + 1][..k] == xs[..k];
    ReachableSane(devices, xs[..k]);
    if i < |s.owners| {
      MeaningSurvivesStep(s, xs[k], i);
    } else {
      NewcomerIsMeaningful(s, xs[k], i);
    }
  }

  /**
    In every run, whoever else used the device: the rows of a lifecycle mean what
    they mean for one that runs alone, at every moment, if and only if no step of
    the run was one the guard names.
   */
  lemma {:induction false} MeaningSurvivesExactly(devices: map<string, Json>, xs: seq<Action>, n: nat, i: nat)
    requires n <= |xs|
    ensures (forall m :: 0 <= m <= n ==> MeaningfulAt(devices, xs, m, i))
            <==> (forall k :: 0 <= k < n ==> !BreaksAt(devices, xs, k, i))
  {
    if n == 0 {
      NothingIsMeaningful(devices, xs, i);
    } else {
      var k := n - 1;
      MeaningSurvivesExactly(devices, xs, k, i);
      if MeaningfulAt(devices, xs, k, i) {
        MeaningAtNext(devices, xs, k, i);
      }
    }
  }
}
