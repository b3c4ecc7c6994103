/**
  What the journal says about the device when lifecycles of other providers, other
  passes, faults and crashes interleave: the meaning holds for a lifecycle whose
  device nobody else uses meanwhile, and only then.
 */
module Sharing {
  import opened Wrappers
  import opened Contracts
  import opened Journal
  import opened Lifecycle
  import opened ControlPlanes
  import opened Dirtiness
  import opened Scans
  import opened Recovery
  import opened Systems
  import opened Protocol
  import opened Repairs

  // ----- what a pass holds -----------------------------------------------------------

  /** A pass holds only experiments whose intent is for its own provider. */
  predicate HoldsOwn(d: Dog, rows: seq<Row>) {
    forall i :: 0 <= i < |Todo(d)| ==>
                  && StageRow(rows, Todo(d)[i].id, AtApplyIntent).Some?
                  && StageRow(rows, Todo(d)[i].id, AtApplyIntent).value.provider == d.pass.provider
  }

  lemma StepHoldsOwn(d: Dog, w: World, a: Answer)
    requires HoldsOwn(d, w.rows)
    ensures HoldsOwn(DogStep(d, w, a).0, DogStep(d, w, a).1.rows)
  {
    var (d', w') := DogStep(d, w, a);
    DogStepRows(d, w, a);
    forall i | 0 <= i < |Todo(d')|
      ensures StageRow(w'.rows, Todo(d')[i].id, AtApplyIntent).Some?
              && StageRow(w'.rows, Todo(d')[i].id, AtApplyIntent).value.provider == d'.pass.provider
    {
      assert Todo(d)[1..] == d.pass.rest;
      assert Todo(d')[i] == Todo(d)[i] || Todo(d')[i] == Todo(d)[i + 1];
      DogKeepsStageRows(d, w, a, Todo(d')[i].id);
    }
  }

  /** A control plane's step never takes an intent row away. */
  lemma ActKeepsIntents(o: Owner, w: World, a: Answer, e: nat)
    requires WellFormed(w.rows) && OwnerInPlace(o, w.rows) && StageRow(w.rows, e, AtApplyIntent).Some?
    ensures StageRow(OwnerStep(o, w, a).1.rows, e, AtApplyIntent) == StageRow(w.rows, e, AtApplyIntent)
  {
    var (o', w') := OwnerStep(o, w, a);
    RecordsTicket(o, w, a);
    OwnerKeepsJournal(o, w, a);
    if w'.rows != w.rows {
      AppendedStageRow(w.rows, Last(w'.rows), e, AtApplyIntent);
      if o.RecordingIntent? && IdOf(o) == e {
        CountsFollowProgress(w.rows, e);
        StageRowIsUnique(w.rows, e, AtApplyIntent);
      }
    }
  }

  lemma ActHoldsOwn(d: Dog, o: Owner, w: World, a: Answer)
    requires WellFormed(w.rows) && OwnerInPlace(o, w.rows) && HoldsOwn(d, w.rows)
    ensures HoldsOwn(d, OwnerStep(o, w, a).1.rows)
  {
    forall j | 0 <= j < |Todo(d)|
      ensures StageRow(OwnerStep(o, w, a).1.rows, Todo(d)[j].id, AtApplyIntent)
              == StageRow(w.rows, Todo(d)[j].id, AtApplyIntent)
    {
      ActKeepsIntents(o, w, a, Todo(d)[j].id);
    }
  }

  lemma NextHoldsOwn(s: Sys, x: Action)
    requires Inv(s) && HoldsOwn(s.dog, s.world.rows)
    ensures HoldsOwn(Next(s, x).dog, Next(s, x).world.rows)
  {
    match x
    case Act(i, a) =>
      if i < |s.owners| {
        ActHoldsOwn(s.dog, s.owners[i], s.world, a);
      }
    case Sweep(p, policy, a) => StartPassMeaning(p, policy, s.world, a);
    case DogAct(a) => StepHoldsOwn(s.dog, s.world, a);
    case _ =>
  }

  /** Everything reachable that the theorems below rest on. */
  ghost predicate Sane(s: Sys) {
    Inv(s) && OnRecord(s) && Honest(s) && HoldsOwn(s.dog, s.world.rows)
  }

  lemma {:induction false} ReachableSane(devices: map<string, Json>, xs: seq<Action>)
    ensures Sane(Run(Initial(devices), xs))
  {
    ReachableOnRecord(devices, xs);
    ReachableHonest(devices, xs);
    if xs != [] {
      var init := xs[..|xs| - 1];
      ReachableSane(devices, init);
      NextHoldsOwn(Run(Initial(devices), init), xs[|xs| - 1]);
    }
  }

  // ----- one owner and its device -------------------------------------------------------

  /** The provider an owner drives, as long as it is known. */
  predicate Drives(o: Owner, p: string) {
    match o
    case TakingSnapshot(q, _) => q == p
    case Beginning(q, _, _) => q == p
    case _ => TicketOf(o).Some? && TicketOf(o).value.provider == p
  }

  /** The device of an owner is where its own steps have left it. */
  predicate Undisturbed(o: Owner, w: World) {
    match TicketOf(o)
    case None => o.Beginning? ==> o.snapshot == Lifecycle.Snapshot(w, o.provider)
    case Some(t) =>
      && TerminalsBy(w.rows, t.id, true) == 0
      && DeviceFits(o, ProgressOf(w.rows, t.id), Device(w, t.provider), t.snapshot.state)
  }

  lemma OwnStepUndisturbed(o: Owner, w: World, a: Answer)
    requires WellFormed(w.rows) && OwnerInPlace(o, w.rows) && Undisturbed(o, w)
    ensures Undisturbed(OwnerStep(o, w, a).0, OwnerStep(o, w, a).1)
  {
    var (o', w') := OwnerStep(o, w, a);
    OwnerKeepsJournal(o, w, a);
    if TicketOf(o).Some? {
      TicketedUndisturbed(o, w, a);
    } else if w'.rows != w.rows {
      var e := MaxId(w.rows) + 1;
      FreshHasNoRows(w.rows, e);
      Appended(w.rows, Last(w'.rows), e);
    }
  }

  lemma TicketedUndisturbed(o: Owner, w: World, a: Answer)
    requires WellFormed(w.rows) && OwnerInPlace(o, w.rows) && Undisturbed(o, w) && TicketOf(o).Some?
    ensures Undisturbed(OwnerStep(o, w, a).0, OwnerStep(o, w, a).1)
  {
    var (o', w') := OwnerStep(o, w, a);
    var e := IdOf(o);
    var q := ProgressOf(w.rows, e);
    if Silent(o) {
      SilentStepFits(o, w, a, q);
      SilentStepDevice(o, w, a, q, TicketOf(o).value.snapshot.state);
    } else {
      RecordingStepFits(o, w, a, q);
      RecordingStepDevice(o, w, a, q, TicketOf(o).value.snapshot.state);
      if w'.rows != w.rows {
        Appended(w.rows, Last(w'.rows), e);
      }
    }
  }

  /** Nothing an owner is known by has changed. */
  lemma Unaffected(o: Owner, p: string, w: World, w': World)
    requires Undisturbed(o, w) && Drives(o, p) && Device(w', p) == Device(w, p)
    requires TicketOf(o).Some? ==>
               && ProgressOf(w'.rows, IdOf(o)) == ProgressOf(w.rows, IdOf(o))
               && TerminalsBy(w'.rows, IdOf(o), true) == TerminalsBy(w.rows, IdOf(o), true)
    ensures Undisturbed(o, w')
  {
  }

  /** A step moves the device of its own provider only. */
  lemma ActElsewhere(j: Owner, w: World, a: Answer, p: string)
    requires Stopped(j) || !Drives(j, p)
    ensures Device(OwnerStep(j, w, a).1, p) == Device(w, p)
  {
  }

  lemma PassElsewhere(d: Dog, w: World, a: Answer, p: string)
    requires Resting(d) || d.pass.provider != p
    ensures Device(DogStep(d, w, a).1, p) == Device(w, p)
  {
  }

  /** What a step of one owner leaves of another's experiment. */
  lemma ActOnOtherRows(o: Owner, j: Owner, w: World, a: Answer)
    requires WellFormed(w.rows) && OwnerInPlace(o, w.rows) && OwnerInPlace(j, w.rows)
    requires TicketOf(o).Some? && (TicketOf(j).Some? ==> IdOf(o) != IdOf(j))
    ensures var rows := OwnerStep(j, w, a).1.rows;
            && ProgressOf(rows, IdOf(o)) == ProgressOf(w.rows, IdOf(o))
            && TerminalsBy(rows, IdOf(o), true) == TerminalsBy(w.rows, IdOf(o), true)
            && TerminalsBy(rows, IdOf(o), false) == TerminalsBy(w.rows, IdOf(o), false)
            && StageCount(rows, IdOf(o), AtApplyIntent) == StageCount(w.rows, IdOf(o), AtApplyIntent)
  {
    var (j', w') := OwnerStep(j, w, a);
    OwnerKeepsJournal(j, w, a);
    if TicketOf(j').Some? {
      OtherExperiments(w.rows, w'.rows, IdOf(j'), IdOf(o));
    }
  }

  /** A step of an owner that drives another device leaves an owner undisturbed. */
  lemma OtherOwnerUndisturbed(o: Owner, p: string, j: Owner, w: World, a: Answer)
    requires WellFormed(w.rows) && OwnerInPlace(o, w.rows) && OwnerInPlace(j, w.rows)
    requires Undisturbed(o, w) && Drives(o, p) && (Stopped(j) || !Drives(j, p))
    requires TicketOf(o).Some? && TicketOf(j).Some? ==> IdOf(o) != IdOf(j)
    ensures Undisturbed(o, OwnerStep(j, w, a).1)
  {
    ActElsewhere(j, w, a, p);
    if TicketOf(o).Some? {
      ActOnOtherRows(o, j, w, a);
    }
    Unaffected(o, p, w, OwnerStep(j, w, a).1);
  }

  /** A pass over another provider never closes an owner's experiment. */
  lemma PassOnOtherRows(o: Owner, d: Dog, w: World, a: Answer)
    requires WellFormed(w.rows) && DogFits(d, w.rows) && HoldsOwn(d, w.rows)
    requires OwnerInPlace(o, w.rows) && TicketOnRecord(o, w.rows) && TicketOf(o).Some?
    requires Resting(d) || d.pass.provider != TicketOf(o).value.provider
    ensures var rows := DogStep(d, w, a).1.rows;
            && ProgressOf(rows, IdOf(o)) == ProgressOf(w.rows, IdOf(o))
            && TerminalsBy(rows, IdOf(o), true) == TerminalsBy(w.rows, IdOf(o), true)
  {
    DogStepEffect(d, w, a, IdOf(o));
    if d.Settling? {
      assert Todo(d)[0] == d.pass.current;
      assert d.pass.current.id != IdOf(o);
    }
  }

  lemma OtherPassUndisturbed(o: Owner, p: string, d: Dog, w: World, a: Answer)
    requires WellFormed(w.rows) && DogFits(d, w.rows) && HoldsOwn(d, w.rows)
    requires OwnerInPlace(o, w.rows) && TicketOnRecord(o, w.rows)
    requires Undisturbed(o, w) && Drives(o, p) && (Resting(d) || d.pass.provider != p)
    ensures Undisturbed(o, DogStep(d, w, a).1)
  {
    PassElsewhere(d, w, a, p);
    if TicketOf(o).Some? {
      PassOnOtherRows(o, d, w, a);
    }
    Unaffected(o, p, w, DogStep(d, w, a).1);
  }

  // ----- who else uses a device -----------------------------------------------------------

  /** The action is a step of somebody other than owner `i` that may use the device of `p`. */
  predicate Touches(s: Sys, x: Action, i: nat, p: string) {
    match x
    case Act(j, _) => j != i && j < |s.owners| && !Stopped(s.owners[j]) && Drives(s.owners[j], p)
    case DogAct(_) => !Resting(s.dog) && s.dog.pass.provider == p
    case _ => false
  }

  /** Since owner `i` started nobody else has used the device of `p`. */
  ghost predicate AloneOnDevice(devices: map<string, Json>, xs: seq<Action>, i: nat, p: string) {
    forall k :: 0 <= k < |xs| && i < |Run(Initial(devices), xs[..k]).owners| ==>
                  !Touches(Run(Initial(devices), xs[..k]), xs[k], i, p)
  }

  /** An owner that finished without ever getting an identifier has nothing to lose. */
  predicate Settled(o: Owner, w: World, p: string) {
    Drives(o, p) ==> Undisturbed(o, w)
  }

  lemma ActSettled(s: Sys, j: nat, a: Answer, i: nat, p: string)
    requires Sane(s) && i < |s.owners| && j < |s.owners| && i != j && Settled(s.owners[i], s.world, p)
    requires !Touches(s, Act(j, a), i, p)
    ensures Settled(s.owners[i], OwnerStep(s.owners[j], s.world, a).1, p)
  {
    if Drives(s.owners[i], p) {
      OtherOwnerUndisturbed(s.owners[i], p, s.owners[j], s.world, a);
    }
  }

  lemma KillSettled(o: Owner, w: World, p: string)
    requires Settled(o, w, p)
    ensures Settled(Crash(o), w, p)
  {
  }

  lemma WaitSettled(o: Owner, w: World, a: Answer, p: string)
    requires Settled(o, w, p)
    ensures Settled(o, Wait(w, a), p)
  {
  }

  lemma NextSettled(s: Sys, x: Action, i: nat, p: string)
    requires Sane(s) && i < |s.owners| && Settled(s.owners[i], s.world, p) && !Touches(s, x, i, p)
    ensures i < |Next(s, x).owners| && Settled(Next(s, x).owners[i], Next(s, x).world, p)
  {
    var o := s.owners[i];
    match x
    case Act(j, a) =>
      if j == i {
        OwnActSettled(o, s.world, a, p);
      } else if j < |s.owners| {
        ActSettled(s, j, a, i, p);
      }
    case DogAct(a) =>
      if Drives(o, p) {
        OtherPassUndisturbed(o, p, s.dog, s.world, a);
      }
    case Sweep(q, policy, a) =>
      StartPassMeaning(q, policy, s.world, a);
      WaitSettled(o, s.world, a, p);
    case Kill(_) => KillSettled(o, s.world, p);
    case _ =>
  }

  lemma OwnActSettled(o: Owner, w: World, a: Answer, p: string)
    requires WellFormed(w.rows) && OwnerInPlace(o, w.rows) && Settled(o, w, p)
    ensures Settled(OwnerStep(o, w, a).0, OwnerStep(o, w, a).1, p)
  {
    if Drives(o, p) {
      OwnStepUndisturbed(o, w, a);
    } else {
      StillElsewhere(o, w, a, p);
    }
  }

  lemma StillElsewhere(o: Owner, w: World, a: Answer, p: string)
    requires !Drives(o, p)
    ensures !Drives(OwnerStep(o, w, a).0, p)
  {
  }

  lemma {:induction false} AloneStaysSettled(devices: map<string, Json>, xs: seq<Action>, i: nat, p: string)
    requires AloneOnDevice(devices, xs, i, p) && i < |Run(Initial(devices), xs).owners|
    ensures Settled(Run(Initial(devices), xs).owners[i], Run(Initial(devices), xs).world, p)
  {
    var n := |xs| - 1;
    var init := xs[..n];
    var s := Run(Initial(devices), init);
    if i < |s.owners| {
      assert forall k :: 0 <= k < n ==> init[..k] == xs[..k] && init[k] == xs[k];
      AloneStaysSettled(devices, init, i, p);
      ReachableSane(devices, init);
      NextSettled(s, xs[n], i, p);
    }
  }

  /** Apply was called in the run for owner `i`. */
  ghost predicate ApplyCalled(devices: map<string, Json>, xs: seq<Action>, i: nat) {
    exists k :: 0 <= k < |xs| && xs[k].Act? && xs[k].owner == i
                && i < |Run(Initial(devices), xs[..k]).owners| && Run(Initial(devices), xs[..k]).owners[i].Applying?
  }

  predicate Intends(s: Sys, i: nat) {
    i < |s.owners| && TicketOf(s.owners[i]).Some? && ProgressOf(s.world.rows, IdOf(s.owners[i])).Intended()
  }

  lemma NextIntends(s: Sys, x: Action, i: nat)
    requires Inv(s) && Intends(s, i)
    ensures Intends(Next(s, x), i)
  {
    match x
    case Act(j, a) =>
      if j < |s.owners| {
        OwnerKeepsJournal(s.owners[j], s.world, a);
        if j == i {
          OwnerStepKeepsStep(s.owners[j], s.world, a);
        }
      }
    case DogAct(a) => DogStepEffect(s.dog, s.world, a, IdOf(s.owners[i]));
    case _ =>
  }

  /** In any run, once apply has been called its experiment is intended for good. */
  lemma {:induction false} AppliedIntends(devices: map<string, Json>, xs: seq<Action>, i: nat)
    requires ApplyCalled(devices, xs, i)
    ensures Intends(Run(Initial(devices), xs), i)
  {
    var k :| 0 <= k < |xs| && xs[k].Act? && xs[k].owner == i
             && i < |Run(Initial(devices), xs[..k]).owners| && Run(Initial(devices), xs[..k]).owners[i].Applying?;
    Reachable(devices, xs[..k]);
    ApplyingIntends(Run(Initial(devices), xs[..k]), i);
    IntendsFrom(devices, xs, i, k, |xs|);
    assert xs[..|xs|] == xs;
  }

  lemma ApplyingIntends(s: Sys, i: nat)
    requires Inv(s) && i < |s.owners| && s.owners[i].Applying?
    ensures Intends(s, i)
  {
    assert OwnerInPlace(s.owners[i], s.world.rows);
  }

  lemma {:induction false} IntendsFrom(devices: map<string, Json>, xs: seq<Action>, i: nat, k: nat, m: nat)
    requires k <= m <= |xs| && IntendsAt(devices, xs, i, k)
    ensures IntendsAt(devices, xs, i, m)
  {
    if k < m {
      IntendsFrom(devices, xs, i, k, m - 1);
      IntendsGoesOn(devices, xs, i, m - 1);
    }
  }

  predicate IntendsAt(devices: map<string, Json>, xs: seq<Action>, i: nat, n: nat)
    requires n <= |xs|
  {
    Intends(Run(Initial(devices), xs[..n]), i)
  }

  lemma {:induction false} IntendsGoesOn(devices: map<string, Json>, xs: seq<Action>, i: nat, n: nat)
    requires n < |xs| && IntendsAt(devices, xs, i, n)
    ensures IntendsAt(devices, xs, i, n + 1)
  {
    Reachable(devices, xs[..n]);
    assert xs[..n + 1][..n] == xs[..n];
    NextIntends(Run(Initial(devices), xs[..n]), xs[n], i);
  }

  /**
    The meaning of the journal under interleaving.  For any owner, stopped or not,
    in any run: as long as nobody else has used its device since it started, the
    rows of its experiment mean what they mean for a lifecycle that runs alone.
    Lifecycles and passes of other providers, faults and crashes change nothing.
   */
  lemma JournalMeansDirtinessInRuns(devices: map<string, Json>, xs: seq<Action>, i: nat, p: string)
    requires AloneOnDevice(devices, xs, i, p)
    requires var s := Run(Initial(devices), xs);
             i < |s.owners| && TicketOf(s.owners[i]).Some? && TicketOf(s.owners[i]).value.provider == p
    ensures var s := Run(Initial(devices), xs);
            var t := TicketOf(s.owners[i]).value;
            && MeansDirtiness(t, s.world.rows, Device(s.world, p))
            && (StageCount(s.world.rows, t.id, AtApplyIntent) == 0 ==> !ApplyCalled(devices, xs, i))
  {
    var s := Run(Initial(devices), xs);
    AloneStaysSettled(devices, xs, i, p);
    ReachableSane(devices, xs);
    FitsMeansDirtiness(s.owners[i], s.world.rows, Device(s.world, p));
    CountsFollowProgress(s.world.rows, IdOf(s.owners[i]));
    if ApplyCalled(devices, xs, i) {
      AppliedIntends(devices, xs, i);
    }
  }
}
