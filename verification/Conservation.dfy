/**
  The device of one provider over whole runs: its lifecycles one at a time, with
  journal and provider faults and crashes at any step, watchdog passes over it in
  between, and lifecycles and passes of other providers interleaving.
 */
module Conservation {
  import opened Wrappers
  import opened Contracts
  import opened Journal
  import opened Lifecycle
  import opened ControlPlanes
  import opened Dirtiness
  import opened Scans
  import opened Recovery
  import opened Systems
  import opened Protocol
  import opened Passes
  import opened Repairs
  import opened Sharing
  import opened Orderly
  import opened Culprits

  /**
    A run under observation: `pending` says that something died or failed over the
    device and no full pass has succeeded since, `full` that the pass at work over
    it is a full one.
   */
  datatype Watched = Watched(s: Sys, pending: bool, full: bool)

  /** The rollback of an in-process restore works: no fault, and the snapshot's state. */
  predicate RollbackWorks(o: Owner, a: Answer) {
    o.RollingBack? ==> a.fault.None? && a.landed == o.ticket.snapshot.state
  }

  /**
    What the run may do next: over the device of `p`, every fault is allowed except
    a failed in-process rollback; elsewhere, everything.
   */
  predicate Allowed(p: string, v: Watched, x: Action) {
    match x
    case Start(manifest, _) =>
      manifest.id == p ==> OwnersQuiet(v.s, p) && !DogOn(v.s.dog, p) && !v.pending
    case Act(i, a) =>
      i < |v.s.owners| && Drives(v.s.owners[i], p) ==> RollbackWorks(v.s.owners[i], a)
    case Sweep(q, _, _) => q == p ==> OwnersQuiet(v.s, p)
    case _ => true
  }

  /** The pass that just came to rest restored everything it selected. */
  predicate Succeeded(d: Dog) {
    d.Ended? && d.result.Ok? && AllRestored(d.result.value)
  }

  function Observe(p: string, v: Watched, x: Action): Watched {
    var s' := Next(v.s, x);
    match x
    case Start(_, _) => v.(s := s')
    case Act(_, _) => v.(s := s')
    case Kill(i) =>
      var dies := i < |v.s.owners| && !Stopped(v.s.owners[i]) && Drives(v.s.owners[i], p);
      v.(s := s', pending := v.pending || dies)
    case Sweep(q, policy, _) =>
      if q != p || !Resting(v.s.dog) then v.(s := s')
      else
        var full := policy == AllUnclosed;
        Watched(s', v.pending && !(full && Succeeded(s'.dog)), full)
    case DogAct(_) =>
      if !DogOn(v.s.dog, p) || DogOn(s'.dog, p) then v.(s := s')
      else v.(s := s', pending := if Succeeded(s'.dog) then v.pending && !v.full else true)
    case KillDog => v.(s := s', pending := v.pending || DogOn(v.s.dog, p))
  }

  function ObserveAll(p: string, v: Watched, xs: seq<Action>): Watched {
    if xs == [] then v else Observe(p, ObserveAll(p, v, xs[..|xs| - 1]), xs[|xs| - 1])
  }

  ghost predicate AllAllowed(p: string, v: Watched, xs: seq<Action>) {
    forall k :: 0 <= k < |xs| ==> Allowed(p, ObserveAll(p, v, xs[..k]), xs[k])
  }

  // ----- the invariant ----------------------------------------------------------

  /** Every snapshot row of the provider holds the baseline. */
  predicate SnapshotsHold(rows: seq<Row>, p: string, baseline: Json) {
    forall k :: 0 <= k < |rows| ==> SnapshotHolds(rows[k], p, baseline)
  }

  /** A live owner may have left the device dirty only between apply and rollback. */
  predicate MayBeDirty(o: Owner) {
    o.RecordingApply? || o.Verifying? || o.RecordingVerify? || o.RollingBack?
  }

  /** The owner holds the baseline, and so does the device unless it may be dirty. */
  predicate Holding(baseline: Json, o: Owner, device: Json) {
    && (o.Beginning? ==> o.snapshot.state == baseline)
    && (TicketOf(o).Some? ==> TicketOf(o).value.snapshot.state == baseline)
    && (!MayBeDirty(o) ==> device == baseline)
  }

  /** What is true of a live owner of `p`. */
  predicate OwnerSound(p: string, baseline: Json, o: Owner, w: World) {
    && Holding(baseline, o, Device(w, p))
    && (TicketOf(o).Some? ==> TerminalsBy(w.rows, IdOf(o), true) == 0)
  }

  predicate OwnersSound(p: string, baseline: Json, s: Sys) {
    forall i :: 0 <= i < |s.owners| && !Stopped(s.owners[i]) && Drives(s.owners[i], p) ==>
                  OwnerSound(p, baseline, s.owners[i], s.world)
  }

  /** What a pass over `p` has in hand: unclosed experiments, all of them in a full pass that restored so far. */
  ghost predicate DogListed(p: string, baseline: Json, d: Dog, w: World, full: bool) {
    DogOn(d, p) ==>
      && (forall i :: 0 <= i < |Todo(d)| ==> Todo(d)[i].snapshot == StateSnapshot(p, baseline))
      && (forall i :: 0 <= i < |Todo(d)| ==> UnclosedOf(w.rows, p, Todo(d)[i].id))
      && (full && AllRestored(d.pass.done) ==> forall e: nat :: UnclosedOf(w.rows, p, e) ==> InHand(d, e))
  }

  /** Where a pass over `p` has left the device. */
  predicate DogPlaced(p: string, baseline: Json, d: Dog, w: World, pending: bool) {
    DogOn(d, p) ==>
      && (d.Settling? ==> Device(w, p) == baseline)
      && (d.Restoring? && !pending && AllRestored(d.pass.done) ==> Device(w, p) == baseline)
  }

  ghost predicate DogSound(p: string, baseline: Json, v: Watched) {
    DogListed(p, baseline, v.s.dog, v.s.world, v.full) && DogPlaced(p, baseline, v.s.dog, v.s.world, v.pending)
  }

  /** Nobody uses the device of `p`. */
  predicate Idling(p: string, s: Sys) {
    OwnersQuiet(s, p) && !DogOn(s.dog, p)
  }

  /** The device holds the baseline, or something is listed that holds it; and it does when nothing is left to do. */
  ghost predicate Accounted(p: string, baseline: Json, v: Watched) {
    && (Device(v.s.world, p) == baseline || HasUnclosed(v.s.world.rows, p))
    && (Idling(p, v.s) && !v.pending ==> Device(v.s.world, p) == baseline)
  }

  /** Snapshots, owners, pass and device agree on the baseline. */
  ghost predicate Agrees(p: string, baseline: Json, v: Watched) {
    && SnapshotsHold(v.s.world.rows, p, baseline)
    && OneUser(p, v.s)
    && OwnersSound(p, baseline, v.s)
    && DogSound(p, baseline, v)
    && Accounted(p, baseline, v)
  }

  ghost predicate Sound(p: string, baseline: Json, v: Watched) {
    Sane(v.s) && Agrees(p, baseline, v)
  }

  // ----- steps that do not use the device -------------------------------------------

  /** If the users of the device that were at work still are, it idles only if it idled. */
  lemma StillBusy(p: string, s: Sys, s': Sys)
    requires DogOn(s.dog, p) ==> DogOn(s'.dog, p)
    requires |s.owners| <= |s'.owners|
    requires forall i :: 0 <= i < |s.owners| && !Stopped(s.owners[i]) && Drives(s.owners[i], p) ==>
                           !Stopped(s'.owners[i]) && Drives(s'.owners[i], p)
    ensures Idling(p, s') ==> Idling(p, s)
  {
    if !OwnersQuiet(s, p) {
      var i :| 0 <= i < |s.owners| && !Stopped(s.owners[i]) && Drives(s.owners[i], p);
      assert !Stopped(s'.owners[i]) && Drives(s'.owners[i], p);
    }
  }

  lemma StartAgrees(p: string, baseline: Json, v: Watched, x: Action)
    requires Agrees(p, baseline, v) && Allowed(p, v, x) && x.Start?
    ensures Agrees(p, baseline, Observe(p, v, x))
  {
    NextOneUser(p, v.s, x);
    StillBusy(p, v.s, Next(v.s, x));
  }

  lemma KillAgrees(p: string, baseline: Json, v: Watched, x: Action)
    requires Agrees(p, baseline, v) && x.Kill?
    ensures Agrees(p, baseline, Observe(p, v, x))
  {
    NextOneUser(p, v.s, x);
    if !Observe(p, v, x).pending {
      StillBusy(p, v.s, Next(v.s, x));
    }
  }

  lemma KillDogAgrees(p: string, baseline: Json, v: Watched, x: Action)
    requires Agrees(p, baseline, v) && x.KillDog?
    ensures Agrees(p, baseline, Observe(p, v, x))
  {
    NextOneUser(p, v.s, x);
  }

  /** What the experiments and the device of `p` are known by has not changed. */
  ghost predicate SameFor(p: string, w: World, w': World) {
    && Device(w', p) == Device(w, p)
    && forall e: nat :: UnclosedOf(w'.rows, p, e) <==> UnclosedOf(w.rows, p, e)
  }

  /** A step of an owner that does not drive `p`, or no longer. */
  lemma OtherActIsSame(o: Owner, w: World, a: Answer, p: string)
    requires WellFormed(w.rows) && OwnerInPlace(o, w.rows) && TicketOnRecord(o, w.rows)
    requires Stopped(o) || !Drives(o, p)
    ensures SameFor(p, w, OwnerStep(o, w, a).1)
  {
    var w' := OwnerStep(o, w, a).1;
    ActElsewhere(o, w, a, p);
    forall e: nat
      ensures UnclosedOf(w'.rows, p, e) <==> UnclosedOf(w.rows, p, e)
    {
      if UnclosedOf(w.rows, p, e) {
        ActKeepsListed(o, w, a, p, e);
      } else if UnclosedOf(w'.rows, p, e) {
        ActUncloses(o, w, a, p, e);
      }
    }
  }

  lemma OtherPassIsSame(d: Dog, w: World, a: Answer, p: string)
    requires WellFormed(w.rows) && DogFits(d, w.rows) && HoldsOwn(d, w.rows) && !DogOn(d, p)
    ensures SameFor(p, w, DogStep(d, w, a).1)
  {
    PassElsewhere(d, w, a, p);
    forall e: nat
      ensures UnclosedOf(DogStep(d, w, a).1.rows, p, e) <==> UnclosedOf(w.rows, p, e)
    {
      if !Resting(d) {
        assert Todo(d)[0] == d.pass.current;
      }
      DogStepUnclosed(p, d, w, a, e);
    }
  }

  lemma ActSnapshots(p: string, baseline: Json, o: Owner, w: World, a: Answer)
    requires HonestOwner(o) && SnapshotsHold(w.rows, p, baseline)
    requires Drives(o, p) && !Stopped(o) ==> Holding(baseline, o, Device(w, p))
    ensures SnapshotsHold(OwnerStep(o, w, a).1.rows, p, baseline)
  {
    var (o', w') := OwnerStep(o, w, a);
    RecordsTicket(o, w, a);
    OwnerStaysHonest(o, w, a);
    if w'.rows != w.rows {
      assert forall k :: 0 <= k < |w.rows| ==> w'.rows[k] == w.rows[k];
    }
  }

  lemma OtherActOwners(p: string, baseline: Json, s: Sys, j: nat, a: Answer)
    requires Sane(s) && OwnersSound(p, baseline, s)
    requires j < |s.owners| && (Stopped(s.owners[j]) || !Drives(s.owners[j], p))
    ensures OwnersSound(p, baseline, Next(s, Act(j, a)))
  {
    var s' := Next(s, Act(j, a));
    ActElsewhere(s.owners[j], s.world, a, p);
    StepDrives(s.owners[j], s.world, a, p);
    forall i | 0 <= i < |s'.owners| && !Stopped(s'.owners[i]) && Drives(s'.owners[i], p)
      ensures OwnerSound(p, baseline, s'.owners[i], s'.world)
    {
      if TicketOf(s.owners[i]).Some? {
        ActOnOtherRows(s.owners[i], s.owners[j], s.world, a);
      }
    }
  }

  lemma OtherActAgrees(p: string, baseline: Json, v: Watched, j: nat, a: Answer)
    requires Sound(p, baseline, v)
    requires j < |v.s.owners| && (Stopped(v.s.owners[j]) || !Drives(v.s.owners[j], p))
    ensures Agrees(p, baseline, Observe(p, v, Act(j, a)))
  {
    var s := v.s;
    var o := s.owners[j];
    if Stopped(o) {
      assert Next(s, Act(j, a)) == s;
    } else {
      OtherActIsSame(o, s.world, a, p);
      ActSnapshots(p, baseline, o, s.world, a);
      OtherActOwners(p, baseline, s, j, a);
      NextOneUser(p, s, Act(j, a));
      StillBusy(p, s, Next(s, Act(j, a)));
      OtherStepAccounted(p, baseline, v, Act(j, a));
    }
  }

  /** The device, the listing and the users of `p` are as before. */
  lemma OtherStepAccounted(p: string, baseline: Json, v: Watched, x: Action)
    requires Accounted(p, baseline, v) && DogSound(p, baseline, v)
    requires SameFor(p, v.s.world, Next(v.s, x).world)
    requires Idling(p, Next(v.s, x)) ==> Idling(p, v.s)
    requires Next(v.s, x).dog == v.s.dog || !DogOn(Next(v.s, x).dog, p)
    requires Observe(p, v, x) == v.(s := Next(v.s, x))
    ensures Accounted(p, baseline, Observe(p, v, x)) && DogSound(p, baseline, Observe(p, v, x))
  {
  }

  lemma OtherPassAgrees(p: string, baseline: Json, v: Watched, a: Answer)
    requires Sound(p, baseline, v) && !DogOn(v.s.dog, p)
    ensures Agrees(p, baseline, Observe(p, v, DogAct(a)))
  {
    var s, s' := v.s, Next(v.s, DogAct(a));
    OtherPassIsSame(s.dog, s.world, a, p);
    DogStepSnapshots(p, baseline, s.dog, s.world, a);
    PassStaysOn(s.dog, s.world, a, p);
    NextOneUser(p, s, DogAct(a));
    forall i | 0 <= i < |s.owners| && !Stopped(s.owners[i]) && Drives(s.owners[i], p)
      ensures OwnerSound(p, baseline, s.owners[i], s'.world)
    {
      if TicketOf(s.owners[i]).Some? {
        PassOnOtherRows(s.owners[i], s.dog, s.world, a);
      }
    }
    OtherStepAccounted(p, baseline, v, DogAct(a));
  }

  /** A pass over another provider starts, or none can. */
  lemma OtherSweepAgrees(p: string, baseline: Json, v: Watched, q: string, policy: ReclaimPolicy, a: Answer)
    requires Agrees(p, baseline, v) && (q != p || !Resting(v.s.dog))
    ensures Agrees(p, baseline, Observe(p, v, Sweep(q, policy, a)))
  {
    var s, s' := v.s, Next(v.s, Sweep(q, policy, a));
    if Resting(s.dog) {
      SweepIsOn(q, policy, s.world, a);
      SweepNotSettling(q, policy, s.world, a);
      NextOneUser(p, s, Sweep(q, policy, a));
      OtherStepAccounted(p, baseline, v, Sweep(q, policy, a));
    }
  }

  // ----- steps of the lifecycle of p ----------------------------------------------------

  /** What one step of a live owner does to the device. */
  lemma OwnerStepHolding(p: string, baseline: Json, o: Owner, w: World, a: Answer)
    requires Holding(baseline, o, Device(w, p)) && !Stopped(o) && Drives(o, p) && RollbackWorks(o, a)
    ensures var (o', w') := OwnerStep(o, w, a); Holding(baseline, o', Device(w', p))
  {
  }

  lemma OwnerStepSound(p: string, baseline: Json, o: Owner, w: World, a: Answer)
    requires OwnerSound(p, baseline, o, w) && !Stopped(o) && Drives(o, p) && RollbackWorks(o, a)
    requires WellFormed(w.rows) && OwnerInPlace(o, w.rows)
    ensures var (o', w') := OwnerStep(o, w, a); OwnerSound(p, baseline, o', w')
  {
    OwnerStepHolding(p, baseline, o, w, a);
    OwnerKeepsJournal(o, w, a);
    FreshHasNoRows(w.rows, MaxId(w.rows) + 1);
    OwnerStepKeepsStep(o, w, a);
  }

  /** An owner between apply and rollback is listed as unclosed. */
  lemma LiveIsListed(p: string, baseline: Json, o: Owner, w: World)
    requires OwnerSound(p, baseline, o, w) && MayBeDirty(o) && Drives(o, p)
    requires WellFormed(w.rows) && OwnerInPlace(o, w.rows) && TicketOnRecord(o, w.rows)
    ensures UnclosedOf(w.rows, p, IdOf(o))
  {
    CountsFollowProgress(w.rows, IdOf(o));
  }

  /** After the step of the one live owner of `p`. */
  lemma OwnActAccounted(p: string, baseline: Json, v: Watched, i: nat, a: Answer)
    requires Sound(p, baseline, v) && Allowed(p, v, Act(i, a))
    requires i < |v.s.owners| && !Stopped(v.s.owners[i]) && Drives(v.s.owners[i], p)
    ensures var v' := Observe(p, v, Act(i, a));
            Accounted(p, baseline, v') && OwnerSound(p, baseline, v'.s.owners[i], v'.s.world)
  {
    var s, s' := v.s, Next(v.s, Act(i, a));
    var o, o' := s.owners[i], s'.owners[i];
    assert OwnerInPlace(o, s.world.rows) && TicketOnRecord(o, s.world.rows);
    OwnerStepSound(p, baseline, o, s.world, a);
    if MayBeDirty(o') {
      OwnerDirtyIsListed(p, baseline, o, s.world, a);
      assert !OwnersQuiet(s', p);
    }
  }

  lemma OwnerDirtyIsListed(p: string, baseline: Json, o: Owner, w: World, a: Answer)
    requires WellFormed(w.rows) && OwnerInPlace(o, w.rows) && TicketOnRecord(o, w.rows) && Drives(o, p)
    requires OwnerSound(p, baseline, OwnerStep(o, w, a).0, OwnerStep(o, w, a).1)
    requires MayBeDirty(OwnerStep(o, w, a).0)
    ensures Drives(OwnerStep(o, w, a).0, p) && HasUnclosed(OwnerStep(o, w, a).1.rows, p)
  {
    OwnerKeepsJournal(o, w, a);
    ActKeepsRecord(o, w, a);
    SameProvider(o, w, a, p);
    LiveIsListed(p, baseline, OwnerStep(o, w, a).0, OwnerStep(o, w, a).1);
  }

  lemma ActAgrees(p: string, baseline: Json, v: Watched, i: nat, a: Answer)
    requires Sound(p, baseline, v) && Allowed(p, v, Act(i, a))
    ensures Agrees(p, baseline, Observe(p, v, Act(i, a)))
  {
    var s := v.s;
    if i < |s.owners| {
      if Stopped(s.owners[i]) || !Drives(s.owners[i], p) {
        OtherActAgrees(p, baseline, v, i, a);
      } else {
        SoleUser(p, s, i);
        NextOneUser(p, s, Act(i, a));
        ActSnapshots(p, baseline, s.owners[i], s.world, a);
        OwnActAccounted(p, baseline, v, i, a);
      }
    }
  }

  // ----- passes over p ------------------------------------------------------------------

  /** What a pass takes up holds the baseline. */
  lemma SweepHoldsBaseline(p: string, baseline: Json, s: Sys, policy: ReclaimPolicy, a: Answer)
    requires WellFormed(s.world.rows) && OwnSnapshots(s.world.rows) && SnapshotsHold(s.world.rows, p, baseline)
    ensures var d := StartPass(p, policy, s.world, a).0;
            forall i :: 0 <= i < |Todo(d)| ==>
                          && Todo(d)[i].snapshot == StateSnapshot(p, baseline)
                          && UnclosedOf(s.world.rows, p, Todo(d)[i].id)
  {
    StartPassMeaning(p, policy, s.world, a);
    var d := StartPass(p, policy, s.world, a).0;
    forall i | 0 <= i < |Todo(d)|
      ensures Todo(d)[i].snapshot == StateSnapshot(p, baseline)
    {
      assert OwnSnapshot(s.world.rows, Todo(d)[i].id);
      StageRowIsUnique(s.world.rows, Todo(d)[i].id, AtSnapshot);
    }
  }

  /** What a pass starts with is listed. */
  lemma SweepLists(p: string, baseline: Json, s: Sys, policy: ReclaimPolicy, a: Answer)
    requires WellFormed(s.world.rows) && OwnSnapshots(s.world.rows) && SnapshotsHold(s.world.rows, p, baseline)
    ensures var (d, w) := StartPass(p, policy, s.world, a);
            && w == Wait(s.world, a)
            && DogListed(p, baseline, d, w, policy == AllUnclosed)
            && !d.Settling?
            && (!Resting(d) ==> d.pass.done == [])
            && (Succeeded(d) && policy == AllUnclosed ==> !HasUnclosed(w.rows, p))
  {
    StartPassMeaning(p, policy, s.world, a);
    SweepSelects(p, policy, s.world, a);
    SweepHoldsBaseline(p, baseline, s, policy, a);
    var d := StartPass(p, policy, s.world, a).0;
    if Resting(d) {
      assert forall e: nat :: !InHand(d, e);
    }
  }

  lemma SweepAgrees(p: string, baseline: Json, v: Watched, policy: ReclaimPolicy, a: Answer)
    requires Sound(p, baseline, v) && Allowed(p, v, Sweep(p, policy, a)) && Resting(v.s.dog)
    ensures Agrees(p, baseline, Observe(p, v, Sweep(p, policy, a)))
  {
    var s, s' := v.s, Next(v.s, Sweep(p, policy, a));
    SweepLists(p, baseline, s, policy, a);
    NextOneUser(p, s, Sweep(p, policy, a));
    assert s'.world == Wait(s.world, a);
    assert HasUnclosed(s'.world.rows, p) <==> HasUnclosed(s.world.rows, p);
  }

  /** A full pass takes in everything unclosed. */
  lemma SweepSelects(p: string, policy: ReclaimPolicy, w: World, a: Answer)
    requires WellFormed(w.rows)
    ensures policy == AllUnclosed && a.journal.None? ==>
              forall e: nat :: UnclosedOf(w.rows, p, e) ==> InHand(StartPass(p, policy, w, a).0, e)
  {
    if policy == AllUnclosed && a.journal.None? {
      forall e: nat | UnclosedOf(w.rows, p, e)
        ensures InHand(StartPass(p, policy, w, a).0, e)
      {
        SweepTakes(p, w, a, e);
      }
    }
  }

  /** What a full pass starts with is the whole scan. */
  lemma FullPassTodo(p: string, w: World, a: Answer)
    requires a.journal.None? && Scan(w.rows, p, w.now + a.elapsed).Ok?
    ensures Todo(StartPass(p, AllUnclosed, w, a).0) == Scan(w.rows, p, w.now + a.elapsed).value
  {
    var cs := Scan(w.rows, p, w.now + a.elapsed).value;
    ScannedUnfolds(p, AllUnclosed, w, a, cs);
    ChoosingAll(cs);
    NextUpHands(p, cs);
  }

  lemma SweepTakes(p: string, w: World, a: Answer, e: nat)
    requires WellFormed(w.rows) && a.journal.None? && UnclosedOf(w.rows, p, e)
    ensures InHand(StartPass(p, AllUnclosed, w, a).0, e)
  {
    ScanMeaning(w.rows, p, w.now + a.elapsed);
    var cs := Scan(w.rows, p, w.now + a.elapsed).value;
    assert Lists(cs, e);
    FullPassTodo(p, w, a);
  }

  /** What one step of a pass does to the unclosed experiments of the provider. */
  lemma DogStepUnclosed(p: string, d: Dog, w: World, a: Answer, e: nat)
    requires WellFormed(w.rows) && DogFits(d, w.rows)
    ensures UnclosedOf(DogStep(d, w, a).1.rows, p, e)
            <==> UnclosedOf(w.rows, p, e) && !(d.Settling? && a.journal.None? && d.pass.current.id == e)
  {
    DogStepEffect(d, w, a, e);
    DogKeepsStageRows(d, w, a, e);
  }

  lemma DogStepSnapshots(p: string, baseline: Json, d: Dog, w: World, a: Answer)
    requires SnapshotsHold(w.rows, p, baseline)
    ensures SnapshotsHold(DogStep(d, w, a).1.rows, p, baseline)
  {
    var (d', w') := DogStep(d, w, a);
    DogStepRows(d, w, a);
    assert forall k :: 0 <= k < |w'.rows| ==> k < |w.rows| ==> w'.rows[k] == w.rows[k];
  }

  lemma DogStepHands(d: Dog, d': Dog, e: nat)
    requires !Resting(d) && (Todo(d') == Todo(d) || Todo(d') == d.pass.rest)
    ensures InHand(d', e) ==> InHand(d, e)
    ensures InHand(d, e) && d.pass.current.id != e ==> InHand(d', e)
  {
    assert Todo(d)[0] == d.pass.current && Todo(d)[1..] == d.pass.rest;
    if InHand(d', e) {
      var i :| 0 <= i < |Todo(d')| && Todo(d')[i].id == e;
      assert Todo(d)[i].id == e || Todo(d)[i + 1].id == e;
    }
    if InHand(d, e) && d.pass.current.id != e {
      var i :| 0 <= i < |Todo(d)| && Todo(d)[i].id == e;
      assert d.pass.rest[i - 1].id == e;
      assert Todo(d') == Todo(d) ==> Todo(d')[i].id == e;
    }
  }

  /** The device after one step of a pass. */
  lemma DogStepDevice(p: string, baseline: Json, v: Watched, a: Answer)
    requires Sound(p, baseline, v) && DogOn(v.s.dog, p)
    ensures var (d', w') := DogStep(v.s.dog, v.s.world, a);
            && (d'.Settling? || (Added(v.s.dog, d') != [] && AllRestored(Added(v.s.dog, d'))) ==>
                  Device(w', p) == baseline)
            && (Device(w', p) == baseline || HasUnclosed(w'.rows, p))
            && (!v.s.dog.Restoring? ==> Device(w', p) == Device(v.s.world, p))
  {
    var s := v.s;
    var (d', w') := DogStep(s.dog, s.world, a);
    var e := s.dog.pass.current.id;
    assert Todo(s.dog)[0] == s.dog.pass.current;
    AddedReports(s.dog, s.world, a);
    if s.dog.Restoring? {
      DogStepUnclosed(p, s.dog, s.world, a, e);
    } else if HasUnclosed(s.world.rows, p) && !s.dog.Settling? {
      var f: nat :| UnclosedOf(s.world.rows, p, f);
      DogStepUnclosed(p, s.dog, s.world, a, f);
    }
  }

  lemma AllRestoredSnoc(done: seq<Restoration>, added: seq<Restoration>)
    requires |added| <= 1
    ensures AllRestored(done + added) <==> AllRestored(done) && AllRestored(added)
  {
    assert forall i :: 0 <= i < |done + added| ==> (done + added)[i] == if i < |done| then done[i] else added[i - |done|];
    assert forall i :: 0 <= i < |done| ==> done[i] == (done + added)[i];
    assert added != [] ==> added[0] == (done + added)[|done|];
  }

  /** What the pass holds next, experiment by experiment. */
  lemma DogHands(p: string, d: Dog, w: World, a: Answer, e: nat)
    requires WellFormed(w.rows) && DogFits(d, w.rows) && !Resting(d) && !Resting(DogStep(d, w, a).0)
    ensures var (d', w') := DogStep(d, w, a);
            && (Todo(d') == Todo(d) || Todo(d') == d.pass.rest)
            && (InHand(d', e) ==> InHand(d, e))
            && (InHand(d, e) && d.pass.current.id != e ==> InHand(d', e))
            && (UnclosedOf(w'.rows, p, e)
                <==> UnclosedOf(w.rows, p, e) && !(d.Settling? && a.journal.None? && d.pass.current.id == e))
  {
    var d' := DogStep(d, w, a).0;
    AddedReports(d, w, a);
    if Added(d, d') != [] {
      OnwardTodo(d.pass, Added(d, d')[0].error);
    }
    DogStepHands(d, d', e);
    DogStepUnclosed(p, d, w, a, e);
  }

  /** What a pass still holds is still unclosed. */
  lemma HeldStaysUnclosed(p: string, d: Dog, w: World, a: Answer)
    requires WellFormed(w.rows) && DogFits(d, w.rows) && !Resting(d) && !Resting(DogStep(d, w, a).0)
    requires forall i :: 0 <= i < |Todo(d)| ==> UnclosedOf(w.rows, p, Todo(d)[i].id)
    ensures var (d', w') := DogStep(d, w, a);
            forall i :: 0 <= i < |Todo(d')| ==> UnclosedOf(w'.rows, p, Todo(d')[i].id)
  {
    var (d', w') := DogStep(d, w, a);
    assert Todo(d)[1..] == d.pass.rest;
    forall i | 0 <= i < |Todo(d')|
      ensures UnclosedOf(w'.rows, p, Todo(d')[i].id)
    {
      DogHands(p, d, w, a, Todo(d')[i].id);
      DogStepEffect(d, w, a, Todo(d')[i].id);
    }
  }

  /** A full pass that has restored so far still holds everything unclosed. */
  lemma FullStaysFull(p: string, d: Dog, w: World, a: Answer)
    requires WellFormed(w.rows) && DogFits(d, w.rows) && !Resting(d) && !Resting(DogStep(d, w, a).0)
    requires AllRestored(d.pass.done) ==> forall e: nat :: UnclosedOf(w.rows, p, e) ==> InHand(d, e)
    ensures var (d', w') := DogStep(d, w, a);
            AllRestored(d'.pass.done) ==> forall e: nat :: UnclosedOf(w'.rows, p, e) ==> InHand(d', e)
  {
    var (d', w') := DogStep(d, w, a);
    AddedReports(d, w, a);
    if Added(d, d') != [] {
      AllRestoredSnoc(d.pass.done, Added(d, d'));
    }
    if AllRestored(d'.pass.done) {
      forall e: nat | UnclosedOf(w'.rows, p, e)
        ensures InHand(d', e)
      {
        DogHands(p, d, w, a, e);
      }
    }
  }

  lemma DogStaysListed(p: string, baseline: Json, d: Dog, w: World, a: Answer, full: bool)
    requires WellFormed(w.rows) && DogFits(d, w.rows) && !Resting(d) && !Resting(DogStep(d, w, a).0)
    requires DogOn(d, p) && DogListed(p, baseline, d, w, full)
    ensures DogListed(p, baseline, DogStep(d, w, a).0, DogStep(d, w, a).1, full)
  {
    assert Todo(d)[1..] == d.pass.rest;
    DogHands(p, d, w, a, 0);
    HeldStaysUnclosed(p, d, w, a);
    if full {
      FullStaysFull(p, d, w, a);
    }
  }

  /** A pass that goes on stays sound. */
  lemma DogGoesOn(p: string, baseline: Json, v: Watched, a: Answer)
    requires Sound(p, baseline, v) && DogOn(v.s.dog, p) && !Resting(Next(v.s, DogAct(a)).dog)
    ensures DogSound(p, baseline, Observe(p, v, DogAct(a)))
  {
    var s := v.s;
    var (d', w') := DogStep(s.dog, s.world, a);
    DogStaysListed(p, baseline, s.dog, s.world, a, v.full);
    AddedReports(s.dog, s.world, a);
    DogStepDevice(p, baseline, v, a);
    if Added(s.dog, d') != [] {
      AllRestoredSnoc(s.dog.pass.done, Added(s.dog, d'));
    }
    assert DogPlaced(p, baseline, d', w', v.pending);
  }

  /** A pass that ends having restored everything leaves the device at the baseline. */
  lemma DogEndsWell(p: string, baseline: Json, v: Watched, a: Answer)
    requires Sound(p, baseline, v) && DogOn(v.s.dog, p) && Succeeded(Next(v.s, DogAct(a)).dog)
    ensures Device(Next(v.s, DogAct(a)).world, p) == baseline
  {
    var s := v.s;
    var d' := DogStep(s.dog, s.world, a).0;
    var added := Added(s.dog, d');
    AddedReports(s.dog, s.world, a);
    DogStepDevice(p, baseline, v, a);
    assert added == [added[0]];
    AllRestoredSnoc(s.dog.pass.done, added);
  }

  /** A pass goes on, or comes to its end. */
  lemma DogAccounted(p: string, baseline: Json, v: Watched, a: Answer)
    requires Sound(p, baseline, v) && DogOn(v.s.dog, p)
    ensures var v' := Observe(p, v, DogAct(a));
            DogSound(p, baseline, v') && Accounted(p, baseline, v')
  {
    var s' := Next(v.s, DogAct(a));
    DogStepDevice(p, baseline, v, a);
    DogKeepsProvider(v.s.dog, v.s.world, a);
    if Resting(s'.dog) {
      if Succeeded(s'.dog) {
        DogEndsWell(p, baseline, v, a);
      }
    } else {
      DogGoesOn(p, baseline, v, a);
    }
  }

  lemma DogKeepsProvider(d: Dog, w: World, a: Answer)
    ensures var d' := DogStep(d, w, a).0;
            !Resting(d') ==> !Resting(d) && d'.pass.provider == d.pass.provider
  {
  }

  lemma DogAgrees(p: string, baseline: Json, v: Watched, a: Answer)
    requires Sound(p, baseline, v)
    ensures Agrees(p, baseline, Observe(p, v, DogAct(a)))
  {
    if DogOn(v.s.dog, p) {
      DogStepSnapshots(p, baseline, v.s.dog, v.s.world, a);
      NextOneUser(p, v.s, DogAct(a));
      DogAccounted(p, baseline, v, a);
      assert OwnersQuiet(v.s, p);
    } else {
      OtherPassAgrees(p, baseline, v, a);
    }
  }

  lemma ObserveKeepsAgreement(p: string, baseline: Json, v: Watched, x: Action)
    requires Sound(p, baseline, v) && Allowed(p, v, x)
    ensures Agrees(p, baseline, Observe(p, v, x))
  {
    match x
    case Start(_, _) => StartAgrees(p, baseline, v, x);
    case Act(i, a) => ActAgrees(p, baseline, v, i, a);
    case Kill(_) => KillAgrees(p, baseline, v, x);
    case Sweep(q, policy, a) =>
      if q == p && Resting(v.s.dog) {
        SweepAgrees(p, baseline, v, policy, a);
      } else {
        OtherSweepAgrees(p, baseline, v, q, policy, a);
      }
    case DogAct(a) => DogAgrees(p, baseline, v, a);
    case KillDog => KillDogAgrees(p, baseline, v, x);
  }

  function Fresh(devices: map<string, Json>): Watched {
    Watched(Initial(devices), false, false)
  }

  lemma {:induction false} AllowedRunsAreSound(p: string, devices: map<string, Json>, xs: seq<Action>)
    requires AllAllowed(p, Fresh(devices), xs)
    ensures Sound(p, Device(Initial(devices).world, p), ObserveAll(p, Fresh(devices), xs))
  {
    ObservedRun(p, Fresh(devices), xs);
    ReachableSane(devices, xs);
    if xs != [] {
      var init := xs[..|xs| - 1];
      forall k | 0 <= k < |init|
        ensures Allowed(p, ObserveAll(p, Fresh(devices), init[..k]), init[k])
      {
        assert init[..k] == xs[..k];
      }
      AllowedRunsAreSound(p, devices, init);
      assert Allowed(p, ObserveAll(p, Fresh(devices), xs[..|xs| - 1]), xs[|xs| - 1]);
      ObserveKeepsAgreement(p, Device(Initial(devices).world, p), ObserveAll(p, Fresh(devices), init), xs[|xs| - 1]);
    }
  }

  lemma {:induction false} ObservedRun(p: string, v: Watched, xs: seq<Action>)
    ensures ObserveAll(p, v, xs).s == Run(v.s, xs)
  {
    if xs != [] {
      ObservedRun(p, v, xs[..|xs| - 1]);
    }
  }

  /**
    Baseline conservation.  In every run with journal faults, provider faults and
    crashes anywhere, and lifecycles and passes of other providers interleaving
    freely, in which the lifecycles of `p` run one at a time, their in-process
    rollbacks work, and a full successful pass precedes the next one after every
    crash or failed restore: whenever nobody uses the device and nothing is pending
    it holds its initial state, every snapshot row of `p` holds that state, and
    whenever the device does not hold it the watchdog lists an experiment.  All
    that any scan of `p` lists holds the initial state, so the order of restores is
    immaterial.
   */
  lemma {:induction false} BaselineConserved(p: string, devices: map<string, Json>, xs: seq<Action>)
    requires AllAllowed(p, Fresh(devices), xs)
    ensures var baseline := Device(Initial(devices).world, p);
            var v := ObserveAll(p, Fresh(devices), xs);
            var s := Run(Initial(devices), xs);
            && v.s == s
            && (Idling(p, s) && !v.pending ==> Device(s.world, p) == baseline)
            && SnapshotsHold(s.world.rows, p, baseline)
            && (Device(s.world, p) != baseline ==> forall now :: Listed(s.world.rows, p, now) != [])
            && (forall now, c :: c in Listed(s.world.rows, p, now) ==> c.snapshot == StateSnapshot(p, baseline))
  {
    var baseline := Device(Initial(devices).world, p);
    var s := Run(Initial(devices), xs);
    AllowedRunsAreSound(p, devices, xs);
    ObservedRun(p, Fresh(devices), xs);
    forall now
      ensures Device(s.world, p) != baseline ==> Listed(s.world.rows, p, now) != []
      ensures forall c :: c in Listed(s.world.rows, p, now) ==> c.snapshot == StateSnapshot(p, baseline)
    {
      ScanHoldsBaseline(p, baseline, s.world, now);
    }
  }

  lemma ScanHoldsBaseline(p: string, baseline: Json, w: World, now: int)
    requires WellFormed(w.rows) && OwnSnapshots(w.rows) && SnapshotsHold(w.rows, p, baseline)
    ensures HasUnclosed(w.rows, p) ==> Listed(w.rows, p, now) != []
    ensures forall c :: c in Listed(w.rows, p, now) ==> c.snapshot == StateSnapshot(p, baseline)
  {
    ScanMeaning(w.rows, p, now);
    var cs := Listed(w.rows, p, now);
    assert Scan(w.rows, p, now) == Ok(cs);
    if HasUnclosed(w.rows, p) {
      var e: nat :| UnclosedOf(w.rows, p, e);
      assert Lists(cs, e);
    }
    forall c | c in cs
      ensures c.snapshot == StateSnapshot(p, baseline)
    {
      var k :| 0 <= k < |cs| && cs[k] == c;
      assert OwnSnapshot(w.rows, cs[k].id) && Describes(w.rows, now, cs[k]) && UnclosedOf(w.rows, p, cs[k].id);
      StageRowIsUnique(w.rows, c.id, AtSnapshot);
    }
  }
}
