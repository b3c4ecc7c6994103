/**
  Any number of control planes and one watchdog interleaving on one journal.
  Every lifecycle ever started is an entry of `owners`; a crash or a finished
  run stays there, stopped.
 */
module Systems {
  import opened Wrappers
  import opened Contracts
  import opened Journal
  import opened Lifecycle
  import opened ControlPlanes
  import opened Dirtiness
  import opened Scans
  import opened Recovery

  datatype Sys = Sys(world: World, owners: seq<Owner>, dog: Dog)

  /** One step of one process, with the environment's answer to it. */
  datatype Action =
    | Start(manifest: ProviderManifest, request: ChangeRequest)
    | Act(owner: nat, answer: Answer)
    | Kill(owner: nat)
    | Sweep(provider: string, policy: ReclaimPolicy, answer: Answer)
    | DogAct(answer: Answer)
    | KillDog

  function Initial(devices: map<string, Json>): Sys {
    Sys(World(devices, [], 0), [], Idle)
  }

  /** The step an action takes; one that is not enabled does nothing. */
  function Next(s: Sys, x: Action): Sys {
    match x
    case Start(manifest, request) =>
      if Validate(manifest, request).Ok?
      then s.(owners := s.owners + [TakingSnapshot(manifest.id, request)])
      else s
    case Act(i, a) =>
      if i < |s.owners| then
        var (o, w) := OwnerStep(s.owners[i], s.world, a);
        s.(world := w, owners := s.owners[i := o])
      else s
    case Kill(i) =>
      if i < |s.owners| && !Stopped(s.owners[i]) then s.(owners := s.owners[i := Crash(s.owners[i])]) else s
    case Sweep(p, policy, a) =>
      if Resting(s.dog) then
        var (d, w) := StartPass(p, policy, s.world, a);
        s.(world := w, dog := d)
      else s
    case DogAct(a) =>
      var (d, w) := DogStep(s.dog, s.world, a);
      s.(world := w, dog := d)
    case KillDog => s.(dog := Idle)
  }

  function Run(s: Sys, xs: seq<Action>): Sys {
    if xs == [] then s else Next(Run(s, xs[..|xs| - 1]), xs[|xs| - 1])
  }

  // ----- the invariant -------------------------------------------------------

  function IdOf(o: Owner): nat {
    match TicketOf(o)
    case Some(t) => t.id
    case None => 0
  }

  predicate OwnerInPlace(o: Owner, rows: seq<Row>) {
    InStep(o, rows) && (TicketOf(o).Some? ==> 1 <= IdOf(o) <= MaxId(rows))
  }

  predicate DistinctTickets(owners: seq<Owner>) {
    forall i, j :: 0 <= i < j < |owners| && TicketOf(owners[i]).Some? ==> IdOf(owners[i]) != IdOf(owners[j])
  }

  ghost predicate Inv(s: Sys) {
    && WellFormed(s.world.rows)
    && (forall i :: 0 <= i < |s.owners| ==> OwnerInPlace(s.owners[i], s.world.rows))
    && DistinctTickets(s.owners)
    && DogFits(s.dog, s.world.rows)
    && (forall e: nat :: TerminalsBy(s.world.rows, e, true) <= 1)
  }

  /** Rows of experiment `f` leave every other experiment where it was. */
  lemma {:induction false} OtherExperiments(rows: seq<Row>, rows': seq<Row>, f: nat, e: nat)
    requires Extends(rows, rows', f)
    ensures TerminalsBy(rows', e, true) == TerminalsBy(rows, e, true)
    ensures e != f ==> && ProgressOf(rows', e) == ProgressOf(rows, e)
                       && TerminalsBy(rows', e, false) == TerminalsBy(rows, e, false)
                       && forall s :: StageCount(rows', e, s) == StageCount(rows, e, s)
    ensures MaxId(rows') == if rows' != rows && f > MaxId(rows) then f else MaxId(rows)
  {
    if rows' != rows {
      Appended(rows, Last(rows'), e);
    }
  }

  /** A row that an experiment's own word may go on with keeps the journal well formed. */
  lemma OwnRowKeepsJournal(rows: seq<Row>, row: Row, f: nat)
    requires WellFormed(rows) && row.id == f && !ByWatchdog(row) && 1 <= f <= MaxId(rows) + 1
    requires ProgressOf(rows + [row], f) != Nothing && ProgressOf(rows + [row], f) != Invalid
    ensures WellFormed(rows + [row])
    ensures forall e: nat :: ProgressOf(rows, e).Intended() ==> ProgressOf(rows + [row], e).Intended()
    ensures forall e: nat :: TerminalsBy(rows + [row], e, true) == TerminalsBy(rows, e, true)
  {
    forall e: nat
      ensures ProgressOf(rows + [row], e) != Invalid
      ensures ProgressOf(rows + [row], e) != Nothing <==> 1 <= e <= MaxId(rows + [row])
      ensures TerminalsBy(rows + [row], e, true) == TerminalsBy(rows, e, true)
      ensures ProgressOf(rows, e).Intended() ==> ProgressOf(rows + [row], e).Intended()
    {
      Appended(rows, row, e);
    }
  }

  /** A control plane's step keeps the journal well formed. */
  lemma OwnerKeepsJournal(o: Owner, w: World, a: Answer)
    requires WellFormed(w.rows) && OwnerInPlace(o, w.rows)
    ensures var (o', w') := OwnerStep(o, w, a);
            && WellFormed(w'.rows)
            && OwnerInPlace(o', w'.rows)
            && MaxId(w'.rows) >= MaxId(w.rows)
            && (TicketOf(o').None? ==> w'.rows == w.rows)
            && (TicketOf(o').Some? ==>
                  && Extends(w.rows, w'.rows, IdOf(o'))
                  && (IdOf(o') == IdOf(o) || IdOf(o') == MaxId(w.rows) + 1))
            && (forall e: nat :: ProgressOf(w.rows, e).Intended() ==> ProgressOf(w'.rows, e).Intended())
            && (forall e: nat :: TerminalsBy(w'.rows, e, true) == TerminalsBy(w.rows, e, true))
  {
    var (o', w') := OwnerStep(o, w, a);
    OwnerStepKeepsStep(o, w, a);
    if w'.rows != w.rows {
      FitsMeansBegun(o', ProgressOf(w'.rows, IdOf(o')));
      OwnRowKeepsJournal(w.rows, Last(w'.rows), IdOf(o'));
    }
  }

  lemma ActKeepsInv(s: Sys, i: nat, a: Answer)
    requires Inv(s) && i < |s.owners|
    ensures Inv(Next(s, Act(i, a)))
  {
    var s' := Next(s, Act(i, a));
    var o, o' := s.owners[i], s'.owners[i];
    OwnerKeepsJournal(o, s.world, a);
    forall j | 0 <= j < |s.owners| && j != i
      ensures OwnerInPlace(s'.owners[j], s'.world.rows)
      ensures TicketOf(o').Some? ==> IdOf(s.owners[j]) != IdOf(o')
    {
      OthersStayInPlace(o, s.owners[j], s.world, a);
    }
  }

  /** A step of `o` leaves another owner in step with its own rows, and takes no identifier it has. */
  lemma OthersStayInPlace(o: Owner, other: Owner, w: World, a: Answer)
    requires WellFormed(w.rows) && OwnerInPlace(o, w.rows) && OwnerInPlace(other, w.rows)
    requires TicketOf(o).Some? && TicketOf(other).Some? ==> IdOf(o) != IdOf(other)
    ensures OwnerInPlace(other, OwnerStep(o, w, a).1.rows)
    ensures TicketOf(OwnerStep(o, w, a).0).Some? ==> IdOf(other) != IdOf(OwnerStep(o, w, a).0)
  {
    var (o', w') := OwnerStep(o, w, a);
    OwnerKeepsJournal(o, w, a);
    if TicketOf(o').Some? {
      OtherExperiments(w.rows, w'.rows, IdOf(o'), IdOf(other));
    }
  }

  lemma KillKeepsInv(s: Sys, i: nat)
    requires Inv(s) && i < |s.owners|
    ensures Inv(Next(s, Kill(i)))
  {
    var o := s.owners[i];
    if TicketOf(o).Some? {
      FitsMeansBegun(o, ProgressOf(s.world.rows, IdOf(o)));
    }
  }

  lemma DogKeepsInv(s: Sys, a: Answer)
    requires Inv(s)
    ensures Inv(Next(s, DogAct(a)))
  {
    var s' := Next(s, DogAct(a));
    DogStepKeepsFit(s.dog, s.world, a);
    forall e: nat
      ensures TerminalsBy(s'.world.rows, e, true) <= 1
      ensures ProgressOf(s'.world.rows, e) == ProgressOf(s.world.rows, e)
      ensures MaxId(s'.world.rows) == MaxId(s.world.rows)
    {
      DogStepEffect(s.dog, s.world, a, e);
      if s.dog.Settling? && s.dog.pass.current.id == e {
        assert Todo(s.dog)[0].id == e;
      }
    }
  }

  lemma NextKeepsInv(s: Sys, x: Action)
    requires Inv(s)
    ensures Inv(Next(s, x))
  {
    match x
    case Start(_, _) =>
    case Act(i, a) => if i < |s.owners| { ActKeepsInv(s, i, a); }
    case Kill(i) => if i < |s.owners| { KillKeepsInv(s, i); }
    case Sweep(p, policy, a) => StartPassMeaning(p, policy, s.world, a);
    case DogAct(a) => DogKeepsInv(s, a);
    case KillDog =>
  }

  lemma InitialInv(devices: map<string, Json>)
    ensures Inv(Initial(devices))
  {
  }

  lemma {:induction false} Reachable(devices: map<string, Json>, xs: seq<Action>)
    ensures Inv(Run(Initial(devices), xs))
  {
    if xs == [] {
      InitialInv(devices);
    } else {
      Reachable(devices, xs[..|xs| - 1]);
      NextKeepsInv(Run(Initial(devices), xs[..|xs| - 1]), xs[|xs| - 1]);
    }
  }
}
