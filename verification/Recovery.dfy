/**
  One reclaim pass of the watchdog as a step machine: the scan, then one call to
  the provider or the journal per step.  A crash takes no further step.
 */
module Recovery {
  import opened Wrappers
  import opened Contracts
  import opened Journal
  import opened Lifecycle
  import opened Scans

  datatype ReclaimPolicy = AllUnclosed | ExpiredLeasesOnly

  function Reason(c: Candidate): ReclaimReason {
    if c.leaseExpired then LeaseExpired else CrashRecovery
  }

  predicate SelectedBy(c: Candidate, policy: ReclaimPolicy) {
    policy == AllUnclosed || c.leaseExpired
  }

  /** The candidates a policy selects, in scan order. */
  function Chosen(cs: seq<Candidate>, policy: ReclaimPolicy): seq<Candidate> {
    if cs == [] then []
    else Chosen(cs[..|cs| - 1], policy)
         + if SelectedBy(cs[|cs| - 1], policy) then [cs[|cs| - 1]] else []
  }

  /** What the pass reports of one experiment; no error means restored. */
  datatype Restoration = Restoration(id: nat, reason: ReclaimReason, leaseSeconds: nat, error: Option<string>)

  function Report(c: Candidate, error: Option<string>): Restoration {
    Restoration(c.id, Reason(c), c.request.leaseSeconds, error)
  }

  /** The candidate in hand, those still to come, and what was reported so far. */
  datatype Pass = Pass(provider: string, current: Candidate, rest: seq<Candidate>, done: seq<Restoration>)

  datatype Dog =
    | Idle
    | Restoring(pass: Pass)
    | Checking(pass: Pass)
    | Settling(pass: Pass)
    | LookingUp(pass: Pass, message: string)
    | Noting(pass: Pass, message: string)
    | Ended(result: Result<seq<Restoration>, ControlPlaneError>)

  predicate Resting(d: Dog) {
    d.Idle? || d.Ended?
  }

  function NextUp(p: string, rest: seq<Candidate>, done: seq<Restoration>): Dog {
    if rest == [] then Ended(Ok(done)) else Restoring(Pass(p, rest[0], rest[1..], done))
  }

  function Onward(pass: Pass, error: Option<string>): Dog {
    NextUp(pass.provider, pass.rest, pass.done + [Report(pass.current, error)])
  }

  function StartPass(p: string, policy: ReclaimPolicy, w: World, a: Answer): (Dog, World) {
    var w := Wait(w, a);
    if a.journal.Some? then (Ended(Err(ControlPlaneError.Journal(a.journal.value))), w)
    else
      match Scan(w.rows, p, w.now)
      case Err(error) => (Ended(Err(error)), w)
      case Ok(cs) => (NextUp(p, Chosen(cs, policy), []), w)
  }

  /** A pass whose scan was answered goes on with what its policy chose. */
  lemma ScannedUnfolds(p: string, policy: ReclaimPolicy, w0: World, scan: Answer, cs: seq<Candidate>)
    requires scan.journal.None? && Scan(w0.rows, p, w0.now + scan.elapsed) == Ok(cs)
    ensures StartPass(p, policy, w0, scan) == (NextUp(p, Chosen(cs, policy), []), Wait(w0, scan))
  {
  }

  const MISMATCH: ProviderError :=
    RollbackFailed("post-rollback snapshot did not match the journaled snapshot")

  /** The restore row and the terminal row, in one transaction. */
  function SuccessRows(c: Candidate, p: string, now: int): seq<Row> {
    [Row(c.id, now, AtWatchdogRestore, p, WatchdogRestoreP(Reason(c), None, c.snapshot)),
     Row(c.id, now, AtFailed, p, WatchdogTerminalP(Reason(c)))]
  }

  function FailurePayload(c: Candidate, message: string): Payload {
    WatchdogRestoreP(Reason(c), Some(message), c.snapshot)
  }

  /** Whether the latest watchdog-restore row of `e` is a failure with this error. */
  predicate LastFailureMatches(rows: seq<Row>, e: nat, message: string) {
    match StageRow(rows, e, AtWatchdogRestore)
    case None => false
    case Some(row) => row.payload.WatchdogRestoreP? && row.payload.error == Some(message)
  }

  function DogStep(d: Dog, w: World, a: Answer): (Dog, World) {
    match d
    case Restoring(pass) =>
      if a.fault.Some? then (LookingUp(pass, a.fault.value.Display()), Write(w, pass.provider, a))
      else (Checking(pass), Write(w, pass.provider, a))
    case Checking(pass) =>
      if a.fault.Some? then (LookingUp(pass, a.fault.value.Display()), Wait(w, a))
      else if Snapshot(w, pass.provider) == pass.current.snapshot then (Settling(pass), Wait(w, a))
      else (LookingUp(pass, MISMATCH.Display()), Wait(w, a))
    case Settling(pass) =>
      var w' := Wait(w, a);
      if a.journal.Some? then (Ended(Err(ControlPlaneError.Journal(a.journal.value))), w')
      else (Onward(pass, None), w'.(rows := w'.rows + SuccessRows(pass.current, pass.provider, w'.now)))
    case LookingUp(pass, message) =>
      if a.journal.Some? then (Ended(Err(ControlPlaneError.Journal(a.journal.value))), Wait(w, a))
      else if LastFailureMatches(w.rows, pass.current.id, message) then (Onward(pass, Some(message)), Wait(w, a))
      else (Noting(pass, message), Wait(w, a))
    case Noting(pass, message) =>
      var w' := Insert(w, a, pass.current.id, AtWatchdogRestore, pass.provider, FailurePayload(pass.current, message));
      if a.journal.Some? then (Ended(Err(ControlPlaneError.Journal(a.journal.value))), w')
      else (Onward(pass, Some(message)), w')
    case _ => (d, w)
  }

  function DogRun(d: Dog, w: World, answers: seq<Answer>): (Dog, World) {
    if answers == [] then (d, w)
    else
      var (d', w') := DogRun(d, w, answers[..|answers| - 1]);
      DogStep(d', w', answers[|answers| - 1])
  }

  lemma {:induction false} DogRunStep(d: Dog, w: World, answers: seq<Answer>, a: Answer)
    ensures DogRun(d, w, answers + [a]) == DogStep(DogRun(d, w, answers).0, DogRun(d, w, answers).1, a)
  {
    assert (answers + [a])[..|answers|] == answers;
  }

  lemma {:induction false} DogRunConcat(d: Dog, w: World, first: seq<Answer>, second: seq<Answer>)
    ensures DogRun(d, w, first + second) == DogRun(DogRun(d, w, first).0, DogRun(d, w, first).1, second)
  {
    if second == [] {
      assert first + second == first;
    } else {
      var init, last := second[..|second| - 1], second[|second| - 1];
      assert first + second == (first + init) + [last];
      DogRunStep(d, w, first + init, last);
      DogRunConcat(d, w, first, init);
    }
  }

  // ----- what every step keeps ---------------------------------------------

  function Todo(d: Dog): seq<Candidate> {
    if Resting(d) then [] else [d.pass.current] + d.pass.rest
  }

  /** Everything the pass still holds is intended and not yet closed by the watchdog. */
  predicate DogFits(d: Dog, rows: seq<Row>) {
    && Ascending(Todo(d))
    && forall i :: 0 <= i < |Todo(d)| ==>
                     ProgressOf(rows, Todo(d)[i].id).Intended() && TerminalsBy(rows, Todo(d)[i].id, true) == 0
  }

  lemma OnwardTodo(pass: Pass, error: Option<string>)
    ensures Todo(Onward(pass, error)) == pass.rest
  {
  }

  /** What the rows of a step are: none, a note on the current experiment, or its two closing rows. */
  lemma DogStepRows(d: Dog, w: World, a: Answer)
    ensures var (d', w') := DogStep(d, w, a);
            || w'.rows == w.rows
            || (d.Noting? && w'.rows == w.rows + [Row(d.pass.current.id, w'.now, AtWatchdogRestore, d.pass.provider,
                                                      FailurePayload(d.pass.current, d.message))])
            || (d.Settling? && a.journal.None? && d' == Onward(d.pass, None)
                && w'.rows == w.rows + SuccessRows(d.pass.current, d.pass.provider, w'.now))
    ensures Todo(DogStep(d, w, a).0) in {Todo(d), if Resting(d) then [] else d.pass.rest, []}
    ensures DogStep(d, w, a).1.rows != w.rows && d.Settling? && !Resting(d) ==>
              Todo(DogStep(d, w, a).0) == d.pass.rest
  {
    if !Resting(d) {
      OnwardTodo(d.pass, None);
      if d.LookingUp? || d.Noting? {
        OnwardTodo(d.pass, Some(d.message));
      }
    }
  }

  /** A row of the watchdog moves no experiment in the language. */
  lemma {:induction false} WatchdogRow(rows: seq<Row>, row: Row, e: nat)
    requires ByWatchdog(row) && row.id <= MaxId(rows)
    ensures MaxId(rows + [row]) == MaxId(rows)
    ensures ProgressOf(rows + [row], e) == ProgressOf(rows, e)
    ensures TerminalsBy(rows + [row], e, true)
            == TerminalsBy(rows, e, true) + if row.id == e && row.stage == AtFailed then 1 else 0
    ensures TerminalsBy(rows + [row], e, false) == TerminalsBy(rows, e, false)
    ensures StageCount(rows + [row], e, AtApplyIntent) == StageCount(rows, e, AtApplyIntent)
    ensures StageCount(rows + [row], e, AtSnapshot) == StageCount(rows, e, AtSnapshot)
  {
    Appended(rows, row, e);
  }

  /** The closing pair adds one watchdog terminal to its experiment and changes nothing else. */
  lemma {:induction false} ClosingRows(rows: seq<Row>, c: Candidate, p: string, now: int, e: nat)
    requires c.id <= MaxId(rows)
    ensures var rows' := rows + SuccessRows(c, p, now);
            && MaxId(rows') == MaxId(rows)
            && ProgressOf(rows', e) == ProgressOf(rows, e)
            && TerminalsBy(rows', e, true) == TerminalsBy(rows, e, true) + (if c.id == e then 1 else 0)
            && TerminalsBy(rows', e, false) == TerminalsBy(rows, e, false)
            && StageCount(rows', e, AtApplyIntent) == StageCount(rows, e, AtApplyIntent)
            && StageCount(rows', e, AtSnapshot) == StageCount(rows, e, AtSnapshot)
  {
    var pair := SuccessRows(c, p, now);
    assert rows + pair == (rows + [pair[0]]) + [pair[1]];
    WatchdogRow(rows, pair[0], e);
    WatchdogRow(rows + [pair[0]], pair[1], e);
  }

  /** Once closed, an experiment is no longer in hand: what follows it has larger identifiers. */
  lemma ClosedIsBehind(d: Dog, w: World, a: Answer)
    requires DogFits(d, w.rows) && d.Settling? && a.journal.None?
    ensures forall i :: 0 <= i < |Todo(DogStep(d, w, a).0)| ==> Todo(DogStep(d, w, a).0)[i].id != d.pass.current.id
  {
    OnwardTodo(d.pass, None);
    assert Todo(d)[0] == d.pass.current;
    forall i | 0 <= i < |d.pass.rest|
      ensures d.pass.rest[i].id != d.pass.current.id
    {
      assert Todo(d)[i + 1] == d.pass.rest[i];
    }
  }

  /** The rows of one watchdog step, experiment by experiment. */
  lemma DogStepCounts(d: Dog, w: World, a: Answer, e: nat)
    requires WellFormed(w.rows) && DogFits(d, w.rows)
    ensures var w' := DogStep(d, w, a).1;
            var closes := d.Settling? && a.journal.None? && d.pass.current.id == e;
            && MaxId(w'.rows) == MaxId(w.rows)
            && ProgressOf(w'.rows, e) == ProgressOf(w.rows, e)
            && TerminalsBy(w'.rows, e, true) == TerminalsBy(w.rows, e, true) + (if closes then 1 else 0)
            && TerminalsBy(w'.rows, e, false) == TerminalsBy(w.rows, e, false)
            && StageCount(w'.rows, e, AtApplyIntent) == StageCount(w.rows, e, AtApplyIntent)
            && StageCount(w'.rows, e, AtSnapshot) == StageCount(w.rows, e, AtSnapshot)
  {
    var w' := DogStep(d, w, a).1;
    DogStepRows(d, w, a);
    if !Resting(d) && w'.rows != w.rows {
      assert Todo(d)[0] == d.pass.current;
      if d.Settling? {
        ClosingRows(w.rows, d.pass.current, d.pass.provider, w'.now, e);
      } else {
        WatchdogRow(w.rows, Last(w'.rows), e);
      }
    }
  }

  /**
    Effect of one watchdog step on one experiment: its place in the language and
    its control-plane rows stay; a watchdog terminal appears exactly when the
    pass closes that experiment.
   */
  lemma {:induction false} DogStepEffect(d: Dog, w: World, a: Answer, e: nat)
    requires WellFormed(w.rows) && DogFits(d, w.rows)
    ensures var (d', w') := DogStep(d, w, a);
            var closes := d.Settling? && a.journal.None? && d.pass.current.id == e;
            && MaxId(w'.rows) == MaxId(w.rows)
            && ProgressOf(w'.rows, e) == ProgressOf(w.rows, e)
            && TerminalsBy(w'.rows, e, true) == TerminalsBy(w.rows, e, true) + (if closes then 1 else 0)
            && TerminalsBy(w'.rows, e, false) == TerminalsBy(w.rows, e, false)
            && StageCount(w'.rows, e, AtApplyIntent) == StageCount(w.rows, e, AtApplyIntent)
            && StageCount(w'.rows, e, AtSnapshot) == StageCount(w.rows, e, AtSnapshot)
            && (closes ==> forall i :: 0 <= i < |Todo(d')| ==> Todo(d')[i].id != e)
  {
    DogStepCounts(d, w, a, e);
    if d.Settling? && a.journal.None? {
      ClosedIsBehind(d, w, a);
    }
  }

  lemma DogStepKeepsFit(d: Dog, w: World, a: Answer)
    requires WellFormed(w.rows) && DogFits(d, w.rows)
    ensures WellFormed(DogStep(d, w, a).1.rows)
    ensures DogFits(DogStep(d, w, a).0, DogStep(d, w, a).1.rows)
  {
    var (d', w') := DogStep(d, w, a);
    DogStepRows(d, w, a);
    if !Resting(d) {
      assert Todo(d)[0] == d.pass.current;
      assert Todo(d)[1..] == d.pass.rest;
    }
    forall e: nat
      ensures MaxId(w'.rows) == MaxId(w.rows) && ProgressOf(w'.rows, e) == ProgressOf(w.rows, e)
      ensures TerminalsBy(w'.rows, e, true) > 0 ==> ProgressOf(w'.rows, e).Intended()
    {
      DogStepEffect(d, w, a, e);
    }
    forall i | 0 <= i < |Todo(d')|
      ensures ProgressOf(w'.rows, Todo(d')[i].id).Intended() && TerminalsBy(w'.rows, Todo(d')[i].id, true) == 0
    {
      DogStepEffect(d, w, a, Todo(d')[i].id);
    }
  }

  lemma {:induction false} ChosenMeaning(cs: seq<Candidate>, policy: ReclaimPolicy)
    requires Ascending(cs)
    ensures Ascending(Chosen(cs, policy))
    ensures forall c :: c in Chosen(cs, policy) <==> c in cs && SelectedBy(c, policy)
  {
    if cs != [] {
      var init, last := cs[..|cs| - 1], cs[|cs| - 1];
      ChosenMeaning(init, policy);
      assert cs == init + [last];
      forall i | 0 <= i < |Chosen(init, policy)|
        ensures Chosen(init, policy)[i].id < last.id
      {
        assert Chosen(init, policy)[i] in init;
      }
    }
  }

  /** What is chosen of a scan is unclosed, described right, and ready to be closed. */
  lemma ChosenOfScan(p: string, policy: ReclaimPolicy, rows: seq<Row>, now: int, c: Candidate)
    requires WellFormed(rows) && Scan(rows, p, now).Ok?
    requires c in Chosen(Scan(rows, p, now).value, policy)
    ensures UnclosedOf(rows, p, c.id) && Describes(rows, now, c) && SelectedBy(c, policy)
    ensures ProgressOf(rows, c.id).Intended() && TerminalsBy(rows, c.id, true) == 0
  {
    ScanMeaning(rows, p, now);
    var cs := Scan(rows, p, now).value;
    ChosenMeaning(cs, policy);
    assert Lists(cs, c.id);
    CountsFollowProgress(rows, c.id);
  }

  lemma NextUpHands(p: string, rest: seq<Candidate>)
    ensures Todo(NextUp(p, rest, [])) == rest
  {
  }

  /** A pass starts with the unclosed experiments its policy selects, in ascending order. */
  lemma {:induction false} StartPassMeaning(p: string, policy: ReclaimPolicy, w: World, a: Answer)
    requires WellFormed(w.rows)
    ensures var (d, w') := StartPass(p, policy, w, a);
            && w' == Wait(w, a)
            && DogFits(d, w.rows)
            && (forall i :: 0 <= i < |Todo(d)| ==>
                  && UnclosedOf(w.rows, p, Todo(d)[i].id)
                  && Describes(w.rows, w'.now, Todo(d)[i])
                  && SelectedBy(Todo(d)[i], policy))
            && (d.Ended? && d.result.Err? <==> a.journal.Some?)
            && (!Resting(d) ==> d.pass.provider == p && d.pass.done == [])
            && (a.journal.None? ==>
                  Todo(d) == Chosen(Scan(w.rows, p, w'.now).value, policy)
                  && (Todo(d) == [] ==> d == Ended(Ok([]))))
  {
    var (d, w') := StartPass(p, policy, w, a);
    ScanMeaning(w.rows, p, w'.now);
    if a.journal.None? {
      var todo := Chosen(Scan(w.rows, p, w'.now).value, policy);
      ChosenMeaning(Scan(w.rows, p, w'.now).value, policy);
      NextUpHands(p, todo);
      forall i | 0 <= i < |todo|
        ensures && UnclosedOf(w.rows, p, todo[i].id) && Describes(w.rows, w'.now, todo[i])
                && SelectedBy(todo[i], policy)
                && ProgressOf(w.rows, todo[i].id).Intended() && TerminalsBy(w.rows, todo[i].id, true) == 0
      {
        ChosenOfScan(p, policy, w.rows, w'.now, todo[i]);
      }
    }
  }
}
