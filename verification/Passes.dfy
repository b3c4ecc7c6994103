/** What one reclaim pass that runs undisturbed leaves behind. */
module Passes {
  import opened Wrappers
  import opened Contracts
  import opened Journal
  import opened Lifecycle
  import opened Dirtiness
  import opened Scans
  import opened Recovery
  import opened Systems
  import opened Protocol

  /** The unclosed experiments of a provider. */
  ghost function UnclosedIds(rows: seq<Row>, p: string): set<nat> {
    set e: nat | 1 <= e <= MaxId(rows) && UnclosedOf(rows, p, e)
  }

  ghost function RestoredIds(done: seq<Restoration>): set<nat> {
    set i | 0 <= i < |done| && done[i].error.None? :: done[i].id
  }

  predicate AllRestored(done: seq<Restoration>) {
    forall i :: 0 <= i < |done| ==> done[i].error.None?
  }

  /** The device holds the snapshot of the last experiment reported, if that was restored. */
  predicate LandedOnLast(p: string, todo: seq<Candidate>, done: seq<Restoration>, w: World)
    requires |done| <= |todo|
  {
    done != [] && done[|done| - 1].error.None? ==> Snapshot(w, p) == todo[|done| - 1].snapshot
  }

  /** Where a pass over `todo` that has reported `done` stands. */
  predicate Position(p: string, todo: seq<Candidate>, done: seq<Restoration>, d: Dog) {
    && |done| <= |todo|
    && (forall i :: 0 <= i < |done| ==> done[i] == Report(todo[i], done[i].error))
    && (!Resting(d) ==> d.pass.provider == p && d.pass.done == done && Todo(d) == todo[|done|..])
    && (d.Ended? && d.result.Ok? ==> d.result.value == done && |done| == |todo|)
    && !d.Idle?
  }

  /** What the pass knows of the device. */
  predicate DeviceKnown(p: string, todo: seq<Candidate>, done: seq<Restoration>, d: Dog, w: World)
    requires |done| <= |todo|
  {
    && (d.Settling? ==> Snapshot(w, p) == d.pass.current.snapshot)
    && (d.Restoring? || (d.Ended? && d.result.Ok?) ==> LandedOnLast(p, todo, done, w))
  }

  /** What the pass did to the rows of one experiment: a closing pair if it restored it. */
  ghost predicate RowsTouched(w0: World, done: seq<Restoration>, w: World, e: nat) {
    && TerminalsBy(w.rows, e, true) == TerminalsBy(w0.rows, e, true) + (if e in RestoredIds(done) then 1 else 0)
    && TerminalsBy(w.rows, e, false) == TerminalsBy(w0.rows, e, false)
    && StageCount(w.rows, e, AtApplyIntent) == StageCount(w0.rows, e, AtApplyIntent)
    && StageRow(w.rows, e, AtApplyIntent) == StageRow(w0.rows, e, AtApplyIntent)
  }

  ghost predicate PassState(p: string, todo: seq<Candidate>, w0: World, done: seq<Restoration>, d: Dog, w: World) {
    && WellFormed(w.rows)
    && DogFits(d, w.rows)
    && MaxId(w.rows) == MaxId(w0.rows)
    && Position(p, todo, done, d)
    && DeviceKnown(p, todo, done, d, w)
    && forall e: nat :: RowsTouched(w0, done, w, e)
  }

  lemma RestoredSnoc(done: seq<Restoration>, r: Restoration)
    ensures RestoredIds(done + [r]) == RestoredIds(done) + if r.error.None? then {r.id} else {}
  {
    var both := done + [r];
    assert forall i :: 0 <= i < |both| ==> both[i] == if i < |done| then done[i] else r;
    forall e | e in RestoredIds(done) + if r.error.None? then {r.id} else {}
      ensures e in RestoredIds(both)
    {
      if e in RestoredIds(done) {
        var i :| 0 <= i < |done| && done[i].error.None? && done[i].id == e;
        assert both[i].id == e;
      } else {
        assert both[|done|].id == e;
      }
    }
  }

  /** The report a step adds, if it finishes with an experiment. */
  function Added(d: Dog, d': Dog): seq<Restoration> {
    if Resting(d) then []
    else if d' == Onward(d.pass, None) && d.Settling? then [Report(d.pass.current, None)]
    else if (d.LookingUp? || d.Noting?) && d' == Onward(d.pass, Some(d.message))
    then [Report(d.pass.current, Some(d.message))]
    else []
  }

  lemma AddedReports(d: Dog, w: World, a: Answer)
    requires !Resting(d)
    ensures var d' := DogStep(d, w, a).0;
            var added := Added(d, d');
            && (added == [] ==>
                  (d'.Ended? && d'.result.Err?) || (!Resting(d') && !d'.Restoring? && d'.pass == d.pass))
            && (added != [] ==> |added| == 1 && d' == Onward(d.pass, added[0].error)
                                && added[0] == Report(d.pass.current, added[0].error))
            && (d.Settling? && a.journal.None? <==> added != [] && added[0].error.None?)
  {
  }

  /** The rows of a pass step, experiment by experiment. */
  lemma PassStepRows(w0: World, done: seq<Restoration>, d: Dog, w: World, a: Answer, e: nat)
    requires WellFormed(w.rows) && DogFits(d, w.rows) && !Resting(d)
    requires RowsTouched(w0, done, w, e)
    requires d.pass.current.id !in RestoredIds(done)
    ensures var (d', w') := DogStep(d, w, a); RowsTouched(w0, done + Added(d, d'), w', e)
  {
    var d' := DogStep(d, w, a).0;
    DogStepEffect(d, w, a, e);
    DogKeepsStageRows(d, w, a, e);
    AddedReports(d, w, a);
    if Added(d, d') != [] {
      RestoredSnoc(done, Added(d, d')[0]);
      assert done + Added(d, d') == done + [Added(d, d')[0]];
    } else {
      assert done + Added(d, d') == done;
    }
  }

  lemma PassStepPosition(p: string, todo: seq<Candidate>, done: seq<Restoration>, d: Dog, w: World, a: Answer)
    requires Position(p, todo, done, d) && DeviceKnown(p, todo, done, d, w) && !Resting(d)
    ensures var (d', w') := DogStep(d, w, a);
            var done' := done + Added(d, d');
            Position(p, todo, done', d') && DeviceKnown(p, todo, done', d', w')
  {
    var (d', w') := DogStep(d, w, a);
    var added := Added(d, d');
    AddedReports(d, w, a);
    assert Todo(d)[0] == d.pass.current && Todo(d)[1..] == d.pass.rest;
    assert todo[|done|..][0] == todo[|done|] && todo[|done|..][1..] == todo[|done| + 1..];
    if added != [] {
      OnwardTodo(d.pass, added[0].error);
      assert done + added == done + [added[0]];
    } else {
      assert done + added == done;
    }
  }

  lemma PassStep(p: string, todo: seq<Candidate>, w0: World, done: seq<Restoration>, d: Dog, w: World, a: Answer)
    requires PassState(p, todo, w0, done, d, w) && !Resting(d) && Ascending(todo)
    ensures var (d', w') := DogStep(d, w, a); PassState(p, todo, w0, done + Added(d, d'), d', w')
  {
    var (d', w') := DogStep(d, w, a);
    DogStepKeepsFit(d, w, a);
    DogStepEffect(d, w, a, 0);
    PassStepPosition(p, todo, done, d, w, a);
    assert Todo(d)[0] == d.pass.current;
    assert todo[|done|..][0] == todo[|done|];
    forall e: nat
      ensures RowsTouched(w0, done + Added(d, d'), w', e)
    {
      PassStepRows(w0, done, d, w, a, e);
    }
  }

  /** Every state of an undisturbed pass, with what it has reported so far. */
  lemma {:induction false} PassRun(p: string, todo: seq<Candidate>, w0: World, answers: seq<Answer>)
    returns (done: seq<Restoration>)
    requires WellFormed(w0.rows) && DogFits(NextUp(p, todo, []), w0.rows) && Ascending(todo)
    ensures var (d, w) := DogRun(NextUp(p, todo, []), w0, answers); PassState(p, todo, w0, done, d, w)
  {
    if answers == [] {
      done := [];
      assert todo[0..] == todo;
      assert RestoredIds([]) == {};
      if todo != [] {
        assert Todo(NextUp(p, todo, [])) == todo;
      }
    } else {
      var init := answers[..|answers| - 1];
      done := PassRun(p, todo, w0, init);
      var (d, w) := DogRun(NextUp(p, todo, []), w0, init);
      if !Resting(d) {
        PassStep(p, todo, w0, done, d, w, answers[|answers| - 1]);
        done := done + Added(d, DogStep(d, w, answers[|answers| - 1]).0);
      }
    }
  }

  // ----- what a pass achieves ------------------------------------------------

  function PassOf(p: string, policy: ReclaimPolicy, w: World, scan: Answer, answers: seq<Answer>): (Dog, World) {
    var (d, w') := StartPass(p, policy, w, scan);
    DogRun(d, w', answers)
  }

  lemma {:induction false} EndedStays(d: Dog, w: World, answers: seq<Answer>)
    requires Resting(d)
    ensures DogRun(d, w, answers) == (d, w)
  {
    if answers != [] {
      EndedStays(d, w, answers[..|answers| - 1]);
    }
  }

  lemma UnclosedIdsMember(rows: seq<Row>, p: string, e: nat)
    requires WellFormed(rows)
    ensures e in UnclosedIds(rows, p) <==> UnclosedOf(rows, p, e)
  {
    CountsFollowProgress(rows, e);
  }

  /** What the pass reported restored is what it removed from the unclosed set. */
  lemma PassCloses(p: string, w0: World, todo: seq<Candidate>, done: seq<Restoration>, d: Dog, w: World)
    requires WellFormed(w0.rows) && PassState(p, todo, w0, done, d, w)
    requires forall i :: 0 <= i < |todo| ==> UnclosedOf(w0.rows, p, todo[i].id)
    ensures RestoredIds(done) <= UnclosedIds(w0.rows, p)
    ensures UnclosedIds(w.rows, p) == UnclosedIds(w0.rows, p) - RestoredIds(done)
  {
    forall e: nat
      ensures e in RestoredIds(done) ==> e in UnclosedIds(w0.rows, p)
      ensures e in UnclosedIds(w.rows, p) <==> e in UnclosedIds(w0.rows, p) && e !in RestoredIds(done)
    {
      UnclosedIdsMember(w0.rows, p, e);
      UnclosedIdsMember(w.rows, p, e);
      assert RowsTouched(w0, done, w, e);
    }
  }

  /** With nothing unclosed, a pass reports nothing and writes nothing. */
  lemma NothingToDo(p: string, policy: ReclaimPolicy, w: World, scan: Answer)
    requires WellFormed(w.rows) && UnclosedIds(w.rows, p) == {} && scan.journal.None?
    ensures StartPass(p, policy, w, scan) == (Ended(Ok([])), Wait(w, scan))
  {
    StartPassMeaning(p, policy, w, scan);
    var todo := Todo(StartPass(p, policy, w, scan).0);
    if todo != [] {
      UnclosedIdsMember(w.rows, p, todo[0].id);
    }
  }

  /** The ids of a full, fully restored pass are all the unclosed ones. */
  lemma FullPassRestoresAll(p: string, rows: seq<Row>, now: int, done: seq<Restoration>, todo: seq<Candidate>)
    requires WellFormed(rows) && Scan(rows, p, now) == Ok(todo)
    requires |done| == |todo| && AllRestored(done)
    requires forall i :: 0 <= i < |done| ==> done[i] == Report(todo[i], done[i].error)
    ensures UnclosedIds(rows, p) <= RestoredIds(done)
  {
    ScanMeaning(rows, p, now);
    forall e | e in UnclosedIds(rows, p)
      ensures e in RestoredIds(done)
    {
      assert Lists(todo, e);
      var i :| 0 <= i < |todo| && todo[i].id == e;
      assert done[i].id == e && done[i].error.None?;
    }
  }

  lemma {:induction false} ChoosingAll(cs: seq<Candidate>)
    ensures Chosen(cs, AllUnclosed) == cs
  {
    if cs != [] {
      var init, last := cs[..|cs| - 1], cs[|cs| - 1];
      ChoosingAll(init);
      assert cs == init + [last];
      assert Chosen(cs, AllUnclosed) == Chosen(init, AllUnclosed) + [last];
    }
  }

  /** What is known wherever a pass over `todo` that reported `done` stops. */
  ghost predicate Progressed(p: string, todo: seq<Candidate>, w0: World, done: seq<Restoration>, d: Dog, w: World) {
    && Ascending(todo)
    && PassState(p, todo, w0, done, d, w)
    && UnclosedIds(w.rows, p) == UnclosedIds(w0.rows, p) - RestoredIds(done)
    && RestoredIds(done) <= UnclosedIds(w0.rows, p)
    && (d.Ended? && d.result.Ok? ==> done == d.result.value)
  }

  /** A pass over what it has in hand, wherever it stops. */
  lemma HandsProgress(p: string, todo: seq<Candidate>, w0: World, answers: seq<Answer>)
    returns (done: seq<Restoration>)
    requires WellFormed(w0.rows) && DogFits(NextUp(p, todo, []), w0.rows) && Ascending(todo)
    requires forall c :: c in todo ==> UnclosedOf(w0.rows, p, c.id)
    ensures var (d, w) := DogRun(NextUp(p, todo, []), w0, answers); Progressed(p, todo, w0, done, d, w)
  {
    done := PassRun(p, todo, w0, answers);
    var (d, w) := DogRun(NextUp(p, todo, []), w0, answers);
    PassCloses(p, w0, todo, done, d, w);
  }

  lemma ScanSucceeds(rows: seq<Row>, p: string, now: int) returns (cs: seq<Candidate>)
    requires WellFormed(rows)
    ensures Scan(rows, p, now) == Ok(cs) && Listed(rows, p, now) == cs
  {
    ScanMeaning(rows, p, now);
    cs := Scan(rows, p, now).value;
  }

  lemma ChosenFit(p: string, policy: ReclaimPolicy, rows: seq<Row>, now: int, cs: seq<Candidate>)
    requires WellFormed(rows) && Scan(rows, p, now) == Ok(cs)
    ensures Ascending(Chosen(cs, policy)) && DogFits(NextUp(p, Chosen(cs, policy), []), rows)
    ensures forall c :: c in Chosen(cs, policy) ==> UnclosedOf(rows, p, c.id)
  {
    var todo := Chosen(cs, policy);
    ScanMeaning(rows, p, now);
    ChosenMeaning(cs, policy);
    NextUpHands(p, todo);
    forall c | c in todo
      ensures UnclosedOf(rows, p, c.id)
      ensures ProgressOf(rows, c.id).Intended() && TerminalsBy(rows, c.id, true) == 0
    {
      ChosenOfScan(p, policy, rows, now, c);
    }
  }

  /** Wherever a pass whose scan was answered stops. */
  lemma PassProgress(p: string, policy: ReclaimPolicy, w0: World, scan: Answer, answers: seq<Answer>,
                     cs: seq<Candidate>)
    returns (done: seq<Restoration>)
    requires WellFormed(w0.rows) && scan.journal.None? && Scan(w0.rows, p, w0.now + scan.elapsed) == Ok(cs)
    ensures var (d, w) := PassOf(p, policy, w0, scan, answers);
            Progressed(p, Chosen(cs, policy), Wait(w0, scan), done, d, w)
  {
    var todo := Chosen(cs, policy);
    ScannedUnfolds(p, policy, w0, scan, cs);
    ChosenFit(p, policy, w0.rows, w0.now + scan.elapsed, cs);
    done := HandsProgress(p, todo, Wait(w0, scan), answers);
  }

  /** A pass whose scan failed ends there and leaves the journal. */
  lemma UnscannedPass(p: string, policy: ReclaimPolicy, w0: World, scan: Answer, answers: seq<Answer>)
    requires scan.journal.Some?
    ensures var (d, w) := PassOf(p, policy, w0, scan, answers); d.Ended? && d.result.Err? && w.rows == w0.rows
  {
    var (d0, w1) := StartPass(p, policy, w0, scan);
    EndedStays(d0, w1, answers);
  }

  /** What a pass over `todo` that ended well and reported `done` achieved. */
  ghost predicate Achieved(p: string, todo: seq<Candidate>, done: seq<Restoration>, before: seq<Row>, w: World) {
    && |done| == |todo|
    && Ascending(todo)
    && (forall i :: 0 <= i < |done| ==> done[i] == Report(todo[i], done[i].error))
    && RestoredIds(done) <= UnclosedIds(before, p)
    && UnclosedIds(w.rows, p) == UnclosedIds(before, p) - RestoredIds(done)
    && (todo != [] && AllRestored(done) ==> Snapshot(w, p) == todo[|todo| - 1].snapshot)
  }

  lemma EndedWell(p: string, todo: seq<Candidate>, w0: World, done: seq<Restoration>, d: Dog, w: World)
    requires Progressed(p, todo, w0, done, d, w) && d.Ended? && d.result.Ok?
    ensures Achieved(p, todo, d.result.value, w0.rows, w)
  {
    assert Position(p, todo, done, d) && DeviceKnown(p, todo, done, d, w);
  }

  /**
    A pass that ends well reports every selected experiment in ascending order,
    closes exactly those it restored, and, when it restored them all, leaves the
    device at the snapshot of the highest one.
   */
  lemma {:induction false} PassMeaning(p: string, policy: ReclaimPolicy, w0: World, scan: Answer, answers: seq<Answer>)
    requires WellFormed(w0.rows)
    ensures var (d, w) := PassOf(p, policy, w0, scan, answers);
            d.Ended? && d.result.Ok? ==>
              Achieved(p, Chosen(Listed(w0.rows, p, w0.now + scan.elapsed), policy), d.result.value, w0.rows, w)
  {
    if scan.journal.Some? {
      UnscannedPass(p, policy, w0, scan, answers);
    } else {
      var cs := ScanSucceeds(w0.rows, p, w0.now + scan.elapsed);
      var (d, w) := PassOf(p, policy, w0, scan, answers);
      var done := PassProgress(p, policy, w0, scan, answers, cs);
      if d.Ended? && d.result.Ok? {
        EndedWell(p, Chosen(cs, policy), Wait(w0, scan), done, d, w);
      }
    }
  }

  /** Wherever a pass stops, it has unclosed nothing. */
  lemma PassNeverUncloses(p: string, policy: ReclaimPolicy, w0: World, scan: Answer, answers: seq<Answer>)
    requires WellFormed(w0.rows)
    ensures WellFormed(PassOf(p, policy, w0, scan, answers).1.rows)
    ensures UnclosedIds(PassOf(p, policy, w0, scan, answers).1.rows, p) <= UnclosedIds(w0.rows, p)
  {
    if scan.journal.Some? {
      UnscannedPass(p, policy, w0, scan, answers);
    } else {
      var cs := ScanSucceeds(w0.rows, p, w0.now + scan.elapsed);
      var done := PassProgress(p, policy, w0, scan, answers, cs);
    }
  }

  lemma AllAchieved(p: string, before: seq<Row>, now: int, todo: seq<Candidate>, done: seq<Restoration>, w: World)
    requires WellFormed(before) && AllRestored(done) && Scan(before, p, now) == Ok(todo)
    requires Achieved(p, todo, done, before, w)
    ensures UnclosedIds(w.rows, p) == {}
  {
    FullPassRestoresAll(p, before, now, done, todo);
  }

  /** A full pass works on the whole scan. */
  lemma FullProgress(p: string, w0: World, scan: Answer, answers: seq<Answer>, cs: seq<Candidate>)
    returns (done: seq<Restoration>)
    requires WellFormed(w0.rows) && scan.journal.None? && Scan(w0.rows, p, w0.now + scan.elapsed) == Ok(cs)
    ensures var (d, w) := PassOf(p, AllUnclosed, w0, scan, answers);
            Progressed(p, cs, Wait(w0, scan), done, d, w)
  {
    ChoosingAll(cs);
    done := PassProgress(p, AllUnclosed, w0, scan, answers, cs);
  }

  /** A full pass that restored everything leaves nothing unclosed. */
  lemma FullPassEmpties(p: string, w0: World, scan: Answer, answers: seq<Answer>, d: Dog, w: World)
    requires WellFormed(w0.rows) && PassOf(p, AllUnclosed, w0, scan, answers) == (d, w)
    requires d.Ended? && d.result.Ok? && AllRestored(d.result.value)
    ensures UnclosedIds(w.rows, p) == {}
  {
    if scan.journal.Some? {
      UnscannedPass(p, AllUnclosed, w0, scan, answers);
    } else {
      var cs := ScanSucceeds(w0.rows, p, w0.now + scan.elapsed);
      assert Achieved(p, cs, d.result.value, w0.rows, w) by {
        var done := FullProgress(p, w0, scan, answers, cs);
        EndedWell(p, cs, Wait(w0, scan), done, d, w);
      }
      AllAchieved(p, w0.rows, w0.now + scan.elapsed, cs, d.result.value, w);
    }
  }

  /** After a full pass that restored everything, the next finds nothing and writes nothing. */
  lemma FullPassIsFinal(p: string, w0: World, scan: Answer, answers: seq<Answer>, next: Answer)
    requires WellFormed(w0.rows)
    requires var d := PassOf(p, AllUnclosed, w0, scan, answers).0;
             d.Ended? && d.result.Ok? && AllRestored(d.result.value)
    ensures var w := PassOf(p, AllUnclosed, w0, scan, answers).1;
            && UnclosedIds(w.rows, p) == {}
            && (next.journal.None? ==> StartPass(p, AllUnclosed, w, next) == (Ended(Ok([])), Wait(w, next)))
  {
    var (d, w) := PassOf(p, AllUnclosed, w0, scan, answers);
    FullPassEmpties(p, w0, scan, answers, d, w);
    PassNeverUncloses(p, AllUnclosed, w0, scan, answers);
    if next.journal.None? {
      NothingToDo(p, AllUnclosed, w, next);
    }
  }
}
