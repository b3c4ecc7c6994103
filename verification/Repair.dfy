/** Once rollback works, passes restore what is unclosed, and repeating them ends. */
module Repairs {
  import opened Wrappers
  import opened Contracts
  import opened Journal
  import opened Lifecycle
  import opened Dirtiness
  import opened Scans
  import opened Recovery
  import opened Systems
  import opened Protocol
  import opened Passes

  // ----- every listed snapshot is the provider's own -----------------------------

  /** An intended experiment has a snapshot row, taken from the provider the intent is for. */
  predicate OwnSnapshot(rows: seq<Row>, e: nat) {
    var intent, snapshot := StageRow(rows, e, AtApplyIntent), StageRow(rows, e, AtSnapshot);
    intent.Some? ==>
      && snapshot.Some? && snapshot.value.payload.SnapshotP?
      && snapshot.value.payload.snapshot.providerId == intent.value.provider
  }

  ghost predicate OwnSnapshots(rows: seq<Row>) {
    forall e: nat :: OwnSnapshot(rows, e)
  }

  /** A lifecycle's snapshot names the provider it was taken from. */
  predicate HonestOwner(o: Owner) {
    && (o.Beginning? ==> o.snapshot.providerId == o.provider)
    && (TicketOf(o).Some? ==> TicketOf(o).value.snapshot.providerId == TicketOf(o).value.provider)
  }

  lemma OwnerStaysHonest(o: Owner, w: World, a: Answer)
    requires HonestOwner(o)
    ensures HonestOwner(OwnerStep(o, w, a).0)
  {
  }

  /** A control plane writes an intent only for the provider its snapshot row came from. */
  lemma ActKeepsOwnSnapshot(o: Owner, w: World, a: Answer, e: nat)
    requires WellFormed(w.rows) && OwnerInPlace(o, w.rows) && TicketOnRecord(o, w.rows) && HonestOwner(o)
    requires OwnSnapshot(w.rows, e)
    ensures OwnSnapshot(OwnerStep(o, w, a).1.rows, e)
  {
    var (o', w') := OwnerStep(o, w, a);
    RecordsTicket(o, w, a);
    if w'.rows != w.rows {
      var row := Last(w'.rows);
      AppendedStageRow(w.rows, row, e, AtSnapshot);
      AppendedStageRow(w.rows, row, e, AtApplyIntent);
      if o.Beginning? {
        FreshHasNoRows(w.rows, MaxId(w.rows) + 1);
        StageRowIsUnique(w.rows, MaxId(w.rows) + 1, AtApplyIntent);
      }
    }
  }

  lemma DogKeepsOwnSnapshots(d: Dog, w: World, a: Answer)
    requires OwnSnapshots(w.rows)
    ensures OwnSnapshots(DogStep(d, w, a).1.rows)
  {
    forall e: nat
      ensures OwnSnapshot(DogStep(d, w, a).1.rows, e)
    {
      DogKeepsStageRows(d, w, a, e);
      assert OwnSnapshot(w.rows, e);
    }
  }

  ghost predicate Honest(s: Sys) {
    OwnSnapshots(s.world.rows) && forall i :: 0 <= i < |s.owners| ==> HonestOwner(s.owners[i])
  }

  lemma NextStaysHonest(s: Sys, x: Action)
    requires Inv(s) && OnRecord(s) && Honest(s)
    ensures Honest(Next(s, x))
  {
    match x
    case Act(i, a) =>
      if i < |s.owners| {
        OwnerStaysHonest(s.owners[i], s.world, a);
        forall e: nat
          ensures OwnSnapshot(Next(s, x).world.rows, e)
        {
          assert OwnSnapshot(s.world.rows, e);
          ActKeepsOwnSnapshot(s.owners[i], s.world, a, e);
        }
      }
    case DogAct(a) => DogKeepsOwnSnapshots(s.dog, s.world, a);
    case _ =>
  }

  /** On every reachable journal an intended experiment can be restored: its snapshot is its provider's. */
  lemma {:induction false} ReachableHonest(devices: map<string, Json>, xs: seq<Action>)
    ensures Honest(Run(Initial(devices), xs))
  {
    if xs != [] {
      var init := xs[..|xs| - 1];
      ReachableHonest(devices, init);
      ReachableOnRecord(devices, init);
      NextStaysHonest(Run(Initial(devices), init), xs[|xs| - 1]);
    }
  }

  // ----- a pass whose rollbacks work ----------------------------------------------

  /** Nothing goes wrong in this step: no fault, and a rollback lands where it should. */
  predicate Works(d: Dog, a: Answer) {
    && a.fault.None? && a.journal.None?
    && (d.Restoring? ==> a.landed == d.pass.current.snapshot.state)
  }

  predicate WorksAt(d: Dog, w: World, answers: seq<Answer>, k: nat)
    requires k < |answers|
  {
    Works(DogRun(d, w, answers[..k]).0, answers[k])
  }

  /** Nothing goes wrong in the first `n` steps. */
  predicate WorksFor(d: Dog, w: World, answers: seq<Answer>, n: nat)
    requires n <= |answers|
  {
    forall k :: 0 <= k < n ==> WorksAt(d, w, answers, k)
  }

  /** Whatever a pass does next, the environment can let it work. */
  lemma {:induction false} WorkIsPossible(d: Dog, w: World, n: nat) returns (answers: seq<Answer>)
    ensures |answers| == n && WorksFor(d, w, answers, n)
  {
    answers := [];
    if n > 0 {
      var init := WorkIsPossible(d, w, n - 1);
      var d' := DogRun(d, w, init).0;
      var landed := if d'.Restoring? then d'.pass.current.snapshot.state else Null;
      answers := init + [Answer(None, None, landed, true, "", 0)];
      assert answers[..n - 1] == init;
      forall k | 0 <= k < n
        ensures WorksAt(d, w, answers, k)
      {
        if k < n - 1 {
          assert answers[..k] == init[..k] && WorksAt(d, w, init, k);
        }
      }
    }
  }

  /** Three working steps restore and close the experiment in hand. */
  lemma ThreeSteps(pass: Pass, w: World, a: Answer, b: Answer, c: Answer)
    requires pass.current.snapshot.providerId == pass.provider
    requires Works(Restoring(pass), a) && b.fault.None? && c.journal.None?
    ensures var (d1, w1) := DogStep(Restoring(pass), w, a);
            var (d2, w2) := DogStep(d1, w1, b);
            var (d3, w3) := DogStep(d2, w2, c);
            && d1 == Checking(pass) && d2 == Settling(pass) && d3 == Onward(pass, None)
            && w3.rows == w.rows + SuccessRows(pass.current, pass.provider, w3.now)
  {
  }

  /** The answers of a run, three by three. */
  lemma FirstThree(d: Dog, w: World, answers: seq<Answer>)
    requires |answers| >= 3
    ensures DogRun(d, w, answers[..1]) == DogStep(d, w, answers[0])
    ensures DogRun(d, w, answers[..2])
            == DogStep(DogRun(d, w, answers[..1]).0, DogRun(d, w, answers[..1]).1, answers[1])
    ensures DogRun(d, w, answers[..3])
            == DogStep(DogRun(d, w, answers[..2]).0, DogRun(d, w, answers[..2]).1, answers[2])
  {
    assert answers[..1] == [] + [answers[0]] && answers[..2] == answers[..1] + [answers[1]];
    assert answers[..3] == answers[..2] + [answers[2]];
    DogRunStep(d, w, [], answers[0]);
    DogRunStep(d, w, answers[..1], answers[1]);
    DogRunStep(d, w, answers[..2], answers[2]);
  }

  lemma FirstRestored(pass: Pass, w: World, answers: seq<Answer>)
    requires pass.current.snapshot.providerId == pass.provider
    requires |answers| >= 3 && WorksFor(Restoring(pass), w, answers, 3)
    ensures var (d3, w3) := DogRun(Restoring(pass), w, answers[..3]);
            d3 == Onward(pass, None) && w3.rows == w.rows + SuccessRows(pass.current, pass.provider, w3.now)
  {
    FirstThree(Restoring(pass), w, answers);
    assert answers[..0] == [];
    assert WorksAt(Restoring(pass), w, answers, 0) && WorksAt(Restoring(pass), w, answers, 1);
    assert WorksAt(Restoring(pass), w, answers, 2);
    ThreeSteps(pass, w, answers[0], answers[1], answers[2]);
  }

  /** What a run does after its first answers is a run of the rest. */
  lemma WorksOnwards(d: Dog, w: World, answers: seq<Answer>, n: nat)
    requires n <= |answers| && WorksFor(d, w, answers, |answers|)
    ensures var (d', w') := DogRun(d, w, answers[..n]); WorksFor(d', w', answers[n..], |answers| - n)
    ensures var (d', w') := DogRun(d, w, answers[..n]); DogRun(d, w, answers) == DogRun(d', w', answers[n..])
  {
    var (d', w') := DogRun(d, w, answers[..n]);
    assert answers[..n] + answers[n..] == answers;
    DogRunConcat(d, w, answers[..n], answers[n..]);
    forall k | 0 <= k < |answers| - n
      ensures WorksAt(d', w', answers[n..], k)
    {
      assert answers[..n] + answers[n..][..k] == answers[..n + k];
      DogRunConcat(d, w, answers[..n], answers[n..][..k]);
      assert WorksAt(d, w, answers, n + k);
    }
  }

  /** The reports of candidates that were all restored. */
  function Restored(cs: seq<Candidate>): seq<Restoration> {
    if cs == [] then [] else [Report(cs[0], None)] + Restored(cs[1..])
  }

  predicate Own(p: string, cs: seq<Candidate>) {
    forall i :: 0 <= i < |cs| ==> cs[i].snapshot.providerId == p
  }

  /** After three working steps the pass goes on with the rest of its candidates. */
  lemma FirstOfHands(p: string, todo: seq<Candidate>, done: seq<Restoration>, w: World, answers: seq<Answer>)
    returns (w': World)
    requires todo != [] && todo[0].snapshot.providerId == p && |answers| >= 3
    requires WorksFor(NextUp(p, todo, done), w, answers, |answers|)
    ensures var d' := NextUp(p, todo[1..], done + [Report(todo[0], None)]);
            && WorksFor(d', w', answers[3..], |answers| - 3)
            && DogRun(NextUp(p, todo, done), w, answers) == DogRun(d', w', answers[3..])
  {
    var pass := Pass(p, todo[0], todo[1..], done);
    FirstRestored(pass, w, answers);
    WorksOnwards(Restoring(pass), w, answers, 3);
    w' := DogRun(Restoring(pass), w, answers[..3]).1;
  }

  /** Working steps, three for each candidate, restore and report every one of them. */
  lemma {:induction false} HandsRestored(p: string, todo: seq<Candidate>, done: seq<Restoration>,
                                         w: World, answers: seq<Answer>)
    requires Own(p, todo) && |answers| >= 3 * |todo|
    requires WorksFor(NextUp(p, todo, done), w, answers, |answers|)
    ensures DogRun(NextUp(p, todo, done), w, answers).0 == Ended(Ok(done + Restored(todo)))
    decreases |todo|
  {
    if todo == [] {
      EndedStays(NextUp(p, todo, done), w, answers);
      assert done + [] == done;
    } else {
      var done' := done + [Report(todo[0], None)];
      var w' := FirstOfHands(p, todo, done, w, answers);
      HandsRestored(p, todo[1..], done', w', answers[3..]);
      assert done' + Restored(todo[1..]) == done + Restored(todo);
    }
  }

  lemma {:induction false} RestoredIsAll(cs: seq<Candidate>)
    ensures AllRestored(Restored(cs)) && |Restored(cs)| == |cs|
  {
    if cs != [] {
      RestoredIsAll(cs[1..]);
    }
  }

  /** What a scan lists comes with the provider's own snapshots. */
  lemma ListedAreOwn(rows: seq<Row>, p: string, now: int, cs: seq<Candidate>, policy: ReclaimPolicy)
    requires WellFormed(rows) && OwnSnapshots(rows) && Scan(rows, p, now) == Ok(cs)
    ensures Own(p, Chosen(cs, policy))
  {
    var todo := Chosen(cs, policy);
    ScanMeaning(rows, p, now);
    ChosenMeaning(cs, policy);
    forall i | 0 <= i < |todo|
      ensures todo[i].snapshot.providerId == p
    {
      ChosenOfScan(p, policy, rows, now, todo[i]);
      assert OwnSnapshot(rows, todo[i].id);
    }
  }

  /** The scan is answered, every step works, and there are enough of them. */
  predicate WorkingPass(p: string, policy: ReclaimPolicy, w: World, scan: Answer, answers: seq<Answer>) {
    var (d, w') := StartPass(p, policy, w, scan);
    && scan.journal.None?
    && |answers| >= 3 * |Chosen(Listed(w.rows, p, w.now + scan.elapsed), policy)|
    && WorksFor(d, w', answers, |answers|)
  }

  /**
    A pass whose provider and journal work restores everything it selects, in at
    most three steps each.
   */
  lemma WorkingPassRestores(p: string, policy: ReclaimPolicy, w: World, scan: Answer, answers: seq<Answer>)
    requires WellFormed(w.rows) && OwnSnapshots(w.rows) && WorkingPass(p, policy, w, scan, answers)
    ensures var d := PassOf(p, policy, w, scan, answers).0;
            && d.Ended? && d.result.Ok? && AllRestored(d.result.value)
            && |d.result.value| == |Chosen(Listed(w.rows, p, w.now + scan.elapsed), policy)|
  {
    var cs := ScanSucceeds(w.rows, p, w.now + scan.elapsed);
    ScannedUnfolds(p, policy, w, scan, cs);
    ListedAreOwn(w.rows, p, w.now + scan.elapsed, cs, policy);
    HandsRestored(p, Chosen(cs, policy), [], Wait(w, scan), answers);
    RestoredIsAll(Chosen(cs, policy));
    assert [] + Restored(Chosen(cs, policy)) == Restored(Chosen(cs, policy));
  }

  /** On every reachable journal one full pass that works leaves nothing unclosed. */
  lemma WorkingPassEmpties(devices: map<string, Json>, xs: seq<Action>, p: string, scan: Answer, answers: seq<Answer>)
    requires WorkingPass(p, AllUnclosed, Run(Initial(devices), xs).world, scan, answers)
    ensures var (d, w) := PassOf(p, AllUnclosed, Run(Initial(devices), xs).world, scan, answers);
            && d.Ended? && d.result.Ok? && AllRestored(d.result.value)
            && UnclosedIds(w.rows, p) == {}
  {
    var w0 := Run(Initial(devices), xs).world;
    Reachable(devices, xs);
    ReachableHonest(devices, xs);
    WorkingPassRestores(p, AllUnclosed, w0, scan, answers);
    var (d, w) := PassOf(p, AllUnclosed, w0, scan, answers);
    FullPassEmpties(p, w0, scan, answers, d, w);
  }

  // ----- pass after pass -------------------------------------------------------------

  /** One pass after another: the scan's answer and the answers that follow it. */
  function AfterPasses(p: string, w: World, plans: seq<(Answer, seq<Answer>)>): World {
    if plans == [] then w
    else
      var plan := plans[|plans| - 1];
      PassOf(p, AllUnclosed, AfterPasses(p, w, plans[..|plans| - 1]), plan.0, plan.1).1
  }

  /**
    Rollback works for the first experiment the pass takes up, if it takes one up.
    The pass may fault at every later one, be cut short, or fail to record.
   */
  predicate FirstWorks(p: string, w: World, plan: (Answer, seq<Answer>)) {
    var (d, w') := StartPass(p, AllUnclosed, w, plan.0);
    && plan.0.journal.None?
    && (!Resting(d) ==> |plan.1| >= 3 && WorksFor(d, w', plan.1, 3))
  }

  /** Watchdog terminals only grow. */
  lemma {:induction false} TerminalsStay(d: Dog, w: World, answers: seq<Answer>, e: nat)
    ensures TerminalsBy(DogRun(d, w, answers).1.rows, e, true) >= TerminalsBy(w.rows, e, true)
  {
    if answers != [] {
      var init, a := answers[..|answers| - 1], answers[|answers| - 1];
      TerminalsStay(d, w, init, e);
      var (d', w') := DogRun(d, w, init);
      var rows := DogStep(d', w', a).1.rows;
      DogStepRows(d', w', a);
      if rows != w'.rows {
        if d'.Settling? {
          var pair := SuccessRows(d'.pass.current, d'.pass.provider, DogStep(d', w', a).1.now);
          assert w'.rows + pair == (w'.rows + [pair[0]]) + [pair[1]];
          Appended(w'.rows, pair[0], e);
          Appended(w'.rows + [pair[0]], pair[1], e);
        } else {
          Appended(w'.rows, Last(rows), e);
        }
      }
    }
  }

  lemma {:induction false} PassKeepsOwnSnapshots(d: Dog, w: World, answers: seq<Answer>)
    requires OwnSnapshots(w.rows)
    ensures OwnSnapshots(DogRun(d, w, answers).1.rows)
  {
    if answers != [] {
      var init := answers[..|answers| - 1];
      PassKeepsOwnSnapshots(d, w, init);
      DogKeepsOwnSnapshots(DogRun(d, w, init).0, DogRun(d, w, init).1, answers[|answers| - 1]);
    }
  }

  /** The first experiment of a pass that works on it is closed, whatever comes after. */
  lemma FirstCloses(p: string, todo: seq<Candidate>, w: World, answers: seq<Answer>)
    requires todo != [] && Own(p, todo) && |answers| >= 3
    requires WorksFor(NextUp(p, todo, []), w, answers, 3)
    ensures TerminalsBy(DogRun(NextUp(p, todo, []), w, answers).1.rows, todo[0].id, true) > 0
  {
    var pass, e := Pass(p, todo[0], todo[1..], []), todo[0].id;
    FirstRestored(pass, w, answers);
    var (d3, w3) := DogRun(Restoring(pass), w, answers[..3]);
    var pair := SuccessRows(todo[0], p, w3.now);
    assert w.rows + pair == (w.rows + [pair[0]]) + [pair[1]];
    Appended(w.rows, pair[0], e);
    Appended(w.rows + [pair[0]], pair[1], e);
    TerminalsStay(d3, w3, answers[3..], e);
    assert answers[..3] + answers[3..] == answers;
    DogRunConcat(Restoring(pass), w, answers[..3], answers[3..]);
  }

  /** Such a pass shrinks the unclosed set, unless there was nothing to do. */
  lemma FirstWorksShrinks(p: string, w: World, plan: (Answer, seq<Answer>))
    requires WellFormed(w.rows) && OwnSnapshots(w.rows) && FirstWorks(p, w, plan)
    ensures var w' := PassOf(p, AllUnclosed, w, plan.0, plan.1).1;
            && WellFormed(w'.rows) && OwnSnapshots(w'.rows)
            && (UnclosedIds(w'.rows, p) < UnclosedIds(w.rows, p) || UnclosedIds(w.rows, p) == {})
            && UnclosedIds(w'.rows, p) <= UnclosedIds(w.rows, p)
  {
    var now := w.now + plan.0.elapsed;
    var cs := ScanSucceeds(w.rows, p, now);
    ScannedUnfolds(p, AllUnclosed, w, plan.0, cs);
    ChoosingAll(cs);
    PassNeverUncloses(p, AllUnclosed, w, plan.0, plan.1);
    PassKeepsOwnSnapshots(NextUp(p, cs, []), Wait(w, plan.0), plan.1);
    if cs == [] {
      NothingListed(w.rows, p, now);
    } else {
      ListedAreOwn(w.rows, p, now, cs, AllUnclosed);
      FirstCloses(p, cs, Wait(w, plan.0), plan.1);
      var w' := PassOf(p, AllUnclosed, w, plan.0, plan.1).1;
      FirstIsUnclosed(w.rows, p, now, cs);
      UnclosedIdsMember(w'.rows, p, cs[0].id);
    }
  }

  lemma NothingListed(rows: seq<Row>, p: string, now: int)
    requires WellFormed(rows) && Scan(rows, p, now) == Ok([])
    ensures UnclosedIds(rows, p) == {}
  {
    ScanMeaning(rows, p, now);
    forall e: nat
      ensures e !in UnclosedIds(rows, p)
    {
      assert !Lists([], e);
    }
  }

  lemma FirstIsUnclosed(rows: seq<Row>, p: string, now: int, cs: seq<Candidate>)
    requires WellFormed(rows) && Scan(rows, p, now) == Ok(cs) && cs != []
    ensures cs[0].id in UnclosedIds(rows, p)
  {
    ScanMeaning(rows, p, now);
    assert Lists(cs, cs[0].id);
    UnclosedIdsMember(rows, p, cs[0].id);
  }

  lemma {:induction false} PassesShrink(p: string, w: World, plans: seq<(Answer, seq<Answer>)>)
    requires WellFormed(w.rows) && OwnSnapshots(w.rows)
    requires forall k :: 0 <= k < |plans| ==> FirstWorks(p, AfterPasses(p, w, plans[..k]), plans[k])
    ensures WellFormed(AfterPasses(p, w, plans).rows) && OwnSnapshots(AfterPasses(p, w, plans).rows)
    ensures |UnclosedIds(AfterPasses(p, w, plans).rows, p)| + |plans| <= |UnclosedIds(w.rows, p)|
            || UnclosedIds(AfterPasses(p, w, plans).rows, p) == {}
  {
    if plans != [] {
      var n := |plans| - 1;
      var init, plan := plans[..n], plans[n];
      forall k | 0 <= k < n
        ensures FirstWorks(p, AfterPasses(p, w, init[..k]), init[k])
      {
        assert init[..k] == plans[..k];
      }
      PassesShrink(p, w, init);
      assert FirstWorks(p, AfterPasses(p, w, plans[..n]), plans[n]);
      FirstWorksShrinks(p, AfterPasses(p, w, init), plan);
      Smaller(UnclosedIds(AfterPasses(p, w, plans).rows, p), UnclosedIds(AfterPasses(p, w, init).rows, p));
    }
  }

  lemma Smaller(a: set<nat>, b: set<nat>)
    requires a <= b
    ensures a < b ==> |a| < |b|
    ensures |a| <= |b|
  {
    assert b == a + (b - a);
  }

  /**
    Repeated passes end.  From any reachable journal, once rollback works for
    whatever experiment each pass takes up first, every pass closes at least one,
    so after as many passes as there were unclosed experiments none is left.
   */
  lemma RepeatedPassesEnd(devices: map<string, Json>, xs: seq<Action>, p: string,
                          plans: seq<(Answer, seq<Answer>)>)
    requires var w := Run(Initial(devices), xs).world;
             forall k :: 0 <= k < |plans| ==> FirstWorks(p, AfterPasses(p, w, plans[..k]), plans[k])
    ensures var w := Run(Initial(devices), xs).world;
            var left := UnclosedIds(AfterPasses(p, w, plans).rows, p);
            && (|left| + |plans| <= |UnclosedIds(w.rows, p)| || left == {})
            && (|plans| >= |UnclosedIds(w.rows, p)| ==> left == {})
  {
    Reachable(devices, xs);
    ReachableHonest(devices, xs);
    PassesShrink(p, Run(Initial(devices), xs).world, plans);
  }
}
