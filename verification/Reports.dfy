/**
  What a pass says of what it did: the reasons, leases and errors in its report and
  in the rows it adds, told from the journal, the clock and the provider's answers.
 */
module Reports {
  import opened Wrappers
  import opened Contracts
  import opened Journal
  import opened Leases
  import opened Lifecycle
  import opened Scans
  import opened Recovery
  import opened Protocol
  import opened Passes

  // ----- what is to be said of an experiment ------------------------------------------

  /** The lease of the experiment's intent row had elapsed when the journal was scanned. */
  predicate Lapsed(rows: seq<Row>, now: int, e: nat) {
    var intent := StageRow(rows, e, AtApplyIntent);
    && intent.Some? && intent.value.payload.RequestP?
    && Selected(now, intent.value.at, intent.value.payload.request.leaseSeconds)
  }

  /** An expired lease is the reason exactly when the lease had elapsed, and a crash otherwise. */
  predicate ReasonFits(rows: seq<Row>, now: int, e: nat, reason: ReclaimReason) {
    && (reason == LeaseExpired <==> Lapsed(rows, now, e))
    && (reason == CrashRecovery <==> !Lapsed(rows, now, e))
  }

  predicate ReportFits(rows: seq<Row>, now: int, r: Restoration) {
    var intent := StageRow(rows, r.id, AtApplyIntent);
    && intent.Some? && intent.value.payload.RequestP?
    && r.leaseSeconds == intent.value.payload.request.leaseSeconds
    && ReasonFits(rows, now, r.id, r.reason)
  }

  /** A row of the watchdog: the reason, and in a restore row the snapshot it restored from. */
  predicate RowFits(rows: seq<Row>, now: int, p: string, row: Row) {
    && row.provider == p
    && match row.payload {
         case WatchdogRestoreP(reason, _, baseline) =>
           && row.stage == AtWatchdogRestore
           && ReasonFits(rows, now, row.id, reason)
           && StageRow(rows, row.id, AtSnapshot).Some?
           && StageRow(rows, row.id, AtSnapshot).value.payload == SnapshotP(baseline)
         case WatchdogTerminalP(reason) =>
           row.stage == AtFailed && ReasonFits(rows, now, row.id, reason)
         case _ => false
       }
  }

  /** What a pass has in hand, what it has reported and what it has written since `rows`. */
  predicate SaysSo(rows: seq<Row>, now: int, p: string, d: Dog, w: World) {
    && (!Resting(d) ==> d.pass.provider == p)
    && (forall i :: 0 <= i < |Todo(d)| ==> Describes(rows, now, Todo(d)[i]))
    && (forall i :: 0 <= i < |Said(d)| ==> ReportFits(rows, now, Said(d)[i]))
    && rows <= w.rows
    && (forall k :: |rows| <= k < |w.rows| ==> RowFits(rows, now, p, w.rows[k]))
  }

  /** What the pass has reported so far. */
  function Said(d: Dog): seq<Restoration> {
    match d
    case Idle => []
    case Ended(Ok(done)) => done
    case Ended(Err(_)) => []
    case _ => d.pass.done
  }

  lemma DescribedFits(rows: seq<Row>, now: int, p: string, c: Candidate, error: Option<string>, at: int)
    requires Describes(rows, now, c)
    ensures ReportFits(rows, now, Report(c, error))
    ensures error.Some? ==> RowFits(rows, now, p, Row(c.id, at, AtWatchdogRestore, p, FailurePayload(c, error.value)))
    ensures forall k :: 0 <= k < 2 ==> RowFits(rows, now, p, SuccessRows(c, p, at)[k])
  {
  }

  /** What a step adds to the report. */
  lemma StepSays(d: Dog, w: World, a: Answer)
    requires !Resting(d)
    ensures var d' := DogStep(d, w, a).0;
            || Said(d') == Said(d) || Said(d') == []
            || (d.Settling? && Said(d') == Said(d) + [Report(d.pass.current, None)])
            || ((d.LookingUp? || d.Noting?) && Said(d') == Said(d) + [Report(d.pass.current, Some(d.message))])
    ensures !Resting(DogStep(d, w, a).0) ==> DogStep(d, w, a).0.pass.provider == d.pass.provider
  {
  }

  lemma StepSaysSo(rows: seq<Row>, now: int, p: string, d: Dog, w: World, a: Answer)
    requires SaysSo(rows, now, p, d, w) && !Resting(d)
    ensures SaysSo(rows, now, p, DogStep(d, w, a).0, DogStep(d, w, a).1)
  {
    var (d', w') := DogStep(d, w, a);
    var c := d.pass.current;
    assert Todo(d)[0] == c && Todo(d)[1..] == d.pass.rest;
    StepSays(d, w, a);
    DogStepRows(d, w, a);
    DescribedFits(rows, now, p, c, None, w'.now);
    if d.LookingUp? || d.Noting? {
      DescribedFits(rows, now, p, c, Some(d.message), w'.now);
    }
    forall k | |rows| <= k < |w'.rows|
      ensures RowFits(rows, now, p, w'.rows[k])
    {
      if k < |w.rows| {
        assert w'.rows[k] == w.rows[k];
      }
    }
  }

  lemma {:induction false} RunSaysSo(rows: seq<Row>, now: int, p: string, d: Dog, w: World, answers: seq<Answer>)
    requires SaysSo(rows, now, p, d, w)
    ensures SaysSo(rows, now, p, DogRun(d, w, answers).0, DogRun(d, w, answers).1)
  {
    if answers != [] {
      var n := |answers| - 1;
      RunSaysSo(rows, now, p, d, w, answers[..n]);
      var (d', w') := DogRun(d, w, answers[..n]);
      if !Resting(d') {
        StepSaysSo(rows, now, p, d', w', answers[n]);
      }
    }
  }

  lemma StartSaysSo(p: string, policy: ReclaimPolicy, w0: World, scan: Answer)
    requires WellFormed(w0.rows)
    ensures var (d, w) := StartPass(p, policy, w0, scan); SaysSo(w0.rows, w0.now + scan.elapsed, p, d, w)
  {
    var now := w0.now + scan.elapsed;
    if scan.journal.None? {
      var cs := ScanSucceeds(w0.rows, p, now);
      ScannedUnfolds(p, policy, w0, scan, cs);
      ChosenAreDescribed(p, policy, w0.rows, now, cs);
      HandsSaySo(p, Chosen(cs, policy), Wait(w0, scan), now);
    }
  }

  lemma ChosenAreDescribed(p: string, policy: ReclaimPolicy, rows: seq<Row>, now: int, cs: seq<Candidate>)
    requires WellFormed(rows) && Scan(rows, p, now) == Ok(cs)
    ensures forall i :: 0 <= i < |Chosen(cs, policy)| ==> Describes(rows, now, Chosen(cs, policy)[i])
  {
    forall i | 0 <= i < |Chosen(cs, policy)|
      ensures Describes(rows, now, Chosen(cs, policy)[i])
    {
      ChosenOfScan(p, policy, rows, now, Chosen(cs, policy)[i]);
    }
  }

  lemma HandsSaySo(p: string, todo: seq<Candidate>, w: World, now: int)
    requires forall i :: 0 <= i < |todo| ==> Describes(w.rows, now, todo[i])
    ensures SaysSo(w.rows, now, p, NextUp(p, todo, []), w)
  {
    NextUpHands(p, todo);
  }

  /**
    Wherever a pass stops, every report it has made and every row it has added gives
    as the reason an expired lease exactly when the lease of that experiment's intent
    had elapsed at the scan, and a crash otherwise; the report carries that lease,
    and a restore row the experiment's own snapshot.
   */
  lemma PassSaysWhy(p: string, policy: ReclaimPolicy, w0: World, scan: Answer, answers: seq<Answer>)
    requires WellFormed(w0.rows)
    ensures var (now, (d, w)) := (w0.now + scan.elapsed, PassOf(p, policy, w0, scan, answers));
            && (d.Ended? && d.result.Ok? ==>
                  forall i :: 0 <= i < |d.result.value| ==> ReportFits(w0.rows, now, d.result.value[i]))
            && w0.rows <= w.rows
            && (forall k :: |w0.rows| <= k < |w.rows| ==> RowFits(w0.rows, now, p, w.rows[k]))
  {
    var (d, w) := StartPass(p, policy, w0, scan);
    StartSaysSo(p, policy, w0, scan);
    RunSaysSo(w0.rows, w0.now + scan.elapsed, p, d, w, answers);
    var end := DogRun(d, w, answers).0;
    if end.Ended? && end.result.Ok? {
      assert Said(end) == end.result.value;
    }
  }

  // ----- the errors it reports ------------------------------------------------------------

  const MISMATCH_TEXT: string := "rollback failed: " + "post-rollback snapshot did not match the journaled snapshot"

  /** What went wrong in a restore: the provider's fault, or a re-read that is not the snapshot. */
  function RestoreFault(d: Dog, w: World, a: Answer): Option<string> {
    match d
    case Restoring(_) => if a.fault.Some? then Some(a.fault.value.Display()) else None
    case Checking(pass) =>
      if a.fault.Some? then Some(a.fault.value.Display())
      else if StateSnapshot(pass.provider, Device(w, pass.provider)) != pass.current.snapshot then Some(MISMATCH_TEXT)
      else None
    case _ => None
  }

  lemma MismatchText()
    ensures MISMATCH.Display() == MISMATCH_TEXT
  {
  }

  /** A pass from what it took in hand, and the answers it got. */
  datatype Round = Round(d0: Dog, w0: World, answers: seq<Answer>) {
    function End(): (Dog, World) {
      DogRun(d0, w0, answers)
    }

    function Upto(k: nat): Round
      requires k <= |answers|
    {
      this.(answers := answers[..k])
    }

    /** The answer to the `k`-th call reports this of the restore of `e`. */
    predicate FailsAt(k: nat, e: nat, text: string) {
      && k < |answers|
      && !Resting(Upto(k).End().0) && Upto(k).End().0.pass.current.id == e
      && RestoreFault(Upto(k).End().0, Upto(k).End().1, answers[k]) == Some(text)
    }

    ghost predicate Failed(e: nat, text: string) {
      exists k: nat :: FailsAt(k, e, text)
    }
  }

  /** The error is reported, or about to be, or the pass failed as a whole. */
  predicate Carried(d: Dog, e: nat, text: string) {
    || (exists i :: 0 <= i < |Said(d)| && Said(d)[i].id == e && Said(d)[i].error == Some(text))
    || ((d.LookingUp? || d.Noting?) && d.pass.current.id == e && d.message == text)
    || (d.Ended? && d.result.Err?)
  }

  /** One step carries on what was carried, and what it meets. */
  lemma StepCarries(d: Dog, w: World, a: Answer, e: nat, text: string)
    requires !Resting(d)
    requires Carried(d, e, text) || (d.pass.current.id == e && RestoreFault(d, w, a) == Some(text))
    ensures Carried(DogStep(d, w, a).0, e, text)
  {
    var d' := DogStep(d, w, a).0;
    StepSays(d, w, a);
    MismatchText();
    if !(d'.Ended? && d'.result.Err?) && (d.LookingUp? || d.Noting?) && d.message == text && d.pass.current.id == e
       && Said(d') == Said(d) + [Report(d.pass.current, Some(d.message))] {
      assert Said(d')[|Said(d)|].error == Some(text);
    }
    if exists i :: 0 <= i < |Said(d)| && Said(d)[i].id == e && Said(d)[i].error == Some(text) {
      var i :| 0 <= i < |Said(d)| && Said(d)[i].id == e && Said(d)[i].error == Some(text);
      assert Said(d) <= Said(d') ==> Said(d')[i] == Said(d)[i];
    }
  }

  lemma {:induction false} FailureIsCarried(round: Round, k: nat, e: nat, text: string)
    requires round.FailsAt(k, e, text)
    ensures Carried(round.End().0, e, text)
    decreases |round.answers|
  {
    var n := |round.answers| - 1;
    var init := round.Upto(n);
    var (d, w) := init.End();
    if k < n {
      assert init.answers[..k] == round.answers[..k];
      FailureIsCarried(init, k, e, text);
    }
    if !Resting(d) {
      StepCarries(d, w, round.answers[n], e, text);
    }
  }

  /** Whatever error a pass carries, a call met. */
  ghost predicate Met(round: Round, d: Dog) {
    && (forall i :: 0 <= i < |Said(d)| && Said(d)[i].error.Some? ==>
                      round.Failed(Said(d)[i].id, Said(d)[i].error.value))
    && (d.LookingUp? || d.Noting? ==> round.Failed(d.pass.current.id, d.message))
  }

  lemma FailedStays(round: Round, e: nat, text: string)
    requires round.answers != [] && round.Upto(|round.answers| - 1).Failed(e, text)
    ensures round.Failed(e, text)
  {
    var init := round.Upto(|round.answers| - 1);
    var k: nat :| init.FailsAt(k, e, text);
    assert init.answers[..k] == round.answers[..k];
    assert round.FailsAt(k, e, text);
  }

  /** A pass begins to note a failure only when a call has met it. */
  lemma StepMeets(d: Dog, w: World, a: Answer)
    requires !Resting(d)
    ensures var d' := DogStep(d, w, a).0;
            d'.LookingUp? || d'.Noting? ==>
              && d'.pass.current == d.pass.current
              && (((d.LookingUp? || d.Noting?) && d'.message == d.message)
                  || RestoreFault(d, w, a) == Some(d'.message))
  {
    MismatchText();
  }

  lemma {:induction false} CarriedIsMet(round: Round)
    requires Said(round.d0) == [] && !round.d0.LookingUp? && !round.d0.Noting?
    ensures Met(round, round.End().0)
    decreases |round.answers|
  {
    if round.answers != [] {
      var n := |round.answers| - 1;
      var init := round.Upto(n);
      var (d, w) := init.End();
      var d' := round.End().0;
      CarriedIsMet(init);
      forall e: nat, text | init.Failed(e, text)
        ensures round.Failed(e, text)
      {
        FailedStays(round, e, text);
      }
      if !Resting(d) {
        StepSays(d, w, round.answers[n]);
        StepMeets(d, w, round.answers[n]);
        if RestoreFault(d, w, round.answers[n]).Some? {
          assert round.FailsAt(n, d.pass.current.id, RestoreFault(d, w, round.answers[n]).value);
        }
      }
    }
  }

  /**
    A pass that ends well reports as the error of an experiment exactly the text of
    what the provider answered for it: its fault, or that the re-read was not the
    snapshot; and no error exactly when there was none.
   */
  lemma PassSaysWhatFailed(p: string, policy: ReclaimPolicy, w0: World, scan: Answer, answers: seq<Answer>)
    requires WellFormed(w0.rows)
    requires var d := PassOf(p, policy, w0, scan, answers).0; d.Ended? && d.result.Ok?
    ensures var (d0, w) := StartPass(p, policy, w0, scan);
            var (round, done) := (Round(d0, w, answers), PassOf(p, policy, w0, scan, answers).0.result.value);
            && (forall i, text :: 0 <= i < |done| ==> (done[i].error == Some(text) <==> round.Failed(done[i].id, text)))
            && (forall i :: 0 <= i < |done| ==>
                  (done[i].error.None? <==> forall text :: !round.Failed(done[i].id, text)))
  {
    var (d0, w) := StartPass(p, policy, w0, scan);
    var (round, done) := (Round(d0, w, answers), PassOf(p, policy, w0, scan, answers).0.result.value);
    PassMeaning(p, policy, w0, scan, answers);
    StartIsSilent(p, policy, w0, scan);
    CarriedIsMet(round);
    forall i, text | 0 <= i < |done|
      ensures done[i].error == Some(text) <==> round.Failed(done[i].id, text)
    {
      assert Said(round.End().0)[i] == done[i];
      if round.Failed(done[i].id, text) {
        var k: nat :| round.FailsAt(k, done[i].id, text);
        FailureIsCarried(round, k, done[i].id, text);
        var j :| 0 <= j < |done| && done[j].id == done[i].id && done[j].error == Some(text);
        assert j == i;
      }
    }
    forall i | 0 <= i < |done|
      ensures done[i].error.None? <==> forall text :: !round.Failed(done[i].id, text)
    {
      if done[i].error.Some? {
        assert round.Failed(done[i].id, done[i].error.value);
      }
    }
  }

  lemma StartIsSilent(p: string, policy: ReclaimPolicy, w0: World, scan: Answer)
    ensures var d := StartPass(p, policy, w0, scan).0; Said(d) == [] && !d.LookingUp? && !d.Noting?
  {
  }

  /** Texts tell errors apart, so a failure that is noted as the same is the same. */
  lemma DisplayIsInjective(a: ProviderError, b: ProviderError)
    ensures a.Display() == b.Display() <==> a == b
    ensures a.UnsupportedCapability? ==> a.Display() == "unsupported capability: " + a.detail
    ensures a.InvalidRequest? ==> a.Display() == "invalid request: " + a.detail
    ensures a.Unavailable? ==> a.Display() == "provider unavailable: " + a.detail
    ensures a.RollbackFailed? ==> a.Display() == "rollback failed: " + a.detail
  {
    if a.Display() == b.Display() {
      assert a.Display()[0] == b.Display()[0];
      var n := |a.Display()| - |a.detail|;
      assert a.detail == a.Display()[n..] && b.detail == b.Display()[n..];
    }
  }
}
