/**
  Runs in which the owner and the watchdog both act on one experiment, because
  neither re-checks the journal before it inserts.  They show where the bounds
  of the protocol are tight and which stronger claims are false.
 */
module Races {
  import opened Wrappers
  import opened Contracts
  import opened Journal
  import opened Leases
  import opened Lifecycle
  import opened ControlPlanes
  import opened Dirtiness
  import opened Scans
  import opened Recovery
  import opened Systems
  import opened Protocol

  /** No fault; the device lands on `landed`; `elapsed` milliseconds go by. */
  function Calm(landed: Json, elapsed: int): Answer {
    Answer(None, None, landed, true, "", elapsed)
  }

  function Fault(landed: Json): Answer {
    Answer(Some(Unavailable("")), None, landed, true, "", 0)
  }

  ghost predicate AllPatient(xs: seq<Action>) {
    forall k :: 0 <= k < |xs| ==> Patient(xs[k])
  }

  /** One more action at the end of a run. */
  lemma Take(s0: Sys, xs: seq<Action>, x: Action) returns (ys: seq<Action>)
    ensures ys == xs + [x]
    ensures Run(s0, ys) == Next(Run(s0, xs), x)
    ensures AllPatient(xs) && Patient(x) ==> AllPatient(ys)
  {
    ys := xs + [x];
    assert ys[..|xs|] == xs;
  }

  /** The ticket of the first lifecycle on a fresh host. */
  function FirstTicket(manifest: ProviderManifest, request: ChangeRequest, devices: map<string, Json>): Ticket {
    Ticket(1, manifest.id, request, Lifecycle.Snapshot(Initial(devices).world, manifest.id))
  }

  function SnapshotRow(t: Ticket, at: int): Row {
    Row(t.id, at, AtSnapshot, t.provider, SnapshotP(t.snapshot))
  }

  function PreviewRow(t: Ticket, at: int): Row {
    Row(t.id, at, AtPreview, t.provider, PreviewP(""))
  }

  function IntentRow(t: Ticket, at: int): Row {
    Row(t.id, at, AtApplyIntent, t.provider, RequestP(t.request))
  }

  function FirstRows(t: Ticket, at: int): seq<Row> {
    [] + [SnapshotRow(t, at)] + [PreviewRow(t, at)] + [IntentRow(t, at)]
  }

  /** The first lifecycle stands right before apply, its intent recorded at `at`. */
  function AtIntent(t: Ticket, devices: map<string, Json>, at: int, dog: Dog): Sys {
    Sys(World(devices, FirstRows(t, at), at), [Applying(t, "")], dog)
  }

  ghost predicate AllForward(answers: seq<Answer>) {
    forall k :: 0 <= k < |answers| ==> answers[k].elapsed >= 0
  }

  /** Letting the only owner take its steps. */
  lemma {:induction false} OwnerActs(s0: Sys, xs: seq<Action>, answers: seq<Answer>) returns (ys: seq<Action>)
    requires |Run(s0, xs).owners| == 1
    ensures var s := Run(s0, xs);
            var (o, w) := OwnerRun(s.owners[0], s.world, answers);
            Run(s0, ys) == Sys(w, [o], s.dog)
    ensures AllPatient(xs) && AllForward(answers) ==> AllPatient(ys)
  {
    if answers == [] {
      ys := xs;
      assert Run(s0, xs).owners == [Run(s0, xs).owners[0]];
    } else {
      ys := OwnerActs(s0, xs, answers[..|answers| - 1]);
      ys := Take(s0, ys, Act(0, answers[|answers| - 1]));
    }
  }

  /** Letting the watchdog take its steps. */
  lemma {:induction false} DogActs(s0: Sys, xs: seq<Action>, answers: seq<Answer>) returns (ys: seq<Action>)
    ensures var s := Run(s0, xs);
            var (d, w) := DogRun(s.dog, s.world, answers);
            Run(s0, ys) == Sys(w, s.owners, d)
    ensures AllPatient(xs) && AllForward(answers) ==> AllPatient(ys)
  {
    if answers == [] {
      ys := xs;
    } else {
      ys := DogActs(s0, xs, answers[..|answers| - 1]);
      ys := Take(s0, ys, DogAct(answers[|answers| - 1]));
    }
  }

  /** Five quiet steps lead an owner from the start of its lifecycle to its apply. */
  lemma OwnerReachesApply(t: Ticket, w: World, at: int) returns (answers: seq<Answer>)
    requires w.rows == [] && w.now == 0 && t.id == 1
    requires t.snapshot == Lifecycle.Snapshot(w, t.provider)
    ensures OwnerRun(TakingSnapshot(t.provider, t.request), w, answers)
            == (Applying(t, ""), World(w.devices, FirstRows(t, at), at))
    ensures at >= 0 ==> AllForward(answers)
  {
    var o, a0, a := TakingSnapshot(t.provider, t.request), Calm(Null, at), Calm(Null, 0);
    var d := w.devices;
    OwnerRunStep(o, w, [], a0);
    answers := [] + [a0];
    assert OwnerRun(o, w, answers) == (Beginning(t.provider, t.request, t.snapshot), World(d, [], at));
    OwnerRunStep(o, w, answers, a);
    answers := answers + [a];
    assert OwnerRun(o, w, answers) == (Previewing(t), World(d, [] + [SnapshotRow(t, at)], at));
    OwnerRunStep(o, w, answers, a);
    answers := answers + [a];
    assert OwnerRun(o, w, answers) == (RecordingPreview(t, ""), World(d, [] + [SnapshotRow(t, at)], at));
    OwnerRunStep(o, w, answers, a);
    answers := answers + [a];
    assert OwnerRun(o, w, answers)
           == (RecordingIntent(t, ""), World(d, [] + [SnapshotRow(t, at)] + [PreviewRow(t, at)], at));
    OwnerRunStep(o, w, answers, a);
    answers := answers + [a];
  }

  lemma ReachIntent(manifest: ProviderManifest, request: ChangeRequest, devices: map<string, Json>, at: int)
    returns (xs: seq<Action>)
    requires Validate(manifest, request).Ok?
    ensures Run(Initial(devices), xs) == AtIntent(FirstTicket(manifest, request, devices), devices, at, Idle)
    ensures at >= 0 ==> AllPatient(xs)
  {
    var s0, t := Initial(devices), FirstTicket(manifest, request, devices);
    xs := Take(s0, [], Start(manifest, request));
    assert Run(s0, xs) == Sys(s0.world, [TakingSnapshot(manifest.id, request)], Idle);
    var answers := OwnerReachesApply(t, s0.world, at);
    xs := OwnerActs(s0, xs, answers);
  }

  lemma InOrder(cs: seq<Candidate>, i: nat, j: nat)
    requires Ascending(cs) && i < j < |cs|
    ensures cs[i].id < cs[j].id
  {
  }

  /** The only candidate a pass can find there. */
  lemma SoleCandidate(rows: seq<Row>, p: string, now: int) returns (c: Candidate)
    requires WellFormed(rows) && MaxId(rows) == 1 && UnclosedOf(rows, p, 1)
    ensures Scan(rows, p, now) == Ok([c]) && c.id == 1 && Describes(rows, now, c)
  {
    ScanMeaning(rows, p, now);
    var cs := Scan(rows, p, now).value;
    assert Lists(cs, 1);
    forall j | 0 <= j < |cs|
      ensures cs[j].id == 1
    {
      assert Lists(cs, cs[j].id);
      CountsFollowProgress(rows, cs[j].id);
    }
    if |cs| > 1 {
      InOrder(cs, 0, 1);
    }
    c := cs[0];
    assert cs == [c];
  }

  lemma SweepFindsFirst(t: Ticket, w: World, at: int, policy: ReclaimPolicy, a: Answer)
    returns (c: Candidate)
    requires t.id == 1 && a.journal.None? && w.rows == FirstRows(t, at) && w.now == at
    requires WellFormed(w.rows)
    requires policy == AllUnclosed || Selected(at + a.elapsed, at, t.request.leaseSeconds)
    ensures c.id == 1 && c.snapshot == t.snapshot
    ensures StartPass(t.provider, policy, w, a) == (Restoring(Pass(t.provider, c, [], [])), Wait(w, a))
  {
    c := FirstCandidate(t, w, at, at + a.elapsed);
    ScannedUnfolds(t.provider, policy, w, a, [c]);
    OnlyChoice(c, policy);
    OneInHand(t.provider, c);
  }

  lemma OneInHand(p: string, c: Candidate)
    ensures NextUp(p, [c], []) == Restoring(Pass(p, c, [], []))
  {
    assert [c][1..] == [];
  }

  lemma FirstCandidate(t: Ticket, w: World, at: int, now: int) returns (c: Candidate)
    requires t.id == 1 && w.rows == FirstRows(t, at) && WellFormed(w.rows)
    ensures Scan(w.rows, t.provider, now) == Ok([c])
    ensures c.id == 1 && c.snapshot == t.snapshot
    ensures c.leaseExpired == Selected(now, at, t.request.leaseSeconds)
  {
    FirstRowsMeaning(t, at);
    c := SoleCandidate(w.rows, t.provider, now);
  }

  lemma {:induction false} OnlyChoice(c: Candidate, policy: ReclaimPolicy)
    requires SelectedBy(c, policy)
    ensures Chosen([c], policy) == [c]
  {
    assert [c][..0] == [];
  }

  lemma TwoRowsMeaning(t: Ticket, at: int)
    requires t.id == 1
    ensures var rows := [] + [SnapshotRow(t, at)] + [PreviewRow(t, at)];
            && MaxId(rows) == 1
            && StageRow(rows, 1, AtSnapshot) == Some(SnapshotRow(t, at))
            && OwnerTerminal(rows, 1) == None
            && ProgressOf(rows, 1) == Previewed
            && Terminals(rows, 1) == 0
  {
    var r0, r1 := SnapshotRow(t, at), PreviewRow(t, at);
    Appended([], r0, 1);
    AppendedRow([], r0, 1);
    AppendedStageRow([], r0, 1, AtSnapshot);
    Appended([] + [r0], r1, 1);
    AppendedRow([] + [r0], r1, 1);
    AppendedStageRow([] + [r0], r1, 1, AtSnapshot);
  }

  lemma FirstRowsMeaning(t: Ticket, at: int)
    requires t.id == 1
    ensures var rows := FirstRows(t, at);
            && MaxId(rows) == 1
            && StageRow(rows, 1, AtSnapshot) == Some(SnapshotRow(t, at))
            && StageRow(rows, 1, AtApplyIntent) == Some(IntentRow(t, at))
            && OwnerTerminal(rows, 1) == None
            && ProgressOf(rows, 1) == Acting(Unapplied, NotBack)
            && Unclosed(rows, 1)
  {
    var two, r2 := [] + [SnapshotRow(t, at)] + [PreviewRow(t, at)], IntentRow(t, at);
    TwoRowsMeaning(t, at);
    Appended(two, r2, 1);
    AppendedRow(two, r2, 1);
    AppendedStageRow(two, r2, 1, AtSnapshot);
    AppendedStageRow(two, r2, 1, AtApplyIntent);
  }

  /** The three steps of a restore that works, on the last candidate of a pass. */
  lemma PassSucceeds(w: World, pass: Pass) returns (answers: seq<Answer>)
    requires pass.rest == [] && pass.done == [] && pass.current.snapshot.providerId == pass.provider
    ensures DogRun(Restoring(pass), w, answers)
            == (Ended(Ok([] + [Report(pass.current, None)])),
                World(w.devices[pass.provider := pass.current.snapshot.state],
                      w.rows + SuccessRows(pass.current, pass.provider, w.now), w.now))
    ensures AllForward(answers)
  {
    var d, state := Restoring(pass), pass.current.snapshot.state;
    var w1 := World(w.devices[pass.provider := state], w.rows, w.now);
    DogRunStep(d, w, [], Calm(state, 0));
    answers := [] + [Calm(state, 0)];
    assert DogRun(d, w, answers) == (Checking(pass), w1);
    DogRunStep(d, w, answers, Calm(Null, 0));
    answers := answers + [Calm(Null, 0)];
    assert DogRun(d, w, answers) == (Settling(pass), w1);
    DogRunStep(d, w, answers, Calm(Null, 0));
    answers := answers + [Calm(Null, 0)];
  }

  /** An owner whose apply and rollback both fault records a failure and stops, wherever the device landed. */
  lemma OwnerGivesUp(w: World, t: Ticket, landed: Json) returns (answers: seq<Answer>, row: Row)
    ensures OwnerRun(Applying(t, ""), w, answers).1
            == World(w.devices[t.provider := landed], w.rows + [row], w.now)
    ensures Stopped(OwnerRun(Applying(t, ""), w, answers).0)
    ensures row.id == t.id && row.at == w.now && row.stage == AtFailed && !ByWatchdog(row)
    ensures row.payload.FailedP? && row.payload.note.stage == AtRollback && row.payload.suppressed.Some?
    ensures AllForward(answers)
  {
    var o, f, c := Applying(t, ""), Fault(landed), Calm(Null, 0);
    var w1 := World(w.devices[t.provider := landed], w.rows, w.now);
    OwnerRunStep(o, w, [], f);
    answers := [] + [f];
    assert OwnerRun(o, w, answers) == (RollingBack(t, "", Err(ProviderFailure(AtApply, f))), w1);
    OwnerRunStep(o, w, answers, f);
    answers := answers + [f];
    var outcome := Conclude(t, "", Err(ProviderFailure(AtApply, f)), Err(ProviderFailure(AtRollback, f)));
    assert w1.devices[t.provider := landed] == w1.devices;
    assert OwnerRun(o, w, answers) == (Closing(t, outcome), w1);
    OwnerRunStep(o, w, answers, c);
    answers := answers + [c];
    row := Row(t.id, w.now, AtFailed, t.provider, TerminalPayload(outcome));
  }

  /** The first lifecycle's rows followed by the watchdog's closing pair. */
  lemma ReclaimedRowsMeaning(t: Ticket, at: int, c: Candidate, now: int)
    requires t.id == 1 && c.id == 1
    ensures var rows := FirstRows(t, at) + SuccessRows(c, t.provider, now);
            && MaxId(rows) == 1
            && StageRow(rows, 1, AtApplyIntent) == Some(IntentRow(t, at))
            && OwnerTerminal(rows, 1) == None
            && TerminalsBy(rows, 1, true) == 1
            && TerminalsBy(rows, 1, false) == 0
  {
    var rows, pair := FirstRows(t, at), SuccessRows(c, t.provider, now);
    FirstRowsMeaning(t, at);
    ClosingRows(rows, c, t.provider, now, 1);
    assert rows + pair == (rows + [pair[0]]) + [pair[1]];
    WatchdogKeepsStageRows(rows, pair[0], 1);
    WatchdogKeepsStageRows(rows + [pair[0]], pair[1], 1);
  }

  /** After a pass that ran between the intent and the apply: restored, closed, the owner unaware. */
  function Reclaimed(t: Ticket, devices: map<string, Json>, at: int, now: int, c: Candidate): Sys {
    Sys(World(devices[t.provider := t.snapshot.state], FirstRows(t, at) + SuccessRows(c, t.provider, now), now),
        [Applying(t, "")], Ended(Ok([] + [Report(c, None)])))
  }

  /** A pass with one experiment in hand restores it, closes it and ends. */
  lemma PassReclaims(s0: Sys, xs: seq<Action>, pass: Pass) returns (ys: seq<Action>)
    requires Run(s0, xs).dog == Restoring(pass)
    requires pass.rest == [] && pass.done == [] && pass.current.snapshot.providerId == pass.provider
    ensures var s := Run(s0, xs);
            Run(s0, ys)
            == Sys(World(s.world.devices[pass.provider := pass.current.snapshot.state],
                         s.world.rows + SuccessRows(pass.current, pass.provider, s.world.now), s.world.now),
                   s.owners, Ended(Ok([] + [Report(pass.current, None)])))
    ensures AllPatient(xs) ==> AllPatient(ys)
  {
    var answers := PassSucceeds(Run(s0, xs).world, pass);
    ys := DogActs(s0, xs, answers);
  }

  lemma ReclaimBeforeApply(manifest: ProviderManifest, request: ChangeRequest, devices: map<string, Json>,
                           at: int, policy: ReclaimPolicy, wait: int)
    returns (xs: seq<Action>, c: Candidate)
    requires Validate(manifest, request).Ok?
    requires policy == AllUnclosed || Selected(at + wait, at, request.leaseSeconds)
    ensures Run(Initial(devices), xs) == Reclaimed(FirstTicket(manifest, request, devices), devices, at, at + wait, c)
    ensures c.id == 1
    ensures at >= 0 && wait >= 0 && policy == ExpiredLeasesOnly ==> AllPatient(xs)
  {
    var s0, t := Initial(devices), FirstTicket(manifest, request, devices);
    xs := ReachIntent(manifest, request, devices, at);
    ReachedWellFormed(devices, xs);
    xs, c := SweepAtIntent(manifest, request, devices, at, policy, wait, xs);
    xs := PassReclaims(s0, xs, Pass(t.provider, c, [], []));
  }

  lemma ReachedWellFormed(devices: map<string, Json>, xs: seq<Action>)
    ensures WellFormed(Run(Initial(devices), xs).world.rows)
  {
    Reachable(devices, xs);
  }

  /** A pass that starts right before the apply takes the experiment in hand. */
  lemma SweepAtIntent(manifest: ProviderManifest, request: ChangeRequest, devices: map<string, Json>,
                      at: int, policy: ReclaimPolicy, wait: int, xs: seq<Action>)
    returns (ys: seq<Action>, c: Candidate)
    requires policy == AllUnclosed || Selected(at + wait, at, request.leaseSeconds)
    requires var t := FirstTicket(manifest, request, devices);
             Run(Initial(devices), xs) == AtIntent(t, devices, at, Idle) && WellFormed(FirstRows(t, at))
    ensures var t := FirstTicket(manifest, request, devices);
            && c.id == 1 && c.snapshot == t.snapshot
            && Run(Initial(devices), ys)
               == Sys(World(devices, FirstRows(t, at), at + wait), [Applying(t, "")],
                      Restoring(Pass(t.provider, c, [], [])))
    ensures wait >= 0 && policy == ExpiredLeasesOnly && AllPatient(xs) ==> AllPatient(ys)
  {
    var t, a := FirstTicket(manifest, request, devices), Calm(Null, wait);
    c := SweepFindsFirst(t, World(devices, FirstRows(t, at), at), at, policy, a);
    ys := Take(Initial(devices), xs, Sweep(manifest.id, policy, a));
  }

  /** A terminal row of the owner on top of the watchdog's pair. */
  lemma ClosedTwice(t: Ticket, at: int, now: int, c: Candidate, row: Row)
    requires t.id == 1 && c.id == 1
    requires row.id == 1 && row.at == now && row.stage == AtFailed && !ByWatchdog(row)
    ensures var rows := FirstRows(t, at) + SuccessRows(c, t.provider, now) + [row];
            && Terminals(rows, 1) == 2
            && OwnerTerminal(rows, 1) == Some(row)
            && StageRow(rows, 1, AtApplyIntent) == Some(IntentRow(t, at))
  {
    var rows := FirstRows(t, at) + SuccessRows(c, t.provider, now);
    ReclaimedRowsMeaning(t, at, c, now);
    Appended(rows, row, 1);
    AppendedRow(rows, row, 1);
    AppendedStageRow(rows, row, 1, AtApplyIntent);
  }

  /** The owner of a reclaimed experiment gives up after all and writes its own terminal row. */
  lemma LateOwnerGivesUp(t: Ticket, devices: map<string, Json>, at: int, now: int, c: Candidate, xs: seq<Action>)
    returns (ys: seq<Action>, row: Row)
    requires Run(Initial(devices), xs) == Reclaimed(t, devices, at, now, c)
    ensures Run(Initial(devices), ys).world.rows == Reclaimed(t, devices, at, now, c).world.rows + [row]
    ensures row.id == t.id && row.at == now && row.stage == AtFailed && !ByWatchdog(row)
    ensures AllPatient(xs) ==> AllPatient(ys)
  {
    var answers;
    answers, row := OwnerGivesUp(Reclaimed(t, devices, at, now, c).world, t, Null);
    ys := OwnerActs(Initial(devices), xs, answers);
  }

  /**
    Both can close one experiment, under either policy: as soon as a pass may
    select it while its owner lives, the owner's own terminal row can follow the
    watchdog's.  So the bound of two is reached.
   */
  lemma BothCanClose(manifest: ProviderManifest, request: ChangeRequest, devices: map<string, Json>,
                     at: int, policy: ReclaimPolicy, wait: int)
    returns (xs: seq<Action>)
    requires Validate(manifest, request).Ok?
    requires policy == AllUnclosed || Selected(at + wait, at, request.leaseSeconds)
    ensures var rows := Run(Initial(devices), xs).world.rows;
            && Terminals(rows, 1) == 2
            && OwnerTerminal(rows, 1).Some? && OwnerTerminal(rows, 1).value.at == at + wait
            && StageRow(rows, 1, AtApplyIntent).Some? && StageRow(rows, 1, AtApplyIntent).value.at == at
            && StageRow(rows, 1, AtApplyIntent).value.payload == RequestP(request)
    ensures at >= 0 && wait >= 0 && policy == ExpiredLeasesOnly ==> AllPatient(xs)
  {
    var t := FirstTicket(manifest, request, devices);
    var c;
    xs, c := ReclaimBeforeApply(manifest, request, devices, at, policy, wait);
    var row;
    xs, row := LateOwnerGivesUp(t, devices, at, at + wait, c, xs);
    ClosedTwice(t, at, at + wait, c, row);
  }

  /** Both sides closed `e`, its owner at `close`, under an intent for this request recorded at `at`. */
  ghost predicate ClosedByBoth(devices: map<string, Json>, xs: seq<Action>, e: nat,
                               request: ChangeRequest, at: int, close: int) {
    var rows := Run(Initial(devices), xs).world.rows;
    && StageRow(rows, e, AtApplyIntent).Some?
    && StageRow(rows, e, AtApplyIntent).value.payload == RequestP(request)
    && StageRow(rows, e, AtApplyIntent).value.at == at
    && OwnerTerminal(rows, e).Some? && OwnerTerminal(rows, e).value.at == close
    && Terminals(rows, e) == 2
  }

  /**
    The exact bound.  With lease-only passes and a forward clock, an owner that
    closes at `close` can be closed a second time by the watchdog if and only if a
    pass at `close` would find its lease elapsed; not a millisecond earlier.
   */
  lemma BothCloseExactlyWhenSelected(manifest: ProviderManifest, request: ChangeRequest, devices: map<string, Json>,
                                     at: int, close: int)
    requires Validate(manifest, request).Ok? && 0 <= at <= close
    ensures (exists xs, e: nat :: AllPatient(xs) && ClosedByBoth(devices, xs, e, request, at, close))
            <==> Selected(close, at, request.leaseSeconds)
  {
    if Selected(close, at, request.leaseSeconds) {
      var xs := BothCanClose(manifest, request, devices, at, ExpiredLeasesOnly, close - at);
      assert ClosedByBoth(devices, xs, 1, request, at, close);
    } else {
      forall xs, e: nat | AllPatient(xs)
        ensures !ClosedByBoth(devices, xs, e, request, at, close)
      {
        if ClosedByBoth(devices, xs, e, request, at, close) {
          TimelyMeansOneTerminal(devices, xs, e);
        }
      }
    }
  }

  /** A journal that holds one closed experiment lists nothing, at any time. */
  lemma {:induction false} NothingUnclosed(rows: seq<Row>, p: string)
    requires WellFormed(rows) && MaxId(rows) == 1 && Terminals(rows, 1) > 0
    ensures forall now :: Scan(rows, p, now) == Ok([])
  {
    forall now
      ensures Scan(rows, p, now) == Ok([])
    {
      ScanMeaning(rows, p, now);
      var cs := Scan(rows, p, now).value;
      if cs != [] {
        assert Lists(cs, cs[0].id);
        CountsFollowProgress(rows, cs[0].id);
      }
    }
  }

  /** The owner of the reclaimed experiment applies after all, and dies. */
  function Leaked(t: Ticket, devices: map<string, Json>, at: int, now: int, c: Candidate, landed: Json): Sys {
    var reclaimed := Reclaimed(t, devices, at, now, c);
    Sys(Write(reclaimed.world, t.provider, Calm(landed, 0)), [Crashed(Some(t))], reclaimed.dog)
  }

  lemma ReachLeak(manifest: ProviderManifest, request: ChangeRequest, devices: map<string, Json>,
                  policy: ReclaimPolicy, at: int, wait: int, landed: Json)
    returns (xs: seq<Action>, c: Candidate)
    requires Validate(manifest, request).Ok?
    requires policy == AllUnclosed || Selected(at + wait, at, request.leaseSeconds)
    ensures Run(Initial(devices), xs)
            == Leaked(FirstTicket(manifest, request, devices), devices, at, at + wait, c, landed)
    ensures c.id == 1
  {
    var s0, t := Initial(devices), FirstTicket(manifest, request, devices);
    xs, c := ReclaimBeforeApply(manifest, request, devices, at, policy, wait);
    var s := Reclaimed(t, devices, at, at + wait, c);
    var a := Calm(landed, 0);
    xs := Take(s0, xs, Act(0, a));
    assert OwnerStep(s.owners[0], s.world, a) == (RecordingApply(t, ""), Write(s.world, t.provider, a));
    xs := Take(s0, xs, Kill(0));
  }

  /** After the pass nothing of the experiment is left to list, and its owner has closed nothing. */
  lemma ReclaimedIsUnlisted(t: Ticket, at: int, now: int, c: Candidate, p: string)
    requires t.id == 1 && c.id == 1 && WellFormed(FirstRows(t, at) + SuccessRows(c, t.provider, now))
    ensures var rows := FirstRows(t, at) + SuccessRows(c, t.provider, now);
            OwnerTerminal(rows, 1) == None && forall time :: Scan(rows, p, time) == Ok([])
  {
    ReclaimedRowsMeaning(t, at, c, now);
    NothingUnclosed(FirstRows(t, at) + SuccessRows(c, t.provider, now), p);
  }

  /**
    "Dirty means unclosed or closed by a failed restore" is false once the
    watchdog reclaims a living owner: the pass closes the experiment, the owner
    then applies and dies, and no later scan lists the experiment.
   */
  lemma ReclaimedOwnerCanLeak(manifest: ProviderManifest, request: ChangeRequest, devices: map<string, Json>,
                              policy: ReclaimPolicy, at: int, wait: int, landed: Json)
    returns (xs: seq<Action>)
    requires Validate(manifest, request).Ok?
    requires policy == AllUnclosed || Selected(at + wait, at, request.leaseSeconds)
    requires landed != FirstTicket(manifest, request, devices).snapshot.state
    ensures var s := Run(Initial(devices), xs);
            && s.owners == [Crashed(Some(FirstTicket(manifest, request, devices)))]
            && Device(s.world, manifest.id) != FirstTicket(manifest, request, devices).snapshot.state
            && OwnerTerminal(s.world.rows, 1) == None
            && forall now :: Scan(s.world.rows, manifest.id, now) == Ok([])
  {
    var t := FirstTicket(manifest, request, devices);
    var c;
    xs, c := ReachLeak(manifest, request, devices, policy, at, wait, landed);
    ReachedWellFormed(devices, xs);
    ReclaimedIsUnlisted(t, at, at + wait, c, manifest.id);
  }

  /** One terminal row of the owner, right after its intent. */
  lemma GivenUpRowsMeaning(t: Ticket, at: int, row: Row)
    requires t.id == 1
    requires row.id == 1 && row.stage == AtFailed && !ByWatchdog(row)
    ensures var rows := FirstRows(t, at) + [row];
            && MaxId(rows) == 1 && Terminals(rows, 1) == 1
            && OwnerTerminal(rows, 1) == Some(row)
  {
    FirstRowsMeaning(t, at);
    CountsFollowProgress(FirstRows(t, at), 1);
    Appended(FirstRows(t, at), row, 1);
    AppendedRow(FirstRows(t, at), row, 1);
  }

  /**
    Closed does not mean restored.  An owner whose rollback fails records `failed`
    all the same, so the experiment has its terminal row, the device is wherever
    the failed rollback left it, and no pass will ever list the experiment.
   */
  lemma ClosedDoesNotMeanRestored(manifest: ProviderManifest, request: ChangeRequest, devices: map<string, Json>,
                                  at: int, landed: Json)
    returns (xs: seq<Action>)
    requires Validate(manifest, request).Ok?
    requires landed != FirstTicket(manifest, request, devices).snapshot.state
    ensures var s := Run(Initial(devices), xs);
            && |s.owners| == 1 && Stopped(s.owners[0])
            && Terminals(s.world.rows, 1) == 1
            && OwnerTerminal(s.world.rows, 1).Some?
            && FailedAt(OwnerTerminal(s.world.rows, 1).value) == Some(AtRollback)
            && Device(s.world, manifest.id) != FirstTicket(manifest, request, devices).snapshot.state
            && forall now :: Scan(s.world.rows, manifest.id, now) == Ok([])
  {
    var s0, t := Initial(devices), FirstTicket(manifest, request, devices);
    xs := ReachIntent(manifest, request, devices, at);
    var w := AtIntent(t, devices, at, Idle).world;
    var answers, row := OwnerGivesUp(w, t, landed);
    xs := OwnerActs(s0, xs, answers);
    Reachable(devices, xs);
    GivenUpRowsMeaning(t, at, row);
    NothingUnclosed(FirstRows(t, at) + [row], manifest.id);
  }

  // ----- guarding the experiment is not enough --------------------------------------

  /** The first lifecycle died after its apply; a second one has taken its snapshot of what it left. */
  function Second(t: Ticket, devices: map<string, Json>, at: int, landed: Json, dog: Dog): Sys {
    Sys(World(devices[t.provider := landed], FirstRows(t, at), at),
        [Crashed(Some(t)), Beginning(t.provider, t.request, StateSnapshot(t.provider, landed))], dog)
  }

  lemma ReachSecond(manifest: ProviderManifest, request: ChangeRequest, devices: map<string, Json>,
                    at: int, landed: Json)
    returns (xs: seq<Action>)
    requires Validate(manifest, request).Ok?
    ensures Run(Initial(devices), xs) == Second(FirstTicket(manifest, request, devices), devices, at, landed, Idle)
  {
    var s0, t := Initial(devices), FirstTicket(manifest, request, devices);
    xs := ReachIntent(manifest, request, devices, at);
    var w := World(devices[t.provider := landed], FirstRows(t, at), at);
    xs := Take(s0, xs, Act(0, Calm(landed, 0)));
    assert Run(s0, xs) == Sys(w, [RecordingApply(t, "")], Idle);
    xs := Take(s0, xs, Kill(0));
    assert Run(s0, xs) == Sys(w, [Crashed(Some(t))], Idle);
    xs := Take(s0, xs, Start(manifest, request));
    assert Run(s0, xs) == Sys(w, [Crashed(Some(t)), TakingSnapshot(manifest.id, request)], Idle);
    xs := Take(s0, xs, Act(1, Calm(Null, 0)));
  }

  /** A full pass then restores the first experiment, which no lifecycle owns any more. */
  lemma ReclaimFirst(t: Ticket, devices: map<string, Json>, at: int, landed: Json, xs: seq<Action>)
    returns (ys: seq<Action>, c: Candidate)
    requires t.id == 1 && t.snapshot.providerId == t.provider
    requires Run(Initial(devices), xs) == Second(t, devices, at, landed, Idle)
    ensures c.id == 1
    ensures var s := Run(Initial(devices), ys);
            && s.owners == Second(t, devices, at, landed, Idle).owners
            && s.world == World(devices[t.provider := t.snapshot.state],
                                FirstRows(t, at) + SuccessRows(c, t.provider, at), at)
  {
    var s0, s := Initial(devices), Second(t, devices, at, landed, Idle);
    ReachedWellFormed(devices, xs);
    c := SweepFindsFirst(t, s.world, at, AllUnclosed, Calm(Null, 0));
    ys := Take(s0, xs, Sweep(t.provider, AllUnclosed, Calm(Null, 0)));
    var pass := Pass(t.provider, c, [], []);
    assert Run(s0, ys) == Second(t, devices, at, landed, Restoring(pass));
    ys := PassReclaims(s0, ys, pass);
    assert s.world.devices[t.provider := t.snapshot.state] == devices[t.provider := t.snapshot.state];
  }

  /**
    A guard on the experiments a pass takes in hand is not enough.  Here lifecycles
    run one at a time and the pass takes only an experiment whose owner is dead;
    but it runs while a second lifecycle of the same provider does, and moves the
    device under it.  The second lifecycle stops without ever having had an intent,
    and the device is off its snapshot.
   */
  lemma OlderReclaimMisleads(manifest: ProviderManifest, request: ChangeRequest, devices: map<string, Json>,
                             at: int, landed: Json)
    returns (xs: seq<Action>)
    requires Validate(manifest, request).Ok?
    requires landed != FirstTicket(manifest, request, devices).snapshot.state
    ensures var s := Run(Initial(devices), xs);
            && |s.owners| == 2 && s.owners[1].Crashed? && TicketOf(s.owners[1]).Some?
            && var t := TicketOf(s.owners[1]).value;
            && t.id == 2 && t.provider == manifest.id
            && Device(s.world, manifest.id) != t.snapshot.state
            && StageCount(s.world.rows, t.id, AtApplyIntent) == 0
            && TerminalsBy(s.world.rows, t.id, true) == 0
  {
    var s0, t := Initial(devices), FirstTicket(manifest, request, devices);
    xs := ReachReclaimed(manifest, request, devices, at, landed);
    var s := Run(s0, xs);
    var t2 := Ticket(2, t.provider, request, StateSnapshot(t.provider, landed));
    SecondStops(s, t, request, landed);
    SecondRowsMeaning(s.world.rows, t2, s.world.now);
    xs := Take(s0, xs, Act(1, Calm(Null, 0)));
    xs := Take(s0, xs, Kill(1));
  }

  /** The first experiment is reclaimed under the second lifecycle. */
  lemma ReachReclaimed(manifest: ProviderManifest, request: ChangeRequest, devices: map<string, Json>,
                       at: int, landed: Json)
    returns (xs: seq<Action>)
    requires Validate(manifest, request).Ok?
    ensures var t := FirstTicket(manifest, request, devices);
            var s := Run(Initial(devices), xs);
            && s.owners == [Crashed(Some(t)), Beginning(t.provider, request, StateSnapshot(t.provider, landed))]
            && MaxId(s.world.rows) == 1 && Device(s.world, t.provider) == t.snapshot.state
  {
    var t := FirstTicket(manifest, request, devices);
    var c;
    xs := ReachSecond(manifest, request, devices, at, landed);
    xs, c := ReclaimFirst(t, devices, at, landed, xs);
    ReclaimedRowsMeaning(t, at, c, at);
  }

  /** The second lifecycle records its snapshot and dies. */
  lemma SecondStops(s: Sys, t: Ticket, request: ChangeRequest, landed: Json)
    requires s.owners == [Crashed(Some(t)), Beginning(t.provider, request, StateSnapshot(t.provider, landed))]
    requires MaxId(s.world.rows) == 1
    ensures var t2 := Ticket(2, t.provider, request, StateSnapshot(t.provider, landed));
            Next(Next(s, Act(1, Calm(Null, 0))), Kill(1))
            == Sys(s.world.(rows := s.world.rows + [SnapshotRow(t2, s.world.now)]),
                   [Crashed(Some(t)), Crashed(Some(t2))], s.dog)
  {
    var t2 := Ticket(2, t.provider, request, StateSnapshot(t.provider, landed));
    assert Next(s, Act(1, Calm(Null, 0)))
           == Sys(s.world.(rows := s.world.rows + [SnapshotRow(t2, s.world.now)]),
                  [Crashed(Some(t)), Previewing(t2)], s.dog);
  }

  lemma SecondRowsMeaning(rows: seq<Row>, t: Ticket, at: int)
    requires MaxId(rows) < t.id
    ensures StageCount(rows + [SnapshotRow(t, at)], t.id, AtApplyIntent) == 0
    ensures TerminalsBy(rows + [SnapshotRow(t, at)], t.id, true) == 0
  {
    FreshHasNoRows(rows, t.id);
    Appended(rows, SnapshotRow(t, at), t.id);
  }
}
