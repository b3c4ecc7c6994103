/**
  Runs in which the users of one provider's device take turns: lifecycles one at
  a time, and no pass while one of them runs.
 */
module Orderly {
  import opened Wrappers
  import opened Contracts
  import opened Journal
  import opened Lifecycle
  import opened ControlPlanes
  import opened Dirtiness
  import opened Scans
  import opened Recovery
  import opened Systems
  import opened Protocol
  import opened Repairs
  import opened Sharing

  /** No lifecycle of `p` is running. */
  predicate OwnersQuiet(s: Sys, p: string) {
    forall i :: 0 <= i < |s.owners| && !Stopped(s.owners[i]) ==> !Drives(s.owners[i], p)
  }

  /** A pass over `p` is at work. */
  predicate DogOn(d: Dog, p: string) {
    !Resting(d) && d.pass.provider == p
  }

  /** A lifecycle of `p` starts, and a pass over `p` takes anything in hand, only when nobody uses the device. */
  predicate TakesTurns(p: string, s: Sys, x: Action) {
    match x
    case Start(manifest, _) => manifest.id == p ==> OwnersQuiet(s, p) && !DogOn(s.dog, p)
    case Sweep(q, policy, a) => q == p && !Resting(StartPass(q, policy, s.world, a).0) ==> OwnersQuiet(s, p)
    case _ => true
  }

  ghost predicate AllTakeTurns(p: string, devices: map<string, Json>, xs: seq<Action>) {
    forall k :: 0 <= k < |xs| ==> TakesTurns(p, Run(Initial(devices), xs[..k]), xs[k])
  }

  /** At most one of them is at it. */
  predicate OneUser(p: string, s: Sys) {
    && (forall i, j :: 0 <= i < j < |s.owners| && !Stopped(s.owners[i]) && !Stopped(s.owners[j]) ==>
                         !(Drives(s.owners[i], p) && Drives(s.owners[j], p)))
    && (DogOn(s.dog, p) ==> OwnersQuiet(s, p))
  }

  /** An owner's step gives it no new device, and no life it had lost. */
  lemma StepDrives(o: Owner, w: World, a: Answer, p: string)
    ensures !Stopped(OwnerStep(o, w, a).0) ==> !Stopped(o)
    ensures Drives(OwnerStep(o, w, a).0, p) ==> Drives(o, p)
  {
  }

  lemma PassStaysOn(d: Dog, w: World, a: Answer, p: string)
    ensures DogOn(DogStep(d, w, a).0, p) ==> DogOn(d, p)
  {
  }

  lemma NextOneUser(p: string, s: Sys, x: Action)
    requires OneUser(p, s) && TakesTurns(p, s, x)
    ensures OneUser(p, Next(s, x))
  {
    match x
    case Act(i, a) =>
      if i < |s.owners| {
        StepDrives(s.owners[i], s.world, a, p);
      }
    case DogAct(a) => PassStaysOn(s.dog, s.world, a, p);
    case Sweep(q, policy, a) => SweepIsOn(q, policy, s.world, a);
    case _ =>
  }

  lemma SweepIsOn(q: string, policy: ReclaimPolicy, w: World, a: Answer)
    ensures var d := StartPass(q, policy, w, a).0; !Resting(d) ==> d.pass.provider == q
  {
  }

  lemma {:induction false} TurnsMeanOneUser(p: string, devices: map<string, Json>, xs: seq<Action>)
    requires AllTakeTurns(p, devices, xs)
    ensures OneUser(p, Run(Initial(devices), xs))
  {
    if xs != [] {
      var n := |xs| - 1;
      assert forall k :: 0 <= k < n ==> xs[..n][..k] == xs[..k] && xs[..n][k] == xs[k];
      TurnsMeanOneUser(p, devices, xs[..n]);
      NextOneUser(p, Run(Initial(devices), xs[..n]), xs[n]);
    }
  }

  /** While the one lifecycle of `p` runs, nobody else touches the device. */
  lemma LiveIsUntouched(p: string, s: Sys, x: Action, i: nat)
    requires OneUser(p, s) && i < |s.owners| && !Stopped(s.owners[i]) && Drives(s.owners[i], p)
    ensures !Touches(s, x, i, p)
  {
    if x.Act? && x.owner < |s.owners| && x.owner != i {
      assert x.owner < i || i < x.owner;
    }
  }

  /** An owner that does not drive `p` never will. */
  lemma {:induction false} ElsewhereForGood(p: string, devices: map<string, Json>, xs: seq<Action>, i: nat, k: nat)
    requires k <= |xs| && i < |Run(Initial(devices), xs[..k]).owners|
    requires !Drives(Run(Initial(devices), xs[..k]).owners[i], p)
    ensures i < |Run(Initial(devices), xs).owners| && !Drives(Run(Initial(devices), xs).owners[i], p)
    decreases |xs|
  {
    if k == |xs| {
      assert xs[..k] == xs;
    } else {
      var n := |xs| - 1;
      assert xs[..n][..k] == xs[..k];
      ElsewhereForGood(p, devices, xs[..n], i, k);
      var s := Run(Initial(devices), xs[..n]);
      if xs[n].Act? {
        StepDrives(s.owners[i], s.world, xs[n].answer, p);
      }
    }
  }

  /** Since owner `i` stopped nobody has used its device. */
  ghost predicate LeftAlone(devices: map<string, Json>, xs: seq<Action>, i: nat, p: string) {
    forall k :: 0 <= k < |xs| && i < |Run(Initial(devices), xs[..k]).owners|
                && Stopped(Run(Initial(devices), xs[..k]).owners[i]) ==>
                  !Touches(Run(Initial(devices), xs[..k]), xs[k], i, p)
  }

  /**
    When the users of a device take turns, the rows of every lifecycle mean what
    they say about it: from its start to its stop, wherever it stopped, and on
    until the next lifecycle or pass uses the device.
   */
  lemma TurnsMeanDirtiness(p: string, devices: map<string, Json>, xs: seq<Action>, i: nat)
    requires AllTakeTurns(p, devices, xs) && LeftAlone(devices, xs, i, p)
    requires var s := Run(Initial(devices), xs);
             i < |s.owners| && TicketOf(s.owners[i]).Some? && TicketOf(s.owners[i]).value.provider == p
    ensures var s := Run(Initial(devices), xs);
            var t := TicketOf(s.owners[i]).value;
            && MeansDirtiness(t, s.world.rows, Device(s.world, p))
            && (StageCount(s.world.rows, t.id, AtApplyIntent) == 0 ==> !ApplyCalled(devices, xs, i))
  {
    forall k | 0 <= k < |xs| && i < |Run(Initial(devices), xs[..k]).owners|
      ensures !Touches(Run(Initial(devices), xs[..k]), xs[k], i, p)
    {
      var s := Run(Initial(devices), xs[..k]);
      if !Stopped(s.owners[i]) {
        assert forall j :: 0 <= j < k ==> xs[..k][..j] == xs[..j] && xs[..k][j] == xs[j];
        TurnsMeanOneUser(p, devices, xs[..k]);
        if !Drives(s.owners[i], p) {
          ElsewhereForGood(p, devices, xs, i, k);
        } else {
          LiveIsUntouched(p, s, xs[k], i);
        }
      }
    }
    JournalMeansDirtinessInRuns(devices, xs, i, p);
  }
}
