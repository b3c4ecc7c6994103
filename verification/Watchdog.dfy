/** The watchdog as it runs, against its step machine. */
module Watchdogs {
  import opened Wrappers
  import opened Contracts
  import opened Journal
  import opened Lifecycle
  import opened Hosts
  import opened Scans
  import opened Recovery
  import opened Passes
  import opened Reports

  /** The policy's choice peels off from the front as the pass loops. */
  lemma {:induction false} ChosenFront(cs: seq<Candidate>, policy: ReclaimPolicy)
    requires cs != []
    ensures Chosen(cs, policy)
            == (if SelectedBy(cs[0], policy) then [cs[0]] else []) + Chosen(cs[1..], policy)
  {
    var init, last := cs[..|cs| - 1], cs[|cs| - 1];
    if |cs| == 1 {
      assert cs == [cs[0]] && init == [] && cs[1..] == [];
    } else {
      ChosenFront(init, policy);
      assert cs[1..][..|cs[1..]| - 1] == init[1..];
    }
  }

  class Watchdog {
    const providerId: string
    const host: Host

    constructor (providerId: string, host: Host)
      ensures this.providerId == providerId && this.host == host
    {
      this.providerId := providerId;
      this.host := host;
    }

    /** Lists every unclosed experiment of this provider, newest last. */
    method ListUnclosed() returns (r: Result<seq<Candidate>, ControlPlaneError>, ghost a: Answer)
      modifies host`now
      ensures host.View() == Wait(old(host.View()), a)
      ensures r == if a.journal.Some? then Err(ControlPlaneError.Journal(a.journal.value))
                   else Scan(host.rows, providerId, host.now)
    {
      var answer: Answer := *;
      host.now := host.now + answer.elapsed;
      a := answer;
      if answer.journal.Some? {
        return Err(ControlPlaneError.Journal(answer.journal.value)), a;
      }
      var matches := Query(host.rows, providerId, host.now);
      var experiments := [];
      for k := 0 to |matches|
        invariant DecodeAll(matches[..k]) == Ok(experiments)
      {
        assert matches[..k + 1][..k] == matches[..k];
        if !Decodes(matches[k]) {
          DecodeFails(matches, k);
          return Err(Serialization("unreadable journal record")), a;
        }
        experiments := experiments + [Decode(matches[k])];
      }
      assert matches[..|matches|] == matches;
      r := Ok(experiments);
    }

    /**
      Restores every unclosed experiment the policy selects and reports each attempt.
      Whatever happens nothing becomes unclosed; a pass that ends well has closed
      exactly what it reports restored.
     */
    method Reclaim(policy: ReclaimPolicy)
      returns (r: Result<seq<Restoration>, ControlPlaneError>, ghost scan: Answer, ghost used: seq<Answer>)
      modifies host`devices, host`rows, host`now
      ensures PassOf(providerId, policy, old(host.View()), scan, used) == (Ended(r), host.View())
      ensures WellFormed(old(host.rows)) ==>
                WellFormed(host.rows) && UnclosedIds(host.rows, providerId) <= UnclosedIds(old(host.rows), providerId)
      ensures WellFormed(old(host.rows)) && r.Ok? ==>
                && UnclosedIds(host.rows, providerId)
                   == UnclosedIds(old(host.rows), providerId) - RestoredIds(r.value)
                && (policy == AllUnclosed && AllRestored(r.value) ==> UnclosedIds(host.rows, providerId) == {})
                && (forall i :: 0 <= i < |r.value| ==>
                      ReportFits(old(host.rows), old(host.now) + scan.elapsed, r.value[i]))
      ensures WellFormed(old(host.rows)) ==>
                && old(host.rows) <= host.rows
                && forall k :: |old(host.rows)| <= k < |host.rows| ==>
                     RowFits(old(host.rows), old(host.now) + scan.elapsed, providerId, host.rows[k])
    {
      r, scan, used := RunPass(policy);
      if WellFormed(old(host.rows)) {
        PassNeverUncloses(providerId, policy, old(host.View()), scan, used);
        PassMeaning(providerId, policy, old(host.View()), scan, used);
        PassSaysWhy(providerId, policy, old(host.View()), scan, used);
        if policy == AllUnclosed && r.Ok? && AllRestored(r.value) {
          FullPassIsFinal(providerId, old(host.View()), scan, used, scan);
        }
      }
    }

    /** The loop of a pass. */
    method RunPass(policy: ReclaimPolicy)
      returns (r: Result<seq<Restoration>, ControlPlaneError>, ghost scan: Answer, ghost used: seq<Answer>)
      modifies host`devices, host`rows, host`now
      ensures PassOf(providerId, policy, old(host.View()), scan, used) == (Ended(r), host.View())
    {
      used := [];
      var candidates;
      candidates, scan := ListUnclosed();
      if candidates.Err? {
        return Err(candidates.error), scan, used;
      }
      var cs := candidates.value;
      ghost var (d, w) := StartPass(providerId, policy, old(host.View()), scan);
      var restorations: seq<Restoration> := [];
      assert cs[0..] == cs;
      for k := 0 to |cs|
        invariant DogRun(d, w, used) == (NextUp(providerId, Chosen(cs[k..], policy), restorations), host.View())
      {
        ChosenFront(cs[k..], policy);
        assert cs[k..][0] == cs[k] && cs[k..][1..] == cs[k + 1..];
        if SelectedBy(cs[k], policy) {
          ghost var pass := Pass(providerId, cs[k], Chosen(cs[k + 1..], policy), restorations);
          assert NextUp(providerId, Chosen(cs[k..], policy), restorations) == Restoring(pass);
          var restoration, answers := ReclaimOne(cs[k], pass);
          DogRunConcat(d, w, used, answers);
          used := used + answers;
          if restoration.Err? {
            return Err(restoration.error), scan, used;
          }
          restorations := restorations + [restoration.value];
        } else {
          assert Chosen(cs[k..], policy) == Chosen(cs[k + 1..], policy);
        }
      }
      assert cs[|cs|..] == [];
      r := Ok(restorations);
    }

    method ReclaimOne(c: Candidate, ghost pass: Pass)
      returns (r: Result<Restoration, ControlPlaneError>, ghost used: seq<Answer>)
      requires pass.provider == providerId && pass.current == c
      modifies host`devices, host`rows, host`now
      ensures DogRun(Restoring(pass), old(host.View()), used)
              == (if r.Err? then Ended(Err(r.error)) else NextUp(providerId, pass.rest, pass.done + [r.value]),
                  host.View())
    {
      ghost var start, w0 := Restoring(pass), host.View();
      var restored, answers := RestoreState(c.snapshot, pass);
      used := answers;
      match restored
      case Ok(_) =>
        var recorded, a := RecordSuccess(c);
        DogRunStep(start, w0, used, a);
        used := used + [a];
        r := if recorded.Err? then Err(recorded.error) else Ok(Report(c, None));
      case Err(error) =>
        var message := error.Display();
        var recorded, notes := RecordFailure(c, message, pass);
        DogRunConcat(start, w0, used, notes);
        used := used + notes;
        r := if recorded.Err? then Err(recorded.error) else Ok(Report(c, Some(message)));
    }

    /** Rolls back and confirms by re-reading the provider. */
    method RestoreState(snapshot: StateSnapshot, ghost pass: Pass)
      returns (r: Result<(), ProviderError>, ghost used: seq<Answer>)
      requires pass.provider == providerId && pass.current.snapshot == snapshot
      modifies host`devices, host`rows, host`now
      ensures DogRun(Restoring(pass), old(host.View()), used)
              == (if r.Ok? then Settling(pass) else LookingUp(pass, r.error.Display()), host.View())
      ensures r.Ok? ==> Snapshot(host.View(), providerId) == snapshot
    {
      ghost var start, w0 := Restoring(pass), host.View();
      used := [];
      var rolled, a0 := host.Drive(providerId);
      DogRunStep(start, w0, used, a0);
      used := used + [a0];
      if rolled.Err? {
        return Err(rolled.error), used;
      }
      var restored, a1 := host.TakeSnapshot(providerId);
      DogRunStep(start, w0, used, a1);
      used := used + [a1];
      if restored.Err? {
        return Err(restored.error), used;
      }
      r := if restored.value == snapshot then Ok(()) else Err(MISMATCH);
    }

    /** The restore row and the terminal row, together or not at all. */
    method RecordSuccess(c: Candidate) returns (r: Result<(), ControlPlaneError>, ghost a: Answer)
      modifies host`devices, host`rows, host`now
      ensures r == if a.journal.Some? then Err(ControlPlaneError.Journal(a.journal.value)) else Ok(())
      ensures host.View() == var w := Wait(old(host.View()), a);
                             if r.Err? then w else w.(rows := w.rows + SuccessRows(c, providerId, w.now))
    {
      var answer: Answer := *;
      host.now := host.now + answer.elapsed;
      a := answer;
      if answer.journal.Some? {
        return Err(ControlPlaneError.Journal(answer.journal.value)), a;
      }
      host.rows := host.rows
      + [Row(c.id, host.now, AtWatchdogRestore, providerId, WatchdogRestoreP(Reason(c), None, c.snapshot)),
         Row(c.id, host.now, AtFailed, providerId, WatchdogTerminalP(Reason(c)))];
      r := Ok(());
    }

    /** A failed attempt is noted unless the latest note already says the same. */
    method RecordFailure(c: Candidate, message: string, ghost pass: Pass)
      returns (r: Result<(), ControlPlaneError>, ghost used: seq<Answer>)
      requires pass.provider == providerId && pass.current == c
      modifies host`devices, host`rows, host`now
      ensures DogRun(LookingUp(pass, message), old(host.View()), used)
              == (if r.Err? then Ended(Err(r.error)) else Onward(pass, Some(message)), host.View())
    {
      ghost var start, w0 := LookingUp(pass, message), host.View();
      used := [];
      var same, a0 := LookUpLast(c.id, message);
      LookupMeaning(host.rows, c.id, message);
      DogRunStep(start, w0, used, a0);
      used := used + [a0];
      if same.Err? {
        return Err(same.error), used;
      }
      if same.value {
        return Ok(()), used;
      }
      var recorded, a1 := host.Append(c.id, AtWatchdogRestore, providerId, FailurePayload(c, message));
      DogRunStep(start, w0, used, a1);
      used := used + [a1];
      r := if recorded.Err? then Err(recorded.error) else Ok(());
    }

    /**
      Reads the journal backwards for the latest restore record of `e`: whether
      there is one, and it is a failure with this error.
     */
    method LookUpLast(e: nat, message: string) returns (r: Result<bool, ControlPlaneError>, ghost a: Answer)
      modifies host`now
      ensures host.View() == Wait(old(host.View()), a)
      ensures r.Err? <==> a.journal.Some?
      ensures r.Err? ==> r.error == ControlPlaneError.Journal(a.journal.value)
      ensures r.Ok? ==>
                (r.value <==> exists k :: LatestNote(host.rows, e, k) && host.rows[k].payload.WatchdogRestoreP?
                                          && host.rows[k].payload.error == Some(message))
    {
      var answer: Answer := *;
      host.now := host.now + answer.elapsed;
      a := answer;
      if answer.journal.Some? {
        return Err(ControlPlaneError.Journal(answer.journal.value)), a;
      }
      var rows := host.rows;
      var k := |rows|;
      while k > 0 && !(rows[k - 1].id == e && rows[k - 1].stage == AtWatchdogRestore)
        invariant 0 <= k <= |rows|
        invariant forall j :: k <= j < |rows| ==> !(rows[j].id == e && rows[j].stage == AtWatchdogRestore)
      {
        k := k - 1;
      }
      if k == 0 {
        return Ok(false), a;
      }
      assert LatestNote(rows, e, k - 1);
      var payload := rows[k - 1].payload;
      r := Ok(payload.WatchdogRestoreP? && payload.error == Some(message));
    }
  }

  /** The latest restore record of `e` is the row at `k`. */
  predicate LatestNote(rows: seq<Row>, e: nat, k: int) {
    && 0 <= k < |rows| && rows[k].id == e && rows[k].stage == AtWatchdogRestore
    && forall j :: k < j < |rows| ==> !(rows[j].id == e && rows[j].stage == AtWatchdogRestore)
  }

  /** The latest record is the one the journal's ordered query finds. */
  lemma {:induction false} LatestIsStageRow(rows: seq<Row>, e: nat)
    ensures forall k :: LatestNote(rows, e, k) ==> StageRow(rows, e, AtWatchdogRestore) == Some(rows[k])
    ensures StageRow(rows, e, AtWatchdogRestore).Some? ==> exists k :: LatestNote(rows, e, k)
  {
    if rows != [] {
      var init, n := Front(rows), |rows| - 1;
      LatestIsStageRow(init, e);
      assert forall j :: 0 <= j < n ==> init[j] == rows[j];
      if Last(rows).id == e && Last(rows).stage == AtWatchdogRestore {
        assert LatestNote(rows, e, n);
      } else {
        assert forall k :: LatestNote(rows, e, k) <==> LatestNote(init, e, k);
      }
    }
  }

  /** The lookup as the pass's step machine states it. */
  lemma LookupMeaning(rows: seq<Row>, e: nat, message: string)
    ensures LastFailureMatches(rows, e, message)
            <==> exists k :: LatestNote(rows, e, k) && rows[k].payload.WatchdogRestoreP?
                             && rows[k].payload.error == Some(message)
  {
    LatestIsStageRow(rows, e);
  }

  /** One unreadable record fails the whole scan. */
  lemma {:induction false} DecodeFails(ms: seq<Match>, k: nat)
    requires k < |ms| && !Decodes(ms[k])
    ensures DecodeAll(ms) == Err(Serialization("unreadable journal record"))
    decreases |ms|
  {
    if k < |ms| - 1 {
      DecodeFails(ms[..|ms| - 1], k);
    } else if DecodeAll(ms[..k]).Err? {
      DecodeErrs(ms[..k]);
    }
  }

  lemma {:induction false} DecodeErrs(ms: seq<Match>)
    ensures DecodeAll(ms).Err? ==> DecodeAll(ms) == Err(Serialization("unreadable journal record"))
  {
    if ms != [] {
      DecodeErrs(ms[..|ms| - 1]);
    }
  }
}
