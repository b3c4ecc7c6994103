/**
  The machine every process runs on: its knobs, the journal file, the clock.
  Each method is one call across a process boundary.  The environment chooses
  how it answers; the ghost result reports the choice.
 */
module Hosts {
  import opened Wrappers
  import opened Contracts
  import opened Journal
  import opened Lifecycle
  import opened Trials

  class Host {
    var devices: map<string, Json>
    var rows: seq<Row>
    var now: int
    var trials: seq<TrialRow>

    function View(): World
      reads this
    {
      World(devices, rows, now)
    }

    constructor (devices: map<string, Json>)
      ensures View() == World(devices, [], 0) && trials == []
    {
      this.devices := devices;
      rows := [];
      now := 0;
      trials := [];
    }

    /** Provider::snapshot. */
    method TakeSnapshot(p: string) returns (r: Result<StateSnapshot, ProviderError>, ghost a: Answer)
      modifies this`now
      ensures View() == Wait(old(View()), a)
      ensures r == if a.fault.Some? then Err(a.fault.value) else Ok(Lifecycle.Snapshot(old(View()), p))
    {
      var answer: Answer := *;
      now := now + answer.elapsed;
      a := answer;
      if answer.fault.Some? {
        return Err(answer.fault.value), a;
      }
      r := Ok(StateSnapshot(p, if p in devices then devices[p] else Null));
    }

    /** Provider::preview. */
    method Preview(p: string, request: ChangeRequest) returns (r: Result<string, ProviderError>, ghost a: Answer)
      modifies this`now
      ensures View() == Wait(old(View()), a)
      ensures r == if a.fault.Some? then Err(a.fault.value) else Ok(a.text)
    {
      var answer: Answer := *;
      now := now + answer.elapsed;
      a := answer;
      r := if answer.fault.Some? then Err(answer.fault.value) else Ok(answer.text);
    }

    /** Provider::apply and Provider::rollback: the device may change even when a fault is reported. */
    method Drive(p: string) returns (r: Result<(), ProviderError>, ghost a: Answer)
      modifies this`now, this`devices
      ensures View() == Write(old(View()), p, a)
      ensures r == if a.fault.Some? then Err(a.fault.value) else Ok(())
    {
      var answer: Answer := *;
      now := now + answer.elapsed;
      devices := devices[p := answer.landed];
      a := answer;
      r := if answer.fault.Some? then Err(answer.fault.value) else Ok(());
    }

    /** Provider::verify. */
    method Verify(p: string, request: ChangeRequest) returns (r: Result<bool, ProviderError>, ghost a: Answer)
      modifies this`now
      ensures View() == Wait(old(View()), a)
      ensures r == if a.fault.Some? then Err(a.fault.value) else Ok(a.verified)
    {
      var answer: Answer := *;
      now := now + answer.elapsed;
      a := answer;
      r := if answer.fault.Some? then Err(answer.fault.value) else Ok(answer.verified);
    }

    /** INSERT INTO experiment_journal: one row, or a fault and nothing. */
    method Append(id: nat, stage: Stage, p: string, payload: Payload)
      returns (r: Result<(), ControlPlaneError>, ghost a: Answer)
      modifies this`now, this`rows
      ensures View() == Insert(old(View()), a, id, stage, p, payload)
      ensures r == if a.journal.Some? then Err(ControlPlaneError.Journal(a.journal.value)) else Ok(())
    {
      var answer: Answer := *;
      now := now + answer.elapsed;
      a := answer;
      if answer.journal.Some? {
        return Err(ControlPlaneError.Journal(answer.journal.value)), a;
      }
      rows := rows + [Row(id, now, stage, p, payload)];
      r := Ok(());
    }

    /** The immediate transaction that allocates an identifier with its snapshot row. */
    method AppendFresh(p: string, snapshot: StateSnapshot)
      returns (r: Result<nat, ControlPlaneError>, ghost a: Answer)
      modifies this`now, this`rows
      ensures View() == Insert(old(View()), a, MaxId(old(rows)) + 1, AtSnapshot, p, SnapshotP(snapshot))
      ensures r == if a.journal.Some? then Err(ControlPlaneError.Journal(a.journal.value))
                   else Ok(MaxId(old(rows)) + 1)
    {
      var answer: Answer := *;
      now := now + answer.elapsed;
      a := answer;
      if answer.journal.Some? {
        return Err(ControlPlaneError.Journal(answer.journal.value)), a;
      }
      var experiment := MaxId(rows) + 1;
      rows := rows + [Row(experiment, now, AtSnapshot, p, SnapshotP(snapshot))];
      r := Ok(experiment);
    }

    /** INSERT INTO experiment_trials; the identifier is the row's position, from 1. */
    method AppendTrial(row: TrialRow) returns (r: Result<nat, ControlPlaneError>, ghost fault: Option<string>)
      modifies this`now, this`trials
      ensures if fault.Some? then trials == old(trials) && r == Err(ControlPlaneError.Journal(fault.value))
              else trials == old(trials) + [row] && r == Ok(|trials|)
    {
      var answer: Answer := *;
      now := now + answer.elapsed;
      fault := answer.journal;
      if answer.journal.Some? {
        return Err(ControlPlaneError.Journal(answer.journal.value)), fault;
      }
      trials := trials + [row];
      r := Ok(|trials|);
    }

    /** SELECT payload FROM experiment_trials WHERE id = e. */
    method SelectTrial(id: int) returns (r: Result<TrialRow, ControlPlaneError>, ghost fault: Option<string>)
      modifies this`now
      ensures r == if fault.Some? then Err(ControlPlaneError.Journal(fault.value))
                   else if 1 <= id <= |trials| then Ok(trials[id - 1])
                   else Err(UnknownTrial(id))
    {
      var answer: Answer := *;
      now := now + answer.elapsed;
      fault := answer.journal;
      if answer.journal.Some? {
        return Err(ControlPlaneError.Journal(answer.journal.value)), fault;
      }
      r := if 1 <= id <= |trials| then Ok(trials[id - 1]) else Err(UnknownTrial(id));
    }
  }
}
