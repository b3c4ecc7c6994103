/** The `doctor` command's grouped count of dangling experiments, against the watchdog's scan. */
module Doctors {
  import opened Wrappers
  import opened Contracts
  import opened Journal
  import opened Lifecycle
  import opened Scans
  import opened Recovery
  import opened Systems
  import opened Passes

  /** GROUP BY experiment_id: the identifiers that occur. */
  function Groups(rows: seq<Row>): set<nat> {
    set row | row in rows :: row.id
  }

  /** SUM(stage IN ('completed', 'failed')) over a group. */
  function TerminalSum(rows: seq<Row>, e: nat): nat {
    StageCount(rows, e, AtCompleted) + StageCount(rows, e, AtFailed)
  }

  /** The groups the HAVING clause keeps. */
  function DanglingGroups(rows: seq<Row>): set<nat> {
    set e | e in Groups(rows) && StageCount(rows, e, AtApplyIntent) > 0 && TerminalSum(rows, e) == 0
  }

  function Dangling(rows: seq<Row>): nat {
    |DanglingGroups(rows)|
  }

  function ScanSizes(rows: seq<Row>, ps: seq<string>, now: int): nat {
    if ps == [] then 0
    else ScanSizes(rows, ps[..|ps| - 1], now) + |Listed(rows, ps[|ps| - 1], now)|
  }

  /** Each provider that wrote an intent occurs once. */
  predicate Covers(rows: seq<Row>, ps: seq<string>) {
    && (forall i, j :: 0 <= i < j < |ps| ==> ps[i] != ps[j])
    && (forall k :: 0 <= k < |rows| && rows[k].stage == AtApplyIntent ==> rows[k].provider in ps)
  }

  lemma {:induction false} TerminalSumMeaning(rows: seq<Row>, e: nat)
    ensures TerminalSum(rows, e) == Terminals(rows, e)
  {
    if rows != [] {
      TerminalSumMeaning(Front(rows), e);
    }
  }

  lemma {:induction false} CountedMeansGrouped(rows: seq<Row>, e: nat, stage: Stage)
    ensures StageCount(rows, e, stage) > 0 ==> e in Groups(rows)
  {
    if rows != [] {
      CountedMeansGrouped(Front(rows), e, stage);
      assert Last(rows) in rows;
      assert forall row :: row in Front(rows) ==> row in rows;
    }
  }

  /** What the grouped query counts is the simple definition. */
  lemma DanglingMeaning(rows: seq<Row>, e: nat)
    ensures e in DanglingGroups(rows) <==> Unclosed(rows, e)
  {
    TerminalSumMeaning(rows, e);
    CountedMeansGrouped(rows, e, AtApplyIntent);
  }

  // ----- counting -------------------------------------------------------------

  ghost function IdsOf(cs: seq<Candidate>): set<nat> {
    set i | 0 <= i < |cs| :: cs[i].id
  }

  lemma {:induction false} AscendingCounts(cs: seq<Candidate>)
    requires Ascending(cs)
    ensures |IdsOf(cs)| == |cs|
  {
    if cs == [] {
      assert IdsOf(cs) == {};
    } else {
      var init, last := cs[..|cs| - 1], cs[|cs| - 1];
      AscendingCounts(init);
      assert IdsOf(cs) == IdsOf(init) + {last.id};
      assert last.id !in IdsOf(init);
    }
  }

  /** The unclosed experiments whose intent came from one of these providers. */
  ghost function UnclosedAmong(rows: seq<Row>, ps: seq<string>): set<nat> {
    set e | e in DanglingGroups(rows) && StageRow(rows, e, AtApplyIntent).Some?
            && StageRow(rows, e, AtApplyIntent).value.provider in ps
  }

  lemma ScanSizeIs(rows: seq<Row>, p: string, now: int)
    requires WellFormed(rows)
    ensures |Listed(rows, p, now)| == |UnclosedAmong(rows, [p])|
  {
    ScanMeaning(rows, p, now);
    var cs := Listed(rows, p, now);
    AscendingCounts(cs);
    forall e: nat
      ensures e in IdsOf(cs) <==> e in UnclosedAmong(rows, [p])
    {
      DanglingMeaning(rows, e);
      assert e in IdsOf(cs) <==> Lists(cs, e);
    }
    assert IdsOf(cs) == UnclosedAmong(rows, [p]);
  }

  lemma {:induction false} ScanSizesAdd(rows: seq<Row>, ps: seq<string>, now: int)
    requires WellFormed(rows)
    requires forall i, j :: 0 <= i < j < |ps| ==> ps[i] != ps[j]
    ensures ScanSizes(rows, ps, now) == |UnclosedAmong(rows, ps)|
  {
    if ps == [] {
      assert UnclosedAmong(rows, ps) == {};
    } else {
      var init, p := ps[..|ps| - 1], ps[|ps| - 1];
      assert ps == init + [p];
      ScanSizesAdd(rows, init, now);
      ScanSizeIs(rows, p, now);
      assert UnclosedAmong(rows, ps) == UnclosedAmong(rows, init) + UnclosedAmong(rows, [p]);
      assert UnclosedAmong(rows, init) * UnclosedAmong(rows, [p]) == {};
    }
  }

  /**
    On every reachable journal the doctor's count is the number of experiments
    the watchdogs of all providers would list, at any time.
   */
  lemma {:induction false} DoctorAgreesWithScans(devices: map<string, Json>, xs: seq<Action>, ps: seq<string>, now: int)
    requires Covers(Run(Initial(devices), xs).world.rows, ps)
    ensures var rows := Run(Initial(devices), xs).world.rows; Dangling(rows) == ScanSizes(rows, ps, now)
  {
    Reachable(devices, xs);
    var rows := Run(Initial(devices), xs).world.rows;
    ScanSizesAdd(rows, ps, now);
    forall e | e in DanglingGroups(rows)
      ensures e in UnclosedAmong(rows, ps)
    {
      StageRowIsUnique(rows, e, AtApplyIntent);
    }
    assert DanglingGroups(rows) == UnclosedAmong(rows, ps);
  }
}
