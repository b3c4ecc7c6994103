/** The watchdog's query for unclosed experiments, and what it means. */
module Scans {
  import opened Wrappers
  import opened Contracts
  import opened Journal
  import opened Leases

  /** One experiment with an apply intent and no terminal record. */
  datatype Candidate = Candidate(
    id: nat,
    providerId: string,
    snapshot: StateSnapshot,
    request: ChangeRequest,
    leaseExpired: bool)

  /** One row of the joined query. */
  datatype Match = Match(id: nat, snapshot: Payload, intent: Payload, age: Option<int>)

  // ----- the query, relationally -----------------------------------------

  /** The rows the join condition pairs with experiment `e`. */
  function SnapshotRows(rows: seq<Row>, e: nat): seq<Row> {
    if rows == [] then []
    else SnapshotRows(Front(rows), e)
         + if Last(rows).id == e && Last(rows).stage == AtSnapshot then [Last(rows)] else []
  }

  predicate Wanted(rows: seq<Row>, p: string, intent: Row) {
    intent.stage == AtApplyIntent && intent.provider == p && Terminals(rows, intent.id) == 0
  }

  /** One intent row joined with its snapshot rows. */
  function JoinOne(snapshots: seq<Row>, intent: Row, now: int): seq<Match> {
    if snapshots == [] then []
    else JoinOne(Front(snapshots), intent, now)
         + [Match(intent.id, Last(snapshots).payload, intent.payload, Some(AgeSeconds(now, intent.at)))]
  }

  /** The join and its WHERE clause over the rows `scanned` so far. */
  function Joined(rows: seq<Row>, scanned: seq<Row>, p: string, now: int): seq<Match> {
    if scanned == [] then []
    else Joined(rows, Front(scanned), p, now)
         + if Wanted(rows, p, Last(scanned))
           then JoinOne(SnapshotRows(rows, Last(scanned).id), Last(scanned), now)
           else []
  }

  function InsertById(m: Match, sorted: seq<Match>): seq<Match> {
    if sorted == [] || m.id < sorted[0].id then [m] + sorted
    else [sorted[0]] + InsertById(m, sorted[1..])
  }

  /** ORDER BY intent.experiment_id. */
  function SortById(ms: seq<Match>): seq<Match> {
    if ms == [] then [] else InsertById(ms[|ms| - 1], SortById(ms[..|ms| - 1]))
  }

  function Query(rows: seq<Row>, p: string, now: int): seq<Match> {
    SortById(Joined(rows, rows, p, now))
  }

  predicate Decodes(m: Match) {
    m.snapshot.SnapshotP? && m.intent.RequestP?
  }

  function Decode(m: Match): Candidate
    requires Decodes(m)
  {
    Candidate(m.id, m.snapshot.snapshot.providerId, m.snapshot.snapshot, m.intent.request,
              LeaseElapsed(m.age, m.intent.request.leaseSeconds))
  }

  /** Every query row decoded, or the error of the first that does not decode. */
  function DecodeAll(ms: seq<Match>): Result<seq<Candidate>, ControlPlaneError> {
    if ms == [] then Ok([])
    else
      var rest :- DecodeAll(ms[..|ms| - 1]);
      if Decodes(ms[|ms| - 1]) then Ok(rest + [Decode(ms[|ms| - 1])])
      else Err(Serialization("unreadable journal record"))
  }

  function Scan(rows: seq<Row>, p: string, now: int): Result<seq<Candidate>, ControlPlaneError> {
    DecodeAll(Query(rows, p, now))
  }

  /** What a scan lists, or nothing when it fails. */
  function Listed(rows: seq<Row>, p: string, now: int): seq<Candidate> {
    match Scan(rows, p, now)
    case Ok(cs) => cs
    case Err(_) => []
  }

  // ----- the simple definition --------------------------------------------

  /** The last row of `e` at a stage. */
  function StageRow(rows: seq<Row>, e: nat, stage: Stage): Option<Row> {
    if rows == [] then None
    else if Last(rows).id == e && Last(rows).stage == stage then Some(Last(rows))
    else StageRow(Front(rows), e, stage)
  }

  /** `e` is unclosed and its intent was recorded for provider `p`. */
  predicate UnclosedOf(rows: seq<Row>, p: string, e: nat) {
    Unclosed(rows, e)
    && StageRow(rows, e, AtApplyIntent).Some? && StageRow(rows, e, AtApplyIntent).value.provider == p
  }

  /** The candidate the rows of `e` describe. */
  predicate Describes(rows: seq<Row>, now: int, c: Candidate) {
    var snapshot, intent := StageRow(rows, c.id, AtSnapshot), StageRow(rows, c.id, AtApplyIntent);
    && snapshot.Some? && snapshot.value.payload == SnapshotP(c.snapshot)
    && intent.Some? && intent.value.payload == RequestP(c.request)
    && c.providerId == c.snapshot.providerId
    && c.leaseExpired == Selected(now, intent.value.at, c.request.leaseSeconds)
  }

  predicate Ascending(cs: seq<Candidate>) {
    forall i, j :: 0 <= i < j < |cs| ==> cs[i].id < cs[j].id
  }

  // ----- the two agree -----------------------------------------------------

  lemma {:induction false} StageRowIsUnique(rows: seq<Row>, e: nat, stage: Stage)
    ensures StageCount(rows, e, stage) > 0 <==> StageRow(rows, e, stage).Some?
    ensures StageCount(rows, e, stage) == 0 ==> forall k :: 0 <= k < |rows| ==> !(rows[k].id == e && rows[k].stage == stage)
    ensures StageCount(rows, e, stage) == 1 ==>
              forall k :: 0 <= k < |rows| && rows[k].id == e && rows[k].stage == stage ==>
                            StageRow(rows, e, stage) == Some(rows[k])
    ensures StageRow(rows, e, stage).Some? ==>
              var row := StageRow(rows, e, stage).value; row in rows && row.id == e && row.stage == stage
  {
    if rows != [] {
      StageRowIsUnique(Front(rows), e, stage);
      assert forall k :: 0 <= k < |rows| ==> rows[k] == if k == |rows| - 1 then Last(rows) else Front(rows)[k];
    }
  }

  lemma {:induction false} OneSnapshotRow(rows: seq<Row>, e: nat)
    ensures |SnapshotRows(rows, e)| == StageCount(rows, e, AtSnapshot)
    ensures SnapshotRows(rows, e) == [] <==> StageRow(rows, e, AtSnapshot).None?
    ensures SnapshotRows(rows, e) != [] ==> Last(SnapshotRows(rows, e)) == StageRow(rows, e, AtSnapshot).value
  {
    if rows != [] {
      OneSnapshotRow(Front(rows), e);
    }
  }

  /** In the language the snapshot and intent rows carry what their stages promise. */
  lemma {:induction false} PayloadsFit(rows: seq<Row>, e: nat)
    requires ProgressOf(rows, e) != Invalid
    ensures StageRow(rows, e, AtSnapshot).Some? ==> StageRow(rows, e, AtSnapshot).value.payload.SnapshotP?
    ensures StageRow(rows, e, AtApplyIntent).Some? ==> StageRow(rows, e, AtApplyIntent).value.payload.RequestP?
  {
    if rows != [] {
      PayloadsFit(Front(rows), e);
    }
  }

  /** The query row that the simple definition gives for `e`. */
  predicate Proper(rows: seq<Row>, p: string, now: int, m: Match) {
    && UnclosedOf(rows, p, m.id)
    && StageRow(rows, m.id, AtSnapshot).Some?
    && m == Match(m.id, StageRow(rows, m.id, AtSnapshot).value.payload, StageRow(rows, m.id, AtApplyIntent).value.payload,
                  Some(AgeSeconds(now, StageRow(rows, m.id, AtApplyIntent).value.at)))
  }

  predicate DistinctIds(ms: seq<Match>) {
    forall i, j :: 0 <= i < j < |ms| ==> ms[i].id != ms[j].id
  }

  ghost predicate HasId(ms: seq<Match>, e: nat) {
    exists i :: 0 <= i < |ms| && ms[i].id == e
  }

  lemma SnocIds(ms: seq<Match>, m: Match)
    ensures forall e: nat :: HasId(ms + [m], e) <==> HasId(ms, e) || e == m.id
    ensures DistinctIds(ms) && !HasId(ms, m.id) ==> DistinctIds(ms + [m])
  {
    forall e: nat
      ensures HasId(ms + [m], e) <==> HasId(ms, e) || e == m.id
    {
      if HasId(ms, e) {
        var i :| 0 <= i < |ms| && ms[i].id == e;
        assert (ms + [m])[i].id == e;
      }
      if e == m.id {
        assert (ms + [m])[|ms|].id == e;
      }
    }
  }

  /** In the language an intent row is the only one of its experiment. */
  lemma {:induction false} IntentRowIs(rows: seq<Row>, k: nat)
    requires k < |rows| && WellFormed(rows) && rows[k].stage == AtApplyIntent
    ensures StageRow(rows, rows[k].id, AtApplyIntent) == Some(rows[k])
    ensures StageCount(rows, rows[k].id, AtApplyIntent) == 1
    ensures StageCount(rows[..k], rows[k].id, AtApplyIntent) == 0
    ensures StageRow(rows, rows[k].id, AtSnapshot).Some?
    ensures SnapshotRows(rows, rows[k].id) == [StageRow(rows, rows[k].id, AtSnapshot).value]
  {
    var e := rows[k].id;
    CountsFollowProgress(rows, e);
    StageRowIsUnique(rows, e, AtApplyIntent);
    StageRowIsUnique(rows, e, AtSnapshot);
    OneSnapshotRow(rows, e);
    assert rows[..k + 1] == rows[..k] + [rows[k]];
    PrefixInLanguage(rows, k, e);
    PrefixInLanguage(rows, k + 1, e);
    Appended(rows[..k], rows[k], e);
    CountsFollowProgress(rows[..k], e);
  }

  /** What one more scanned row adds to the join. */
  lemma JoinedStep(rows: seq<Row>, k: nat, p: string, now: int) returns (m: Match)
    requires k < |rows| && WellFormed(rows)
    ensures Joined(rows, rows[..k + 1], p, now)
            == Joined(rows, rows[..k], p, now) + if Wanted(rows, p, rows[k]) then [m] else []
    ensures Wanted(rows, p, rows[k]) ==> m.id == rows[k].id && Proper(rows, p, now, m)
  {
    var row := rows[k];
    assert rows[..k + 1] == rows[..k] + [row];
    assert Front(rows[..k + 1]) == rows[..k] && Last(rows[..k + 1]) == row;
    m := Match(row.id, row.payload, row.payload, None);
    if Wanted(rows, p, row) {
      IntentRowIs(rows, k);
      var s := SnapshotRows(rows, row.id);
      m := Match(row.id, Last(s).payload, row.payload, Some(AgeSeconds(now, row.at)));
      assert Front(s) == [];
      assert JoinOne(s, row, now) == [m];
    }
  }

  /** The experiments of `p` whose intent lies in a prefix. */
  lemma {:induction false} SeenIntents(rows: seq<Row>, k: nat, p: string, e: nat)
    requires k < |rows| && WellFormed(rows)
    ensures UnclosedOf(rows, p, e) && StageCount(rows[..k + 1], e, AtApplyIntent) > 0
            <==> (UnclosedOf(rows, p, e) && StageCount(rows[..k], e, AtApplyIntent) > 0)
                 || (Wanted(rows, p, rows[k]) && e == rows[k].id)
    ensures Wanted(rows, p, rows[k]) ==> StageCount(rows[..k], rows[k].id, AtApplyIntent) == 0
  {
    assert rows[..k + 1] == rows[..k] + [rows[k]];
    Appended(rows[..k], rows[k], e);
    if rows[k].stage == AtApplyIntent {
      IntentRowIs(rows, k);
    }
  }

  /** The join over a prefix: the experiments whose intent lies in it, once each. */
  lemma {:induction false} JoinedMeaning(rows: seq<Row>, k: nat, p: string, now: int)
    requires k <= |rows| && WellFormed(rows)
    ensures var ms := Joined(rows, rows[..k], p, now);
            && DistinctIds(ms)
            && (forall i :: 0 <= i < |ms| ==> Proper(rows, p, now, ms[i]))
            && (forall e: nat :: HasId(ms, e) <==> UnclosedOf(rows, p, e) && StageCount(rows[..k], e, AtApplyIntent) > 0)
  {
    if k > 0 {
      JoinedMeaning(rows, k - 1, p, now);
      var m := JoinedStep(rows, k - 1, p, now);
      var before, ms := Joined(rows, rows[..k - 1], p, now), Joined(rows, rows[..k], p, now);
      SnocIds(before, m);
      assert ms == if Wanted(rows, p, rows[k - 1]) then before + [m] else before;
      forall e: nat
        ensures HasId(ms, e)
                <==> UnclosedOf(rows, p, e) && StageCount(rows[..k], e, AtApplyIntent) > 0
      {
        SeenIntents(rows, k - 1, p, e);
      }
      SeenIntents(rows, k - 1, p, rows[k - 1].id);
    } else {
      assert rows[..k] == [];
    }
  }

  // ----- sorting -----------------------------------------------------------

  predicate Increasing(ms: seq<Match>) {
    forall i, j :: 0 <= i < j < |ms| ==> ms[i].id < ms[j].id
  }

  /** Inserting adds exactly one element. */
  lemma {:induction false} InsertAdds(m: Match, sorted: seq<Match>)
    ensures multiset(InsertById(m, sorted)) == multiset(sorted) + multiset{m}
  {
    if sorted != [] && m.id >= sorted[0].id {
      assert sorted == [sorted[0]] + sorted[1..];
      InsertAdds(m, sorted[1..]);
    }
  }

  /** What an insertion holds is the new element or an old one. */
  lemma InsertHolds(m: Match, sorted: seq<Match>, j: nat)
    requires j < |InsertById(m, sorted)|
    ensures InsertById(m, sorted)[j] == m || InsertById(m, sorted)[j] in sorted
  {
    InsertAdds(m, sorted);
    var x := InsertById(m, sorted)[j];
    assert x in multiset(InsertById(m, sorted));
    assert x in multiset(sorted) + multiset{m};
  }

  lemma {:induction false} InsertKeepsOrder(m: Match, sorted: seq<Match>)
    requires Increasing(sorted) && !HasId(sorted, m.id)
    ensures Increasing(InsertById(m, sorted))
    ensures multiset(InsertById(m, sorted)) == multiset(sorted) + multiset{m}
  {
    InsertAdds(m, sorted);
    if sorted != [] && m.id >= sorted[0].id {
      var first, tail := sorted[0], sorted[1..];
      assert forall i :: 0 <= i < |tail| ==> tail[i] == sorted[i + 1];
      InsertKeepsOrder(m, tail);
      var rest := InsertById(m, tail);
      forall j | 0 <= j < |rest|
        ensures first.id < rest[j].id
      {
        InsertHolds(m, tail, j);
      }
    }
  }

  lemma {:induction false} SortOrders(ms: seq<Match>)
    requires DistinctIds(ms)
    ensures Increasing(SortById(ms)) && multiset(SortById(ms)) == multiset(ms)
  {
    if ms != [] {
      var init, last := ms[..|ms| - 1], ms[|ms| - 1];
      assert ms == init + [last];
      SortOrders(init);
      var sorted := SortById(init);
      forall i | 0 <= i < |sorted|
        ensures sorted[i].id != last.id
      {
        assert sorted[i] in multiset(init);
      }
      InsertKeepsOrder(last, sorted);
    }
  }

  // ----- the theorem -------------------------------------------------------

  lemma {:induction false} DecodeEach(ms: seq<Match>)
    requires forall i :: 0 <= i < |ms| ==> Decodes(ms[i])
    ensures DecodeAll(ms).Ok? && |DecodeAll(ms).value| == |ms|
    ensures forall i :: 0 <= i < |ms| ==> DecodeAll(ms).value[i] == Decode(ms[i])
  {
    if ms != [] {
      DecodeEach(ms[..|ms| - 1]);
    }
  }

  ghost predicate Lists(cs: seq<Candidate>, e: nat) {
    exists i :: 0 <= i < |cs| && cs[i].id == e
  }

  lemma SameElements(a: seq<Match>, b: seq<Match>)
    requires multiset(a) == multiset(b)
    ensures forall i :: 0 <= i < |a| ==> a[i] in b
    ensures forall e: nat :: HasId(a, e) ==> HasId(b, e)
  {
    forall i | 0 <= i < |a|
      ensures a[i] in b
    {
      assert a[i] in multiset(b);
    }
    forall e: nat | HasId(a, e)
      ensures HasId(b, e)
    {
      var i :| 0 <= i < |a| && a[i].id == e;
      var j :| 0 <= j < |b| && b[j] == a[i];
    }
  }

  /** What the sorted join holds. */
  lemma QueryMeaning(rows: seq<Row>, p: string, now: int)
    requires WellFormed(rows)
    ensures var ms := Query(rows, p, now);
            && Increasing(ms)
            && (forall i :: 0 <= i < |ms| ==> Proper(rows, p, now, ms[i]) && Decodes(ms[i]))
            && (forall e: nat :: HasId(ms, e) <==> UnclosedOf(rows, p, e))
  {
    var joined, ms := Joined(rows, rows, p, now), Query(rows, p, now);
    assert rows[..|rows|] == rows;
    JoinedMeaning(rows, |rows|, p, now);
    SortOrders(joined);
    SameElements(joined, ms);
    SameElements(ms, joined);
    forall i | 0 <= i < |ms|
      ensures Proper(rows, p, now, ms[i]) && Decodes(ms[i])
    {
      assert ms[i] in joined;
      PayloadsFit(rows, ms[i].id);
    }
  }

  /**
    On a well-formed journal the joined query never fails to decode and returns
    each unclosed experiment of the provider exactly once, in ascending order,
    with the snapshot and request its rows carry and the lease verdict of its
    intent.
   */
  lemma ScanMeaning(rows: seq<Row>, p: string, now: int)
    requires WellFormed(rows)
    ensures Scan(rows, p, now).Ok?
    ensures var cs := Scan(rows, p, now).value;
            && Ascending(cs)
            && (forall i :: 0 <= i < |cs| ==> Describes(rows, now, cs[i]))
            && (forall e: nat :: Lists(cs, e) <==> UnclosedOf(rows, p, e))
  {
    var ms := Query(rows, p, now);
    QueryMeaning(rows, p, now);
    DecodeEach(ms);
    var cs := Scan(rows, p, now).value;
    forall e: nat
      ensures Lists(cs, e) <==> HasId(ms, e)
    {
      if HasId(ms, e) {
        var i :| 0 <= i < |ms| && ms[i].id == e;
        assert cs[i].id == e;
      }
    }
  }
}
