/**
  The watchdog's restore rows of one experiment are its attempts with unchanged
  repeats left out, in every run of the system.
 */
module Suppression {
  import opened Wrappers
  import opened Contracts
  import opened Journal
  import opened Lifecycle
  import opened Dirtiness
  import opened Scans
  import opened Recovery
  import opened Systems
  import opened Passes

  /** How an attempt on an experiment ended: the error, or none when it was restored. */
  type Attempt = Option<string>

  /** The attempts the watchdog-restore rows of `e` record, in order. */
  function Notes(rows: seq<Row>, e: nat): seq<Attempt> {
    if rows == [] then []
    else Notes(Front(rows), e)
         + if Last(rows).id == e && Last(rows).stage == AtWatchdogRestore && Last(rows).payload.WatchdogRestoreP?
           then [Last(rows).payload.error] else []
  }

  /** The attempt on `e` that an action completes, if it completes one. */
  function Completes(s: Sys, x: Action, e: nat): seq<Attempt> {
    match x
    case DogAct(a) =>
      var added := Added(s.dog, DogStep(s.dog, s.world, a).0);
      if added != [] && added[0].id == e then [added[0].error] else []
    case _ => []
  }

  /** Every attempt on `e` that a run completes, in order. */
  function Attempts(s: Sys, xs: seq<Action>, e: nat): seq<Attempt> {
    if xs == [] then []
    else
      var init := xs[..|xs| - 1];
      Attempts(s, init, e) + Completes(Run(s, init), xs[|xs| - 1], e)
  }

  /** Run compression: an attempt is kept unless it failed just like the one before it. */
  function Compressed(attempts: seq<Attempt>): seq<Attempt> {
    if attempts == [] then []
    else
      var init, last := attempts[..|attempts| - 1], attempts[|attempts| - 1];
      Compressed(init) + if last.Some? && init != [] && init[|init| - 1] == last then [] else [last]
  }

  // ----- rows ------------------------------------------------------------------

  predicate NotesReadable(rows: seq<Row>) {
    forall k :: 0 <= k < |rows| && rows[k].stage == AtWatchdogRestore ==> rows[k].payload.WatchdogRestoreP?
  }

  lemma {:induction false} AppendedNote(rows: seq<Row>, row: Row, e: nat)
    ensures Notes(rows + [row], e)
            == Notes(rows, e) + if row.id == e && row.stage == AtWatchdogRestore && row.payload.WatchdogRestoreP?
                                then [row.payload.error] else []
  {
    assert Front(rows + [row]) == rows && Last(rows + [row]) == row;
  }

  /** The lookup before an insert compares with the last note. */
  lemma {:induction false} LookupSeesLastNote(rows: seq<Row>, e: nat, message: string)
    requires NotesReadable(rows)
    ensures LastFailureMatches(rows, e, message)
            <==> Notes(rows, e) != [] && Notes(rows, e)[|Notes(rows, e)| - 1] == Some(message)
  {
    if rows != [] {
      assert forall k :: 0 <= k < |Front(rows)| ==> Front(rows)[k] == rows[k];
      LookupSeesLastNote(Front(rows), e, message);
    }
  }

  /** What one watchdog step does to the notes of an experiment. */
  lemma {:induction false} DogStepNotes(d: Dog, w: World, a: Answer, e: nat)
    requires NotesReadable(w.rows)
    ensures var (d', w') := DogStep(d, w, a);
            && NotesReadable(w'.rows)
            && Notes(w'.rows, e) == Notes(w.rows, e)
                 + if !Resting(d) && d.pass.current.id == e && a.journal.None?
                   then (if d.Noting? then [Some(d.message)] else if d.Settling? then [None] else [])
                   else []
  {
    var (d', w') := DogStep(d, w, a);
    DogStepRows(d, w, a);
    if w'.rows != w.rows {
      if d.Settling? {
        var pair := SuccessRows(d.pass.current, d.pass.provider, w'.now);
        assert w'.rows == (w.rows + [pair[0]]) + [pair[1]];
        AppendedNote(w.rows, pair[0], e);
        AppendedNote(w.rows + [pair[0]], pair[1], e);
      } else {
        AppendedNote(w.rows, Last(w'.rows), e);
      }
    }
  }

  lemma {:induction false} OwnerStepNotes(o: Owner, w: World, a: Answer, e: nat)
    requires NotesReadable(w.rows)
    ensures NotesReadable(OwnerStep(o, w, a).1.rows)
    ensures Notes(OwnerStep(o, w, a).1.rows, e) == Notes(w.rows, e)
  {
    var w' := OwnerStep(o, w, a).1;
    if w'.rows != w.rows {
      OwnerWritesNoNote(o, w, a);
      AppendedNote(w.rows, Last(w'.rows), e);
    }
  }

  lemma OwnerWritesNoNote(o: Owner, w: World, a: Answer)
    requires OwnerStep(o, w, a).1.rows != w.rows
    ensures var rows := OwnerStep(o, w, a).1.rows;
            rows != [] && rows == w.rows + [Last(rows)] && Last(rows).stage != AtWatchdogRestore
  {
  }

  // ----- the invariant -----------------------------------------------------------

  /** The last attempt is the last note, and a pending insert says something new. */
  predicate NotesFit(s: Sys, attempts: seq<Attempt>, e: nat) {
    && NotesReadable(s.world.rows)
    && Notes(s.world.rows, e) == Compressed(attempts)
    && (s.dog.Noting? && s.dog.pass.current.id == e ==>
          attempts == [] || attempts[|attempts| - 1] != Some(s.dog.message))
  }

  lemma {:induction false} CompressedLast(attempts: seq<Attempt>)
    ensures attempts != [] ==> Compressed(attempts) != []
                               && Compressed(attempts)[|Compressed(attempts)| - 1] == attempts[|attempts| - 1]
  {
    if attempts != [] {
      CompressedLast(attempts[..|attempts| - 1]);
    }
  }

  lemma {:induction false} CompressedSnoc(attempts: seq<Attempt>, last: Attempt)
    ensures Compressed(attempts + [last])
            == Compressed(attempts)
               + if last.Some? && attempts != [] && attempts[|attempts| - 1] == last then [] else [last]
  {
    assert (attempts + [last])[..|attempts|] == attempts;
  }

  /** Which attempt each kind of step completes. */
  lemma CompletesMeaning(s: Sys, a: Answer, e: nat)
    ensures var d := s.dog;
            Completes(s, DogAct(a), e)
            == if Resting(d) || d.pass.current.id != e || a.journal.Some? then []
               else if d.Settling? then [None]
               else if d.Noting? then [Some(d.message)]
               else if d.LookingUp? && LastFailureMatches(s.world.rows, e, d.message) then [Some(d.message)]
               else []
  {
  }

  lemma DogKeepsNotes(s: Sys, a: Answer, attempts: seq<Attempt>, e: nat)
    requires NotesFit(s, attempts, e)
    ensures NotesFit(Next(s, DogAct(a)), attempts + Completes(s, DogAct(a), e), e)
  {
    var d, completes := s.dog, Completes(s, DogAct(a), e);
    DogStepNotes(d, s.world, a, e);
    CompletesMeaning(s, a, e);
    CompressedLast(attempts);
    if d.LookingUp? && d.pass.current.id == e {
      LookupSeesLastNote(s.world.rows, e, d.message);
    }
    if completes == [] {
      assert attempts + completes == attempts;
    } else {
      CompressedSnoc(attempts, completes[0]);
    }
    NotingComesFromLookup(s, a);
  }

  /** A pass is about to insert a note only right after a lookup that found something else. */
  lemma NotingComesFromLookup(s: Sys, a: Answer)
    ensures var d' := DogStep(s.dog, s.world, a).0;
            d'.Noting? ==> s.dog.LookingUp? && s.dog.pass == d'.pass && s.dog.message == d'.message
                           && a.journal.None? && !LastFailureMatches(s.world.rows, d'.pass.current.id, d'.message)
  {
  }

  lemma NextKeepsNotes(s: Sys, x: Action, attempts: seq<Attempt>, e: nat)
    requires NotesFit(s, attempts, e)
    ensures NotesFit(Next(s, x), attempts + Completes(s, x, e), e)
  {
    match x
    case DogAct(a) => DogKeepsNotes(s, a, attempts, e);
    case Act(i, a) =>
      assert attempts + [] == attempts;
      if i < |s.owners| {
        OwnerStepNotes(s.owners[i], s.world, a, e);
      }
    case _ => assert attempts + [] == attempts;
  }

  /**
    In any run, with owners interleaving, passes crashing and inserts failing,
    the watchdog-restore rows of an experiment are its completed attempts with
    adjacent equal failures collapsed.
   */
  lemma {:induction false} NotesAreCompressedAttempts(devices: map<string, Json>, xs: seq<Action>, e: nat)
    ensures NotesFit(Run(Initial(devices), xs), Attempts(Initial(devices), xs, e), e)
    ensures Notes(Run(Initial(devices), xs).world.rows, e) == Compressed(Attempts(Initial(devices), xs, e))
  {
    if xs != [] {
      var init := xs[..|xs| - 1];
      NotesAreCompressedAttempts(devices, init, e);
      NextKeepsNotes(Run(Initial(devices), init), xs[|xs| - 1], Attempts(Initial(devices), init, e), e);
    }
  }

  /** Going on with the failure that came last keeps no further attempt. */
  lemma {:induction false} RepeatsCompress(attempts: seq<Attempt>, n: nat, message: string)
    requires 0 < n <= |attempts| && attempts[n - 1] == Some(message)
    requires forall k :: n <= k < |attempts| ==> attempts[k] == Some(message)
    ensures Compressed(attempts) == Compressed(attempts[..n])
    decreases |attempts|
  {
    if n == |attempts| {
      assert attempts[..n] == attempts;
    } else {
      var init := attempts[..|attempts| - 1];
      assert init[..n] == attempts[..n];
      RepeatsCompress(init, n, message);
    }
  }

  /** The attempts of a run begin with those of its beginning. */
  lemma {:induction false} AttemptsGrow(s: Sys, xs: seq<Action>, n: nat, e: nat)
    requires n <= |xs|
    ensures Attempts(s, xs[..n], e) <= Attempts(s, xs, e)
    decreases |xs|
  {
    if n == |xs| {
      assert xs[..n] == xs;
    } else {
      var init := xs[..|xs| - 1];
      assert init[..n] == xs[..n];
      AttemptsGrow(s, init, n, e);
    }
  }

  /**
    An unchanged fault adds nothing: in any run, from a moment when the last attempt
    on an experiment failed with some error, attempts that fail with the same error
    leave its restore rows as they are, over any number of passes.
   */
  lemma UnchangedFaultAddsNoRow(devices: map<string, Json>, xs: seq<Action>, n: nat, e: nat, message: string)
    requires n <= |xs|
    requires var before, after := Attempts(Initial(devices), xs[..n], e), Attempts(Initial(devices), xs, e);
             && before != [] && before[|before| - 1] == Some(message)
             && forall k :: |before| <= k < |after| ==> after[k] == Some(message)
    ensures Notes(Run(Initial(devices), xs).world.rows, e) == Notes(Run(Initial(devices), xs[..n]).world.rows, e)
  {
    var before, after := Attempts(Initial(devices), xs[..n], e), Attempts(Initial(devices), xs, e);
    AttemptsGrow(Initial(devices), xs, n, e);
    NotesAreCompressedAttempts(devices, xs, e);
    NotesAreCompressedAttempts(devices, xs[..n], e);
    RepeatsCompress(after, |before|, message);
    assert after[..|before|] == before;
  }

  /** A fault that never changes leaves one restore row in the run. */
  lemma SameFailureLeavesOneRow(devices: map<string, Json>, xs: seq<Action>, e: nat, message: string)
    requires var attempts := Attempts(Initial(devices), xs, e);
             attempts != [] && forall k :: 0 <= k < |attempts| ==> attempts[k] == Some(message)
    ensures Notes(Run(Initial(devices), xs).world.rows, e) == [Some(message)]
  {
    var attempts := Attempts(Initial(devices), xs, e);
    NotesAreCompressedAttempts(devices, xs, e);
    RepeatsCompress(attempts, 1, message);
    assert attempts[..1] == [] + [Some(message)];
    CompressedSnoc([], Some(message));
  }

  /** An attempt that failed leaves the experiment as unclosed as it was. */
  lemma FailedAttemptKeepsUnclosed(s: Sys, a: Answer, p: string, e: nat)
    requires Inv(s)
    requires Completes(s, DogAct(a), e) != [None]
    ensures Unclosed(Next(s, DogAct(a)).world.rows, e) == Unclosed(s.world.rows, e)
  {
    DogStepEffect(s.dog, s.world, a, e);
    if !Resting(s.dog) {
      AddedReports(s.dog, s.world, a);
    }
  }

  /** How many attempts restored. */
  function Successes(notes: seq<Attempt>): nat {
    if notes == [] then 0
    else Successes(notes[..|notes| - 1]) + if notes[|notes| - 1].None? then 1 else 0
  }

  lemma {:induction false} SuccessesSnoc(notes: seq<Attempt>, last: Attempt)
    ensures Successes(notes + [last]) == Successes(notes) + if last.None? then 1 else 0
  {
    assert (notes + [last])[..|notes|] == notes;
  }

  /** As many success notes as watchdog terminals. */
  predicate SuccessesMatch(rows: seq<Row>, e: nat) {
    NotesReadable(rows) && Successes(Notes(rows, e)) == TerminalsBy(rows, e, true)
  }

  lemma DogKeepsSuccesses(d: Dog, w: World, a: Answer, e: nat)
    requires WellFormed(w.rows) && DogFits(d, w.rows) && SuccessesMatch(w.rows, e)
    ensures SuccessesMatch(DogStep(d, w, a).1.rows, e)
  {
    var notes, notes' := Notes(w.rows, e), Notes(DogStep(d, w, a).1.rows, e);
    DogStepNotes(d, w, a, e);
    DogStepEffect(d, w, a, e);
    if d.Settling? && a.journal.None? && d.pass.current.id == e {
      assert notes' == notes + [None];
      SuccessesSnoc(notes, None);
    } else if d.Noting? && a.journal.None? && d.pass.current.id == e {
      assert notes' == notes + [Some(d.message)];
      SuccessesSnoc(notes, Some(d.message));
    } else {
      assert notes' == notes;
    }
  }

  lemma OwnerKeepsSuccesses(o: Owner, w: World, a: Answer, e: nat)
    requires WellFormed(w.rows) && OwnerInPlace(o, w.rows) && SuccessesMatch(w.rows, e)
    ensures SuccessesMatch(OwnerStep(o, w, a).1.rows, e)
  {
    OwnerStepNotes(o, w, a, e);
    OwnerKeepsJournal(o, w, a);
  }

  /** Only steps of an owner or of a pass write rows. */
  lemma OthersWriteNothing(s: Sys, x: Action)
    requires !x.Act? && !x.DogAct?
    ensures Next(s, x).world.rows == s.world.rows
  {
  }

  lemma ActKeepsSuccesses(s: Sys, i: nat, a: Answer, e: nat)
    requires Inv(s) && SuccessesMatch(s.world.rows, e)
    ensures SuccessesMatch(Next(s, Act(i, a)).world.rows, e)
  {
    if i < |s.owners| {
      assert OwnerInPlace(s.owners[i], s.world.rows);
      OwnerKeepsSuccesses(s.owners[i], s.world, a, e);
    }
  }

  lemma NextKeepsSuccesses(s: Sys, x: Action, e: nat)
    requires Inv(s) && SuccessesMatch(s.world.rows, e)
    ensures SuccessesMatch(Next(s, x).world.rows, e)
  {
    if x.DogAct? {
      DogKeepsSuccesses(s.dog, s.world, x.answer, e);
    } else if x.Act? {
      ActKeepsSuccesses(s, x.owner, x.answer, e);
    } else {
      OthersWriteNothing(s, x);
    }
  }

  lemma {:induction false} SuccessesAlwaysMatch(devices: map<string, Json>, xs: seq<Action>, e: nat)
    ensures SuccessesMatch(Run(Initial(devices), xs).world.rows, e)
  {
    if xs != [] {
      var init := xs[..|xs| - 1];
      SuccessesAlwaysMatch(devices, init, e);
      Reachable(devices, init);
      NextKeepsSuccesses(Run(Initial(devices), init), xs[|xs| - 1], e);
    }
  }

  /** A restore is noted and closed together: as many success rows as watchdog terminals, at most one. */
  lemma {:induction false} SuccessMeansClosed(devices: map<string, Json>, xs: seq<Action>, e: nat)
    ensures NotesReadable(Run(Initial(devices), xs).world.rows)
    ensures var rows := Run(Initial(devices), xs).world.rows;
            Successes(Notes(rows, e)) == TerminalsBy(rows, e, true) <= 1
  {
    SuccessesAlwaysMatch(devices, xs, e);
    Reachable(devices, xs);
  }

  // ----- the success comes last ---------------------------------------------------------

  predicate SuccessLast(notes: seq<Attempt>) {
    forall k :: 0 <= k < |notes| - 1 ==> notes[k].Some?
  }

  lemma {:induction false} NoSuccessNoNone(notes: seq<Attempt>)
    ensures Successes(notes) == 0 ==> forall k :: 0 <= k < |notes| ==> notes[k].Some?
  {
    if notes != [] {
      NoSuccessNoNone(notes[..|notes| - 1]);
    }
  }

  /** A pass makes a further note of an experiment only while it has no success. */
  lemma NextKeepsSuccessLast(s: Sys, x: Action, e: nat)
    requires Inv(s) && SuccessesMatch(s.world.rows, e) && SuccessLast(Notes(s.world.rows, e))
    ensures SuccessLast(Notes(Next(s, x).world.rows, e))
  {
    match x
    case DogAct(a) =>
      DogStepNotes(s.dog, s.world, a, e);
      if !Resting(s.dog) && s.dog.pass.current.id == e {
        assert Todo(s.dog)[0] == s.dog.pass.current;
        NoSuccessNoNone(Notes(s.world.rows, e));
      }
    case Act(i, a) =>
      if i < |s.owners| {
        OwnerStepNotes(s.owners[i], s.world, a, e);
      }
    case _ =>
  }

  /** In every run the restore rows of an experiment are failures, with at most one success after all of them. */
  lemma {:induction false} SuccessIsLast(devices: map<string, Json>, xs: seq<Action>, e: nat)
    ensures SuccessLast(Notes(Run(Initial(devices), xs).world.rows, e))
  {
    if xs != [] {
      var init := xs[..|xs| - 1];
      SuccessIsLast(devices, init, e);
      Reachable(devices, init);
      SuccessesAlwaysMatch(devices, init, e);
      NextKeepsSuccessLast(Run(Initial(devices), init), xs[|xs| - 1], e);
    }
  }
}
