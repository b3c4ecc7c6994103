# Verified model of the fpsmaxxing host services

A Dafny model of the processes that change and restore hardware settings: the control plane that runs one
bounded change as a journaled lifecycle, the watchdog that restores what a dead lifecycle left behind, the
experiment runner with its evaluator and replay gate, and the broker that serves local clients over a framed
byte stream. `dafny verify dfyconfig.toml` checks the whole project.

How it is laid out:

- `Contracts`, `Wrappers`, `Trials`: the data that crosses process boundaries.
- `Journal`: the append-only rows, the counting queries, and an automaton (`Advance`, `ProgressOf`) for the
  control-plane rows of one experiment, down to what each `failed` record must say.
- `Lifecycle` and `Recovery`: the control plane's lifecycle and the watchdog's pass as step machines. One step is
  one call to the provider or one insert; an `Answer` is the environment's choice: a provider fault (with the
  device landing anywhere), a journal fault, a verify outcome, elapsed milliseconds.
- `Hosts`, `ControlPlanes`, `Watchdogs`: the same code as classes with loops and early returns. Each method is
  proved to be a run of its step machine, and to have the effects stated in its own contract.
- `Blames`: which of the faults a lifecycle met decides what its caller and its terminal row are told.
- `Systems`: any number of lifecycles and a watchdog interleaving on one journal, with a crash possible at any
  step. `Protocol`, `Language`, `Races`, `Dirtiness`, `Sharing`, `Meanings`, `Orderly`, `Culprits`, `Conservation`, `Suppression`,
  `Passes`, `Reports`, `Repairs`, `Scans`, `Doctors` and `Leases` are theorems about its runs.
- `Models`, `Evaluators`, `Gates`, `Runners`: the trial pipeline and its replay.
- `Texts`, `Frames`, `Ownership`, `Serving`, `Brokers`, `Connections`: the broker.
- `MockProviders`: the mock provider and the lifecycle run over it.

What the code promises and what holds:

- The control plane's documentation says every experiment is closed with exactly one terminal record
  (crates/control-plane/src/lib.rs:169-174). The code can leave none, when that insert fails or the process dies, or
  two, because neither side re-checks the journal before it inserts. The model follows the code.
  `Protocol.ExactlyOneTerminal` says exactly when there is one; `Dirtiness.OneTerminalExactly` says it for a lifecycle
  on its own, and `Races.BothCloseExactlyWhenSelected` to the millisecond when two are possible.
- "Closed" does not mean "restored" (`Races.ClosedDoesNotMeanRestored`). `Dirtiness.JournalMeansDirtiness` says what
  each record means for a lifecycle on its own. `Sharing.JournalMeansDirtinessInRuns` carries the meaning to runs in
  which nobody else uses the device meanwhile, and `Orderly.TurnsMeanDirtiness` to runs in which its users take turns.
  `Meanings.MeaningSurvivesExactly` says when it survives others' use of the device: if and only if no step is one that
  `BreaksPromise` names. `Races.ReclaimedOwnerCanLeak` and `Races.OlderReclaimMisleads` are runs in which one is.
- The lease guarantee is off by the second that truncation takes (`Leases.LeaseBounds`,
  `Leases.OneMillisecondLease`).

## Model

| member | source | states |
|---|---|---|
| `ControlPlanes.ControlPlane.RunLifecycle` | crates/control-plane/src/lib.rs:185-194 | A refused request changes nothing. An accepted one is a run of the step machine with the same result and host, adds one contiguous block of rows under one fresh id, tells the caller the fault that decided, and an `Ok` is verified, rolled back, with the device where it was |
| `ControlPlanes.ControlPlane.RunStages` | crates/control-plane/src/lib.rs:312-344 | The stages from preview to restore, in write-ahead order, with the restore run whatever the apply phase reported and its failure suppressing the earlier one |
| `ControlPlanes.ControlPlane.ApplyAndRestore` | crates/control-plane/src/lib.rs:326-343 | From the apply on: the restore is run whether or not the apply or its probe failed, and a failed restore wins and keeps the failure it hides |
| `ControlPlanes.ControlPlane.Combine` | crates/control-plane/src/lib.rs:331-343 | A failed restore keeps its own error and stage and carries the earlier failure only as suppressed; otherwise the earlier failure stands |
| `ControlPlanes.ControlPlane.ObserveApplied` | crates/control-plane/src/lib.rs:346-367 | Apply row, probe, verify row, and which failure each fault yields |
| `ControlPlanes.ControlPlane.Restore` | crates/control-plane/src/lib.rs:369-394 | Rollback, rollback row, re-read, rollback-verify row, and which failure each fault or mismatch yields |
| `ControlPlanes.ControlPlane.RecordOutcome` | crates/control-plane/src/lib.rs:415-454 | Exactly one insert of the right terminal row; only a `completed` row that cannot be written changes what the caller is told |
| `Blames.FaultDecidesResult` | crates/control-plane/src/lib.rs:312-454 | From the answers to the calls alone: a fault or mismatch in the restore is what the caller is told, whatever else failed and whatever the closing insert met; else the fault of the apply, its row, the probe or its row; else an early one; else that of the closing insert; and success exactly when there was none |
| `Blames.FaultDecidesRow` | crates/control-plane/src/lib.rs:415-454 | The terminal row is written unless its insert met a fault; it is `completed` exactly when nothing before it failed; a `failed` one carries the deciding fault and the name of its kind, and as suppressed, exactly when both phases failed, the fault of the apply or its probe |
| `Blames.ObservationsAreAnswers` | crates/control-plane/src/lib.rs:346-394 | The preview, the probe's outcome and the comparison that are recorded are those of the call right before |
| `Blames.UnwrittenCompletion` | crates/control-plane/src/lib.rs:415-430 | With effect and restore observed and no terminal row, the caller is told the journal's error |
| `Blames.ResultIsOnRecord` | crates/control-plane/src/lib.rs:185-194 | A success adds one block of one fresh id that ends in `completed`, with the request in its intent row and the reported preview in its preview row |
| `Blames.RowsAreStamped` | crates/control-plane/src/lib.rs:396-473 | Every row a lifecycle writes names its provider and carries the clock's time, in order; the snapshot and rollback rows carry its own snapshot and the intent row its own request |
| `ControlPlanes.ExactPolicy` | crates/control-plane/src/lib.rs:280-310 | Accepted exactly when the first advertised capability of that id is reversible, the lease is at most 300 seconds and the value at most 100; refused as unknown exactly when it is not advertised |
| `Hosts.Host.AppendFresh` | crates/control-plane/src/lib.rs:396-413 | The identifier is one more than the largest and is allocated with its snapshot row or not at all |
| `Hosts.Host.Append` | crates/control-plane/src/lib.rs:456-473 | One row at the end of the journal, or a fault and nothing |
| `Lifecycle.OwnerStepKeepsStep` | crates/control-plane/src/lib.rs:312-454 | Every step keeps a lifecycle in step with its own rows, adds at most one row of its own experiment, takes an id only if it is fresh, and never nests a suppressed failure |
| `Journal.CountsFollowProgress` | crates/control-plane/src/lib.rs:396-473 | In the journal language an experiment has at most one snapshot, one intent and one control-plane terminal row, told by its state |
| `Journal.PrefixInLanguage` | crates/control-plane/src/lib.rs:312-454 | The journal language is prefix closed, so a crash leaves a word of it |
| `Dirtiness.ProgressShowsRows` | crates/control-plane/src/lib.rs:346-394 | An experiment's state in the language is exactly what its verify, rollback-verify and terminal rows say |
| `Dirtiness.AppliedMeansIntended` | crates/control-plane/src/lib.rs:324-332 | Once apply has been called the intent row is there for good |
| `Dirtiness.JournalMeansDirtiness` | crates/control-plane/src/lib.rs:312-454 | For a lifecycle stopped anywhere: a dirty device has an intent and is unclosed or closed by a failed restore; failures at preview or intent mean apply was never called; completions and failures at apply or verify mean the restore was observed; `suppressed` is present exactly when both phases failed |
| `Sharing.JournalMeansDirtinessInRuns` | crates/control-plane/src/lib.rs:312-454 | The same meaning in every run, for every owner, stopped or not, as long as nobody else has used its device since it started; other providers' lifecycles and passes, faults and crashes change nothing |
| `Meanings.MeaningSurvivesStep` | crates/control-plane/src/lib.rs:312-454 | In any reachable state in which the rows of a lifecycle mean what they say of its device, one step of anybody leaves it so if and only if it is not: a write off the snapshot of a device the rows promise clean, or, with the device off the snapshot, its snapshot row, its record of an observed restore, or the watchdog's closing of an experiment not already closed by a failed restore |
| `Meanings.WriteSurvivesAnywhere` | apps/watchdog/src/lib.rs:240-250 | A call that writes the device, by an owner or a pass, is harmless wherever it lands if and only if the rows did not promise a clean device: intended, no restore observed, and unclosed or closed by a failed restore |
| `Meanings.MeaningSurvivesExactly` | crates/control-plane/src/lib.rs:312-454 | In every run, whoever uses the device: the rows of a lifecycle mean what they say at every moment if and only if no step of the run is one of those |
| `Orderly.TurnsMeanDirtiness` | crates/control-plane/src/lib.rs:312-454 | It holds of every lifecycle of a provider whose lifecycles run one at a time and over which no pass takes anything in hand while one runs, from start to stop and until the device is used next |
| `Culprits.DirtyHasCulprit` | apps/watchdog/src/lib.rs:179-250 | From any moment of any run at which nobody uses the device and nothing of its provider is unclosed, if from then on its users take turns and lifecycles start only when nothing of it is unclosed: a device off its state at that moment has an experiment begun since that is unclosed or closed by `failed` at the rollback or its verification, whatever fails |
| `Culprits.StartsAreVacant` | crates/control-plane/src/lib.rs:185-194 | The beginning of a run is such a moment, and so is every such start of a lifecycle |
| `Dirtiness.ResultMeansRestored` | crates/control-plane/src/lib.rs:331-343 | A lifecycle that returns a result observed its effect, observed the restore, and left the device at its snapshot |
| `Dirtiness.LifecycleWritesOneBlock` | crates/control-plane/src/lib.rs:185-194 | All rows a lifecycle writes are one block of one fresh id |
| `Dirtiness.UnrecordedCompletion` | crates/control-plane/src/lib.rs:415-430 | If the `completed` insert fails the experiment is restored and observed so, but stays unclosed, and the caller gets the journal error |
| `Dirtiness.OneTerminalExactly` | crates/control-plane/src/lib.rs:415-454 | A lifecycle nobody interferes with, whatever its outcome, makes its closing insert exactly once if it finishes, and has exactly one terminal row if and only if that insert met no journal fault, and none if it died before it |
| `Systems.OwnerKeepsJournal` | crates/control-plane/src/lib.rs:396-473 | A control plane's step keeps a shared journal well formed: ids stay 1..n, other experiments are untouched |
| `Systems.Reachable` | crates/control-plane/src/lib.rs:185-473 | Under every interleaving of lifecycles, one watchdog, faults and crashes, the journal stays well formed, tickets stay distinct, and the watchdog holds only intended experiments it has not closed |
| `Protocol.StagesSpell` | crates/control-plane/src/lib.rs:312-454 | The control-plane stages of one experiment are the word its automaton state spells |
| `Protocol.JournalLanguage` | crates/control-plane/src/lib.rs:312-473 | On every reachable journal, ids are exactly 1..n with one snapshot row each, every experiment spells a word of one regular language, and `completed` ends the full eight-stage word with effect and restore observed |
| `Language.EveryWordIsWritten` | crates/control-plane/src/lib.rs:312-454 | Every word of the journal language, in every state it can end in, is what some lifecycle has written when it stops; with `Protocol.JournalLanguage` the language is exact |
| `Protocol.WriteAhead` | crates/control-plane/src/lib.rs:320-331 | Whoever is about to call apply has its snapshot row and its intent row, with the very snapshot and request it will use, in the journal |
| `Protocol.AtMostTwoTerminals` | crates/control-plane/src/lib.rs:415-454 | In every run an experiment gets at most one terminal row from each side |
| `Protocol.TimelyMeansOneTerminal` | apps/watchdog/src/lib.rs:97-102 | With lease-only passes and a forward clock, an owner that closes while no pass could select its experiment yet is never also closed by the watchdog |
| `Races.BothCloseExactlyWhenSelected` | apps/watchdog/src/journal.rs:46-65 | The exact bound: an owner closing at a given millisecond can be closed a second time, in some run with lease-only passes, if and only if a pass at that millisecond would find its lease elapsed |
| `Protocol.TerminalsBySide` | crates/control-plane/src/lib.rs:415-454 | In every run each side has its terminal row exactly when that side's insert went through |
| `Protocol.ExactlyOneTerminal` | crates/control-plane/src/lib.rs:169-174 | In every run an experiment has exactly one terminal row if and only if exactly one of the two inserts went through: its owner's closing insert and the watchdog's record of its restore |
| `Races.BothCanClose` | apps/watchdog/src/lib.rs:195-235 | The bound of two is reached, under either policy, as soon as a pass may select a live owner's experiment |
| `Races.ReclaimedOwnerCanLeak` | apps/watchdog/src/lib.rs:179-235 | A pass can close the experiment of a living owner that then applies and dies: the device is dirty and no later scan lists anything |
| `Races.OlderReclaimMisleads` | apps/watchdog/src/lib.rs:179-235 | Sparing living owners' experiments is not enough: a pass over a dead owner's older experiment moves the device under a living lifecycle of the same provider, whose rows then mean nothing |
| `Races.ClosedDoesNotMeanRestored` | crates/control-plane/src/lib.rs:369-454 | A failed rollback is closed by one `failed` row while the device is off its snapshot, and no pass will ever list it |
| `Leases.LeaseBounds` | apps/watchdog/src/journal.rs:46-53 | In true milliseconds: always selected from the full lease on, never up to a second less, and exactly when in between |
| `Leases.SelectionIsMonotone` | apps/watchdog/src/journal.rs:201-206 | A later pass selects what an earlier one did; missing and negative ages select nothing |
| `Leases.OneMillisecondLease` | apps/watchdog/src/journal.rs:46-53 | A concrete pair of clocks on which a one-second lease elapses after a millisecond, and one on which it does not after 999 |
| `Scans.PayloadsFit` | apps/watchdog/src/journal.rs:70-86 | On a well-formed journal the snapshot and intent payloads the scan decodes always decode |
| `Scans.QueryMeaning` | apps/watchdog/src/journal.rs:46-65 | The joined query with its NOT EXISTS and ORDER BY lists each unclosed experiment of the provider once, in ascending id order |
| `Scans.ScanMeaning` | apps/watchdog/src/journal.rs:39-89 | The decoded scan succeeds and is exactly the simple definition of unclosed, ascending, each candidate with its own snapshot, request and lease status |
| `Watchdogs.Watchdog.ListUnclosed` | apps/watchdog/src/journal.rs:39-89 | The decoding loop returns the scan, or fails as a whole on one unreadable record |
| `Watchdogs.Watchdog.Reclaim` | apps/watchdog/src/lib.rs:179-193 | The loop is a run of the pass machine; nothing becomes unclosed whatever happens; a pass that ends well closes exactly what it reports restored, and a full one that restored everything leaves nothing; every report and every row added gives the right reason |
| `Watchdogs.Watchdog.ReclaimOne` | apps/watchdog/src/lib.rs:195-235 | One candidate restored and recorded, or its failure noted, and the pass goes on; only a journal error ends it |
| `Watchdogs.Watchdog.RestoreState` | apps/watchdog/src/lib.rs:240-250 | Success means the provider re-read as the snapshot |
| `Watchdogs.Watchdog.RecordSuccess` | apps/watchdog/src/journal.rs:94-130 | The restore row and the terminal row together or not at all |
| `Watchdogs.Watchdog.RecordFailure` | apps/watchdog/src/journal.rs:138-160 | A failed attempt is noted unless the latest note already says the same |
| `Watchdogs.Watchdog.LookUpLast` | apps/watchdog/src/journal.rs:165-184 | The backward search answers true exactly when some row is the latest restore record of the experiment and is a failure with this error |
| `Recovery.StartPassMeaning` | apps/watchdog/src/lib.rs:179-190 | A pass starts with the unclosed experiments its policy selects, ascending, or fails exactly when the journal does |
| `Recovery.DogStepEffect` | apps/watchdog/src/lib.rs:195-235 | A watchdog step leaves every experiment's place in the language; a watchdog terminal row appears exactly when the pass closes that experiment |
| `Passes.PassMeaning` | apps/watchdog/src/lib.rs:179-235 | A pass that ends well reports every selected experiment in ascending order, closes exactly those it restored, and if it restored all leaves the device at the snapshot of the highest id |
| `Passes.PassNeverUncloses` | apps/watchdog/src/lib.rs:179-235 | Wherever a pass stops, the unclosed set has not grown |
| `Passes.FullPassIsFinal` | apps/watchdog/src/lib.rs:179-193 | After a fully successful full pass the next one returns the empty list and changes nothing |
| `Reports.PassSaysWhy` | apps/watchdog/src/lib.rs:86-105 | Wherever a pass stops: each report and each row it added says `lease-expired` exactly when the lease of the experiment's intent had elapsed at the scan and `crash-recovery` otherwise; reports carry that lease, restore rows the experiment's snapshot |
| `Reports.PassSaysWhatFailed` | apps/watchdog/src/lib.rs:195-250 | In a pass that ends well, the error reported of an experiment is exactly the text of the fault or mismatch the provider answered for it, and there is none exactly when there was none |
| `Reports.DisplayIsInjective` | crates/provider-sdk/src/lib.rs:8-20 | Provider errors have their documented texts, and distinct errors have distinct ones |
| `Repairs.ReachableHonest` | crates/control-plane/src/lib.rs:396-413 | On every reachable journal an intended experiment has a snapshot row taken from the provider its intent is for |
| `Repairs.WorkIsPossible` | apps/watchdog/src/lib.rs:179-250 | From any state of a pass there are answers of the provider and the journal with which its next steps work, as many as wanted |
| `Repairs.WorkingPassRestores` | apps/watchdog/src/lib.rs:179-250 | A pass whose provider and journal work restores and reports everything its policy selects, in three steps each |
| `Repairs.WorkingPassEmpties` | apps/watchdog/src/lib.rs:179-193 | From any reachable journal one full pass that works leaves nothing unclosed |
| `Repairs.RepeatedPassesEnd` | apps/watchdog/src/lib.rs:179-193 | From any reachable journal, once rollback works for whatever experiment each pass takes up first, as many passes as there were unclosed experiments leave none, the unclosed count being the measure |
| `Suppression.LookupSeesLastNote` | apps/watchdog/src/journal.rs:165-184 | The lookup before an insert compares with the last recorded attempt |
| `Suppression.NotesAreCompressedAttempts` | apps/watchdog/src/journal.rs:138-184 | In every run an experiment's restore rows are its completed attempts with adjacent equal failures collapsed |
| `Suppression.UnchangedFaultAddsNoRow` | apps/watchdog/src/journal.rs:138-184 | In any run, attempts that go on failing with the error that came last leave the experiment's restore rows as they are, over any number of passes |
| `Suppression.SameFailureLeavesOneRow` | apps/watchdog/src/journal.rs:138-184 | If every attempt of a run failed with the same error there is one restore row |
| `Suppression.SuccessIsLast` | apps/watchdog/src/lib.rs:195-235 | In every run an experiment's restore rows are failures with at most one success, which is the last |
| `Suppression.FailedAttemptKeepsUnclosed` | apps/watchdog/src/lib.rs:195-235 | A failed attempt leaves the experiment as selectable as it was |
| `Suppression.SuccessMeansClosed` | apps/watchdog/src/journal.rs:94-130 | In every run, success rows and watchdog terminal rows of an experiment are equally many, at most one |
| `Conservation.BaselineConserved` | crates/control-plane/src/lib.rs:312-413 | In runs where a provider's lifecycles go one at a time, their attempted in-process rollbacks work and each death or failed pass over it is followed by a successful full pass before the next, whatever other providers' lifecycles and passes do: its device holds its initial value whenever it idles with nothing pending, every snapshot row of it holds that value, and a dirty device is always listed |
| `Conservation.ScanHoldsBaseline` | apps/watchdog/src/lib.rs:240-250 | Whatever a scan lists would restore the same value, so the restore order does not matter |
| `Doctors.DanglingMeaning` | apps/cli/src/main.rs:52-63 | The grouped query keeps exactly the unclosed experiments |
| `Doctors.DoctorAgreesWithScans` | apps/cli/src/main.rs:38-73 | On every reachable journal the doctor's count is the sum of the scan sizes over all providers |
| `Models.MeasureIsSteady` | apps/experiment-runner/src/model.rs:59-83 | Exactly the counted samples, each the steady-state one, whatever the warm-up |
| `Models.SteadyMetrics` | apps/experiment-runner/src/model.rs:30-82 | A unit of the knob is one frame per second and one watt and half a degree over 60, 100 and 50, and an error past 90 |
| `Evaluators.Summarize` | apps/experiment-runner/src/evaluator.rs:85-114 | The accumulator loop computes mean, maxima and saturated error total of the whole set |
| `Evaluators.SummaryMeaning` | apps/experiment-runner/src/evaluator.rs:85-114 | The maxima bound every sample and are attained; the saturated total bounds every sample's errors |
| `Evaluators.SumsAdd` | apps/experiment-runner/src/evaluator.rs:97-107 | Sums of frame rates and errors are additive over joined sets and have the sample's own value on one |
| `Evaluators.SummaryAggregates` | apps/experiment-runner/src/evaluator.rs:85-114 | The count, the mean as the sum spread over it, the error total exact or saturated, and zeroes for an empty set |
| `Evaluators.FirstReasonDecides` | apps/experiment-runner/src/evaluator.rs:34-72 | The verdict carries both summaries and the difference of their means; the reason is the first of the documented order that applies: counts, temperature, power, errors, improvement; only `promoted` promotes |
| `Evaluators.PromotionBoundsEverySample` | apps/experiment-runner/src/evaluator.rs:34-72 | A promotion has enough samples, keeps every candidate sample within the ceilings and gains at least the threshold on the mean |
| `Evaluators.UniformSummary` | apps/experiment-runner/src/evaluator.rs:85-114 | On a uniform set the mean and maxima are the common sample and the errors its saturated multiple |
| `Gates.ParametersAccepted` | apps/experiment-runner/src/runner.rs:690-701 | The only parameters accepted are the one-key objects of an unsigned value |
| `Gates.SpecsAccepted` | apps/experiment-runner/src/runner.rs:623-752 | The accepted specs and the value returned for them are a declarative predicate |
| `Gates.ExactGate` | apps/experiment-runner/src/runner.rs:480-537 | The replay gate accepts exactly the legal records, under any ceilings |
| `Gates.SpecRefusal` | apps/experiment-runner/src/runner.rs:623-752 | A refused spec breaks the very rule, on the very field, that its refusal names |
| `Gates.RecordRefusal` | apps/experiment-runner/src/runner.rs:480-537 | A refused record breaks a rule of its spec or the agreement that its refusal names |
| `Gates.ForProvider` | apps/experiment-runner/src/runner.rs:577-587 | A spec is accepted for a provider exactly when it is legal and its capability is advertised; unknown is said of exactly the capabilities that are not modelled or not advertised |
| `Gates.TighteningOnlyFlags` | apps/experiment-runner/src/runner.rs:439-475 | Tightening any ceiling only shrinks the accepted set |
| `Gates.RelabellingsPass` | apps/experiment-runner/src/runner.rs:439-475 | The documented rewrites of candidate, baseline and hypothesis pass exactly within their bounds and keep the verdict consistent |
| `Gates.HalfRelabellingIsCaught` | apps/experiment-runner/src/runner.rs:485-497 | Rewriting one of the two copies of the candidate value alone is always caught |
| `Gates.GateRefinesBroker` | apps/experiment-runner/src/runner.rs:577-675 | A spec the runner accepts is accepted by the control plane exactly when the capability is reversible; nothing else can deny it |
| `Gates.PromotionClosedForm` | apps/experiment-runner/src/evaluator.rs:34-72 | A valid spec promotes exactly when 50 + c/2, 100 + c and c - b meet the bounds; then b <= c <= 80, and too few samples or errors are never the reason |
| `Runners.RecordReplaysClean` | apps/experiment-runner/src/runner.rs:303-363 | Every record a trial stores replays as consistent and policy legal |
| `Runners.CleanMeansLegal` | apps/experiment-runner/src/runner.rs:382-411 | A replay comes out clean exactly for current-version legal and consistent records |
| `Runners.ReplayMeaning` | apps/experiment-runner/src/runner.rs:382-411 | A replay carries the id asked for, the stored verdict as recorded and that of the stored samples as recomputed, and is legal exactly for a legal record; each error says exactly what of the row is unreadable |
| `Runners.ReadBaseline` | apps/experiment-runner/src/runner.rs:761-772 | The provider's unsigned value exactly when there is one, within the ceiling, and no fault; otherwise the fault, or which of the two refusals applies |
| `Runners.RunMeasured` | apps/experiment-runner/src/runner.rs:310-341 | A promotion runs the lifecycle of the spec's own target, with the result it returned, or carries the control plane's refusal of it; a success is on record down to its completion; a rejection touches nothing; the record keeps what was returned |
| `Runners.JournalTrial` | apps/experiment-runner/src/runner.rs:342-363 | The record is stored at most once, and the report says what ran, where the record is, or why it was lost |
| `Runners.RunTrial` | apps/experiment-runner/src/runner.rs:303-363 | A trial is measured exactly when its spec is accepted and the baseline can be read; a refused one stores nothing and touches no knob; a measured one drives the lifecycle of its target exactly on a promotion, is stored at most once with every outcome reported, and keeps a clean archive clean |
| `Runners.ReplayTrial` | apps/experiment-runner/src/runner.rs:382-411 | Replay changes nothing, answers for the row asked for or fails closed on an unknown id, and over a clean archive answers consistent and legal under any provider |
| `Texts.EchoedKeepsCharacters` | apps/broker/src/lib.rs:98-107 | Text over 120 bytes is cut to its longest whole-character prefix that fits, 117 to 120 bytes, and an ellipsis |
| `Texts.EchoedSize` | apps/broker/src/lib.rs:98-107 | An echo is at most 123 bytes |
| `Texts.EscapeSize` | apps/broker/src/lib.rs:486-494 | JSON escaping takes at most six bytes for one (section 7 of RFC 8259) |
| `Texts.EscapeRoundTrip` | apps/broker/src/lib.rs:486-494 | An escaped string is read back whole, up to the very quote that closes it, so no quote, backslash or control byte is left bare (section 7 of RFC 8259) |
| `Texts.CharRoundTrip` | apps/broker/src/lib.rs:98-107 | The bytes of a character carry its scalar value (section 3 of RFC 3629) |
| `Texts.DecimalRoundTrip` | apps/broker/src/lib.rs:451-457 | A length is quoted as the decimal numeral that stands for it |
| `Frames.BigEndianRoundTrip` | crates/ipc/src/frame.rs:52-56 | The length prefix reads back as it was written |
| `Frames.Stream.ReadFrame` | crates/ipc/src/frame.rs:74-105 | However the stream splits its reads, result and remaining bytes are those of the bytes themselves, unless the transport breaks |
| `Frames.Stream.WriteFrame` | crates/ipc/src/frame.rs:42-59 | The two bodies a reader refuses never reach the wire; any other goes out as its frame, or as a prefix of it when the transport breaks |
| `Frames.RoundTrip` | crates/ipc/src/frame.rs:42-105 | Any list of sendable bodies written and read gives the list back, then a clean end |
| `Frames.CutAnywhere` | crates/ipc/src/frame.rs:78-104 | A stream cut anywhere reads as its whole frames, then ends cleanly at a boundary and with an error inside a frame |
| `Frames.DecodeTruncated` | crates/ipc/src/frame.rs:78-104 | Every proper non-empty prefix of a frame is an error |
| `Frames.DecodeEmpty` | crates/ipc/src/frame.rs:93-95 | A zero length is refused and leaves the reader at a frame boundary |
| `Frames.OversizeEndsReading` | crates/ipc/src/frame.rs:96-100 | After a length over the maximum no later byte is looked at |
| `Ownership.OwnershipLedger.Acquire` | apps/broker/src/ownership.rs:44-61 | Takes a free knob with a fresh guard, or names the holder and changes nothing; one acquire in the ledger's history |
| `Ownership.OwnershipLedger.OwnerOf` | apps/broker/src/ownership.rs:65-67 | Answers with the owner of the one live guard of the knob, if there is one |
| `Ownership.OwnershipGuard.Drop` | apps/broker/src/ownership.rs:91-95 | Frees its own knob and every other live guard keeps its entry; one drop in the ledger's history |
| `Ownership.AlwaysExclusive` | apps/broker/src/ownership.rs:44-95 | In every history of acquires and drops the map's keys are exactly the knobs of live guards, one guard each, with that guard's owner |
| `Ownership.DropIsPrivate` | apps/broker/src/ownership.rs:91-95 | The unconditional removal never takes another holder's knob |
| `Serving.SlotsConserved` | apps/broker/src/lib.rs:337-393 | Free, pending and live slots always total 32 |
| `Serving.BacklogNeverFills` | apps/broker/src/lib.rs:255-266 | Unfinished jobs never exceed the 32 slots, so the queue of 64 never makes a dispatch wait |
| `Serving.FirstInFirstOut` | apps/broker/src/lib.rs:303-306 | The worker handles jobs in the order sent and loses none until it stops |
| `Serving.FreeSlotAdmits` | apps/broker/src/lib.rs:372-385 | A free slot lets a new peer in without disturbing the others |
| `Serving.DispatchIsQueued` | apps/broker/src/lib.rs:255-266 | An idle connection's request always reaches the queue, behind everything unfinished |
| `Serving.RoundsHandleAll` | apps/broker/src/lib.rs:303-306 | Left to work, the worker handles everything that was sent, in order, until nothing is outstanding |
| `Serving.EndedExactly` | apps/broker/src/lib.rs:337-400 | The accept loop has ended exactly when it met an accept error other than an aborted or interrupted connection, or noticed a stopped worker, and the worker has stopped exactly when it was stopped |
| `Brokers.BrokerService.Handle` | apps/broker/src/lib.rs:146-203 | Each request's answer and effect, in the order of the checks; the knob is free again and other guards untouched whatever happened |
| `Brokers.BrokerService.Work` | apps/broker/src/lib.rs:303-306 | Every job is answered in its place and begins where the one before ended |
| `Brokers.AnswerMeaning` | apps/broker/src/lib.rs:157-234 | A report or `lifecycle-failed` is answered exactly when a lifecycle ran, any other answer left the host alone and says which check refused, in its documented words. A report is answered exactly when the rows it added end in `completed`, with this provider and the preview its preview row shows; a `failed` row gives its kind to the message, and a success that could not be recorded says `journal` |
| `Brokers.FailureNamesFault` | apps/broker/src/lib.rs:207-234 | Whatever rows were left, a failed lifecycle's message ends in the documented name of the fault that decided |
| `Brokers.CataloguedIsKnown` | apps/broker/src/lib.rs:127-139 | The catalog captured at the start knows exactly the capabilities the control plane finds |
| `Brokers.RunsFailWithStageErrors` | crates/control-plane/src/lib.rs:312-454 | A lifecycle that was started fails only with provider, verification or journal errors |
| `Brokers.WorkNeverInterleaves` | apps/broker/src/lib.rs:303-306 | The rows one broker's worker adds are sorted by experiment id |
| `Brokers.AnswersAreBounded` | apps/broker/src/lib.rs:157-234 | Whatever the client sent, an error message is at most 255 bytes |
| `Connections.HandleConnection` | apps/broker/src/lib.rs:419-470 | An unauthorized peer gets at most one `unauthenticated` rejection, no read and no dispatch; for an authorized one the k-th answer is to the k-th read, sent whole and in order, what is refused unread by the worker is answered `malformed` with its reason, decodable requests are dispatched in order, and each way to end says where in the reads it came |
| `Connections.WriteResponse` | apps/broker/src/lib.rs:486-504 | A response goes out as its frame or a prefix of it, and an error answer fails only if the transport does |
| `Connections.Answer` | apps/broker/src/lib.rs:443-467 | The answer each frame, empty frame or oversize header calls for, and what is dispatched for it |
| `Connections.RefusalsAreMalformed` | apps/broker/src/lib.rs:443-467 | An empty frame, an oversize header and an undecodable frame are each answered `malformed`, in the documented words with the length or the echoed reason |
| `Connections.ErrorsOnTheWire` | crates/contracts/src/ipc.rs:155-184 | A rendered error opens with its kind's documented name, distinct kinds have distinct names, and its message is read back from it whole |
| `Connections.ErrorsFit` | apps/broker/src/lib.rs:98-107 | Every bounded error renders to 1 to 1,810 bytes, so `write_frame` never refuses it |
| `Connections.BrokerHandle.Dispatch` | apps/broker/src/lib.rs:255-266 | A dispatched request is logged once; the worker serves the jobs queued before it in order and then this one, each from where the one before left the host, or the answer is the error of a worker that stopped |
| `Connections.AnswersBounded` | apps/broker/src/lib.rs:443-467 | Every answer a connection gives, the worker's included, is bounded, whatever the peer sent |
| `Connections.PipelineIsAnswered` | apps/broker/src/lib.rs:432-469 | A peer that pipelines frames and closes gets exactly one decodable answer a frame, in order |
| `Connections.PipelineEnds` | apps/broker/src/lib.rs:432-469 | A peer that pipelines frames and closes has them all answered, and what is dispatched is told by the frames and their answers alone |
| `Connections.PipelineIsDispatched` | apps/broker/src/lib.rs:459-467 | Of answered frames each one's request is dispatched, in order and with its own answer, and nothing of frames that do not decode |
| `Connections.OversizeIsFinal` | apps/broker/src/lib.rs:450-457 | An oversize header is answered last, with `malformed` and its length, after the frames before it, and nothing after it is dispatched |
| `MockProviders.MockProvider.TakeSnapshot` | sidecars/mock-provider/src/lib.rs:50-55 | The snapshot restores exactly this value from any other |
| `MockProviders.MockProvider.Apply` | sidecars/mock-provider/src/lib.rs:66-78 | A refused request leaves the value alone; an accepted one is seen by verify |
| `MockProviders.MockProvider.Rollback` | sidecars/mock-provider/src/lib.rs:84-91 | The value becomes the snapshot's, or stays, with an error, when the snapshot has none |
| `MockProviders.MockLifecycle` | sidecars/mock-provider/src/lib.rs:50-91 | Over the mock and a healthy journal every accepted request completes verified and rolled back, writes the eight stages in order, and leaves the setting as it was |

## Left out

- SQLite itself: an insert is atomic, transactions are serialized, and the JSON payload codec is the identity on
  what the code writes; `Serialization` errors of writers do not occur. Rows this code would not write appear only
  where a reader must reject them.
- A failed record holds the error value instead of its display text, and only `kind` is the text the code writes.
- Floating point: samples, means and bounds are reals; NaN and the infinities, and the finiteness checks on bounds,
  are not modelled.
- Providers other than the mock: a provider is a device and the environment's answers. `snapshot` reports the device
  or an error, and its provider id is the manifest's. The watchdog's own provider object drives the same device.
- A journal file whose table does not exist yet, on which the scan is empty.
- A provider that panics: a panic is a crash of the process.
- Time: one clock in milliseconds that the environment moves; the text form of timestamps is not modelled.
- Idle and write timeouts: a connection may close at any frame, and a write may break at any byte.
- Connections.BrokerHandle.Dispatch: takes the jobs queued before it as an arbitrary list, and does not say when the worker stops; `Serving` says how requests
  of several connections travel to the worker.
- Connections.HandleConnection: takes the authorizer's decision, the request parser and the rendering of catalogs
  and reports as parameters; only error answers are rendered, and only they are proved to fit a frame.
- Serving.SlotsConserved: the accept loop is a machine over its steps, with no transport or sockets.
- Brokers.BrokerService.Work: takes the jobs as a list; that they arrive in the order sent is `Serving.FirstInFirstOut`.
- Frames.Stream.WriteFrame: a flush is part of the write.
- Runners.RunTrial: the wording of refusals is reduced to the offending field, and the record of a promoted trial
  whose insert fails is reported but not printed.
- Opening journals and providers, the platform check of the manifest, diagnostics readers such as `journal_stages`.
- Socket paths, permissions, advisory locks, argument parsing, the gateway's JSON-RPC plumbing, tracing output, the
  printed form of `doctor`, schema synchronization.
