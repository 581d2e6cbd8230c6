# Skivolve in Dafny

Skivolve evaluates agent skills: it runs a control and a treatment arm of a case side by side in Codex
sandboxes, has a comparator judge the pairs, and decides from the results whether a skill may be released.
This project models the parts of it that carry state, survive crashes or count, and proves what they are
for. `dafny verify dfyconfig.toml` checks all of it.

| area | files |
|---|---|
| Crash recovery of the sandbox | `CrashRecovery.dfy` (the protocol over any number of invocations), `RecoveryTrail.dfy` (what must have been done to be at a point of it), `CleanupMarker.dfy` (storage of the marker, call by call) |
| Journaled money and dispatch | `SpendLedger.dfy`, `SpendFile.dfy`, `SpendFaults.dfy`, `SpendPlan.dfy`, `CostAccounting.dfy`, `JournalLines.dfy`, `DispatchLedger.dfy`, `RunArm.dfy` |
| Concurrent arms and the wire protocol | `StartBarrier.dfy`, `Framing.dfy`, `AppServerProtocol.dfy`, `TurnStreams.dfy` |
| The release decision | `SignTest.dfy`, `ReleaseTables.dfy`, `ReleaseDecision.dfy`, `ReleaseGrounds.dfy` |
| Encodings and bounded walks | `Bytes.dfy`, `Encoding.dfy`, `Utf8.dfy`, `SourceFingerprint.dfy`, `Ordering.dfy`, `TreeScan.dfy`, `Artifacts.dfy` |

Objects that the program updates in place are classes here, with the program's fields and a specification
in terms of values; a method that raises returns false, None or null instead. Protocols of several
processes are state machines whose runs are lists of actions in any order.

## Assumptions

- Crash recovery. A process that exists is found by a scan of the process table; a unit that still has
  processes is not reported clean, and systemd keeps such a unit loaded; launching the gate is one step;
  unit names and commands are never used twice, so neither are their digests; a crash drops the lock and
  closes the gate pipe. Marker updates are single steps, which `CleanupMarker.dfy` justifies. The system
  `CODE` further drops a start request whose launcher died before it was carried out; the system `LATE`
  may still carry it out.
- Marker storage. A process may stop after any system call and any call may fail without effect. Only
  the store touches its directory, under the provider lock.
- Journals. A call of the system can fail in any append, before or after bytes are in the file, and a file's
  size and times differ whenever its bytes do. `SpendLedger.dfy` is about appends that return and crashes;
  `SpendFaults.dfy` adds the appends that raise while the process goes on.
- Identifiers made with `uuid4` are new. Digests are opaque values, or their preimages are compared.
- Canonical JSON of journal records is a codec whose lines are non-empty, hold no newline and read back;
  for the spend journal also that no proper prefix of a line, and no two lines run together, read as one.
- Money, costs and p-values are real numbers.

## Findings

- `restore_reconciled` checks neither that its attempt id is new nor that the whole reservation fits,
  and appends twice. `SpendLedger.RestoreReconciledCrashSafeIff` gives the exact condition under which
  every crash inside it leaves a journal that opens again, and
  `SpendLedger.RestoreReconciledCanLoseTheJournal` an admitted call that loses the journal. With an id the
  journal already holds even the completed call does (`SpendLedger.ReusedIdLosesTheJournal`).
- A crash that loses only the last newline of the spend journal goes unnoticed: `splitlines` reads the line
  as whole, the next append runs into it, and no later opening succeeds
  (`SpendFile.LostNewlineLosesTheJournal`). `SpendFile.CutIsAppendableIff` gives the exact condition, which
  the dispatch ledger tests and the spend ledger does not.
- An append to the spend journal that raises while the process goes on. Once the ledger knows its file's
  identity, memory and file agree afterwards or every further append is refused. Before that, a failed
  first append stays in the file uncounted and the next call is accepted
  (`SpendFaults.FirstAppendCanLoseTheJournal`). In `restore_reconciled` the same happens when the second append
  fails without writing (`SpendFaults.RestoredCallCanLoseTheJournal`). `SpendFaults.ContainedIff` is the exact
  condition. The dispatch ledger has no such gap: it re-reads its journal before every append.
- The order of the two process scans in `recover` matters. With the command digest first,
  `CrashRecovery.CommandFirstIsUnsafe` ends with an invocation about to arm while a unit runs.
- Recovery relies on systemd not carrying out a start request after its launcher died. Where it may,
  arming stays safe exactly if no request is pending when recovery begins to observe the unit
  (`CrashRecovery.LateArmingIsSafeIff`); otherwise clean reports clear the marker and the unit then starts
  unrecorded, as in the run of `CrashRecovery.LateStartIsUnsafe`. An invocation that has seen its unit active
  is out of this danger, disarming included (`CrashRecovery.DisarmingIsSafe`).
- An authorised release has at least seven treatment wins for every comparison and skill: with eight or more
  informative cases nothing less passes the threshold of 0.05 (`SignTest.EightCasesNeedSevenWins`).
- The plan check is not merely sufficient: a comparison over its cap has an interleaving in which a
  reservation is refused (`SpendPlan.PlanWithinCapIffNeverRefused`).

## Model

| member | source | states |
|---|---|---|
| CrashRecovery.ArmingIsSafe | skivolve/codex_app_server.py:3531-3651 | In any run with a crash allowed after every step, when an invocation may arm its marker there is no marker, and no gate process, launcher or unit of any earlier invocation is there or will ever be again |
| CrashRecovery.DangerIsRecorded | skivolve/codex_app_server.py:1953-2011 | In every reachable state at most the invocation named by the marker is live, the marker then holds its gate digest, and once the token was given, or the command or its unit runs, it holds the launcher's pid and start time |
| CrashRecovery.StoppedBeforeTheTokenNeverRuns | skivolve/codex_app_server.py:1990-2040 | If the evaluator stops before giving the token, the command never runs and its unit is never even asked for, in any continuation, late starts included |
| CrashRecovery.RecoveryIsExact | skivolve/codex_app_server.py:3029-3096 | From every state a crash can leave, an undisturbed recovery with exact observations clears the marker and may arm if and only if nothing of the sandbox is live, the marker is of the same binding and the mount is the one it names; otherwise marker and sandboxes stay as they are |
| CrashRecovery.LateArmingIsSafeIff | skivolve/codex_app_server.py:3055-3096 | Where a start request may outlive its launcher: from the moment recovery begins to observe the unit, the sandbox can never be live without the marker naming it, in any continuation, if and only if no request is then pending |
| CrashRecovery.LateArmingIsSafe | skivolve/codex_app_server.py:3531-3651 | If no request was pending whenever a recovery began to observe a unit, arming is safe in every such run, now and in every continuation |
| CrashRecovery.DisarmingIsSafe | skivolve/codex_app_server.py:2042-2076 | Once an invocation has seen its unit active, late starts can do it nothing: through serving, closing, disarming, a crash at any point and the recovery after it, the sandbox is never live without the marker naming it |
| CrashRecovery.LateStartIsUnsafe | skivolve/codex_app_server.py:3055-3096 | With late starts there is a run, in the code's scan order, that ends ready to arm beside a unit that nothing records |
| CrashRecovery.QuietStays | skivolve/codex_app_server.py:3055-3096 | A sandbox whose unit has no request pending and can get none stays so in every continuation with late starts, and its unit never comes up again unnoticed |
| CrashRecovery.CommandFirstIsUnsafe | skivolve/codex_app_server.py:3043-3053 | With the scans in the other order there is a run that reaches the point of arming while an earlier unit is running |
| CrashRecovery.RunKeepsInv | skivolve/codex_app_server.py:3509-3651 | The invariant of the protocol holds in every reachable state, with late starts or without |
| CrashRecovery.RecoverKeepsInv | skivolve/codex_app_server.py:3029-3096 | Every step of recovery, clearing or refusing, keeps it: each scan and report rules out one more place where the sandbox could be |
| CrashRecovery.InvokeKeepsInv | skivolve/codex_app_server.py:1906-2076 | Every step from arming to disarming keeps it: gate, launcher and unit are recorded before they become dangerous |
| CrashRecovery.AbandonKeepsInv | skivolve/codex_app_server.py:2022-2029 | A crash or exception at any point keeps it |
| CrashRecovery.ElsewhereKeepsInv | skivolve/codex_app_server.py:69-78 | The gate script, the launcher and the unit keep it whenever they move |
| CrashRecovery.PastStaysOver | skivolve/codex_app_server.py:3008-3027 | An invocation whose marker was cleared is over and stays over in every continuation |
| CrashRecovery.SealedNeverRuns | skivolve/codex_app_server.py:70-78 | A gate whose pipe was closed without the token never becomes the command |
| RecoveryTrail.ClearPassedEveryTest | skivolve/codex_app_server.py:3029-3096 | In every run, whenever recovery removes a marker, it has since taking the lock, and in this order, read a marker of its own binding, scanned twice without finding a process, seen two clean reports in a row, ruled out the launcher by what the marker has of it, and found the mount unchanged |
| RecoveryTrail.RecoveryDecides | skivolve/codex_app_server.py:3029-3096 | In any state at all: a recovery clears the marker if and only if the binding is the same, neither scan finds a process, both reports are clean, the launcher is ruled out and the mount fits; otherwise nothing changes and nothing may be armed |
| RecoveryTrail.ObservationsConfirm | skivolve/codex_app_server.py:2695-2722 | However many observations are made, recovery goes on at the first clean one right after a clean one, with what that one reported |
| RecoveryTrail.ArmingFollowsALockOrARecovery | skivolve/codex_app_server.py:3531-3575 | An invocation arms right after the lock was taken with no marker there, or after a whole recovery |
| RecoveryTrail.MarkerTellsTheSteps | skivolve/codex_app_server.py:2834-2922 | At every place of an invocation the marker holds exactly what was written so far: the gate digest once bound, the launcher's pid and start time as launched once identified, the unit once identified |
| RecoveryTrail.DisarmFollowsTheInvocation | skivolve/codex_app_server.py:3008-3027 | In every run, whenever an invocation removes its own marker it has armed, bound the gate, launched, identified, released, seen the unit active, identified it, closed, reaped and seen two clean reports in a row |
| RecoveryTrail.TrailTells | skivolve/codex_app_server.py:3509-3651 | The trail of every run has the form that its last place demands |
| RecoveryTrail.TrailIsSinceTheLock | skivolve/codex_app_server.py:3528-3532 | What is on the trail was done in this run, and the lock was not dropped since |
| RecoveryTrail.UndisturbedInvocation | skivolve/codex_app_server.py:1906-2076 | With no marker an invocation that nothing disturbs always goes through to the end, a gate that reads early waits, and it leaves no marker, a sandbox that is over and everything else as it was |
| RecoveryTrail.AbandonedGateEnds | skivolve/codex_app_server.py:70-78 | A gate whose pipe is closed without the token ends when it reads |
| CrashRecovery.ConfirmUnitClean | skivolve/codex_app_server.py:2695-2722 | The loop ends at the first observation that is clean right after a clean one, with that observation, and gives up exactly when there is none |
| CleanupMarker.MarkerStore.PublishNew | skivolve/codex_app_server.py:2795-2832 | Every state it passes through is sound, the stored record switches at most once, from none to the whole new one, an existing marker is never replaced, success leaves one link, and it fails only for a failed call, a taken name or an oversized record |
| CleanupMarker.MarkerStore.LinkNew | skivolve/codex_app_server.py:2796-2809 | The temporary is whole before it is linked: nothing changes before the link, and after it the marker has exactly one twin |
| CleanupMarker.MarkerStore.WriteAll | skivolve/codex_app_server.py:528-534 | However the kernel splits the writes, the whole payload is written or a call failed, and the stored record is untouched |
| CleanupMarker.MarkerStore.WritePrivate | skivolve/codex_app_server.py:3194-3216 | One switch from the stored record to the new one, at the rename; fails only for a failed call or a taken name |
| CleanupMarker.MarkerStore.Clear | skivolve/codex_app_server.py:2996-3006 | One switch from the stored record to none; fails only for a failed call or if the marker is not the file that was read, and then changes nothing |
| CleanupMarker.MarkerStore.Identity | skivolve/codex_app_server.py:2850-2857 | Names the marker's inode only if it has one link |
| CleanupMarker.MarkerStore.FindTwins | skivolve/codex_app_server.py:2932-2941 | The directory walk finds exactly the temporaries that are the marker's file |
| CleanupMarker.MarkerStore.Heal | skivolve/codex_app_server.py:2924-2967 | Brings a marker with two links back to one without changing the record, and refuses only if a call failed |
| CleanupMarker.MarkerStore.Read | skivolve/codex_app_server.py:2969-2994 | Returns exactly the stored record, or that there is none, with the marker healed to one link; refuses only if a call failed; never changes the record |
| CleanupMarker.MarkerStore.Replace | skivolve/codex_app_server.py:2859-2874 | One switch to the new record, which is read back before success is reported; fails only for a failed call, an oversized record, a taken name, or if the marker is not the file that was read, and then changes nothing |
| CleanupMarker.MarkerStore.Transition | skivolve/codex_app_server.py:2876-2899 | One switch from the stored record to its update; fails only for a failed call, a taken name, no record, a refused update or an oversized result |
| CleanupMarker.MarkerStore.Retire | skivolve/codex_app_server.py:3008-3027 | One switch from the stored record to none; fails only for a failed call, no record, or a record that is not accepted, which stays |
| CleanupMarker.ReadAfterCrash | skivolve/codex_app_server.py:2969-2994 | For any state an operation passed through, the next read returns the record before or the record after it, whole, never refuses, keeps the record and leaves the marker with one link |
| CleanupMarker.MarkerLinks | skivolve/codex_app_server.py:2924-2949 | In a sound state the marker has one link, or two and exactly one temporary twin |
| SpendJournal.RestoreJournal | skivolve/comparator_runtime.py:702-802 | The loop accepts exactly the journals that replay within the maximum and returns historical charges plus every attempt's charge, open ones in full |
| SpendJournal.ReplayedAmounts | skivolve/comparator_runtime.py:732-793 | In a replayed journal no charge is negative or exceeds its reservation, and attempt and historical ids are disjoint |
| SpendJournal.SumUpdate | skivolve/comparator_runtime.py:794-798 | How one attempt changes the restored total |
| SpendFile.Open | skivolve/comparator_runtime.py:702-802 | Opening from bytes gives what the records of its lines restore to, or raises |
| SpendFile.ReadWritten | skivolve/comparator_runtime.py:707-726 | What the ledger wrote is read back record by record |
| SpendFile.SplitAfterLine | skivolve/comparator_runtime.py:707 | A line ends at LF, CR or CRLF, CRLF is one end, and what follows is split by itself |
| SpendFile.SplitLastLine | skivolve/comparator_runtime.py:707 | A last line needs no end, and an empty one is no line |
| SpendFile.CutSpendJournal | skivolve/comparator_runtime.py:702-726 | A journal cut at any byte opens as its whole records, with the last of them even without its newline, and is refused when the cut fell inside a record |
| SpendFile.LostNewlineLosesTheJournal | skivolve/comparator_runtime.py:649-726 | After a lost newline the ledger opens with every record, but once anything is appended it never opens again |
| SpendFile.CutIsAppendableIff | skivolve/comparator_runtime.py:649-726 | A cut journal opens and can be appended to if and only if it is empty or ends in a newline |
| SpendLedger.ApplyKeepsValid | skivolve/comparator_runtime.py:500-647 | Every operation with a fresh id keeps spent plus reserved within the maximum and equal to what the journal replays to |
| SpendLedger.CrashAfterAppendLosesNothing | skivolve/comparator_runtime.py:519-528 | Reopening after the last append, before memory is updated, gives exactly the spent plus reserved the step was about to store |
| SpendLedger.SingleAppendCrashSafe | skivolve/comparator_runtime.py:500-565 | Every operation but `restore_reconciled` leaves a journal that reopens, wherever it crashes |
| SpendLedger.RestoreReconciledCrashSafeIff | skivolve/comparator_runtime.py:567-613 | An admitted restore is safe at every crash point if and only if its id is new and its whole reservation fits |
| SpendLedger.RestoreReconciledCanLoseTheJournal | skivolve/comparator_runtime.py:567-613 | A concrete admitted restore whose first append makes the journal refuse to reopen |
| SpendLedger.RunsStayWithinTheMaximum | skivolve/comparator_runtime.py:500-647 | In every interleaving of operations with fresh ids whose appends return, with crashes at any append and reopenings, no reopening is refused and spent plus reserved is the replayed amount and at most the maximum |
| SpendLedger.ReopenedIsValid | skivolve/comparator_runtime.py:460-473 | A reopened ledger satisfies the invariant |
| SpendLedger.SpendLedger.Reserve | skivolve/comparator_runtime.py:500-535 | Refuses exactly a non-positive amount or one over the remaining budget; otherwise the whole new state |
| SpendLedger.SpendLedger.ChargeHistorical | skivolve/comparator_runtime.py:537-565 | Refuses exactly what does not fit; otherwise the whole new state |
| SpendLedger.SpendLedger.RestoreReconciled | skivolve/comparator_runtime.py:567-613 | Two appends and a charge, under the guard the code tests and no other; the invariant survives an admitted call if and only if the id is new |
| SpendLedger.ReusedIdLosesTheJournal | skivolve/comparator_runtime.py:567-613 | An admitted call with an id that the journal holds leaves a journal that no process can open |
| SpendLedger.SpendLedger.Finish | skivolve/comparator_runtime.py:615-647 | Closes a reservation at its charge and releases the rest, refusing a charge out of range |
| SpendLedger.SpendReservation.Reconcile | skivolve/comparator_runtime.py:882-893 | Closes at most once, and only within the reservation |
| SpendLedger.SpendReservation.ForfeitRest | skivolve/comparator_runtime.py:895-906 | Forfeits in full unless already closed; a second call changes nothing |
| SpendLedger.RunTransport | skivolve/comparator_runtime.py:1525-1556 | Whatever execution does, the bracket leaves no reservation open: the charge is the cost if it was within the call's maximum, and the maximum otherwise |
| SpendFaults.ContainedIff | skivolve/comparator_runtime.py:649-700 | Whatever fault an admitted operation meets in an append, afterwards memory and file agree or every further append is refused, if and only if: in a first append, an identity was known or nothing uncounted was written; in the second append of a restored call, something was written |
| SpendFaults.KnownFileNeverDrifts | skivolve/comparator_runtime.py:649-700 | A ledger that knows its file's identity, under any operations with fresh ids but restored calls and any faults in their appends, stays within the maximum with a file that holds exactly what memory counts, or refuses every further append |
| SpendFaults.RefusesForever | skivolve/comparator_runtime.py:663-668 | After such a refusal no operation changes anything any more |
| SpendFaults.ReopenedAfterFailure | skivolve/comparator_runtime.py:702-802 | The next process opens with the failed operation as if it had returned, if its whole record is in the file, as if it had not been called, if nothing is, and raises in between |
| SpendFaults.FirstAppendCanLoseTheJournal | skivolve/comparator_runtime.py:649-700 | A first append that raises after its last byte, then an accepted call: twice the maximum is in the journal, which never opens again |
| SpendFaults.RestoredCallCanLoseTheJournal | skivolve/comparator_runtime.py:592-613 | The same after a restored call whose second append fails without writing, although the identity was known |
| SpendPlan.ExecutionPlan | skivolve/runner.py:4453-4544 | Refuses exactly an unsupported billing basis and a priced subscription; otherwise the numbers of each comparison are the products of its repetitions, cases, calls and prices, and the totals are sums over comparisons: two agent calls a pair, two comparator calls a judged pair, exposures that are calls at their price, combined exposures that are both, and the total cap |
| SpendPlan.WithinCapsWithinTotal | skivolve/runner.py:4512-4557 | Comparisons within their caps stay together within the total cap that the plan declares |
| SpendPlan.OverCap | skivolve/runner.py:4547-4557 | Names exactly the comparisons whose exposure exceeds their cap |
| SpendPlan.StepKeepsBounded | skivolve/runner.py:4401-4409 | Every step of either comparator thread keeps spent plus reserved below the price of the call slots used so far |
| SpendPlan.RunKeepsBounded | skivolve/runner.py:4401-4409 | Within the cap, no interleaving is ever refused money |
| SpendPlan.RunSpends | skivolve/runner.py:4401-4409 | Within the cap every interleaving spends exactly what its ended calls were charged, forfeited ones their whole price, and holds exactly one price in reserve for each call going on |
| SpendPlan.StepSpends | skivolve/runner.py:4401-4409 | One step adds what the call that ends in it costs and brings its thread on: within the cap every reservation under a new id is granted and every held call can be ended at any charge up to its price |
| SpendPlan.CostliestSpends | skivolve/runner.py:4485-4525 | Over the cap, forfeiting every call ends in a refusal |
| SpendPlan.PlanWithinCapIffNeverRefused | skivolve/runner.py:4547-4557 | The plan check passes a comparison if and only if no interleaving of its threads is ever refused a reservation |
| CostAccounting.Account | skivolve/runner.py:4604-4797 | Accepts exactly when every comparison's records are accepted and the trials are borne out, each the only one for a reconciled attempt of its binding and cost; and returns the sums of known costs and forfeits, although one dictionary serves all comparisons |
| CostAccounting.MatchTrials | skivolve/runner.py:4739-4796 | The loop over pairs and trials accepts exactly the claims that hold |
| CostAccounting.TrialsAreAccounted | skivolve/runner.py:4604-4797 | On an accepted run the known cost is the cost of the trials and the known cost of the attempts no trial claims, so the trials never cost more than was accounted |
| CostAccounting.AccountedIffRecorded | skivolve/runner.py:4739-4796 | Acceptance read off the journals: every comparison is named and its records are accepted, and every trial is borne out by a record of its comparison that reconciles its attempt under its binding at both of its costs, and that no other trial claims |
| CostAccounting.AccountOne | skivolve/runner.py:4614-4737 | The same for one comparison, whatever the shared dictionary already holds of others, and adds exactly its terminals |
| CostAccounting.ReadersAgree | skivolve/runner.py:4615-4728 | Record by record, this reader and the ledger's replay accept the same prefixes and hold the same tables |
| CostAccounting.AcceptedIffReplayedAndClosed | skivolve/runner.py:4611-4737 | Records are accepted if and only if replay, ignoring the cap, accepts them and leaves no reservation open |
| CostAccounting.TotalsAgree | skivolve/runner.py:4679-4728 | At every point known cost plus forfeited amounts is the replayed spend less what is open |
| CostAccounting.AcceptedTotals | skivolve/runner.py:4725-4737 | On accepted records known cost plus forfeits is the replayed spend, and the unknown count is the number of forfeits |
| JournalLines.SplitWritten | skivolve/runner.py:451-456 | Splitting a written file at its newlines gives back the lines of its records |
| JournalLines.PrefixAtBoundary | skivolve/runner.py:451-456 | A prefix that ends at a newline is the file of a prefix of the records |
| DispatchLedger.ReplayWritten | skivolve/runner.py:444-576 | Replaying the bytes of a written journal gives the tables its records fold to and their number |
| DispatchLedger.CutJournal | skivolve/runner.py:451-470 | A journal cut inside a record is refused; one cut after a newline replays to the tables the ledger had then |
| DispatchLedger.OneAttemptPerArm | skivolve/runner.py:484-530 | A journal that replays plans each logical arm at most once, whatever became of the attempt |
| DispatchLedger.FoldIsIndexed | skivolve/runner.py:476-576 | Attempts and logical arms index each other |
| DispatchLedger.PrefixFolds | skivolve/runner.py:444-576 | Every earlier journal replays too |
| DispatchLedger.GeneratorDispatchLedger.Replay | skivolve/runner.py:444-576 | The line and record loops compute the replay of the bytes |
| DispatchLedger.GeneratorDispatchLedger.Sync | skivolve/runner.py:433-442 | The journal is read back and agrees with memory exactly until an append was interrupted; from then on it raises |
| DispatchLedger.GeneratorDispatchLedger.Append | skivolve/runner.py:754-829 | A record and the new tables together, or the old tables; refused exactly when there is no room or the system raises, and then the file is as the fault leaves it |
| DispatchLedger.GeneratorDispatchLedger.PlanAttempt | skivolve/runner.py:284-338 | Plans exactly a new attempt of a new logical arm, if no append failed in it or was interrupted before |
| DispatchLedger.GeneratorDispatchLedger.Transition | skivolve/runner.py:410-431 | Moves an attempt exactly from the expected phase, if no append failed in it or was interrupted before; anything else changes no table |
| DispatchLedger.GeneratorDispatchLedger.MarkDispatched | skivolve/runner.py:340-346 | planned to dispatched |
| DispatchLedger.GeneratorDispatchLedger.MarkCompleted | skivolve/runner.py:348-360 | dispatched to completed |
| DispatchLedger.GeneratorDispatchLedger.MarkFailed | skivolve/runner.py:362-384 | planned or dispatched, as observed, to failed, under a known category |
| DispatchLedger.GeneratorDispatchLedger.Audit | skivolve/runner.py:386-408 | The unresolved attempts, and for each phase how many attempts of the table have it; the counts partition all attempts; it raises exactly if the journal cannot be read or an append was interrupted |
| DispatchLedger.CountsMove | skivolve/runner.py:348-401 | Every record that is accepted moves exactly one attempt: the count of the phase it leads to goes up by one, the one it leads from down by one, a plan leads from none, and the others stay |
| DispatchLedger.ReopenedAfterFault | skivolve/runner.py:444-576 | After an append that raised, the next process finds the record as if it had been acknowledged, if its whole line is in the file; the tables as they were, if none of it is; and a journal it refuses in between |
| DispatchLedger.StepMoves | skivolve/runner.py:433-442 | A record that replays changes the tables, so a journal one record ahead never passes for the one in memory |
| DispatchLedger.Create | skivolve/runner.py:208-267 | A new journal holds its header alone |
| DispatchLedger.Reopen | skivolve/runner.py:208-267 | A ledger opened again over what was written holds the same tables |
| RunArm.EndedArms | skivolve/runner.py:3453-3478 | However the steps of any number of arms are interleaved over the one ledger, and whatever faults the system raises in them, an arm that ended returned or raised exactly as its script and the writes denied to it say; if it returned, the attempt's acknowledged records are planned under the arm's own digests, perhaps dispatched, then completed or failed, the reported state is the ledger's phase and the reported dispatch is the journal's; and a failure's category tells what reached the handler: `provider`, `local_io`, the runner's own errors by the stage they came from, `unexpected` for anything else |
| RunArm.AuditIsClean | skivolve/runner.py:2258-2262 | Once every arm has returned, in whatever interleaving and with whatever faults, no append was interrupted and the audit finds nothing unresolved that was not before |
| RunArm.InterruptedRunNeverEnds | skivolve/runner.py:754-829 | After an append that raised with bytes in the file or memory behind it, some arm has not returned in any continuation, so the run gives no result |
| RunArm.UnresolvedAfterRun | skivolve/runner.py:386-408 | After any interleaving, whoever has ended, an attempt is unresolved if and only if it was before or its arm has planned it and not closed it |
| RunArm.RunKeepsInv | skivolve/runner.py:3453-3478 | In every interleaving, with any faults, each arm's acknowledged records are its own trace so far, its variables are what its script and denials make them, and the file is as memory counts it unless an arm is doomed |
| RunArm.MoveKeepsInv | skivolve/runner.py:3453-3478 | A step of one arm keeps that account for itself and for every other arm |
| RunArm.StepReaches | skivolve/runner.py:3622-3892 | Every stage, raising or not and with its write taken or denied, leads to the variables the next program point expects |
| RunArm.AcceptsIff | skivolve/runner.py:284-384 | The ledger can take what an arm writes if and only if no append was interrupted, it is due and fits, and for a plan if attempt and logical arm are new; other arms' records do not matter otherwise |
| RunArm.DeniedOnlyFor | skivolve/runner.py:3665-3676 | A write that is due is denied exactly for a fault in it, an earlier interrupted append, want of room, or for a plan because attempt or logical arm are not new |
| RunArm.StepArm | skivolve/runner.py:3622-3892 | One stage is at most one call of the ledger, with the effect of the step function |
| RunArm.RunArms | skivolve/runner.py:3453-3478 | Arms taking turns on the ledger object reach exactly the interleaving's state |
| RunArm.RunArm | skivolve/runner.py:3622-3892 | On its own turn, with a fault or none in each step, an arm always ends: it returns a result, or raises, exactly as its script and the writes denied to it say |
| RunArm.RunAll | skivolve/runner.py:2258-2262 | The run ends with an audit if and only if all arms returned and the journal can be read, and the audit finds what was unresolved before and nothing else |
| RunArm.PhaseIsLastOwnRecord | skivolve/runner.py:348-384 | An attempt's phase is decided by its own last record, whatever other arms wrote in between |
| RunArm.CountedWhereLastRecordLeads | skivolve/runner.py:386-408 | An attempt is counted under a phase if and only if its own last record is the one that leads to that phase |
| RunArm.UnresolvedIffLastRecordOpen | skivolve/runner.py:386-408 | An attempt is unresolved if and only if its last record opens or dispatches it |
| StartBarrier.RunKeepsInv | skivolve/runner.py:3718-3725 | The invariant of the two arms and the barrier holds in every interleaving |
| StartBarrier.AdvanceKeeps | skivolve/runner.py:3718-3725 | Every step of an arm keeps it |
| StartBarrier.InterruptKeeps | skivolve/runner.py:3839-3843 | Every timeout and every failure keeps it |
| StartBarrier.WindowsOverlap | skivolve/runner.py:3529-3537 | Whenever both arms end past both waits, the latest start is no later than the earliest finish |
| StartBarrier.SynchronisedTogether | skivolve/runner.py:3718-3725 | If one arm is past the second wait the barrier is whole and the other is past it or let out by its own next step |
| StartBarrier.FailureAfterSyncIsHarmless | skivolve/runner.py:3839-3843 | Nothing an arm does after synchronising breaks the other's wait |
| StartBarrier.SmoothRunsSucceed | skivolve/runner.py:3718-3725 | With no timeout and no error of its own neither arm is ever lost, breaks the barrier or ends with an error |
| StartBarrier.BothCanFinish | skivolve/runner.py:3718-3725 | From every reachable state both arms finish if they just go on in some order, without any timeout |
| StartBarrier.AdvanceIsProgress | skivolve/runner.py:3718-3725 | Every step of an arm that changes anything brings it nearer to its end |
| StartBarrier.TimeoutReachesTheOther | skivolve/runner.py:3720-3725 | After a wait timed out neither arm ever gets past the second wait |
| StartBarrier.EarlyErrorBreaksTheBarrier | skivolve/runner.py:3836-3843 | An error before the second wait loses the arm, and its next step breaks the barrier |
| StartBarrier.FailureIsRecorded | skivolve/runner.py:3836-3843 | An error after synchronising ends that arm with an error, for good |
| StartBarrier.ErrorsAreOwn | skivolve/runner.py:3836-3843 | An arm that synchronised ends with an error only if an error of its own came |
| StartBarrier.NoArmIsStranded | skivolve/runner.py:3839-3843 | While one arm is blocked the other is neither finished nor blocked, without any timeout |
| StartBarrier.EarlyFailureReachesTheOther | skivolve/runner.py:3839-3843 | After an early failure the barrier stays broken and the other arm never synchronises |
| Framing.ProcessTransport.Receive | skivolve/codex_app_server.py:2111-2144 | The outcome is the next one of the byte stream, however it was chunked, and exactly that leaves the stream |
| Framing.ProcessTransport.ReceiveAll | skivolve/codex_app_server.py:2111-2144 | Delivered frames, their newlines and what is retained reassemble the bytes read |
| Framing.Rechunked | skivolve/codex_app_server.py:2111-2144 | The same bytes in other chunks give the same frames and the same rejection |
| Framing.FramesAreLegal | skivolve/codex_app_server.py:2111-2130 | Every delivered frame is non-empty, within the size limit and without newline, and together they start the stream |
| Framing.WireRoundTrip | skivolve/codex_app_server.py:2111-2130 | Legal frames written with newlines are read back frame by frame |
| AppServerProtocol.Protocol.Run | skivolve/codex_app_server.py:1241-1277 | Accepts exactly the message streams that one function of the stream accepts, with its outcome; an accepted run dispatched one turn, right after the request that starts it; thread, turn and closing read were each answered under their own request id; its requests are the handshake, the two catalogues, the account, the limits, the skills with a write for each enabled one, thread, turn and closing read, in this order; whatever it heard is a reply or a notification that is neither refused nor about another thread or turn, with items and usage that fit and at most one announcement of each; nothing was about a thread or turn before its answer, and no skill changed before or after they were switched off; it heard one completion, of that thread and turn; kept its bounds; and its output is the last message streamed before the completion, with distinct ids and any final answer unique and last |
| AppServerProtocol.ReplyMeans | skivolve/codex_app_server.py:909-937 | A call is answered if and only if its response comes under its own id, within the message limit, after notifications only, each tolerated in the state the earlier ones left; the session then stands right after it |
| AppServerProtocol.CompletionMeans | skivolve/codex_app_server.py:1251-1252 | The wait for the turn ends if and only if its completion comes after tolerated notifications only; the session then stands right after it |
| TurnStreams.AnswerIsAcceptedIffGood | skivolve/codex_app_server.py:1836-1902 | A turn delivered within the bounds, with each notification that may come before it in its place, is accepted if and only if it went well, lists what was streamed if it lists anything, and its last message and no other can be the answer; the output is that message |
| TurnStreams.HarmlessInserted | skivolve/codex_app_server.py:1627-1756 | A notification that says nothing (an ignored one or an item of this turn, rate limits, remote control off, a status of this thread) may come anywhere between the turn's answer and its completion, within the message limit: the stream stays accepted with the same outcome |
| TurnStreams.BegunAccepted | skivolve/codex_app_server.py:1241-1252 | In every accepted stream the turn was answered before it was completed, and the message that ends the wait is a completion |
| TurnStreams.CatalogueListedIff | skivolve/codex_app_server.py:1319-1354 | A catalogue is listed if and only if no cursor comes twice and it has at most 64 pages |
| AppServerProtocol.Protocol.RunTurn | skivolve/codex_app_server.py:1493-1625 | From thread to answer: accepts exactly the accepted continuations; both requests are answered in order, the ids are those of the answers, and the last message heard completes that turn and decides the output |
| AppServerProtocol.Protocol.HandleNotification | skivolve/codex_app_server.py:1627-1756 | Tolerates exactly the admitted notifications and moves the state as specified; that what is admitted is in scope is part of `AdmittedKeepsTrack`, and that what is in scope and says nothing is admitted part of `TurnStreams.HarmlessInserted` |
| AppServerProtocol.AdmittedKeepsTrack | skivolve/codex_app_server.py:1692-1750 | Whatever is tolerated is in scope (not refused by its kind, about this thread and turn, with items and usage that fit) and announced once, and keeps the retained messages those that were heard, within 64 messages and 8 MiB, and the recorded completion the only one |
| AppServerProtocol.Protocol.Hear | skivolve/codex_app_server.py:957-993 | The next message, exactly unless the limit is reached, the pipe is closed or the message is not tolerated in this state; and the state after it |
| AppServerProtocol.Protocol.Call | skivolve/codex_app_server.py:887-937 | One request under a new id, answered exactly when the stream answers it; until its response, which must carry that id, only tolerated notifications are heard; a dispatch is accounted once and only for a turn; no skill change is tolerated outside isolation |
| AppServerProtocol.Protocol.FinalizeTurn | skivolve/codex_app_server.py:1836-1902 | Accepts exactly the finalisable turns and returns the last retained message, whether the item view is full or not loaded |
| AppServerProtocol.JudgeMessages | skivolve/codex_app_server.py:1869-1891 | Accepts exactly when ids are distinct and the last message is a non-blank answer and no other claims to be final |
| AppServerProtocol.ListedMessages | skivolve/codex_app_server.py:1850-1866 | Lists exactly the agent messages of a full view, refusing unfit items |
| AppServerProtocol.IdsDistinct | skivolve/codex_app_server.py:1871-1873 | The size test on the set of ids means that no id repeats |
| AppServerProtocol.AnswersTell | skivolve/codex_app_server.py:1878-1889 | The tests on final answers mean that none comes before the last message |
| AppServerProtocol.Protocol.Paged | skivolve/codex_app_server.py:1319-1354 | One to 64 requests list the catalogue, each but the first with the cursor of the answer before it, no cursor is used twice, the last answer has none, and exactly the streams with such pages are accepted |
| AppServerProtocol.Protocol.DisableSkills | skivolve/codex_app_server.py:1467-1491 | One listing, one write for each skill it showed enabled, in order, and a last listing that shows all disabled; succeeds exactly when all of them are so answered |
| SignTest.OneSidedSignTest | skivolve/runner.py:5300-5304 | The loop computes the tail's share of all outcomes, or None without informative cases |
| SignTest.CombIsFactorialQuotient | skivolve/runner.py:5304 | The coefficients are n! / (k! (n-k)!) |
| SignTest.TailPascal | skivolve/runner.py:5304 | The tail obeys Pascal's recurrence |
| SignTest.TailComplement | skivolve/runner.py:5304 | The two tails that meet make up all outcomes |
| SignTest.WinLowers | skivolve/runner.py:5300-5304 | An extra win lowers the p-value |
| SignTest.LossRaises | skivolve/runner.py:5300-5304 | An extra loss raises it, unless there is no win and it is 1 |
| SignTest.PValueComplement | skivolve/runner.py:5300-5304 | p(w, l) + p(l + 1, w - 1) = 1 for w >= 1 |
| SignTest.HalfIffMoreWins | skivolve/runner.py:5300-5304 | At most one half if and only if wins exceed losses |
| SignTest.PValueFloor | skivolve/runner.py:5300-5304 | At least 2^-n, so 0.05 takes at least five informative cases |
| SignTest.FiveCasesPassOnlyUnanimously | skivolve/runner.py:5180-5185 | Five informative cases pass if and only if the treatment won all of them |
| SignTest.EightCasesNeedSevenWins | skivolve/runner.py:5186-5193 | With eight informative cases or more, passing takes at least seven wins |
| ReleaseTables.MatrixExactIff | skivolve/runner.py:4845-4852 | The length test and the set test mean: every expected triple once and nothing else |
| ReleaseTables.PlannedFingerprintIs | skivolve/runner.py:4824-4828 | A case's content is the one that the last entry of the plan for it gives, and empty if there is none |
| ReleaseTables.Group | skivolve/runner.py:4853-4855 | Every key's group is its pairs in order |
| ReleaseTables.GroupCounts | skivolve/runner.py:4845-4855 | A group's repetitions are counted as the matrix counts its triples |
| ReleaseTables.SortedRepetitions | skivolve/runner.py:4858-4866 | Sorting and comparing with [0, 1, 2] asks for each repetition once |
| ReleaseTables.VerdictIsMajority | skivolve/runner.py:4879-4882 | Among three votes the verdict is a side if and only if it has two |
| ReleaseTables.SummaryMeans | skivolve/runner.py:4857-4901 | Completeness and winner of a case, whatever the order of its pairs |
| ReleaseTables.Outcomes | skivolve/runner.py:4856-4901 | One outcome for each key, raising exactly for an unknown comparison or case |
| ReleaseTables.ModelSets | skivolve/runner.py:4903-4923 | Which model sets answered, and whether a provider is missing |
| ReleaseTables.Deduplicate | skivolve/runner.py:5159-5167 | Keeps the first record of each fingerprint, and reports duplicates exactly when there are any |
| ReleaseTables.JudgeCell | skivolve/runner.py:5159-5193 | The cell of its records: counts, p-value, integrity and authority |
| ReleaseTables.JudgeCells | skivolve/runner.py:5148-5219 | One cell for each comparison and skill that has records |
| ReleaseDecision.Aggregate | skivolve/runner.py:4813-5297 | Raises exactly for unknown names or an omitted holdout authority, and authorises a release if and only if it is justified in terms of the pairs |
| ReleaseGrounds.JustifiedIffWarranted | skivolve/runner.py:4813-5256 | The same decision in plain terms, in both directions: a holdout run of the declared comparisons under a plan with distinct trees and contents and eight cases of each skill; every holdout case observed in all three repetitions of every comparison and nothing else; every pair completed, unbiased and with its critical assertions held; one list of models throughout; and every skill proven by the sign test under every release comparison |
| ReleaseGrounds.PassesIffPassable | skivolve/runner.py:5257-5271 | Any other run passes if and only if exactly the cases of the requested split and ids (train and validation for `public`) were observed, three times under every comparison, every pair is clean and one list of models answered |
| ReleaseGrounds.ExactIffComplete | skivolve/runner.py:4829-4852 | The matrix test means: every pair is of a requested case, every requested repetition was observed, and none twice |
| ReleaseDecision.AuthorizedIffJustified | skivolve/runner.py:5244-5256 | All gates and all cells together are the justification, in both directions |
| ReleaseDecision.GatesMean | skivolve/runner.py:4977-5012 | The three gates on outcomes are one condition on every pair |
| ReleaseDecision.CellMeans | skivolve/runner.py:5159-5193 | A release cell is authorised if and only if its cases have distinct contents and pass the sign test |
| ReleaseDecision.CellsMean | skivolve/runner.py:5221-5256 | The cells authorise exactly when every release comparison and selected skill is justified |
| ReleaseDecision.GroupIsThree | skivolve/runner.py:4839-4866 | On an exact matrix every group has each of the three repetitions once |
| ReleaseDecision.JustifiedPairsAreTheProduct | skivolve/runner.py:4839-4878 | The pairs of a justified release are exactly comparison x holdout case of the suite x {0, 1, 2}, once each, and the treatment passed every critical assertion in all of them |
| ReleaseDecision.JustifiedCellsFavourTheTreatment | skivolve/runner.py:5148-5256 | Every release comparison and skill has at least eight informative distinct fingerprints, at least seven treatment wins and more of them than control wins |
| Encoding.NetReadsBack | skivolve/runner.py:5995-6001 | A length-prefixed field is read back with what follows it |
| Encoding.JsonUnitsReadBack | skivolve/runner.py:1447-1460 | An escaped JSON string is read back, as its UTF-16 code units, with what follows it |
| Encoding.EscapeIsJson | skivolve/runner.py:1447-1460 | Every escaped code unit is JSON for itself (section 7 of RFC 8259), raw if printable, in two bytes for the seven short escapes and as `\u` with four lower-case digits otherwise |
| Encoding.JsonStringDecides | skivolve/runner.py:1447-1460 | Two texts, lone surrogates included, are escaped alike if and only if they are the same after every adjacent pair of a high and a low surrogate is joined |
| Encoding.UnitsInjective | skivolve/runner.py:1447-1460 | Texts without such pairs are told apart by their code units |
| Utf8.EncodeInjective | skivolve/runner.py:6502 | UTF-8 is injective on code points |
| Utf8.EncodedIsWellFormed | skivolve/artifacts.py:127-145 | What the encoder writes for scalar values passes the strict test and decodes to the text |
| Utf8.WellFormedIsEncoded | skivolve/artifacts.py:127-145 | What passes the strict test is the encoding of the scalar values it decodes to |
| SourceFingerprint.CanonicalSourceFingerprint | skivolve/runner.py:5970-6002 | The loops feed the hash exactly the preimage, whatever the insertion order |
| SourceFingerprint.PreimagesAgreeIff | skivolve/runner.py:5970-6002 | For all texts, two preimages are equal if and only if locators and listings of files are, up to joining surrogate pairs in locator and paths |
| SourceFingerprint.PreimageInjective | skivolve/runner.py:5970-6002 | Where no high surrogate stands right before a low one, two preimages are equal if and only if locator, bundle and context are: path, mode bit and content of every file |
| SourceFingerprint.PairedLocatorsCollide | skivolve/runner.py:5970-6002 | With such a pair left apart two different locators share every fingerprint |
| SourceFingerprint.NeverTheEmptySource | skivolve/holdout_plan.py:24-27 | No preimage is the one that stands for no source |
| SourceFingerprint.ChunkReadsBack | skivolve/runner.py:5984-6001 | One file's bytes are read back with what follows them, its path up to joining surrogate pairs |
| SourceFingerprint.StatesHash | skivolve/runner.py:6499-6508 | The loop feeds the hash exactly the tree's preimage, and raises exactly if a path has a lone surrogate |
| SourceFingerprint.TreeChunkBytes | skivolve/runner.py:6499-6508 | One entry byte by byte: path, mode `x` or `-`, length and content, each closed by a zero |
| SourceFingerprint.StatesPreimageInjective | skivolve/runner.py:6499-6508 | For paths without NUL, equal preimages if and only if equal trees |
| Ordering.SortedSorts | skivolve/runner.py:5983 | Sorting gives an ordered permutation |
| Ordering.SortingLists | skivolve/runner.py:5983 | Sorting the keys of a dictionary in any order gives the one increasing listing |
| TreeScan.ScanNormalizedWorktree | skivolve/runner.py:6323-6391 | Accepts exactly the trees within all bounds (65536 entries looked at, 64 MiB a file, 256 MiB in all, 64 directories deep, 16384 files and directories kept), and returns the kept paths of the recursive walk, sorted |
| TreeScan.ScanDirectory | skivolve/runner.py:6331-6377 | One directory: what was found and what is still ahead always make up the whole tree |
| TreeScan.CacheFileIff | skivolve/runner.py:6175-6178 | A cache file is exactly a stem with one of the two suffixes |
| TreeScan.PosixInjective | skivolve/runner.py:6323-6391 | Paths whose names are not empty and hold no separator have different texts, so the order of the texts is an order of the paths |
| TreeScan.PruningIsFiltering | skivolve/runner.py:6175-6178 | Not entering caches keeps exactly the files that filtering all files would |
| TreeScan.GitBundleEntries | skivolve/runner.py:6181-6239 | Accepts a listing exactly when its kept files are within the bounds and hold SKILL.md, and returns them |
| TreeScan.LimitsPermuted | skivolve/runner.py:6212-6233 | The incremental bounds do not depend on the order of the listing |
| TreeScan.ScanAgreesWithListing | skivolve/runner.py:6323-6391 | For a tree within the traversal limits and any listing of its files, scan and listing accept together and keep the same files |
| TreeScan.AddParents | skivolve/runner.py:6225-6228 | Adds exactly the directories above a file |
| JsonShape.ValidateJsonShape | skivolve/artifacts.py:194-212 | The stack walk accepts exactly the trees whose depth, member count and strings are within bounds |
| JsonShape.PushMembers | skivolve/artifacts.py:201-205 | Pushing an object's members keeps the account of what is still to be counted |
| Artifacts.NormalizeIsUniversal | skivolve/artifacts.py:71-73 | The two replacements are one pass over the three line endings |
| Artifacts.FixedIffNoCr | skivolve/artifacts.py:71-73 | Text is unchanged if and only if it holds no carriage return |
| Artifacts.NormalizedHasNoCr | skivolve/artifacts.py:71-73 | Normalised text holds none and is no longer than before |
| Artifacts.NormalizeKeepsUtf8 | skivolve/artifacts.py:127-145 | Rewriting line endings keeps strict UTF-8 |
| Artifacts.ArtifactIs | skivolve/artifacts.py:60-145 | Each kind accepts exactly strict UTF-8 of at most 1 MiB without a byte-order mark and keeps a diff as it is, text with every line ending an LF, and JSON in a form of at most 1 MiB that parses and is written as itself; no other kind is accepted |
| Artifacts.NormalisedIsStable | skivolve/artifacts.py:60-103 | Normalising an accepted artifact's content again is accepted and returns the same bytes |

## Left out

- AppServerProtocol.Protocol.Call: the denial sent to a server request before the error, and deadlines.
- AppServerProtocol.Protocol.HandleNotification: the contents of rate limits and their bucket bound; the ids of a thread or turn announced after the matching response, which the code does not compare.
- AppServerProtocol.Protocol.Paged: the total item limit and what the catalogues must contain, which enter as a flag of each page.
- CleanupMarker.MarkerStore.Read: inode reuse, owner, mode and file type, and loss of power; only process crashes and failing calls.
- CrashRecovery.RecoverKeepsInv: the host mount test and the binding comparison are flags; the text of systemd and cgroup reports is not parsed.
- CrashRecovery.InvokeKeepsInv: the interval between fork and exec of the gate.
- SpendFile.Open: the private-file checks and the size limit of the journal.
- SpendLedger.RunTransport: execution, parsing and calibration of the response, which enter as an optional cost.
- DispatchLedger.GeneratorDispatchLedger.Append: the lifetime lock, and the owner, mode and link count of the file.
- DispatchLedger.Create: a fault while the journal is created, which ends the run before an arm starts.
- SpendLedger.RunsStayWithinTheMaximum: appends that raise while the process goes on, which `SpendFaults.dfy` treats.
- SpendFaults.KnownFileNeverDrifts: reading the journal between a failed first append and the next call, which adopts what is in the file.
- RunArm.RunArm: workspaces, verifiers and the report's other fields; a script says which stage raises, so what one arm's stages raise does not depend on the other; their meeting at the start is `StartBarrier.dfy`.
- ReleaseDecision.Aggregate: costs, tokens, counters of the report and the authority bindings, which are flags; the sorted order of cases, on which nothing depends.
- SourceFingerprint.CanonicalSourceFingerprint: SHA-256 itself.
- TreeScan.ScanNormalizedWorktree: symbolic links, special files, Git entries that are not blobs, and names with lone surrogates.
- Artifacts.NormalisedIsStable: the JSON parser and the RFC 8785 serialiser are any pair of functions; str input with lone surrogates.
- Float rounding of money and p-values.
- Sandbox command lines, systemd properties, configuration files and environment lists: text with no deep property.
- Manifest, holdout plan, profile and protocol lock parsing: long conjunctions of field tests.
- Git invocation, model dispatch, verifier execution, the command line and the site validator.
