# A verified model of the CircuitSetup energy meter helper

This project models, in Dafny, the parts of the helper where a mistake would cost a user's
configuration or a calibration, and proves what they keep over every input, every log and
every run.

* **Configuration transactions** (`TransactionModel`, `TransactionLaws`, `TransactionSteps`,
  `TransactionInstall`, `TransactionFrame`, `TransactionRuns`, `TransactionTheorems`,
  `TransactionLimits`, `TransactionRecords`, `ConfigTransaction`). A handle goes from preview over a confirmed write,
  validation, compilation and a confirmed install to upload, reconnect and persistence;
  rollback, abandoning, expiry, uncertain writes and crash recovery branch off. Every await is
  a point where any reply may come back: success, clean failure, failure that took effect,
  cancellation before or after the effect. A system of any number of handles shares one file,
  one lock and one durable record with third parties that may edit the file at any moment and
  with crashes that forget everything but the file and the record. A history logs what really
  happened; the theorems read their guarantees off that log. The class `ConfigTransaction` has
  the fields of the original, its methods run from one await to the next, and each is proved
  against the function of the value machine.
* **Reconnect loops** (`Reconnect`): a bound on the attempts of both backoff loops.
* **Managed blocks** (`ManagedBlocks`, `ConfigBlocks`, `BlockLaws`, `BlockRoundTrips`,
  `BlockHistories`, `BlockLimits`): documents are lines with their line ends; a document falls
  into plain lines and marked blocks; blocks are inserted, replaced and removed.
* **Substitutions** (`Scalars`, `ScalarRoundTrips`, `ScalarLimits`, `Splicing`,
  `DocumentRows`, `Substitutions`, `SubstitutionEdits`, `SubstitutionInserts`,
  `SubstitutionChanges`, `SubstitutionLimits`): characters, from the quote scanners and printers up to a whole file
  in which values are exchanged and lines are inserted, and which is then read again.
* **Calibrated offsets** (`CalibratedOffsets`, `OffsetMerges`, `OffsetHistories`): a block of
  signed tables that is rendered, read back and merged.
* **Log evidence** (`LogRing`, `LogCapture`, `OffsetRun`, `GainRun`): the bounded ring, the
  lines that successive windows of it add up to, and the two parsers of calibration runs.
* **Entity binding** (`EntityBinding`): tiered resolution with a shared set of used entities,
  and rebinding after a reconnect.

What the code does not guarantee is stated as well. Where a promise fails, a lemma gives a
concrete run or input, and another gives the exact condition for all inputs:

| what fails | run or input | exact condition |
|---|---|---|
| a third-party edit is kept | `EditOverwritten` | `EditsSurvive` |
| a crash leaves something to recover | `CrashForgetsWrite` | `CrashLeavesRecord` |
| a dispatch has its record stored | `DispatchWithoutRecord` | `DispatchPrerequisites` |
| a rollback leaves no durable record | `StaleRecordRecovered`, `RecordOutlivesExpiry`, `RecordOutlivesRelease` | `RecordLeftBehind` |
| closing releases the reservation | `UnappliedKeepsClaim`, `RevocationKeepsClaim` | `ClaimKept` |
| an install keeps its record until it removes it | `RecordTaken` | `RecordLost`, `RecordDisplaced` |
| a closed handle has no lease | `LeaseLeaks` | `LeaseGained`, `ClosedLease`, `LeakLasts` |
| an idle handle expires | `NeverExpires` | `OutlivesDeadline` |
| removing a block undoes inserting it | `OtherLineEnd` | `RemoveUndoes`, `RemovalExact` |
| a name reads back | `SpaceLost`, `CommentSwallowed` | `ReadBack` |
| a rewritten line keeps its key | `ColonGlued` | `RewriteReads`, `PatchedTells` |
| new substitutions are read | `QuotedKeyUnread` | `InsertTells`, `ApplyChanges` |
| a poll adds the new lines | `RepeatedLineLost`, `EvictedLinesLost` | `PollWrong` |

Verify everything with `dafny verify dfyconfig.toml`.

## Model

| member | source | states |
|---|---|---|
| TransactionTheorems.ReplayMeans | custom_components/circuitsetup_energy_meter_helper/config_transaction.py:2465-2472 | replaying a log gives the log back, and the sets that the laws consult (entries seen, who wrote, who dispatched) hold exactly what occurs in it |
| TransactionTheorems.StandingMeans | custom_components/circuitsetup_energy_meter_helper/config_transaction.py:1384-1395 | a proposal counts as standing in the file exactly if its write is the last write, restore or third-party edit in the log |
| TransactionTheorems.DurableMeans | custom_components/circuitsetup_energy_meter_helper/config_transaction.py:632-637 | a record counts as durable exactly if its save is the last save or removal in the log |
| TransactionTheorems.Entry | custom_components/circuitsetup_energy_meter_helper/config_transaction.py:1160-1624 | in every run, every entry of the log was lawful at the moment it was made |
| TransactionTheorems.ShownMeans | custom_components/circuitsetup_energy_meter_helper/device_builder.py:377-386 | the file holds what the last write, restore or third-party edit of the log left, and a write or restore settles all edits before it |
| TransactionTheorems.EditsSurvive | custom_components/circuitsetup_energy_meter_helper/device_builder.py:377-386 | in every run with arbitrary third-party edits, each write replaces exactly the source it was previewed from and each restore exactly the proposal of its own handle, exactly unless the last change of the file before it is an edit to something else made after the compare; it then replaces that very edit, and in every case what the last change of the file left |
| TransactionTheorems.WritesOnce | custom_components/circuitsetup_energy_meter_helper/config_transaction.py:1240-1274 | a handle writes its proposal at most once, and never after it dispatched an upload |
| TransactionTheorems.RestoresNoMore | custom_components/circuitsetup_energy_meter_helper/config_transaction.py:2004-2035 | no restore after a dispatch, after a recovery from the durable record, or after a confirmed restore of the same handle |
| TransactionTheorems.RestoredAgain | custom_components/circuitsetup_energy_meter_helper/device_builder.py:426-436 | a restore that took effect is not applied again: unless proposal and original are equal, between two restores of one handle something else changed the file |
| TransactionTheorems.ConfirmedOnce | custom_components/circuitsetup_energy_meter_helper/config_transaction.py:2013-2035 | a restore is confirmed at most once per handle, and nothing is written by that handle afterwards |
| TransactionTheorems.ConfirmedOriginal | custom_components/circuitsetup_energy_meter_helper/device_builder.py:437-448 | at a confirmed restore the last change of the file had left exactly the content that the handle was previewed from |
| TransactionTheorems.DispatchPrerequisites | custom_components/circuitsetup_energy_meter_helper/config_transaction.py:1501-1604 | every OTA dispatch finds exactly the proposal in the file and follows, in this order, the write of that proposal, its validation, its compilation, the revocation of the installed calibration and the save of the durable record; at the dispatch the record is stored exactly if no removal took effect behind an error |
| TransactionTheorems.UploadsNoMore | custom_components/circuitsetup_energy_meter_helper/config_transaction.py:1498-1500 | once an acknowledged upload was made durable, no run dispatches another upload of that install |
| TransactionTheorems.RecoveryIsTrue | custom_components/circuitsetup_energy_meter_helper/config_transaction.py:569-605 | a recovery restores a record that was saved, and claims an upload only if one was acknowledged after a dispatch |
| TransactionTheorems.AcknowledgedAfter | custom_components/circuitsetup_energy_meter_helper/config_transaction.py:1583-1604 | an upload is acknowledged only after a dispatch of the same handle |
| TransactionTheorems.ReleaseDiscipline | custom_components/circuitsetup_energy_meter_helper/config_transaction.py:450-470 | between a write and the release of the calibration reservation of its handle a restore of that handle is always confirmed, and the file is changed again: released only if never written or confirmed restored |
| TransactionTheorems.RollbackNeverRefused | custom_components/circuitsetup_energy_meter_helper/config_transaction.py:2004-2007 | the two errors at the head of the rollback occur in no run |
| TransactionTheorems.ProgressShape | custom_components/circuitsetup_energy_meter_helper/config_transaction.py:2470-2472 | in every reachable state the progress list is a prefix of the canonical path, starting at the attempted upload on a recovered handle, with the restore marker only after a prefix without an attempted upload; only a handle with nothing to change ends with the persisted marker alone |
| TransactionTheorems.MutualExclusion | custom_components/circuitsetup_energy_meter_helper/config_transaction.py:1166-1173 | an open handle with an unresolved write holds the meter lock, and no other handle of the meter has a lease or an unresolved write |
| TransactionTheorems.ClosedLease | custom_components/circuitsetup_energy_meter_helper/config_transaction.py:2431-2434 | a closed handle holds a lease exactly if the lock was granted to it after it had been closed, and never if it installs a configuration |
| TransactionTheorems.NoHalfDoneClose | custom_components/circuitsetup_energy_meter_helper/config_transaction.py:2084-2164 | if a handle is closed while its proposal, different from the original, stands in the file, then firmware was built from that proposal |
| TransactionTheorems.RollbackNeedsMet | custom_components/circuitsetup_energy_meter_helper/config_transaction.py:1397-1416 | an open handle that offers a rollback is failed, not recovered, has both contents that a rollback needs, and never attempted an upload |
| TransactionTheorems.DurableWhileAttempted | custom_components/circuitsetup_energy_meter_helper/config_transaction.py:1552-1583 | while the handle of an attempted install is open in memory, the stored record is exactly its own, with both its contents, as long as no removal took effect behind an error; `DispatchedRecord` says what holds once the handle is gone |
| TransactionTheorems.RecordLost | custom_components/circuitsetup_energy_meter_helper/config_transaction.py:632-637 | over every run, crashes and expiries included: a record that was stored is no longer stored exactly if, later, it was removed on behalf of its own handle or another install saved its own record, and it was not saved again after that |
| TransactionTheorems.DispatchedRecord | custom_components/circuitsetup_energy_meter_helper/config_transaction.py:1552-1604 | the same for every dispatched install, with or without its handle, from the dispatch on, provided no removal before it took effect behind an error |
| TransactionTheorems.RecoveredHandles | custom_components/circuitsetup_energy_meter_helper/config_transaction.py:2259-2350 | a recovered handle carries the attempted marker, the uploaded marker only if an upload was acknowledged, and never an original to restore |
| TransactionLimits.EditOverwritten | custom_components/circuitsetup_energy_meter_helper/device_builder.py:380-386 | counterexample run: an edit between the compare and the write is overwritten |
| TransactionLimits.CrashForgetsWrite | custom_components/circuitsetup_energy_meter_helper/config_transaction.py:1244-1276 | counterexample run: a crash after the write and before the durable record leaves the proposal with nothing to recover it from |
| TransactionLimits.CrashLeavesRecord | custom_components/circuitsetup_energy_meter_helper/config_transaction.py:569-608 | in every reachable state a crash leaves the record of a handle exactly if the last change of the store is a save of that handle, and something to recover exactly if it is a save at all |
| TransactionLimits.CrashRemembersHandle | custom_components/circuitsetup_energy_meter_helper/config_transaction.py:1552-1574 | read off the handle: an open handle that holds the meter, has no acknowledged upload and is past its first save if it is installing, is remembered by a crash exactly if it knows its record saved and no removal took effect behind an error |
| TransactionLimits.LeaseLeaks | custom_components/circuitsetup_energy_meter_helper/config_transaction.py:1097-1113 | counterexample run: the meter lock is granted to a handle that a failed preview closed while it waited, and is kept |
| TransactionLimits.LeaseGained | custom_components/circuitsetup_energy_meter_helper/config_transaction.py:1166-1173 | in one step a closed handle obtains the meter lock exactly if it still waits for it, the lock is free and the wait ends well |
| TransactionLimits.LeakLasts | custom_components/circuitsetup_energy_meter_helper/config_transaction.py:2147-2164 | such a closed handle keeps the lock through every further event except a crash |
| TransactionLimits.StaleRecordRecovered | custom_components/circuitsetup_energy_meter_helper/config_transaction.py:2037-2060 | counterexample run: a rolled-back install is recovered from a record that a late cancellation left behind |
| TransactionLimits.RecordLeftBehind | custom_components/circuitsetup_energy_meter_helper/config_transaction.py:2037-2145 | one step closes a handle whose restore was confirmed, with its own record still stored, exactly if it is a late-cancelled successful release, an expiry with the reservation already free, or the release that an expiry began |
| TransactionLimits.RecordOutlivesExpiry | custom_components/circuitsetup_energy_meter_helper/config_transaction.py:2084-2145 | counterexample run without any cancelled caller: the removal of the record fails, and the expiry closes the handle |
| TransactionLimits.RecordOutlivesRelease | custom_components/circuitsetup_energy_meter_helper/config_transaction.py:2124-2140 | counterexample run without any cancelled caller: the release fails, and the release by the expiry closes the handle |
| TransactionLimits.ClaimKept | custom_components/circuitsetup_energy_meter_helper/config_transaction.py:1366-1416 | one step closes a handle with its calibration reservation still claimed exactly in these cases: an uncertain write proves not applied, a revocation or a save of the record fails, a removal ends the install after a cancellation, a rejected upload or the last persistence, the release of an expiry fails, or an expiry finds a written install that it does not roll back |
| TransactionLimits.UnappliedKeepsClaim | custom_components/circuitsetup_energy_meter_helper/config_transaction.py:1384-1389 | counterexample run: a write that proves not applied closes the handle with its claim |
| TransactionLimits.RevocationKeepsClaim | custom_components/circuitsetup_energy_meter_helper/config_transaction.py:1534-1541 | counterexample run: so does a failed revocation before the install |
| TransactionLimits.DispatchWithoutRecord | custom_components/circuitsetup_energy_meter_helper/config_transaction.py:639-661 | counterexample run: after a removal that took effect behind an error, a retry dispatches without a durable record |
| TransactionLimits.NeverExpires | custom_components/circuitsetup_energy_meter_helper/config_transaction.py:1918-1935 | counterexample run: after metadata failed to persist, the open handle keeps the lock and its commit mark |
| TransactionLimits.OutlivesDeadline | custom_components/circuitsetup_energy_meter_helper/config_transaction.py:2084-2092 | an idle open handle outlives its deadline exactly if it is marked as committing or as being cleaned up |
| TransactionRecords.RecordDisplaced | custom_components/circuitsetup_energy_meter_helper/config_transaction.py:1552-1574 | an event displaces the stored record of an install exactly if it brings the reply of a save that took effect to another handle, and removes it exactly if it brings the reply of a removal that took effect to its own handle; crashes, deadlines, recoveries, edits and previews leave it alone |
| TransactionRecords.RecordTaken | custom_components/circuitsetup_energy_meter_helper/config_transaction.py:1552-1574 | counterexample run: the record of a dispatched install is stored when the process crashes, and the save of an install confirmed before any recovery takes its place, with no removal in between |
| ConfigTransactions.ConfigTransaction.Preview | custom_components/circuitsetup_energy_meter_helper/config_transaction.py:863-885 | a new handle starts as the protocol opens it, with a claim to settle only for calibration |
| ConfigTransactions.ConfigTransaction.Recover | custom_components/circuitsetup_energy_meter_helper/config_transaction.py:2329-2348 | a handle restored from a durable record, with or without the proposal still in the file |
| ConfigTransactions.ConfigTransaction.ForgetEvidence | custom_components/circuitsetup_energy_meter_helper/config_transaction.py:1543-1547 | the loop drops exactly the evidence that a new attempt may raise again and keeps the order of the rest |
| ConfigTransactions.ConfigTransaction.Finish | custom_components/circuitsetup_energy_meter_helper/config_transaction.py:2147-2164 | afterwards the handle is closed, holds neither content nor lease, and the lock it held is free; a handle closed before keeps its state and its fields, and the file and the durable record are untouched |
| ConfigTransactions.ConfigTransaction.RetainInstallRetry | custom_components/circuitsetup_energy_meter_helper/config_transaction.py:1943-1964 | an install stays open for confirmation, with rollback only on a handle that was not recovered and never attempted its upload |
| ConfigTransactions.ConfigTransaction.RetainWriteRecovery | custom_components/circuitsetup_energy_meter_helper/config_transaction.py:1397-1416 | a failed write stays open for recovery, or as an install retry once an upload was attempted, and offers a rollback only before any attempt |
| ConfigTransactions.ConfigTransaction.CheckSource | custom_components/circuitsetup_energy_meter_helper/config_transaction.py:1880-1889 | on a handle of any reachable state the check passes exactly if the file could be read, the handle has not been scrubbed, and the file is its proposal |
| ConfigTransactions.ConfigTransaction.ReleaseReservation | custom_components/circuitsetup_energy_meter_helper/config_transaction.py:450-470 | the claim is dropped exactly if the drained release succeeded, and never without a release in the log |
| ConfigTransactions.ConfigTransaction.SaveCheckpoint | custom_components/circuitsetup_energy_meter_helper/config_transaction.py:1914-1935 | after a save that succeeded, cancelled caller or not, the store holds the record of exactly this handle, with both its contents; otherwise it changes only if the save took effect |
| ConfigTransactions.ConfigTransaction.ClearCheckpoint | custom_components/circuitsetup_energy_meter_helper/config_transaction.py:632-637 | a record of another handle makes the removal fail and changes nothing at all |
| ConfigTransactions.ConfigTransaction.Rollback | custom_components/circuitsetup_energy_meter_helper/config_transaction.py:1997-2035 | entering the rollback: refused for recovered or attempted handles, skipping the restore once it was confirmed |
| ConfigTransactions.ConfigTransaction.ResumeRestore | custom_components/circuitsetup_energy_meter_helper/device_builder.py:418-448 | compare, write, re-read after a mismatch, validate and verify: each reply leads to the next call, a confirmed restore or a retained recovery |
| ConfigTransactions.ConfigTransaction.ResumeRolledBack | custom_components/circuitsetup_energy_meter_helper/config_transaction.py:2037-2060 | release of the reservation, removal of the record, and the end of the rollback |
| ConfigTransactions.ConfigTransaction.ResumePreparation | custom_components/circuitsetup_energy_meter_helper/config_transaction.py:1166-1240 | lock, revalidation and the no-change path of a confirmed write |
| ConfigTransactions.ConfigTransaction.ResumeWrite | custom_components/circuitsetup_energy_meter_helper/config_transaction.py:1244-1309 | compare, write, reconciliation of an uncertain write, and validation |
| ConfigTransactions.ConfigTransaction.ResumeReconciling | custom_components/circuitsetup_energy_meter_helper/config_transaction.py:1366-1395 | on a handle of any reachable state the read after an uncertain write closes the handle exactly if the original is still there, and starts the rollback exactly if its own, different proposal is there |
| ConfigTransactions.ConfigTransaction.ResumePreview | custom_components/circuitsetup_energy_meter_helper/config_transaction.py:1097-1113 | the release that a failed preview left behind ends the handle |
| ConfigTransactions.ConfigTransaction.ResumeCompile | custom_components/circuitsetup_energy_meter_helper/config_transaction.py:1424-1461 | source check, compilation, second check; rollback on cancellation |
| ConfigTransactions.ConfigTransaction.StartConfirmInstall | custom_components/circuitsetup_energy_meter_helper/config_transaction.py:1463-1500 | a confirmed install starts, verifies an acknowledged upload, or retries an unknown one |
| ConfigTransactions.ConfigTransaction.Dispatch | custom_components/circuitsetup_energy_meter_helper/config_transaction.py:1576-1583 | afterwards the attempted marker is set, rollback is off and the dispatch of this handle is in the log; all together, before any reply |
| ConfigTransactions.ConfigTransaction.ResumeRetry | custom_components/circuitsetup_energy_meter_helper/config_transaction.py:1463-1500 | a retry or a recovered install first proves that the file is still the proposal |
| ConfigTransactions.ConfigTransaction.ResumeInstall | custom_components/circuitsetup_energy_meter_helper/config_transaction.py:1501-1574 | revocation, source check, durable record, second source check, dispatch |
| ConfigTransactions.ConfigTransaction.ResumeUpload | custom_components/circuitsetup_energy_meter_helper/config_transaction.py:1584-1624 | the reply to the upload: unknown, rejected or acknowledged and made durable |
| ConfigTransactions.ConfigTransaction.ResumeVerify | custom_components/circuitsetup_energy_meter_helper/config_transaction.py:1626-1757 | reconnect verdict, persistence of the metadata, removal of the durable record |
| ConfigTransactions.ConfigTransaction.StartAbandon | custom_components/circuitsetup_energy_meter_helper/config_transaction.py:1119-1158 | only a preview or a retryable install can be abandoned |
| ConfigTransactions.ConfigTransaction.ResumeAbandon | custom_components/circuitsetup_energy_meter_helper/config_transaction.py:1140-1158 | release, source check and removal of the record before an abandoned handle closes |
| ConfigTransactions.ConfigTransaction.Expire | custom_components/circuitsetup_energy_meter_helper/config_transaction.py:2084-2145 | an idle handle past its deadline rolls an uncompiled write back, drains its reservation, or closes |
| ConfigTransactions.ConfigTransaction.StartCleanup | custom_components/circuitsetup_energy_meter_helper/config_transaction.py:2111-2122 | the queued recovery of an expired write obtains the operation lock |
| ConfigTransactions.ConfigTransaction.Serve | custom_components/circuitsetup_energy_meter_helper/config_transaction.py:1119-2164 | the loop over any sequence of requests, replies and deadlines keeps the invariant of this handle and its meter, keeps the invariant of every other handle of the meter, and computes the specification of that sequence |
| TransactionLaws.Advance | custom_components/circuitsetup_energy_meter_helper/config_transaction.py:2470-2472 | a marker that enters the progress list extends the canonical path by exactly one step, and one already there changes nothing |
| TransactionInstall.ServeGood | custom_components/circuitsetup_energy_meter_helper/config_transaction.py:1119-2164 | any sequence of requests, replies and deadlines keeps the invariant of one handle and its meter |
| TransactionSteps.ReconcilingDecides | custom_components/circuitsetup_energy_meter_helper/config_transaction.py:1366-1416 | after an uncertain write the handle closes exactly if the original is read, enters the rollback exactly if its own, different proposal is read, and stays open with a rollback on offer exactly if something else or nothing is read and the reader was not interrupted |
| TransactionSteps.PreviewGood | custom_components/circuitsetup_energy_meter_helper/config_transaction.py:1097-1113 | the leftover release of a failed preview keeps the invariant |
| TransactionFrame.ResumeFrame | custom_components/circuitsetup_energy_meter_helper/config_transaction.py:1160-2164 | a handle touches the file, the lock and the durable record only while it holds the meter, and adds only its own log entries |
| TransactionFrame.FitsStable | custom_components/circuitsetup_energy_meter_helper/config_transaction.py:2431-2434 | what another handle does within that discipline cannot break the invariant of a handle |
| TransactionFrame.ServeUnnoticed | custom_components/circuitsetup_energy_meter_helper/config_transaction.py:1119-2164 | whatever sequence of acts one handle serves, every other handle of the meter keeps its invariant |
| TransactionRuns.StepOk | custom_components/circuitsetup_energy_meter_helper/config_transaction.py:569-608 | every event of the system (requests, replies, deadlines, third-party edits, crashes, recoveries, new previews) keeps the invariant of all handles together |
| TransactionRuns.RunOk | custom_components/circuitsetup_energy_meter_helper/config_transaction.py:569-608 | every run from any initial file keeps it |
| Reconnect.VerifyUpload | custom_components/circuitsetup_energy_meter_helper/config_transaction.py:1635-1690 | at most k + ceil(T/5) attempts, k the doublings that bring the delay to its cap; verified exactly if the last verdict matches or the first clock reading was already too late; all earlier verdicts were retryable |
| Reconnect.ReconnectAfterRestart | custom_components/circuitsetup_energy_meter_helper/calibration_engine.py:482-505 | the same bound, and the outcome is that of the last attempt, exhausted only after the timeout |
| Reconnect.Steady | custom_components/circuitsetup_energy_meter_helper/config_transaction.py:1670-1674 | the least number of doublings that reaches the five second cap |
| Reconnect.Sleeps | custom_components/circuitsetup_energy_meter_helper/config_transaction.py:1670-1677 | sleeping the prescribed delay keeps the clock ahead of the attempt count |
| Reconnect.PacedBound | custom_components/circuitsetup_energy_meter_helper/config_transaction.py:1639-1677 | an allowed attempt has a number below the bound |
| ManagedBlocks.FindBlocks | custom_components/circuitsetup_energy_meter_helper/config_document.py:534-565 | the marker loop computes the pieces of a document, refusing nested, duplicate, unopened, mismatched and unterminated markers |
| ManagedBlocks.PiecesFlatten | custom_components/circuitsetup_energy_meter_helper/config_document.py:534-565 | parsing loses nothing: the pieces are sound, each block occurs once, and together they are the document |
| ManagedBlocks.FlattenPieces | custom_components/circuitsetup_energy_meter_helper/config_document.py:534-565 | parsing invents nothing: sound pieces written out are found again |
| BlockLaws.PositionFits | custom_components/circuitsetup_energy_meter_helper/config_blocks.py:174-191 | the insertion position lies in the sensor section and separates the blocks before the new one in canonical order from those after it |
| BlockLaws.LayoutInsert | custom_components/circuitsetup_energy_meter_helper/config_blocks.py:148-171 | an insertion keeps the canonical order inside the section |
| BlockRoundTrips.InsertParses | custom_components/circuitsetup_energy_meter_helper/config_blocks.py:55-71 | a successful insertion gives a document whose pieces are the old ones and the new block, in a section one piece longer |
| BlockRoundTrips.ReplaceTwice | custom_components/circuitsetup_energy_meter_helper/config_blocks.py:19-71 | replacing twice equals replacing once with the last body, exactly unless the first aggregates body starts with the end-of-file note and lands behind a final newline |
| BlockRoundTrips.RemovedDocument | custom_components/circuitsetup_energy_meter_helper/config_blocks.py:36-42 | a removal leaves a document |
| BlockHistories.RemoveUndoes | custom_components/circuitsetup_energy_meter_helper/config_blocks.py:29-71 | on every document where insertion succeeds, removing the new block gives back the original, missing final newline included, exactly unless the body starts with the end-of-file note and lands behind a final newline |
| BlockHistories.PutIsFound | custom_components/circuitsetup_energy_meter_helper/config_blocks.py:98-132 | re-parsing finds exactly the body written, at either item indent, and the file stays laid out |
| BlockHistories.ReplaceSets | custom_components/circuitsetup_energy_meter_helper/config_blocks.py:19-71 | one replacement on a newline-terminated file sets its own block and leaves all other text and blocks as they were |
| BlockHistories.EditsKeep | custom_components/circuitsetup_energy_meter_helper/config_blocks.py:135-191 | over any sequence of successful replacements the blocks stay in canonical order inside the section, the text outside them is the original text, and every block says what it was last told |
| BlockHistories.RemovalExact | custom_components/circuitsetup_energy_meter_helper/config_blocks.py:37-42 | a removal takes nothing but the block exactly unless the block ends the file, starts with the note and stands behind a line ending like the file |
| BlockLimits.OtherLineEnd | custom_components/circuitsetup_energy_meter_helper/config_blocks.py:37-40 | counterexample edits: two blocks put into a file without a final newline and removed in the same order leave a file that has one |
| Scalars.SingleQuoteEnd | custom_components/circuitsetup_energy_meter_helper/config_document.py:1176-1186 | the scan ends behind the first quote that is not doubled, and fails exactly if there is none |
| Scalars.DoubleQuoteEnd | custom_components/circuitsetup_energy_meter_helper/config_document.py:1188-1198 | the scan ends behind the first quote that no backslash escapes, and fails exactly if there is none |
| Scalars.DoubleUndoes | custom_components/circuitsetup_energy_meter_helper/config_document.py:1136-1139 | undoubling the quotes of a doubled text gives the text (section 7.3.2 of YAML 1.2.2) |
| Scalars.DecodeUndoesEncode | custom_components/circuitsetup_energy_meter_helper/config_mutator.py:2146-2151 | decoding an encoded JSON string gives the text for every text, with and without ASCII-only escapes, surrogate pairs included (section 7 of RFC 8259) |
| Scalars.EncodeEscaped | custom_components/circuitsetup_energy_meter_helper/config_mutator.py:2136-2139 | an encoded string has no unescaped quote, so that the scanner finds its end |
| ScalarRoundTrips.PlainEnd | custom_components/circuitsetup_energy_meter_helper/config_document.py:1147-1154 | the loop ends a plain scalar before a comment and before trailing spaces |
| ScalarRoundTrips.ReadBack | custom_components/circuitsetup_energy_meter_helper/config_mutator.py:2096-2155 | reading back what was written gives the requested value and the columns of its token, exactly unless a plain name ends with a space or its old comment was held off only by a tab |
| ScalarLimits.SpaceLost | custom_components/circuitsetup_energy_meter_helper/config_mutator.py:66 | counterexample: a plain name that ends with a space loses it |
| ScalarLimits.CommentSwallowed | custom_components/circuitsetup_energy_meter_helper/config_document.py:1147-1154 | counterexample: a plain name before a tab and a comment swallows the comment |
| ScalarLimits.ColonGlued | custom_components/circuitsetup_energy_meter_helper/config_document.py:1075-1086 | counterexample: a value behind a tab takes the tab along, and the key is no key any more |
| Splicing.Splice | custom_components/circuitsetup_energy_meter_helper/config_mutator.py:1135-1138 | right-to-left splicing of separate edits in any order is simultaneous replacement in file order |
| Splicing.SortedKeeps | custom_components/circuitsetup_energy_meter_helper/config_mutator.py:1136 | sorting separate edits puts them in ascending order and loses none |
| Splicing.WovenGaps | custom_components/circuitsetup_energy_meter_helper/config_mutator.py:1136-1138 | every replacement and every gap between edits is in the result, one behind the other |
| DocumentRows.RowsText | custom_components/circuitsetup_energy_meter_helper/config_document.py:209-217 | splitting a text into rows loses nothing |
| DocumentRows.TextRows | custom_components/circuitsetup_energy_meter_helper/config_document.py:209-217 | rows that end as lines do are found again |
| DocumentRows.SplicedRow | custom_components/circuitsetup_energy_meter_helper/config_document.py:1163-1173 | exchanging a span of a row at its offset in the text is exchanging it in the row |
| DocumentRows.SameKey | custom_components/circuitsetup_energy_meter_helper/config_document.py:1075-1086 | a row that is the same up to the space behind its colon keeps its key, plain or quoted |
| Substitutions.CollectMeans | custom_components/circuitsetup_energy_meter_helper/config_document.py:477-521 | every known key of the section is found in its row, and nowhere else |
| Substitutions.RewriteReads | custom_components/circuitsetup_energy_meter_helper/config_mutator.py:1110-1138 | after one rewrite the file reads as before but for the requested value, exactly if a space stood behind the colon and nothing spoils a plain text |
| SubstitutionEdits.EditsSeparate | custom_components/circuitsetup_energy_meter_helper/config_mutator.py:1110-1123 | the tokens of different keys never overlap |
| SubstitutionEdits.RewrittenText | custom_components/circuitsetup_energy_meter_helper/config_mutator.py:1135-1138 | the simultaneous replacement of all tokens is the text of the rewritten rows |
| SubstitutionEdits.RewrittenReads | custom_components/circuitsetup_energy_meter_helper/config_mutator.py:1135-1138 | the rewritten rows read as the old table with every changed value renewed |
| SubstitutionEdits.SplicedTells | custom_components/circuitsetup_energy_meter_helper/config_mutator.py:1110-1138 | after changes of known keys the file reads with exactly the requested values, each in its old row and column, and everything else as it was, if and only if each value comes back by itself |
| Substitutions.PatchedTells | custom_components/circuitsetup_energy_meter_helper/config_mutator.py:1110-1138 | the other half of the exact condition for one line: a line rewritten behind a colon without a space, or with a spoiled plain text, does not say the requested value at its key, whatever else it may say |
| SubstitutionInserts.NewBodyReads | custom_components/circuitsetup_energy_meter_helper/config_mutator.py:1126-1129 | a new line is read as its key, at the margin of the section |
| SubstitutionInserts.NewValueReads | custom_components/circuitsetup_energy_meter_helper/config_mutator.py:2107-2113 | the token of a new line says its value, from its first to its last column, exactly unless a plain name ends with a space, and then it says something else |
| SubstitutionInserts.InsideReads | custom_components/circuitsetup_energy_meter_helper/config_mutator.py:1124-1134 | new lines at the end of the section read as the old table with the new keys added |
| SubstitutionInserts.OutsideReads | custom_components/circuitsetup_energy_meter_helper/config_mutator.py:2074-2083 | new lines behind the section change nothing that is read |
| SubstitutionLimits.QuotedKeyUnread | custom_components/circuitsetup_energy_meter_helper/config_mutator.py:59 | counterexample for every new key: a file whose section ends at a quoted root key, the file after the insertion, and the reader that finds nothing of it |
| SubstitutionChanges.InsertTells | custom_components/circuitsetup_energy_meter_helper/config_mutator.py:1095-1138 | with new lines inserted the file reads with exactly the requested values and the rest as it was, if and only if each value comes back by itself and the row behind the section is not a root key the helper fails to see |
| SubstitutionChanges.ApplyChanges | custom_components/circuitsetup_energy_meter_helper/config_mutator.py:1095-1138 | the method exchanges the values of known keys, inserts lines for the missing ones in front of the next root key, and is refused exactly if keys are missing and not exactly one line heads the section; the text is the simultaneous splice, and it reads with exactly the requested values and everything else as it was if and only if each comes back by itself and the new lines land in the section |
| CalibratedOffsets.NumeralReads | custom_components/circuitsetup_energy_meter_helper/config_mutator.py:1311-1313 | a rendered number is read back, sign included |
| CalibratedOffsets.ReadEntries | custom_components/circuitsetup_energy_meter_helper/config_mutator.py:1288-1377 | the nested loops over owners, phases and values compute the reader that the laws are about |
| OffsetMerges.ReadUndoesRender | custom_components/circuitsetup_energy_meter_helper/config_mutator.py:1380-1404 | reading what was rendered gives the same tables for every map of tables, exactly if every number fits 16 bits |
| OffsetMerges.EntryReads | custom_components/circuitsetup_energy_meter_helper/config_mutator.py:1314-1376 | the same for one chip, with anything behind it |
| OffsetMerges.RenderedFlags | custom_components/circuitsetup_energy_meter_helper/config_mutator.py:1247-1256 | rendered flags are found again, exactly for the chips that have tables |
| OffsetHistories.ReadMeans | custom_components/circuitsetup_energy_meter_helper/config_mutator.py:1314-1376 | whatever is read is of known chips, has at least one stage and fits 16 bits, and every owner line has an entry |
| OffsetHistories.Apply | custom_components/circuitsetup_energy_meter_helper/config_mutator.py:1229-1285 | the two loops over the requested tables compute the merge |
| OffsetHistories.AppliedMeans | custom_components/circuitsetup_energy_meter_helper/config_mutator.py:1229-1285 | an application to any readable block succeeds, and the new block says the merged tables and flags |
| OffsetHistories.ApplicationsMerge | custom_components/circuitsetup_energy_meter_helper/config_mutator.py:1229-1285 | any sequence of applications leaves per chip and stage the last table written, or the one that was there, and so for every flag |
| LogRing.RingIsUnique | custom_components/circuitsetup_energy_meter_helper/esphome_api.py:922-944 | the longest suffix within both limits is unique |
| LogRing.RingAdvances | custom_components/circuitsetup_energy_meter_helper/esphome_api.py:922-944 | a later window of the same history does not reach further back |
| LogRing.LogLines.OnLog | custom_components/circuitsetup_energy_meter_helper/esphome_api.py:922-944 | after any message the ring is the longest suffix of all accepted lines within the line and byte limits |
| LogRing.Clip | custom_components/circuitsetup_energy_meter_helper/esphome_api.py:935-936 | a line is cut to the longest prefix whose encoding fits |
| LogCapture.Additions | custom_components/circuitsetup_energy_meter_helper/calibration_engine.py:1128-1141 | one poll adds what follows the old window or the only overlap with it |
| LogCapture.PollExact | custom_components/circuitsetup_energy_meter_helper/calibration_engine.py:1128-1141 | without repeated lines a poll adds exactly the new lines while one old line is still shown, and is refused as soon as none is |
| LogCapture.PollWrong | custom_components/circuitsetup_energy_meter_helper/calibration_engine.py:1131-1141 | for every history and any two windows, a poll adds wrong lines exactly in these cases: it started from nothing and a line was dropped unseen; the ring moved on and shows the old window at its front again; or every old line was evicted and the new window starts with the old one or overlaps it in one way only |
| LogCapture.EvictedLinesLost | custom_components/circuitsetup_energy_meter_helper/calibration_engine.py:1134-1141 | counterexample: every old line was evicted, one line came again, and two of three new lines are lost |
| LogCapture.RepeatedLineLost | custom_components/circuitsetup_energy_meter_helper/calibration_engine.py:1131 | counterexample: equal lines in a full ring hide a new one |
| LogCapture.EmptyStart | custom_components/circuitsetup_energy_meter_helper/calibration_engine.py:1131 | from an empty window a poll is exact exactly if nothing was dropped |
| LogCapture.Take | custom_components/circuitsetup_energy_meter_helper/calibration_engine.py:1143-1151 | lines are taken in one by one, refused exactly if the total exceeds the limits |
| LogCapture.Capture | custom_components/circuitsetup_energy_meter_helper/calibration_engine.py:1117-1155 | the loop over all windows returns all additions, or refuses |
| LogCapture.CaptureExact | custom_components/circuitsetup_energy_meter_helper/calibration_engine.py:1117-1155 | without repeated lines and from a non-empty window the captured lines are exactly those logged since, in order, and losing every old line between two polls is always noticed |
| LogCapture.RingPolls | custom_components/circuitsetup_energy_meter_helper/esphome_api.py:922-944 | the windows of the bounded ring are windows of the kind that the capture theorem asks for |
| LogCapture.RingCaptureExact | custom_components/circuitsetup_energy_meter_helper/calibration_engine.py:1117-1155 | from the log to the capture: polled after each message and without repeated lines, what is captured from a ring that shows something is every line the ring took in since, in order, and continuity is lost exactly if some message alone flooded the ring |
| LogCapture.Watch | custom_components/circuitsetup_energy_meter_helper/calibration_engine.py:1117-1155 | the loop that feeds the ring and captures its windows returns exactly the lines taken in, or is refused exactly if a message flooded the ring or the lines exceed the limits |
| LogCapture.NewLogLines | custom_components/circuitsetup_energy_meter_helper/calibration_engine.py:2451-2457 | the countdown finds the longest overlap |
| LogCapture.NewLinesExact | custom_components/circuitsetup_energy_meter_helper/calibration_engine.py:2451-2457 | it gives the lines since the baseline exactly if the ring still reaches back to them |
| OffsetRun.Locate | custom_components/circuitsetup_energy_meter_helper/log_parser.py:605-837 | the places of a run are found exactly if the lines are a run |
| OffsetRun.Parse | custom_components/circuitsetup_energy_meter_helper/log_parser.py:605-837 | accepted exactly if the lines are a run of the grammar: one button, then header, columns, rows A, B, C, save and end in order, each once, all of the target, in 16 bits; the table is that of the run |
| OffsetRun.TableUnique | custom_components/circuitsetup_energy_meter_helper/log_parser.py:605-837 | a run has one table |
| OffsetRun.EmissionRuns | custom_components/circuitsetup_energy_meter_helper/log_parser.py:735-837 | what firmware emits, with any neutral lines in between, parses back to its own table |
| OffsetRun.IntrusionRefused | custom_components/circuitsetup_energy_meter_helper/log_parser.py:671-764 | a foreign-instance, other-category, second-button or second-terminal line anywhere behind the button makes a run refused |
| GainRun.FindWindow | custom_components/circuitsetup_energy_meter_helper/log_parser.py:385-417 | the operation window is found exactly if there is one, and it is unique |
| GainRun.Scan | custom_components/circuitsetup_energy_meter_helper/log_parser.py:437-490 | the loop behind the header collects what the fold collects |
| GainRun.CountOne | custom_components/circuitsetup_energy_meter_helper/log_parser.py:493-507 | a count of one is one line and no other |
| GainRun.FoldRows | custom_components/circuitsetup_energy_meter_helper/log_parser.py:442-474 | the scan refuses exactly the tables with late, repeated or non-finite rows |
| GainRun.FoldCounts | custom_components/circuitsetup_energy_meter_helper/log_parser.py:475-490 | the collected reports count the lines of their kinds |
| GainRun.Parse | custom_components/circuitsetup_energy_meter_helper/log_parser.py:172-177 | an outcome may be applied at once exactly if the log holds an acceptable run: rows A, B and C before any result, exactly one successful save, no failure or rollback, no mismatch, no disabled notice, nothing foreign in the window |
| EntityBinding.SelectUnique | custom_components/circuitsetup_energy_meter_helper/entity_binding.py:409-426 | a single candidate is the only entity that answers, and the other way round |
| EntityBinding.ResolveKeeps | custom_components/circuitsetup_energy_meter_helper/entity_binding.py:376-433 | a stored object ID is kept exactly if it names one unused entity of the kind and unit of its role |
| EntityBinding.ResolveSound | custom_components/circuitsetup_energy_meter_helper/entity_binding.py:376-433 | a resolved role has an unused entity of the right kind and unit |
| EntityBinding.RolesDistinct | custom_components/circuitsetup_energy_meter_helper/entity_binding.py:485-589 | no role of any meter is asked for twice |
| EntityBinding.BindInjective | custom_components/circuitsetup_energy_meter_helper/entity_binding.py:485-611 | a successful binding serves every group role in order, each with its own entity |
| EntityBinding.OptionalInjective | custom_components/circuitsetup_energy_meter_helper/entity_binding.py:435-483 | optional controls share no entity with each other or with a group role |
| EntityBinding.BindMeter | custom_components/circuitsetup_energy_meter_helper/entity_binding.py:485-611 | the nested loops over boards, groups and roles compute that binding |
| EntityBinding.MappingMeans | custom_components/circuitsetup_energy_meter_helper/entity_binding.py:201-203 | the remembered mapping gives every bound role its object ID |
| EntityBinding.RebindStable | custom_components/circuitsetup_energy_meter_helper/entity_binding.py:376-433 | with any fresh catalog every role keeps its stored object ID exactly if each ID names one entity of its kind and unit and no two roles of one kind and unit share it |
| EntityBinding.RebindMeter | custom_components/circuitsetup_energy_meter_helper/entity_binding.py:211-224 | rebinding a whole meter keeps every object ID under exactly that condition, whatever the new keys, names and substitutions |

## Left out

- Offset preparation and finalization: the two transaction purposes that depend on the separate offset recovery store; the other two purposes, install and calibration, are modelled.
- Digests: file contents are identified with their SHA-256 digests, and time is a non-decreasing real.
- Late writes: a request takes effect before its reply, its cancellation or the crash, or never; a cancelled write that lands after the reconciling read, or a write that lands after a crash, is not modelled.
- Operations of callers while the release of an expired reservation drains, unloading of the integration, version 1 checkpoints, and subscribers.
- Recovery: the check for an active handle and the reading of the durable record are one event, and a recovery waits while any handle of the meter is open.
- Metadata contents: what is persisted about a meter, the diff and its redaction, the caps on displayed status and the percentage of an upload are not modelled.
- Compare-and-write: a read and a later write, with a mark in the log for the edits seen in between; the server's own atomicity is not part of this model.
- The YAML lexer of the document parser (block scalars, explicit keys, flow collections, unsafe decorations): a document that it refuses is outside the theorems, and rows inside block scalars are not told apart.
- Carriage returns alone and the rarer Unicode line ends in managed blocks: lines end with a line feed, with both, or not at all; in substitutions every line end of the parser is modelled.
- Managed block bodies: lines that would become root keys when they are moved to the margin, and root keys inside a block, are refused; the item indent is a parameter.
- BlockHistories.EditsKeep: the bodies do not start with the helper's own end-of-file note, which no renderer of the helper writes, and the file has its final newline; `RemovalExact` gives the exact effect of the note.
- SubstitutionChanges.ApplyChanges: which quote prevails in the file is a parameter; the check of local gain overrides and the review diff are left out; keys are of ASCII letters, digits and underscores, and a value has one change. If a value holds a line break, or the line that heads the section for the helper is not the one the reader takes, the resulting text is stated but not what it reads as.
- ScalarRoundTrips.ReadBack: gains and flags are alphanumeric, as the callers make them.
- OffsetHistories.Apply: the refusals because of local offset overrides and the creation of a missing sensor section are left out; chips are numbered in the order of their names, and a number written with digits outside ASCII is refused.
- LogRing.LogLines.OnLog: sanitizing a message and deciding whether a line is about calibration are parameters.
- OffsetRun.Parse, GainRun.Parse: lines come classified; the regular expressions that classify them, the selection of lines by time and generation, and the guidance lines dropped before are left out.
- EntityBinding.BindMeter: the names, alternate names and pattern words of a role, which come from substitutions, are parameters (a missing substitution refuses the binding before any role is resolved), and so is the word match; the classification of offset capabilities and the construction of the catalog are left out.
- Reconnect.VerifyUpload: what the verifier compares after a reconnect is a parameter; a cancellation of the loop is part of the transaction model.
- Phase overrides, package lists, status overrides, reporting multipliers and gain rounding: many branches, no further law.
- The web socket transport, the panel, the configuration flow and the firmware index: input and output.
