/** Which steps change the durable record, and how the record of one install goes to another. */
module TransactionRecords {
  import opened Common
  import opened TransactionModel
  import opened TransactionLaws
  import opened TransactionSteps
  import opened TransactionInstall
  import opened TransactionFrame
  import opened TransactionRuns
  import opened TransactionTheorems
  import opened TransactionLimits

  // ----------------------------------------------------------------- one step

  /** Awaiting the save of the own record. */
  predicate Saving(p: Pending) { p.SavingCheckpoint? || p.SavingUploaded? }

  /** Awaiting the removal of the own record. */
  predicate Removing(p: Pending) {
    p.ClearingRolledBack? || p.ClearingCancelled? || p.ClearingRejected? || p.ClearingDone? || p.AbandonClear?
  }

  /** These removals are carried through under a cancelled caller. */
  predicate Draining(p: Pending) { p.ClearingCancelled? || p.ClearingRejected? || p.ClearingDone? }

  /** The awaited save takes effect. */
  predicate SaveTakes(t: Txn, r: Reply) { Saving(t.pending) && (Drained(r) || r.applied) }

  /** The awaited removal takes effect. */
  predicate RemovalTakes(c: Cfg, r: Reply) {
    Removing(c.t.pending) && ClearAllowed(c) && (Clears(c, r, Draining(c.t.pending)) || r.applied)
  }

  /** A reply makes this of the stored record. */
  predicate Stored(c: Cfg, r: Reply, after: Option<Checkpoint>) {
    var t := c.t;
    if SaveTakes(t, r) then after == Some(Checkpoint(t.id, t.pending.SavingUploaded?, t.source, t.proposed, t.purpose))
    else if RemovalTakes(c, r) then after == None
    else after == c.w.checkpoint
  }

  lemma QuietRetains(c: Cfg, code: Evidence)
    ensures Retain(c).w == c.w && RetainWith(c, code).w == c.w && Retry(c, code).w == c.w
  {}

  lemma QuietEnds(c: Cfg, state: State, code: Evidence)
    ensures FinishWith(c, state, code).w.checkpoint == c.w.checkpoint
    ensures Finish(c, state).w.checkpoint == c.w.checkpoint
  {}

  lemma QuietCheck(c: Cfg)
    ensures CheckFailed(c).w.checkpoint == c.w.checkpoint && AfterAbandon(c).w.checkpoint == c.w.checkpoint
    ensures AfterRevalidation(c).w == c.w && AfterRelease(c).w.checkpoint == c.w.checkpoint
  {
    QuietRetains(c, SourceChanged);
    QuietEnds(c, Failed, SourceChanged);
    QuietEnds(c, Failed, Cancelled);
    QuietEnds(c, RolledBack, Cancelled);
    hide Retain, RetainWith, FinishWith, Finish;
  }

  lemma QuietRollback(c: Cfg, evidence: seq<Evidence>)
    ensures BeginRollback(c, evidence).w.checkpoint == c.w.checkpoint && AfterRestore(c).w.checkpoint == c.w.checkpoint
  {
    QuietCheck(c.(t := c.t.(writeStarted := No)));
    var d := c.(t := c.t.(rollbackAvailable := No, evidence := evidence));
    QuietCheck(d.(t := d.t.(writeStarted := No)));
    hide AfterRelease, Record;
  }

  lemma QuietPreparation(c: Cfg, r: Reply)
    requires PartOf(c.t.pending).Preparation?
    ensures ResumePreparation(c, r).w.checkpoint == c.w.checkpoint
  {
    hide Record, Plus, Mark, CheckPasses;
    match c.t.pending
    case Claiming => case Acquiring => case Revalidating => case ReleasingStale(_) =>
    case UnchangedCheck => case UnchangedSave => case _ =>
  }

  lemma QuietWrite(c: Cfg, r: Reply)
    requires PartOf(c.t.pending).Write?
    ensures ResumeWrite(c, r).w.checkpoint == c.w.checkpoint
  {
    QuietRetains(c, SourceChanged);
    QuietRollback(c, c.t.evidence);
    QuietRollback(c, Plus(c.t.evidence, if r.kind.Refused? then ValidationFailed else ValidationUnavailable));
    hide Record, Plus, Mark, BeginRollback, Retain;
    match c.t.pending
    case Comparing => case Writing(_) => case Reconciling => case Validating => case _ =>
  }

  lemma QuietRestore(c: Cfg, r: Reply)
    requires PartOf(c.t.pending).Restoring?
    ensures ResumeRestore(c, r).w.checkpoint == c.w.checkpoint
  {
    hide Record, Plus, Mark, Attempted, RetainWriteRecovery;
    var d := Cfg(c.t.(progress := Mark(c.t.progress, ConfigRestored)), Note(c.w, RestoreConfirmed(c.t.id)));
    QuietRollback(d, d.t.evidence);
    hide AfterRestore;
    match c.t.pending
    case RestoreComparing => case RestoreWriting(_) => case RestoreRereading =>
    case RestoreValidating => case RestoreVerifying => case _ =>
  }

  lemma StoredRolledBack(c: Cfg, r: Reply)
    requires PartOf(c.t.pending).RolledBackPart?
    ensures Stored(c, r, ResumeRolledBack(c, r).w.checkpoint)
  {
    hide Record, Plus, Attempted, RetainWriteRecovery;
    match c.t.pending
    case ReleasingRestored => QuietCheck(AfterReleaseCall(c, r));
    case ClearingRolledBack =>
    case _ =>
  }

  lemma QuietCompile(c: Cfg, r: Reply)
    requires PartOf(c.t.pending).Compilation?
    ensures ResumeCompile(c, r).w.checkpoint == c.w.checkpoint
  {
    QuietCheck(c);
    QuietRollback(c, Plus(c.t.evidence, ValidationUnavailable));
    hide Record, Plus, Mark, BeginRollback, CheckFailed, CheckPasses;
    match c.t.pending
    case CompileCheck => case Compiling => case CompiledCheck => case _ =>
  }

  lemma QuietRetry(c: Cfg, r: Reply)
    requires PartOf(c.t.pending).Retrying?
    ensures ResumeRetry(c, r).w.checkpoint == c.w.checkpoint
  {
    QuietCheck(c);
    hide Record, Plus, Mark, Without, CheckFailed, CheckPasses;
    match c.t.pending
    case RecoveredRead => case RetryCheck => case _ =>
  }

  lemma StoredInstall(c: Cfg, r: Reply)
    requires PartOf(c.t.pending).Install?
    ensures Stored(c, r, ResumeInstall(c, r).w.checkpoint)
  {
    QuietCheck(c);
    hide Record, Plus, Mark, Without, CheckFailed, CheckPasses;
    match c.t.pending
    case CheckingVerified => case Revoking => case InstallCheck => case SavingCheckpoint =>
    case ClearingCancelled => case DispatchCheck => case _ =>
  }

  lemma StoredUpload(c: Cfg, r: Reply)
    requires PartOf(c.t.pending).Upload?
    ensures Stored(c, r, ResumeUpload(c, r).w.checkpoint)
  {
    hide Record, Plus, Mark;
    match c.t.pending
    case Uploading => case SavingUploaded => case ClearingRejected(_) => case _ =>
  }

  lemma StoredVerify(c: Cfg, r: Reply)
    requires PartOf(c.t.pending).Verification?
    ensures Stored(c, r, ResumeVerify(c, r).w.checkpoint)
  {
    QuietCheck(c);
    hide Record, Plus, Mark, CheckFailed, CheckPasses;
    match c.t.pending
    case Verifying => case PersistCheck => case Persisting => case ClearingDone => case _ =>
  }

  lemma StoredAbandon(c: Cfg, r: Reply)
    requires PartOf(c.t.pending).Abandoning?
    ensures Stored(c, r, ResumeAbandon(c, r).w.checkpoint)
  {
    QuietCheck(c);
    QuietCheck(AfterReleaseCall(c, r));
    hide Record, Plus, Attempted, CheckFailed, AfterAbandon, CheckPasses;
    match c.t.pending
    case AbandonRelease => case AbandonCheck => case AbandonClear => case ExpiryReleasing => case _ =>
  }

  /** The stored record after a reply. */
  lemma ResumeStores(c: Cfg, r: Reply)
    ensures Stored(c, r, Resume(c, r).w.checkpoint)
  {
    hide ResumePreparation, ResumeWrite, ResumeRestore, ResumeRolledBack, ResumeCompile, ResumeRetry, ResumeInstall,
      ResumeUpload, ResumeVerify, ResumeAbandon, Clears, Drained;
    match PartOf(c.t.pending)
    case Preparation => QuietPreparation(c, r);
    case Write => QuietWrite(c, r);
    case Restoring => QuietRestore(c, r);
    case RolledBackPart => StoredRolledBack(c, r);
    case Compilation => QuietCompile(c, r);
    case Retrying => QuietRetry(c, r);
    case Install => StoredInstall(c, r);
    case Upload => StoredUpload(c, r);
    case Verification => StoredVerify(c, r);
    case Abandoning => StoredAbandon(c, r);
    case NoPart =>
  }

  /** Requests, deadlines and cleanups leave the record alone. */
  lemma QuietActs(c: Cfg, op: Operation)
    ensures Start(c, op).w.checkpoint == c.w.checkpoint && Expire(c).w.checkpoint == c.w.checkpoint
    ensures StartCleanup(c).w.checkpoint == c.w.checkpoint
  {
    QuietRollback(c, c.t.evidence);
    QuietRollback(c.(t := c.t.(cleanupQueued := No)), c.t.evidence);
    QuietCheck(c);
    hide BeginRollback, AfterAbandon, Attempted;
  }

  lemma QuietPreview(c: Cfg, r: Reply)
    ensures ResumePreview(c, r).w.checkpoint == c.w.checkpoint
  {
    hide Record;
  }

  /** The reply that an event brings to a handle. */
  predicate Replies(s: Sys, e: Event) { e.Return? && e.id in s.txs }

  lemma OtherEvents(s: Sys, e: Event)
    requires !Replies(s, e)
    ensures Step(s, e).w.checkpoint == s.w.checkpoint
  {
    hide Record, Start, Resume, ResumePreview, Expire, StartCleanup, Restore, Open;
    match e
    case Call(id, op) => if id in s.txs { QuietActs(At(s, id), op); }
    case PreviewReturn(id, r) => if id in s.txs { QuietPreview(At(s, id), r); }
    case Expiry(id) => if id in s.txs { QuietActs(At(s, id), Abandon); }
    case Cleanup(id) => if id in s.txs { QuietActs(At(s, id), Abandon); }
    case RecoverReturn(task, r) => if task in s.recoveries {}
    case _ =>
  }

  lemma OwnRemoval(c: Cfg, r: Reply)
    ensures c.w.checkpoint.Some? && RemovalTakes(c, r) ==> c.w.checkpoint.value.id == c.t.id
    ensures !(SaveTakes(c.t, r) && RemovalTakes(c, r))
  {}

  /** An event displaces the stored record of an install exactly if it brings the reply of a
      save that took effect to another handle; it removes the record exactly if it brings the
      reply of a removal that took effect to the install's own handle. Crashes, deadlines,
      recoveries, third parties and new previews leave it alone. */
  lemma RecordDisplaced(s: Sys, e: Event)
    requires Reachable(s) && s.w.checkpoint.Some?
    ensures var was, now := s.w.checkpoint.value.id, Step(s, e).w.checkpoint;
            && (now.Some? && now.value.id != was <==> Replies(s, e) && e.id != was && SaveTakes(s.txs[e.id], e.r))
            && (now.None? <==> Replies(s, e) && e.id == was && RemovalTakes(At(s, e.id), e.r))
  {
    hide Reachable, Resume, Fits, SysOk, SaveTakes, RemovalTakes, Start, ResumePreview, Expire, StartCleanup,
      StepRecovery, Previewable, Recoverable;
    if Replies(s, e) {
      HandleFits(s, e.id);
      ResumeStores(At(s, e.id), e.r);
      OwnRemoval(At(s, e.id), e.r);
    } else {
      OtherEvents(s, e);
    }
  }

  // ------------------------------------------------------- a record that is displaced

  /** An install was dispatched, its record is stored, and the process crashes. */
  lemma DispatchedCrash() returns (s0: Sys, s: Sys)
    ensures Reachable(s0) && Reachable(s) && 7 in s0.w.history.dispatched && s0.w.checkpoint == Some(SAVED)
    ensures s.txs == map[] && s.recoveries == map[] && s.w.remote == Text(2) && s.w.lock == None
    ensures s.w.checkpoint == Some(SAVED) && s.w.history.ids == {7} && Log(s) == Log(s0) + [Crashed]
  {
    hide Reachable, Lawful;
    s0 := CalibrationUploads();
    s := Moves(s0, Crash);
  }

  lemma SecondWrites() returns (s0: Sys, s: Sys)
    ensures Reachable(s0) && Reachable(s) && 7 in s0.w.history.dispatched && s0.w.checkpoint == Some(SAVED)
    ensures s.txs.Keys == {8} && s.recoveries == map[] && s.w.remote == Text(2) && s.w.lock == Some(Handle(8))
    ensures s.txs[8] == Txn(8, InstallConfiguration, Text(2), Text(3), Some(Text(3)), Some(Text(2)), WriteConfirmed,
              [], [], No, Yes, No, Yes, No, No, No, No, No, Writing(s.w.history.edits), No, No, No)
    ensures s.w.checkpoint == Some(SAVED) && Log(s) == Log(s0) + [Crashed, Opened(8, Text(2), Text(3))]
  {
    hide Reachable, Lawful;
    s0, s := DispatchedCrash();
    s := Moves(s, Preview(8, Text(2), Text(3), InstallConfiguration));
    s := Moves(s, Call(8, ConfirmWrite));
    s := Moves(s, Return(8, OK));
    assert s.txs[8].pending.Comparing?;
    s := Moves(s, Return(8, OK));
  }

  /** What the second handle has done so far. */
  function Since(s0: Sys, since: nat): seq<Effect> {
    Log(s0) + [Crashed, Opened(8, Text(2), Text(3)), Wrote(8, Text(2), Text(2), Text(3), since), ConfigValid(8)]
  }

  lemma SecondValidates() returns (s0: Sys, s: Sys, since: nat)
    ensures Reachable(s0) && Reachable(s) && 7 in s0.w.history.dispatched && s0.w.checkpoint == Some(SAVED)
    ensures s.txs.Keys == {8} && s.recoveries == map[] && s.w.remote == Text(3) && s.w.lock == Some(Handle(8))
    ensures s.txs[8] == Txn(8, InstallConfiguration, Text(2), Text(3), Some(Text(3)), Some(Text(2)), Validated,
              [ConfigWritten, ConfigValidated], [], No, Yes, No, Yes, No, No, No, No, No, Ready, No, No, No)
    ensures s.w.checkpoint == Some(SAVED) && Log(s) == Since(s0, since)
  {
    hide Reachable, Lawful;
    s0, s := SecondWrites();
    since := s.w.history.edits;
    s := Moves(s, Return(8, OK));
    assert s.txs[8].pending.Validating?;
    s := Moves(s, Return(8, OK));
  }

  lemma SecondBuilds() returns (s0: Sys, s: Sys, since: nat)
    ensures Reachable(s0) && Reachable(s) && 7 in s0.w.history.dispatched && s0.w.checkpoint == Some(SAVED)
    ensures s.txs.Keys == {8} && s.recoveries == map[] && s.w.remote == Text(3) && s.w.lock == Some(Handle(8))
    ensures s.txs[8] == Txn(8, InstallConfiguration, Text(2), Text(3), Some(Text(3)), Some(Text(2)),
              InstallConfirmationRequired, BUILT, [], No, Yes, No, Yes, No, No, No, No, No, Ready, No, No, No)
    ensures s.w.checkpoint == Some(SAVED) && Log(s) == Since(s0, since) + [FirmwareBuilt(8)]
  {
    hide Reachable, Lawful, Since;
    s0, s, since := SecondValidates();
    s := Moves(s, Call(8, Compile));
    s := Moves(s, Return(8, OK));
    s := Moves(s, Return(8, OK));
    assert s.txs[8].pending.CompiledCheck?;
    s := Moves(s, Return(8, OK));
  }

  lemma SecondRevokes() returns (s0: Sys, s: Sys, since: nat)
    ensures Reachable(s0) && Reachable(s) && 7 in s0.w.history.dispatched && s0.w.checkpoint == Some(SAVED)
    ensures s.txs.Keys == {8} && s.recoveries == map[] && s.w.remote == Text(3) && s.w.lock == Some(Handle(8))
    ensures s.txs[8] == Txn(8, InstallConfiguration, Text(2), Text(3), Some(Text(3)), Some(Text(2)),
              InstallConfirmationRequired, BUILT, [], No, Yes, No, Yes, No, No, No, No, No, InstallCheck, No, No, No)
    ensures s.w.checkpoint == Some(SAVED) && Log(s) == Since(s0, since) + [FirmwareBuilt(8), Revoked(8)]
  {
    hide Reachable, Lawful, Since;
    s0, s, since := SecondBuilds();
    s := Moves(s, Call(8, ConfirmInstall));
    assert s.txs[8].pending.Revoking?;
    s := Moves(s, Return(8, OK));
  }

  lemma SecondSaves() returns (s0: Sys, s: Sys, since: nat)
    ensures Reachable(s0) && Reachable(s) && 7 in s0.w.history.dispatched && s0.w.checkpoint == Some(SAVED)
    ensures s.w.checkpoint == Some(Checkpoint(8, false, Text(2), Text(3), InstallConfiguration))
    ensures Log(s) == Since(s0, since) + [FirmwareBuilt(8), Revoked(8), Saved(8, false)]
  {
    hide Reachable, Lawful, Since;
    s0, s, since := SecondRevokes();
    s := Moves(s, Return(8, OK));
    assert s.txs[8].pending.SavingCheckpoint?;
    s := Moves(s, Return(8, OK));
  }

  lemma LoggedDispatch(s: Sys, id: Id)
    requires Reachable(s) && id in s.w.history.dispatched
    ensures exists i :: 0 <= i < |Log(s)| && Log(s)[i].Dispatched? && Log(s)[i].id == id
  {
    hide Reachable, Replay, WorldOk, Handles, Owned, Standing, LockOk, RecoveriesOk;
    ReachableOk(s);
    ReplayMeans(Log(s));
  }

  /** The record of a dispatched install is stored when the process crashes. Before anything is
      recovered another install is confirmed, and its record takes the place of the first,
      although no removal was asked for. */
  lemma RecordTaken() returns (s0: Sys, s: Sys)
    ensures Reachable(s0) && Reachable(s) && Log(s0) <= Log(s)
    ensures (exists i :: 0 <= i < |Log(s0)| && Log(s0)[i].Dispatched? && Log(s0)[i].id == 7)
    ensures RecordStored(Log(s0), 7) && !RecordStored(Log(s), 7) && RecordStored(Log(s), 8)
    ensures forall k :: |Log(s0)| <= k < |Log(s)| ==> !Log(s)[k].Cleared? && !Log(s)[k].ClearedSilently?
  {
    hide Reachable, Lawful, RecordStored, Replay;
    var since;
    s0, s, since := SecondSaves();
    LoggedDispatch(s0, 7);
    StoredDurable(s0, 7);
    StoredDurable(s, 7);
    StoredDurable(s, 8);
    StoredCheckpoint(s0);
    StoredCheckpoint(s);
  }
}
