/** What the protocol does not guarantee, each with a run that shows it. */
module TransactionLimits {
  import opened Common
  import opened TransactionModel
  import opened TransactionLaws
  import opened TransactionSteps
  import opened TransactionInstall
  import opened TransactionFrame
  import opened TransactionRuns
  import opened TransactionTheorems

  lemma Begins(remote: Yaml)
    ensures Reachable(Initial(remote))
  {
    assert Initial(remote) == Run(remote, []);
  }

  lemma Goes(s: Sys, e: Event)
    requires Reachable(s)
    ensures Reachable(Step(s, e))
  {
    hide Step;
    var remote, events :| s == Run(remote, events);
    assert (events + [e])[..|events + [e]| - 1] == events;
    assert Run(remote, events + [e]) == Step(s, e);
  }

  const BUILT := [ConfigWritten, ConfigValidated, FirmwareCompiled]
  const SAVED := Checkpoint(7, false, Text(1), Text(2), SaveCalibration)

  const OK := Reply(Kind.Ok, true, Cancelled)
  const LOST := Reply(Raised, true, Cancelled)
  const LATE := Reply(OkCancelled, true, Cancelled)
  const UNREAD := Reply(Raised, false, Cancelled)
  const NO := Reply(Refused, false, Cancelled)

  lemma Moves(s: Sys, e: Event) returns (s': Sys)
    requires Reachable(s)
    ensures Reachable(s') && s' == Step(s, e)
  {
    Goes(s, e);
    s' := Step(s, e);
  }

  lemma InstallWrites() returns (s: Sys)
    ensures Reachable(s) && s.txs.Keys == {7} && s.recoveries == map[] && s.w.remote == Text(1)
        && s.w.checkpoint == None && s.w.history.edits == 0
    ensures s.txs[7] == Txn(7, InstallConfiguration, Text(1), Text(2), Some(Text(2)), Some(Text(1)), WriteConfirmed, [],
              [], No, Yes, No, Yes, No, No, No, No, No, Writing(0), No, No, No)
  {
    hide Reachable, Lawful;
    s := Initial(Text(1));
    Begins(Text(1));
    s := Moves(s, Preview(7, Text(1), Text(2), InstallConfiguration));
    s := Moves(s, Call(7, ConfirmWrite));
    s := Moves(s, Return(7, OK));
    assert s.txs[7].pending.Comparing?;
    s := Moves(s, Return(7, OK));
  }

  /** A third-party edit that falls between the compare and the write is lost. */
  lemma EditOverwritten() returns (s: Sys)
    ensures Reachable(s) && |Log(s)| > 0
    ensures var e := Log(s)[|Log(s)| - 1];
        e.Wrote? && e.found == Text(9) && e.expected == Text(1) && s.w.remote == Text(2)
  {
    hide Reachable, Lawful;
    s := InstallWrites();
    s := Moves(s, ForeignEdit(Text(9)));
    s := Moves(s, Return(7, OK));
  }

  /** A crash after the write and before the durable record leaves the proposal in the file,
      with no handle and no record to recover one from. */
  lemma CrashForgetsWrite() returns (s: Sys)
    ensures Reachable(s) && s.w.remote == Text(2) && s.w.history.standing == Some(7)
    ensures s.txs == map[] && s.w.checkpoint == None
  {
    hide Reachable, Lawful;
    s := InstallWrites();
    s := Moves(s, Return(7, OK));
    s := Moves(s, Crash);
  }

  lemma StoredDurable(s: Sys, id: Id)
    requires Reachable(s)
    ensures s.w.history.durable == Some(id) <==> RecordStored(Log(s), id)
  {
    hide Reachable, Replay, RecordStored, WorldOk, Handles, Owned, Standing, LockOk, RecoveriesOk;
    ReachableOk(s);
    DurableMeans(Log(s), id);
  }

  lemma StoredCheckpoint(s: Sys)
    requires Reachable(s)
    ensures s.w.history.durable == if s.w.checkpoint.Some? then Some(s.w.checkpoint.value.id) else None
  {
    hide Reachable, Handles, Owned, Standing, LockOk, RecoveriesOk, Logged, CheckpointOk;
    ReachableOk(s);
  }

  /** A crash leaves the record of a handle exactly if the last change of the store is a save
      of that handle, and something to recover exactly if it is a save at all. */
  lemma CrashLeavesRecord(s: Sys, id: Id, task: nat)
    requires Reachable(s)
    ensures var cp := Step(s, Crash).w.checkpoint;
            cp.Some? && cp.value.id == id <==> RecordStored(Log(s), id)
    ensures Recoverable(Step(s, Crash), task) <==> exists u :: RecordStored(Log(s), u)
  {
    hide Reachable, Replay, RecordStored, Lawful, Log;
    forall u: Id ensures s.w.history.durable == Some(u) <==> RecordStored(Log(s), u) { StoredDurable(s, u); }
    StoredCheckpoint(s);
  }

  lemma HandleRecord(t: Txn, w: World)
    requires Fits(t, w) && t.closed.No? && t.lease.Yes? && OtaUploaded !in t.progress
    requires t.state.Installing? ==> t.checkpointSaved.Yes?
    ensures w.history.durable == Some(t.id) <==> t.checkpointSaved.Yes? && ClearedSilently(t.id) !in w.history.seen
  {
    hide Level, Undone, Secrets, Staged, Locks, Shape, RollbackAuthority, Flow, Stuck;
  }

  lemma LoggedSeen(s: Sys, e: Effect)
    requires Reachable(s)
    ensures e in s.w.history.seen <==> e in Log(s)
  {
    hide Reachable, Replay, WorldOk, Handles, Owned, Standing, LockOk, RecoveriesOk;
    ReachableOk(s);
    ReplayMeans(Log(s));
  }

  /** What the handle itself shows of that: an open handle that holds the meter, before it
      knows of an acknowledged upload, is remembered exactly if it knows its record saved and
      no removal took effect behind an error. Only while or after the first save was cancelled
      may it not know. */
  lemma CrashRemembersHandle(s: Sys, id: Id)
    requires Reachable(s) && id in s.txs
    requires var t := s.txs[id];
             t.closed.No? && t.lease.Yes? && OtaUploaded !in t.progress
               && (t.state.Installing? ==> t.checkpointSaved.Yes?)
    ensures RecordStored(Log(s), id) <==> s.txs[id].checkpointSaved.Yes? && ClearedSilently(id) !in Log(s)
  {
    hide Reachable, Replay, Level, RecordStored, Undone, Fits, SysOk, Log;
    HandleFits(s, id);
    HandleRecord(s.txs[id], s.w);
    StoredDurable(s, id);
    LoggedSeen(s, ClearedSilently(id));
  }

  lemma ClaimFails() returns (s: Sys)
    ensures Reachable(s) && s.txs.Keys == {7} && s.w.lock == None
    ensures var t := s.txs[7];
            t.id == 7 && t.closed.Yes? && t.purpose.SaveCalibration? && t.pending.Acquiring? && t.plan == None &&
            t.cleanupQueued.No?
  {
    hide Reachable, Lawful;
    s := Initial(Text(1));
    Begins(Text(1));
    s := Moves(s, Preview(7, Text(1), Text(2), SaveCalibration));
    s := Moves(s, Return(7, UNREAD));
    assert s.txs[7].previewRelease.Yes?;
    s := Moves(s, Call(7, ConfirmWrite));
    s := Moves(s, PreviewReturn(7, OK));
  }

  /** A preview whose claim fails closes its handle while the confirmed write still waits for
      the meter lock, which is then granted to the closed handle. */
  lemma LeaseLeaks() returns (s: Sys)
    ensures Reachable(s) && 7 in s.txs
    ensures var t := s.txs[7]; t.closed.Yes? && t.lease.Yes? && t.pending.Ready? && t.cleanupQueued.No?
    ensures s.w.lock == Some(Handle(7))
  {
    hide Reachable, Lawful;
    s := ClaimFails();
    s := Moves(s, Return(7, OK));
    assert s.txs[7].pending.Revalidating?;
    s := Moves(s, Return(7, OK));
  }

  lemma CalibrationPreviewed() returns (s: Sys)
    ensures Reachable(s) && s.txs.Keys == {7} && s.recoveries == map[]
    ensures s.txs[7] == Txn(7, SaveCalibration, Text(1), Text(2), Some(Text(2)), Some(Text(1)), Previewed, [], [], No,
              No, Yes, No, No, No, No, No, No, Ready, No, No, No)
    ensures s.w.remote == Text(1) && s.w.lock == None && s.w.checkpoint == None && s.w.history.edits == 0
    ensures s.w.history.ids == {7}
  {
    hide Reachable, Lawful;
    s := Initial(Text(1));
    Begins(Text(1));
    s := Moves(s, Preview(7, Text(1), Text(2), SaveCalibration));
    s := Moves(s, Return(7, OK));
  }

  lemma CalibrationWrites() returns (s: Sys)
    ensures Reachable(s) && s.txs.Keys == {7} && s.recoveries == map[]
    ensures s.txs[7] == Txn(7, SaveCalibration, Text(1), Text(2), Some(Text(2)), Some(Text(1)), WriteConfirmed, [], [],
              No, Yes, Yes, Yes, No, No, No, No, No, Writing(0), No, No, No)
    ensures s.w.remote == Text(1) && s.w.lock == Some(Handle(7)) && s.w.checkpoint == None
    ensures s.w.history.ids == {7}
  {
    hide Reachable, Lawful;
    s := CalibrationPreviewed();
    s := Moves(s, Call(7, ConfirmWrite));
    s := Moves(s, Return(7, OK));
    assert s.txs[7].pending.Revalidating?;
    s := Moves(s, Return(7, OK));
    assert s.txs[7].pending.Comparing?;
    s := Moves(s, Return(7, OK));
  }

  lemma CalibrationValidates() returns (s: Sys)
    ensures Reachable(s) && s.txs.Keys == {7} && s.recoveries == map[]
    ensures s.txs[7] == Txn(7, SaveCalibration, Text(1), Text(2), Some(Text(2)), Some(Text(1)), Validated,
              [ConfigWritten, ConfigValidated], [], No, Yes, Yes, Yes, No, No, No, No, No, Ready, No, No, No)
    ensures s.w.remote == Text(2) && s.w.lock == Some(Handle(7)) && s.w.checkpoint == None
    ensures s.w.history.ids == {7}
  {
    hide Reachable, Lawful;
    s := CalibrationWrites();
    s := Moves(s, Return(7, OK));
    assert s.txs[7].pending.Validating?;
    s := Moves(s, Return(7, OK));
  }

  lemma CalibrationBuilds() returns (s: Sys)
    ensures Reachable(s) && s.txs.Keys == {7} && s.recoveries == map[]
    ensures s.txs[7] == Txn(7, SaveCalibration, Text(1), Text(2), Some(Text(2)), Some(Text(1)),
              InstallConfirmationRequired, BUILT, [], No, Yes, Yes, Yes, No, No, No, No, No, Ready, No, No, No)
    ensures s.w.remote == Text(2) && s.w.lock == Some(Handle(7)) && s.w.checkpoint == None
    ensures s.w.history.ids == {7}
  {
    hide Reachable, Lawful;
    s := CalibrationValidates();
    s := Moves(s, Call(7, Compile));
    s := Moves(s, Return(7, OK));
    s := Moves(s, Return(7, OK));
    assert s.txs[7].pending.CompiledCheck?;
    s := Moves(s, Return(7, OK));
  }

  lemma CalibrationRevokes() returns (s: Sys)
    ensures Reachable(s) && s.txs.Keys == {7} && s.recoveries == map[]
    ensures s.txs[7] == Txn(7, SaveCalibration, Text(1), Text(2), Some(Text(2)), Some(Text(1)),
              InstallConfirmationRequired, BUILT, [], No, Yes, Yes, Yes, No, No, No, No, No, InstallCheck, No, No,
              No)
    ensures s.w.remote == Text(2) && s.w.lock == Some(Handle(7)) && s.w.checkpoint == None
    ensures s.w.history.ids == {7}
  {
    hide Reachable, Lawful;
    s := CalibrationBuilds();
    s := Moves(s, Call(7, ConfirmInstall));
    assert s.txs[7].pending.CheckingVerified?;
    s := Moves(s, Return(7, OK));
    s := Moves(s, Return(7, OK));
  }

  lemma CalibrationSaves() returns (s: Sys)
    ensures Reachable(s) && s.txs.Keys == {7} && s.recoveries == map[]
    ensures s.txs[7] == Txn(7, SaveCalibration, Text(1), Text(2), Some(Text(2)), Some(Text(1)), Installing, BUILT, [],
              No, Yes, Yes, Yes, No, No, No, No, Yes, DispatchCheck, No, No, No)
    ensures s.w.remote == Text(2) && s.w.lock == Some(Handle(7)) && s.w.checkpoint == Some(SAVED)
    ensures s.w.history.ids == {7}
  {
    hide Reachable, Lawful;
    s := CalibrationRevokes();
    s := Moves(s, Return(7, OK));
    assert s.txs[7].pending.SavingCheckpoint?;
    s := Moves(s, Return(7, OK));
  }

  lemma CalibrationFails() returns (s: Sys)
    ensures Reachable(s) && s.txs.Keys == {7} && s.recoveries == map[]
    ensures s.txs[7] == Txn(7, SaveCalibration, Text(1), Text(2), Some(Text(2)), Some(Text(1)), Failed, BUILT,
              [SourceChanged, WriteRecoveryRequired], No, Yes, Yes, Yes, No, No, No, No, Yes, RestoreComparing, No,
              No, No)
    ensures s.w.remote == Text(2) && s.w.lock == Some(Handle(7)) && s.w.checkpoint == Some(SAVED)
  {
    hide Reachable, Lawful;
    s := CalibrationSaves();
    s := Moves(s, Return(7, UNREAD));
    assert s.txs[7].state.Failed? && s.txs[7].rollbackAvailable.Yes?;
    s := Moves(s, Call(7, Rollback));
  }

  lemma CalibrationRewrites() returns (s: Sys)
    ensures Reachable(s) && s.txs.Keys == {7} && s.recoveries == map[]
    ensures s.txs[7] == Txn(7, SaveCalibration, Text(1), Text(2), Some(Text(2)), Some(Text(1)), Failed, BUILT,
              [SourceChanged, WriteRecoveryRequired], No, Yes, Yes, Yes, No, No, No, No, Yes, RestoreValidating, No,
              No, No)
    ensures s.w.remote == Text(1) && s.w.lock == Some(Handle(7)) && s.w.checkpoint == Some(SAVED)
  {
    hide Reachable, Lawful;
    s := CalibrationFails();
    s := Moves(s, Return(7, OK));
    assert s.txs[7].pending.RestoreWriting?;
    s := Moves(s, Return(7, OK));
  }

  lemma CalibrationRestores() returns (s: Sys)
    ensures Reachable(s) && s.txs.Keys == {7} && s.recoveries == map[]
    ensures s.txs[7] == Txn(7, SaveCalibration, Text(1), Text(2), Some(Text(2)), Some(Text(1)), Failed, BUILT +
              [ConfigRestored], [SourceChanged, WriteRecoveryRequired], No, Yes, Yes, No, No, No, No, No, Yes,
              ReleasingRestored, No, No, No)
    ensures s.w.remote == Text(1) && s.w.lock == Some(Handle(7)) && s.w.checkpoint == Some(SAVED)
    ensures RestoreConfirmed(7) in Log(s)
  {
    hide Reachable, Lawful;
    s := CalibrationRewrites();
    s := Moves(s, Return(7, OK));
    assert s.txs[7].pending.RestoreVerifying?;
    s := Moves(s, Return(7, OK));
  }

  /** A rollback whose reservation release succeeds while its caller is cancelled ends without
      removing the durable record: the install it undid can be recovered and retried. */
  lemma StaleRecordRecovered() returns (s: Sys)
    ensures Reachable(s) && 7 in s.txs
    ensures var t := s.txs[7]; t.closed.No? && t.recovered.Yes? && t.state.InstallConfirmationRequired?
    ensures s.w.remote == Text(1) && RestoreConfirmed(7) in Log(s) && s.w.lock == Some(Handle(7))
  {
    hide Reachable, Lawful;
    s := CalibrationRestores();
    s := Moves(s, Return(7, LATE));
    assert s.txs[7].closed.Yes? && s.txs[7].state.RolledBack? && s.w.lock == None;
    s := Moves(s, Recover(1));
    assert s.recoveries[1].Waiting?;
    s := Moves(s, RecoverReturn(1, OK));
    assert s.recoveries[1].ReadingSource?;
    s := Moves(s, RecoverReturn(1, OK));
    assert s.recoveries[1].Confirming?;
    s := Moves(s, RecoverReturn(1, OK));
  }

  lemma CalibrationUploads() returns (s: Sys)
    ensures Reachable(s) && s.txs.Keys == {7} && s.recoveries == map[]
    ensures s.txs[7] == Txn(7, SaveCalibration, Text(1), Text(2), Some(Text(2)), Some(Text(1)), Installing, BUILT +
              [OtaAttempted], [], No, Yes, Yes, Yes, No, No, No, No, Yes, Uploading, No, No, No)
    ensures s.w.remote == Text(2) && s.w.lock == Some(Handle(7)) && s.w.checkpoint == Some(SAVED)
    ensures s.w.history.ids == {7} && 7 in s.w.history.dispatched
  {
    hide Reachable, Lawful;
    s := CalibrationSaves();
    s := Moves(s, Return(7, OK));
  }

  lemma CalibrationRejected() returns (s: Sys)
    ensures Reachable(s) && s.txs.Keys == {7} && s.recoveries == map[] && s.w.remote == Text(2)
        && s.w.checkpoint == None
    ensures s.txs[7] == Txn(7, SaveCalibration, Text(1), Text(2), Some(Text(2)), Some(Text(1)),
              InstallConfirmationRequired, BUILT + [OtaAttempted], [UploadFailed, PersistenceFailed], No, Yes, Yes,
              Yes, No, No, No, No, Yes, Ready, No, No, No)
  {
    hide Reachable, Lawful;
    s := CalibrationUploads();
    s := Moves(s, Return(7, NO));
    assert s.txs[7].pending == ClearingRejected(UploadFailed);
    s := Moves(s, Return(7, LOST));
  }

  /** A removal that takes effect behind an error leaves the handle without its durable record,
      and a retry dispatches all the same. */
  lemma DispatchWithoutRecord() returns (s: Sys)
    ensures Reachable(s) && |Log(s)| > 0
    ensures var e := Log(s)[|Log(s)| - 1]; e.Dispatched? && e.id == 7
    ensures s.w.checkpoint == None
  {
    hide Reachable, Lawful;
    s := CalibrationRejected();
    s := Moves(s, Call(7, ConfirmInstall));
    assert s.txs[7].pending.RetryCheck?;
    s := Moves(s, Return(7, OK));
  }

  lemma CalibrationReconnects() returns (s: Sys)
    ensures Reachable(s) && s.txs.Keys == {7} && s.recoveries == map[]
    ensures s.txs[7] == Txn(7, SaveCalibration, Text(1), Text(2), Some(Text(2)), Some(Text(1)), Reconnecting, BUILT +
              [OtaAttempted, OtaUploaded], [], No, Yes, Yes, Yes, No, No, No, No, Yes, Verifying, No, No, No)
    ensures s.w.remote == Text(2) && s.w.lock == Some(Handle(7))
  {
    hide Reachable, Lawful;
    s := CalibrationUploads();
    s := Moves(s, Return(7, OK));
    assert s.txs[7].pending.SavingUploaded?;
    s := Moves(s, Return(7, OK));
  }

  lemma CalibrationVerifies() returns (s: Sys)
    ensures Reachable(s) && s.txs.Keys == {7} && s.recoveries == map[]
    ensures s.txs[7] == Txn(7, SaveCalibration, Text(1), Text(2), Some(Text(2)), Some(Text(1)), Reconnecting, BUILT +
              [OtaAttempted, OtaUploaded, DeviceVerified], [], No, Yes, Yes, Yes, Yes, No, No, No, Yes, Persisting,
              No, No, No)
    ensures s.w.lock == Some(Handle(7))
  {
    hide Reachable, Lawful;
    s := CalibrationReconnects();
    s := Moves(s, Return(7, OK));
    assert s.txs[7].pending.PersistCheck?;
    s := Moves(s, Return(7, OK));
  }

  /** After the metadata failed to persist, the commit mark stays set, so that the open handle
      keeps the meter lock and never expires. */
  lemma NeverExpires() returns (s: Sys)
    ensures Reachable(s) && 7 in s.txs
    ensures var t := s.txs[7];
        t.closed.No? && t.pending.Ready? && t.state.InstallConfirmationRequired? && t.commitStarted.Yes?
    ensures s.w.lock == Some(Handle(7))
  {
    hide Reachable, Lawful;
    s := CalibrationVerifies();
    s := Moves(s, Return(7, UNREAD));
  }

  /** An idle open handle outlives its deadline exactly if it is marked as committing or as
      being cleaned up already. */
  lemma OutlivesDeadline(c: Cfg)
    requires c.t.closed.No? && c.t.pending.Ready? && c.t.cleanupQueued.No?
    ensures Expire(c) == c <==> c.t.commitStarted.Yes? || c.t.expiryCleanupStarted.Yes?
  {
    hide Unlocked, Attempted;
    if c.t.expiryCleanupStarted.No? && c.t.commitStarted.No? {
      assert Expire(c).t.expiryCleanupStarted.Yes? || Expire(c).t.closed.Yes?;
    }
  }

  // ------------------------------------------------- a rollback and its durable record

  lemma UndoneWaits(c: Cfg)
    requires Good(c) && c.t.closed.No? && Undone(c.t.progress)
    ensures var p := c.t.pending; p.Ready? || p.ReleasingRestored? || p.ClearingRolledBack? || p.ExpiryReleasing?
    ensures c.t.pending.Ready? || c.t.pending.ExpiryReleasing? ==> c.t.state.Failed?
    ensures c.t.writeStarted.No? && c.t.recovered.No? && !Attempted(c.t) && c.t.plan.Some? && c.t.prior.Some?
    ensures c.w.checkpoint.Some? && c.w.checkpoint.value.id == c.t.id ==> c.t.checkpointSaved.Yes?
  {
    Markers(c.t.recovered, c.t.progress);
    hide Shape, Trail, Marker, CheckpointOk, RollbackAuthority;
  }

  /** Steps that close an undone handle and leave its durable record in the store. */
  predicate LeavesRecord(t: Txn, act: Act) {
    match act
    case Returned(r) => t.pending.ExpiryReleasing? || (t.pending.ReleasingRestored? && Cancels(r) && !Claimed(t, r))
    case Expired =>
      t.pending.Ready? && t.cleanupQueued.No? && t.expiryCleanupStarted.No? && t.commitStarted.No?
        && t.reservationClaimed.No?
    case _ => false
  }

  predicate ClosedWithRecord(c: Cfg) {
    c.t.closed.Yes? && c.w.checkpoint.Some? && c.w.checkpoint.value.id == c.t.id
  }

  lemma UndoneReturns(c: Cfg, r: Reply)
    requires c.t.closed.No? && Undone(c.t.progress) && c.t.checkpointSaved.Yes?
    requires c.w.checkpoint.Some? && c.w.checkpoint.value.id == c.t.id
    requires var p := c.t.pending; p.Ready? || p.ReleasingRestored? || p.ClearingRolledBack? || p.ExpiryReleasing?
    ensures ClosedWithRecord(Resume(c, r)) <==> LeavesRecord(c.t, Returned(r))
  {
    hide Record, Plus, Attempted, Undone;
    match c.t.pending
    case Ready =>
    case ReleasingRestored => if r.kind.Ok? {} else if Cancels(r) { if Claimed(c.t, r) {} else {} } else {}
    case ClearingRolledBack => if Clears(c, r, false) {} else if Cancels(r) {} else {}
    case ExpiryReleasing =>
  }

  lemma UndoneRollsBack(c: Cfg, evidence: seq<Evidence>)
    requires c.t.closed.No? && Undone(c.t.progress) && c.t.checkpointSaved.Yes?
    ensures BeginRollback(c, evidence).t.closed.No?
  {
    hide Note, Plus, Attempted;
  }

  lemma UndoneMoves(c: Cfg, act: Act)
    requires c.t.closed.No? && Undone(c.t.progress) && c.t.checkpointSaved.Yes? && !act.Returned?
    requires c.w.checkpoint.Some? && c.w.checkpoint.value.id == c.t.id
    requires c.t.pending.Ready? ==> c.t.state.Failed?
    requires c.t.writeStarted.No?
    ensures ClosedWithRecord(Perform(c, act)) <==> LeavesRecord(c.t, act)
  {
    hide BeginRollback, Attempted, Undone, Plus, Note;
    UndoneRollsBack(c, c.t.evidence);
    UndoneRollsBack(c.(t := c.t.(cleanupQueued := No)), c.t.evidence);
    match act
    case Called(op) =>
    case Expired =>
    case CleanedUp =>
  }

  /** A rolled-back handle is closed with its own durable record still in the store exactly
      by a release that succeeds late under a cancelled caller, by its expiry once the
      reservation is free, and by the release that its expiry began. */
  lemma RecordLeftBehind(c: Cfg, act: Act)
    requires Good(c) && c.t.closed.No? && Undone(c.t.progress)
    requires c.w.checkpoint.Some? && c.w.checkpoint.value.id == c.t.id
    ensures ClosedWithRecord(Perform(c, act)) <==> LeavesRecord(c.t, act)
  {
    UndoneWaits(c);
    hide Fits, WorldOk, Undone, Resume, Start, Expire, StartCleanup, LeavesRecord, ClosedWithRecord;
    if act.Returned? { UndoneReturns(c, act.r); } else { UndoneMoves(c, act); }
  }

  /** The restore was confirmed and the handle is closed, but its record is still there. */
  ghost predicate StaleRecord(s: Sys) {
    && Reachable(s) && 7 in s.txs && s.txs[7].closed.Yes? && s.txs[7].recovered.No? && RestoreConfirmed(7) in Log(s)
    && s.w.remote == Text(1) && s.w.lock == None && s.w.checkpoint.Some? && s.w.checkpoint.value.id == 7
  }

  lemma CalibrationKeepsRecord() returns (s: Sys)
    ensures Reachable(s) && s.txs.Keys == {7} && s.recoveries == map[]
    ensures s.txs[7] == Txn(7, SaveCalibration, Text(1), Text(2), Some(Text(2)), Some(Text(1)), Failed, BUILT +
              [ConfigRestored], [SourceChanged, WriteRecoveryRequired], No, Yes, No, No, No, No, No, No, Yes,
              ClearingRolledBack, No, No, No)
    ensures s.w.remote == Text(1) && s.w.lock == Some(Handle(7)) && s.w.checkpoint == Some(SAVED)
    ensures RestoreConfirmed(7) in Log(s)
  {
    hide Reachable, Lawful;
    s := CalibrationRestores();
    s := Moves(s, Return(7, OK));
  }

  /** No caller is cancelled: the removal of the record fails, and the handle expires. */
  lemma RecordOutlivesExpiry() returns (s: Sys)
    ensures StaleRecord(s)
  {
    hide Reachable, Lawful;
    s := CalibrationKeepsRecord();
    s := Moves(s, Return(7, UNREAD));
    assert s.txs[7].pending.Ready? && s.txs[7].state.Failed?;
    s := Moves(s, Expiry(7));
  }

  lemma CalibrationKeepsClaim() returns (s: Sys)
    ensures Reachable(s) && s.txs.Keys == {7} && s.recoveries == map[]
    ensures s.txs[7] == Txn(7, SaveCalibration, Text(1), Text(2), Some(Text(2)), Some(Text(1)), Failed, BUILT +
              [ConfigRestored], [SourceChanged, WriteRecoveryRequired, RollbackFailed], Yes, Yes, Yes, No, No, No,
              No, No, Yes, Ready, No, No, No)
    ensures s.w.remote == Text(1) && s.w.lock == Some(Handle(7)) && s.w.checkpoint == Some(SAVED)
    ensures RestoreConfirmed(7) in Log(s)
  {
    hide Reachable, Lawful;
    s := CalibrationRestores();
    s := Moves(s, Return(7, UNREAD));
  }

  /** The same when the release fails and expiry releases the reservation itself. */
  lemma RecordOutlivesRelease() returns (s: Sys)
    ensures StaleRecord(s)
  {
    hide Reachable, Lawful;
    s := CalibrationKeepsClaim();
    s := Moves(s, Expiry(7));
    assert s.txs[7].pending.ExpiryReleasing?;
    s := Moves(s, Return(7, OK));
  }

  // --------------------------------------------------- closing with the reservation

  /** Steps that close a handle and keep its claim on the calibration reservation. */
  predicate KeepsClaim(c: Cfg, act: Act) {
    var t := c.t;
    match act
    case Returned(r) =>
      (match t.pending
       case Reconciling => r.kind.Ok? && c.w.remote == t.source
       case Revoking => !r.kind.Ok?
       case SavingCheckpoint => !r.kind.Ok? && !Cancels(r)
       case ClearingCancelled => Clears(c, r, true)
       case ClearingRejected(_) => Clears(c, r, true)
       case ClearingDone => Clears(c, r, true)
       case ExpiryReleasing => !Drained(r)
       case _ => false)
    case Expired =>
      && t.pending.Ready? && t.cleanupQueued.No? && t.expiryCleanupStarted.No? && t.commitStarted.No?
      && t.writeStarted.Yes? && (t.recovered.Yes? || Attempted(t) || Behind(t))
    case _ => false
  }

  predicate ClosedWithClaim(c: Cfg) { c.t.closed.Yes? && c.t.reservationClaimed.Yes? }

  /** Where a handle that holds the reservation never waits, and what it never shows. */
  predicate Claims(c: Cfg) {
    var p := c.t.pending;
    && c.t.closed.No? && c.t.reservationClaimed.Yes? && c.t.purpose.SaveCalibration?
    && !p.UnchangedCheck? && !p.UnchangedSave? && !p.AbandonCheck? && !p.AbandonClear? && !p.ClearingRolledBack?
    && (c.t.state.Previewed? ==> c.t.writeStarted.No?)
  }

  lemma ClaimFacts(c: Cfg)
    requires Good(c) && c.t.closed.No? && c.t.reservationClaimed.Yes?
    ensures Claims(c)
  {
    hide Shape, Level, Undone, WorldOk, Recorded, Locks, Secrets, RollbackAuthority;
  }

  lemma ClaimRollsBack(c: Cfg, evidence: seq<Evidence>)
    requires c.t.closed.No? && c.t.reservationClaimed.Yes?
    ensures BeginRollback(c, evidence).t.closed.No?
  {
    hide Note, Attempted;
  }

  lemma ClaimStays(c: Cfg, code: Evidence)
    requires c.t.closed.No? && c.t.reservationClaimed.Yes?
    ensures CheckFailed(c).t.closed.No? && Retain(c).t.closed.No? && RetainWith(c, code).t.closed.No?
        && Retry(c, code).t.closed.No?
  {
    hide Plus, Attempted;
  }

  lemma ClaimPreparation(c: Cfg, r: Reply)
    requires Claims(c) && PartOf(c.t.pending).Preparation?
    ensures ClosedWithClaim(ResumePreparation(c, r)) <==> KeepsClaim(c, Returned(r))
  {
    hide Record, Plus, Mark, CheckPasses;
    match c.t.pending
    case Claiming => if r.kind.Ok? {} else if r.kind.Refused? {} else {}
    case Acquiring => if c.w.lock.None? {} else {}
    case Revalidating => if r.kind.Ok? {} else {}
    case ReleasingStale(_) => if Claimed(c.t, r) {} else {}
    case _ =>
  }

  lemma ClaimWrite(c: Cfg, r: Reply)
    requires Claims(c) && PartOf(c.t.pending).Write?
    ensures ClosedWithClaim(ResumeWrite(c, r)) <==> KeepsClaim(c, Returned(r))
  {
    ClaimStays(c, SourceChanged);
    ClaimRollsBack(c, c.t.evidence);
    ClaimRollsBack(c, Plus(c.t.evidence, if r.kind.Refused? then ValidationFailed else ValidationUnavailable));
    hide Record, Plus, Mark, BeginRollback, Retain;
    match c.t.pending
    case Comparing => case Writing(_) => case Reconciling => case Validating => case _ =>
  }

  lemma ClaimRestore(c: Cfg, r: Reply)
    requires Claims(c) && PartOf(c.t.pending).Restoring?
    ensures ResumeRestore(c, r).t.closed.No?
  {
    hide Record, Plus, Mark, Attempted;
    match c.t.pending
    case RestoreComparing => case RestoreWriting(_) => case RestoreRereading =>
    case RestoreValidating => case RestoreVerifying => case _ =>
  }

  lemma ClaimRolledBack(c: Cfg, r: Reply)
    requires Claims(c) && PartOf(c.t.pending).RolledBackPart?
    ensures !ClosedWithClaim(ResumeRolledBack(c, r))
  {
    hide Record, Plus, Attempted;
    if r.kind.Ok? {} else if Cancels(r) { if Claimed(c.t, r) {} else {} } else {}
  }

  lemma ClaimCompile(c: Cfg, r: Reply)
    requires Claims(c) && PartOf(c.t.pending).Compilation?
    ensures ResumeCompile(c, r).t.closed.No?
  {
    ClaimStays(c, SourceChanged);
    ClaimRollsBack(c, Plus(c.t.evidence, ValidationUnavailable));
    hide Record, Plus, Mark, BeginRollback, CheckFailed, CheckPasses;
    match c.t.pending
    case CompileCheck => case Compiling => case CompiledCheck => case _ =>
  }

  lemma ClaimRetry(c: Cfg, r: Reply)
    requires Claims(c) && PartOf(c.t.pending).Retrying?
    ensures ResumeRetry(c, r).t.closed.No?
  {
    ClaimStays(c, SourceChanged);
    hide Record, Plus, Mark, Without, CheckFailed, CheckPasses;
    match c.t.pending
    case RecoveredRead => case RetryCheck => case _ =>
  }

  lemma ClaimInstall(c: Cfg, r: Reply)
    requires Claims(c) && PartOf(c.t.pending).Install?
    ensures ClosedWithClaim(ResumeInstall(c, r)) <==> KeepsClaim(c, Returned(r))
  {
    ClaimStays(c, SourceChanged);
    hide Record, Plus, Mark, Without, CheckFailed, CheckPasses;
    match c.t.pending
    case CheckingVerified => case Revoking => case InstallCheck => case SavingCheckpoint =>
    case ClearingCancelled => case DispatchCheck => case _ =>
  }

  lemma ClaimUpload(c: Cfg, r: Reply)
    requires Claims(c) && PartOf(c.t.pending).Upload?
    ensures ClosedWithClaim(ResumeUpload(c, r)) <==> KeepsClaim(c, Returned(r))
  {
    hide Record, Plus, Mark;
    match c.t.pending
    case Uploading => case SavingUploaded => case ClearingRejected(_) => case _ =>
  }

  lemma ClaimVerify(c: Cfg, r: Reply)
    requires Claims(c) && PartOf(c.t.pending).Verification?
    ensures ClosedWithClaim(ResumeVerify(c, r)) <==> KeepsClaim(c, Returned(r))
  {
    ClaimStays(c, SourceChanged);
    hide Record, Plus, Mark, CheckFailed, CheckPasses;
    match c.t.pending
    case Verifying => case PersistCheck => case Persisting => case ClearingDone => case _ =>
  }

  lemma ClaimAbandon(c: Cfg, r: Reply)
    requires Claims(c) && PartOf(c.t.pending).Abandoning?
    ensures ClosedWithClaim(ResumeAbandon(c, r)) <==> KeepsClaim(c, Returned(r))
  {
    hide Record, Plus, Attempted;
    match c.t.pending
    case AbandonRelease => case ExpiryReleasing => case _ =>
  }

  lemma ClaimReturns(c: Cfg, r: Reply)
    requires Claims(c)
    ensures ClosedWithClaim(Resume(c, r)) <==> KeepsClaim(c, Returned(r))
  {
    hide ResumePreparation, ResumeWrite, ResumeRestore, ResumeRolledBack, ResumeCompile, ResumeRetry, ResumeInstall,
      ResumeUpload, ResumeVerify, ResumeAbandon, Clears, Drained;
    match PartOf(c.t.pending)
    case Preparation => ClaimPreparation(c, r);
    case Write => ClaimWrite(c, r);
    case Restoring => ClaimRestore(c, r);
    case RolledBackPart => ClaimRolledBack(c, r);
    case Compilation => ClaimCompile(c, r);
    case Retrying => ClaimRetry(c, r);
    case Install => ClaimInstall(c, r);
    case Upload => ClaimUpload(c, r);
    case Verification => ClaimVerify(c, r);
    case Abandoning => ClaimAbandon(c, r);
    case NoPart =>
  }

  lemma ClaimMoves(c: Cfg, act: Act)
    requires Claims(c) && !act.Returned?
    ensures ClosedWithClaim(Perform(c, act)) <==> KeepsClaim(c, act)
  {
    hide BeginRollback, Attempted, Undone, Plus, Note;
    ClaimRollsBack(c, c.t.evidence);
    ClaimRollsBack(c.(t := c.t.(cleanupQueued := No)), c.t.evidence);
    match act
    case Called(op) =>
    case Expired =>
    case CleanedUp =>
  }

  /** A handle is closed with the reservation still claimed exactly by these steps. */
  lemma ClaimKept(c: Cfg, act: Act)
    requires Good(c) && c.t.closed.No?
    ensures ClosedWithClaim(Perform(c, act)) <==> c.t.reservationClaimed.Yes? && KeepsClaim(c, act)
  {
    hide Fits, WorldOk, Resume, Start, Expire, StartCleanup, KeepsClaim, Claims;
    PerformSame(c, act);
    if c.t.reservationClaimed.Yes? {
      ClaimFacts(c);
      if act.Returned? { ClaimReturns(c, act.r); } else { ClaimMoves(c, act); }
    }
  }

  /** A write that turns out not to have taken place closes the handle with its claim. */
  lemma UnappliedKeepsClaim() returns (s: Sys)
    ensures Reachable(s) && 7 in s.txs && s.w.remote == Text(1) && s.w.lock == None
    ensures var t := s.txs[7];
        t.closed.Yes? && t.reservationClaimed.Yes? && t.evidence == [WriteFailed, WriteNotApplied]
  {
    hide Reachable, Lawful;
    s := CalibrationWrites();
    s := Moves(s, Return(7, UNREAD));
    assert s.txs[7].pending.Reconciling?;
    s := Moves(s, Return(7, OK));
  }

  /** So does a revocation that fails before the install. */
  lemma RevocationKeepsClaim() returns (s: Sys)
    ensures Reachable(s) && 7 in s.txs && s.w.remote == Text(2) && s.w.lock == None
    ensures var t := s.txs[7]; t.closed.Yes? && t.reservationClaimed.Yes? && t.evidence == [PersistenceFailed]
  {
    hide Reachable, Lawful;
    s := CalibrationBuilds();
    s := Moves(s, Call(7, ConfirmInstall));
    assert s.txs[7].pending.CheckingVerified?;
    s := Moves(s, Return(7, OK));
    assert s.txs[7].pending.Revoking?;
    s := Moves(s, Return(7, UNREAD));
  }

  // --------------------------------------------------------------- the leaked lease

  lemma GrantedLease(c: Cfg)
    ensures Granted(c).t.lease.Yes? && Granted(c).t.closed == c.t.closed
  {
    hide Record;
  }

  lemma ClosedWaits(c: Cfg)
    requires Good(c) && c.t.closed.Yes?
    ensures Claimless(c.t.pending)
  {
    hide Shape, Level, Staged, Recorded, Secrets, Flow, WorldOk, RollbackAuthority, Belongings;
  }

  lemma ClosedReturns(c: Cfg, r: Reply)
    requires Claimless(c.t.pending) && c.t.closed.Yes? && c.t.lease.No?
    ensures Resume(c, r).t.closed.Yes?
    ensures Resume(c, r).t.lease.Yes? <==> c.t.pending.Acquiring? && c.w.lock.None? && r.kind.Ok?
  {
    GrantedLease(c);
    hide Record, Plus, Attempted, Granted;
    match c.t.pending
    case Ready => case Acquiring => case Revalidating => case ReleasingStale(_) =>
    case AbandonRelease => case ExpiryReleasing => case _ =>
  }

  lemma ClosedCleanup(c: Cfg, evidence: seq<Evidence>)
    requires c.t.closed.Yes? && c.t.lease.No?
    ensures BeginRollback(c, evidence).t.closed.Yes? && BeginRollback(c, evidence).t.lease.No?
  {
    hide Record, Attempted;
  }

  /** A closed handle obtains the lock exactly if it still waits for it, the lock is free and
      is granted. */
  lemma LeaseGained(c: Cfg, act: Act)
    requires Good(c) && c.t.closed.Yes? && c.t.lease.No?
    ensures Perform(c, act).t.closed.Yes?
    ensures Perform(c, act).t.lease.Yes? <==>
            act.Returned? && c.t.pending.Acquiring? && c.w.lock.None? && act.r.kind.Ok?
  {
    ClosedWaits(c);
    hide Good, Resume, BeginRollback, Attempted;
    if act.Returned? { ClosedReturns(c, act.r); }
    if act.CleanedUp? { ClosedCleanup(c.(t := c.t.(cleanupQueued := No)), c.t.evidence); }
  }

  predicate Leaked(s: Sys, id: Id) {
    && id in s.txs && s.txs[id].closed.Yes? && s.txs[id].lease.Yes? && s.txs[id].pending.Ready?
    && s.w.lock == Some(Handle(id))
  }

  /** Nothing that a closed, idle handle can still do gives its lock back. */
  lemma LeakOwnSteps(c: Cfg, op: Operation, r: Reply)
    requires Good(c) && c.t.closed.Yes? && c.t.lease.Yes? && c.t.pending.Ready?
    ensures c.w.lock == Some(Handle(c.t.id)) && c.t.previewRelease.No?
    ensures Start(c, op) == c && Resume(c, r) == c && Expire(c) == c
    ensures var d := StartCleanup(c); d.w.lock == c.w.lock && d.t.closed.Yes? && d.t.lease.Yes? && d.t.pending.Ready?
  {
    assert c.t.plan.None? by {
      hide Shape, Level, Staged, Recorded, Locks, Flow, WorldOk, RollbackAuthority, Belongings; }
    hide Shape, Level, Staged, Recorded, Secrets, Flow, WorldOk, RollbackAuthority, Belongings, Record, Attempted,
      AfterRestore;
  }

  lemma LeakOtherStep(s: Sys, id: Id, a: Id, c: Cfg)
    requires Leaked(s, id) && a != id && Guarantee(a, s.w, c.w)
    ensures Leaked(Put(s, a, c), id)
  {
    hide Logged;
  }

  lemma LeakHandleSteps(s: Sys, id: Id, a: Id, op: Operation, r: Reply)
    requires SysOk(s) && Leaked(s, id) && a in s.txs
    ensures Leaked(Put(s, a, Start(At(s, a), op)), id) && Leaked(Put(s, a, Resume(At(s, a), r)), id)
    ensures Leaked(Put(s, a, Expire(At(s, a))), id) && Leaked(Put(s, a, StartCleanup(At(s, a))), id)
    ensures s.txs[a].previewRelease.Yes? ==> Leaked(Put(s, a, ResumePreview(At(s, a), r)), id)
  {
    hide SysOk, Guarantee, Good, Holds, Start, Resume, Expire, StartCleanup, ResumePreview;
    PutStep(s, a);
    var c := At(s, a);
    if a == id { LeakOwnSteps(c, op, r); }
    else {
      StartFrame(c, op); LeakOtherStep(s, id, a, Start(c, op));
      ResumeFrame(c, r); LeakOtherStep(s, id, a, Resume(c, r));
      ExpireFrame(c); LeakOtherStep(s, id, a, Expire(c));
      CleanupFrame(c); LeakOtherStep(s, id, a, StartCleanup(c));
      if s.txs[a].previewRelease.Yes? { PreviewFrame(c, r); LeakOtherStep(s, id, a, ResumePreview(c, r)); }
    }
  }

  lemma LeakRecovery(s: Sys, id: Id, task: nat, r: Reply)
    requires LockOk(s) && Leaked(s, id) && task in s.recoveries
    ensures Leaked(StepRecovery(s, task, r), id)
  {
    assert Holding(s, task) ==> s.w.lock == Some(Recovering(task));
  }

  lemma LeakPlaces(s: Sys, id: Id)
    requires SysOk(s) && id in s.txs
    ensures LockOk(s) && id in s.w.history.ids
  {
    hide WorldOk, Fits, Owned, Standing, LockOk, RecoveriesOk, Logged;
  }

  lemma LeakElse(s: Sys, id: Id, e: Event)
    requires Leaked(s, id) && (e.ForeignEdit? || e.Recover?)
    ensures Leaked(Step(s, e), id)
  {
    hide Record, Recoverable;
  }

  lemma LeakPreview(s: Sys, id: Id, e: Event)
    requires Leaked(s, id) && id in s.w.history.ids && e.Preview?
    ensures Leaked(Step(s, e), id)
  {
    hide Record, Open;
  }

  lemma LeakHolds(s: Sys, id: Id)
    requires id in s.txs && Fits(s.txs[id], s.w) && s.txs[id].id == id
    requires var t := s.txs[id]; t.closed.Yes? && t.lease.Yes? && t.pending.Ready?
    ensures Leaked(s, id)
  {
    hide Shape, Level, Staged, Recorded, Secrets, Flow, WorldOk, RollbackAuthority, Belongings, Progressed;
  }

  /** A lock granted to a closed handle is never given back: only a crash frees the meter. */
  lemma LeakLasts(s: Sys, id: Id, e: Event)
    requires Reachable(s) && id in s.txs && !e.Crash?
    requires var t := s.txs[id]; t.closed.Yes? && t.lease.Yes? && t.pending.Ready?
    ensures Leaked(s, id) && Leaked(Step(s, e), id)
  {
    hide Reachable, Fits, SysOk, Leaked, Put, At, StepRecovery, Lawful, Note, OpenedWorld, Open, Previewable,
      Recoverable;
    HandleFits(s, id);
    LeakHolds(s, id);
    LeakPlaces(s, id);
    if e.Call? { if e.id in s.txs { LeakHandleSteps(s, id, e.id, e.op, OK); } }
    else if e.Return? || e.PreviewReturn? { if e.id in s.txs { LeakHandleSteps(s, id, e.id, Abandon, e.r); } }
    else if e.Expiry? || e.Cleanup? { if e.id in s.txs { LeakHandleSteps(s, id, e.id, Abandon, OK); } }
    else if e.RecoverReturn? { if e.task in s.recoveries { LeakRecovery(s, id, e.task, e.r); } }
    else if e.Preview? { LeakPreview(s, id, e); }
    else { LeakElse(s, id, e); }
    if !(e.Preview? || e.RecoverReturn? || e.ForeignEdit? || e.Recover?) && e.id !in s.txs { assert Step(s, e) == s; }
  }
}
