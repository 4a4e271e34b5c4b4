/** The transaction as the source keeps it: an object whose fields change step by step. Every
    method runs from one await to the next and is proved against the function of the same
    name, or of the name its contract gives, in `TransactionModel`; so what the laws say of
    those functions holds of the objects, and the contracts below say so where it matters. */
module ConfigTransactions {
  import opened Common
  import opened TransactionModel
  import opened TransactionLaws
  import opened TransactionSteps
  import opened TransactionInstall
  import opened TransactionFrame

  /** What the transactions of one meter share: the remote file, the per-meter lock, the
      durable record, and the history of what really happened. */
  class Meter {
    var remote: Yaml
    var lock: Option<Holder>
    var checkpoint: Option<Checkpoint>
    var history: History

    function View(): World
      reads this
    {
      World(remote, lock, checkpoint, history)
    }
  }

  class ConfigTransaction {
    const meter: Meter
    const id: Id
    const purpose: Purpose
    const source: Yaml
    const proposed: Yaml
    const recovered: Flag
    var plan: Option<Yaml>
    var prior: Option<Yaml>
    var state: State
    var progress: seq<Progress>
    var evidence: seq<Evidence>
    var rollbackAvailable: Flag
    var lease: Flag
    var reservationClaimed: Flag
    var writeStarted: Flag
    var commitStarted: Flag
    var expiryCleanupStarted: Flag
    var closed: Flag
    var checkpointSaved: Flag
    var pending: Pending
    var previewLease: Flag
    var previewRelease: Flag
    var cleanupQueued: Flag

    function View(): Txn
      reads this
    {
      Txn(id, purpose, source, proposed, plan, prior, state, progress, evidence,
          rollbackAvailable, lease, reservationClaimed, writeStarted,
          commitStarted, expiryCleanupStarted, closed, recovered, checkpointSaved,
          pending, previewLease, previewRelease, cleanupQueued)
    }

    /** The handle together with its meter. */
    function Now(): Cfg
      reads this, meter
    {
      Cfg(View(), meter.View())
    }

    constructor Preview(meter: Meter, id: Id, source: Yaml, proposed: Yaml, purpose: Purpose)
      ensures View() == Open(id, source, proposed, purpose) && this.meter == meter
    {
      this.meter, this.id, this.purpose, this.source, this.proposed := meter, id, purpose, source, proposed;
      this.recovered, plan, prior := No, Some(proposed), Some(source);
      state, progress, evidence := Previewed, [], [];
      rollbackAvailable, lease, reservationClaimed, writeStarted := No, No, Bit(purpose.SaveCalibration?), No;
      commitStarted, expiryCleanupStarted, closed, checkpointSaved := No, No, No, No;
      pending := if purpose.SaveCalibration? then Claiming else Ready;
      previewLease, previewRelease, cleanupQueued := Bit(purpose.SaveCalibration?), No, No;
    }

    constructor Recover(meter: Meter, cp: Checkpoint, adopted: bool)
      ensures View() == Restore(cp, adopted) && this.meter == meter
    {
      this.meter, id, purpose, source, proposed := meter, cp.id, cp.purpose, cp.source, cp.proposed;
      this.recovered, state := Yes, InstallConfirmationRequired;
      plan, prior := if adopted then Some(cp.proposed) else None, if adopted then Some(Empty) else None;
      progress := if cp.uploaded then [OtaAttempted, OtaUploaded] else [OtaAttempted];
      evidence := [if cp.uploaded then ReconnectUnavailable else UploadOutcomeUnknown]
        + if adopted then [] else [SourceChanged];
      rollbackAvailable, lease, reservationClaimed, writeStarted := No, Yes, No, Yes;
      commitStarted, expiryCleanupStarted, closed, checkpointSaved := No, No, No, Yes;
      pending, previewLease, previewRelease, cleanupQueued := Ready, No, No, No;
    }

    // -------------------------------------------------------------- small steps

    method AddEvidence(code: Evidence)
      modifies this`evidence
      ensures evidence == Plus(old(evidence), code)
    {
      if code !in evidence { evidence := evidence + [code]; }
    }

    method AddProgress(p: Progress)
      modifies this`progress
      ensures progress == Mark(old(progress), p)
    {
      if p !in progress { progress := progress + [p]; }
    }

    /** Forget evidence that a new install attempt may raise again. */
    method ForgetEvidence(retried: bool)
      modifies this`evidence
      ensures evidence == Without(old(evidence), retried)
    {
      hide Forgotten;
      var kept, rest := [], evidence;
      while rest != []
        invariant kept + Without(rest, retried) == Without(evidence, retried)
        decreases |rest|
      {
        if !Forgotten(rest[0], retried) { kept := kept + [rest[0]]; }
        rest := rest[1..];
      }
      evidence := kept;
    }

    /** Give the meter lock back and erase what only a live transaction may keep. */
    method Finish(final: State)
      modifies this, meter
      ensures Now() == TransactionModel.Finish(old(Now()), final)
      ensures closed.Yes? && (old(closed).No? ==> state == final && plan.None? && prior.None? && rollbackAvailable.No?)
      ensures old(closed).No? && old(lease).Yes? ==> lease.No? && meter.lock.None?
      ensures meter.remote == old(meter.remote) && meter.checkpoint == old(meter.checkpoint)
    {
      if closed.No? {
        Release();
        Scrub(final);
      }
      pending := Ready;
    }

    method Release()
      modifies meter`lock
      ensures meter.View() == old(meter.View()).(lock := if lease.Yes? then None else old(meter.lock))
    {
      if lease.Yes? { meter.lock := None; }
    }

    method Scrub(final: State)
      modifies `state, `rollbackAvailable, `lease, `plan, `prior, `closed
      ensures View() == old(View()).(state := final, rollbackAvailable := No, lease := No, plan := None,
          prior := None, closed := Yes)
    {
      state, rollbackAvailable, lease, plan, prior, closed := final, No, No, None, None, Yes;
    }

    method FinishWith(final: State, code: Evidence)
      modifies this, meter
      ensures Now() == TransactionModel.FinishWith(old(Now()), final, code)
    {
      if closed.No? { AddEvidence(code); }
      Finish(final);
    }

    method RetainInstallRetry(code: Evidence)
      modifies `state, `rollbackAvailable, `evidence, `pending
      ensures View() == TransactionModel.RetainInstallRetry(old(View()), old(evidence), code)
      ensures rollbackAvailable.Yes? ==> recovered.No? && OtaAttempted !in progress
    {
      hide Plus;
      state := InstallConfirmationRequired;
      rollbackAvailable := Bit(code != PersistenceFailed && recovered.No? && OtaAttempted !in progress);
      evidence := Plus(evidence, code);
      pending := Ready;
    }

    method RetainWriteRecovery()
      modifies this
      ensures View() == TransactionModel.RetainWriteRecovery(old(View()), old(evidence))
      ensures closed.No? && rollbackAvailable.Yes? ==> OtaAttempted !in progress && recovered.No?
    {
      hide Plus;
      if closed.Yes? { pending := Ready; }
      else if recovered.Yes? || OtaAttempted in progress {
        RetainInstallRetry(if recovered.Yes? then ReconnectUnavailable else SourceChanged);
      } else {
        state, rollbackAvailable, pending := Failed, Bit(plan.Some? && prior.Some?), Ready;
        evidence := Plus(evidence, WriteRecoveryRequired);
      }
    }

    method RetainBecause(code: Evidence)
      modifies this
      ensures View() == TransactionModel.RetainWriteRecovery(old(View()), Plus(old(evidence), code))
    {
      hide Plus;
      evidence := Plus(evidence, code);
      RetainWriteRecovery();
    }

    /** `_check_configuration_source` with the proposed content: it passes exactly if the file
        could be read, the handle still has its plan, and the file is its proposal. */
    method CheckSource(r: Reply) returns (passes: bool)
      ensures passes == CheckPasses(Now(), r)
      ensures Secrets(View()) ==> (passes <==> r.kind.Ok? && plan.Some? && meter.remote == proposed)
    {
      passes := r.kind.Ok? && plan.Some? && prior.Some? && meter.remote == plan.value;
    }

    method CheckFailed()
      modifies this, meter
      ensures Now() == TransactionModel.CheckFailed(old(Now()))
    {
      if writeStarted.Yes? {
        RetainBecause(SourceChanged);
      } else if reservationClaimed.Yes? { pending := ReleasingStale(SourceChanged); }
      else { FinishWith(Failed, SourceChanged); }
    }

    /** The reservation release comes back; `kept` says that the claim still stands. */
    method ReleaseReservation(r: Reply) returns (kept: bool)
      modifies this`reservationClaimed, meter`history
      ensures kept == Claimed(old(View()), r) && Now() == AfterReleaseCall(old(Now()), r)
      ensures old(reservationClaimed).Yes? && reservationClaimed.No? ==> Released(id) in meter.history.seen
    {
      kept := reservationClaimed.Yes? && !Drained(r);
      reservationClaimed := Bit(kept);
      if Drained(r) || r.applied { meter.history := Record(meter.history, Released(id)); }
    }

    method SaveCheckpoint(r: Reply, uploaded: bool)
      modifies meter`checkpoint, meter`history
      ensures meter.View() == AfterSave(old(Now()), r, uploaded)
      ensures Drained(r) ==> meter.checkpoint == Some(Checkpoint(id, uploaded, source, proposed, purpose))
    {
      if Drained(r) || r.applied {
        meter.checkpoint := Some(Checkpoint(id, uploaded, source, proposed, purpose));
        meter.history := Record(meter.history, Saved(id, uploaded));
      }
    }

    method ClearCheckpoint(r: Reply, drained: bool) returns (cleared: bool)
      modifies this`checkpointSaved, meter`checkpoint, meter`history
      ensures cleared == Clears(old(Now()), r, drained) && Now() == AfterClear(old(Now()), r, drained)
      ensures old(meter.checkpoint).Some? && old(meter.checkpoint).value.id != id ==> !cleared && Now() == old(Now())
    {
      var own := meter.checkpoint.None? || meter.checkpoint.value.id == id;
      cleared := own && (r.kind.Ok? || (drained && r.kind.OkCancelled?));
      if cleared {
        checkpointSaved := No;
        meter.checkpoint := None;
        meter.history := Record(meter.history, Cleared(id));
      } else if own && r.applied {
        meter.checkpoint := None;
        meter.history := Record(meter.history, ClearedSilently(id));
      }
    }

    // ------------------------------------------------------------------- rollback

    method Rollback()
      modifies this, meter
      ensures Now() == BeginRollback(old(Now()), old(evidence))
    {
      if recovered.Yes? || OtaAttempted in progress {
        pending := Ready;
        meter.history := Record(meter.history, RollbackRefused(id));
      } else {
        rollbackAvailable := No;
        if plan.None? || prior.None? { pending := Ready; }
        else if ConfigRestored !in progress { pending := RestoreComparing; }
        else { AfterRestore(); }
      }
    }

    method AfterRestore()
      modifies this, meter
      ensures Now() == TransactionModel.AfterRestore(old(Now()))
    {
      writeStarted := No;
      if reservationClaimed.Yes? { pending := ReleasingRestored; } else { AfterRelease(); }
    }

    method AfterRelease()
      modifies this, meter
      ensures Now() == TransactionModel.AfterRelease(old(Now()))
    {
      if checkpointSaved.Yes? { pending := ClearingRolledBack; } else { Finish(RolledBack); }
    }

    method RestoreFailed(r: Reply)
      modifies this
      ensures View() == TransactionModel.RestoreFailed(old(Now()), r).t
    {
      if Cancels(r) { RetainBecause(Cancelled); }
      else if r.kind.TimedOut? { RetainWriteRecovery(); }
      else { RetainBecause(RollbackFailed); }
    }

    method ResumeRestoreComparing(r: Reply)
      requires pending.RestoreComparing?
      modifies this, meter
      ensures Now() == TransactionModel.ResumeRestore(old(Now()), r)
    {
      if !r.kind.Ok? { RestoreFailed(r); }
      else { pending := if meter.remote == proposed then RestoreWriting(meter.history.edits) else RestoreRereading; }
    }

    method ResumeRestoreWriting(r: Reply)
      requires pending.RestoreWriting?
      modifies this, meter
      ensures Now() == TransactionModel.ResumeRestore(old(Now()), r)
    {
      hide Record, Plus, Cancels;
      if prior.Some? && (r.kind.Ok? || r.applied) {
        meter.history := Record(meter.history, Restored(id, proposed, meter.remote, prior.value, pending.since));
        meter.remote := prior.value;
      }
      if prior.Some? && r.kind.Ok? { pending := RestoreValidating; } else { RestoreFailed(r); }
    }

    method ResumeRestoreRereading(r: Reply)
      requires pending.RestoreRereading?
      modifies this, meter
      ensures Now() == TransactionModel.ResumeRestore(old(Now()), r)
    {
      if !r.kind.Ok? { RestoreFailed(r); }
      else if prior == Some(meter.remote) { pending := RestoreValidating; }
      else { RetainWriteRecovery(); }
    }

    method ResumeRestoreVerifying(r: Reply)
      requires pending.RestoreVerifying?
      modifies this, meter
      ensures Now() == TransactionModel.ResumeRestore(old(Now()), r)
    {
      hide Record, Plus, Mark, TransactionModel.RetainWriteRecovery, TransactionModel.AfterRestore, Cancels;
      if !r.kind.Ok? { RestoreFailed(r); }
      else if prior == Some(meter.remote) {
        progress := Mark(progress, ConfigRestored);
        meter.history := Record(meter.history, RestoreConfirmed(id));
        AfterRestore();
      } else { RetainBecause(RollbackFailed); }
    }

    method ResumeRestore(r: Reply)
      modifies this, meter
      ensures Now() == TransactionModel.ResumeRestore(old(Now()), r)
    {
      match pending
      case RestoreComparing => ResumeRestoreComparing(r);
      case RestoreWriting(_) => ResumeRestoreWriting(r);
      case RestoreRereading => ResumeRestoreRereading(r);
      case RestoreValidating => if r.kind.Ok? { pending := RestoreVerifying; } else { RestoreFailed(r); }
      case RestoreVerifying => ResumeRestoreVerifying(r);
      case _ =>
    }

    method ResumeReleasingRestored(r: Reply)
      requires pending.ReleasingRestored?
      modifies this, meter
      ensures Now() == TransactionModel.ResumeRolledBack(old(Now()), r)
    {
      hide AfterReleaseCall, Claimed, Cancels, Plus, TransactionModel.AfterRelease, TransactionModel.Finish,
        TransactionModel.RetainWriteRecovery;
      var kept := ReleaseReservation(r);
      if r.kind.Ok? { AfterRelease(); }
      else if Cancels(r) {
        if kept { RetainWriteRecovery(); } else { Finish(RolledBack); }
      } else { RetainBecause(RollbackFailed); }
    }

    method ResumeClearingRolledBack(r: Reply)
      requires pending.ClearingRolledBack?
      modifies this, meter
      ensures Now() == TransactionModel.ResumeRolledBack(old(Now()), r)
    {
      hide AfterClear, Clears, Cancels, Plus, TransactionModel.RetainWriteRecovery, TransactionModel.Finish, Bit,
        Drained;
      var cleared := ClearCheckpoint(r, false);
      if cleared { Finish(RolledBack); }
      else if Cancels(r) { RetainWriteRecovery(); }
      else { RetainBecause(RollbackFailed); }
    }

    method ResumeRolledBack(r: Reply)
      modifies this, meter
      ensures Now() == TransactionModel.ResumeRolledBack(old(Now()), r)
    {
      match pending
      case ReleasingRestored => ResumeReleasingRestored(r);
      case ClearingRolledBack => ResumeClearingRolledBack(r);
      case _ =>
    }

    // -------------------------------------------------------------- confirm write

    method AfterRevalidation()
      modifies this
      ensures Now() == TransactionModel.AfterRevalidation(old(Now()))
    {
      if plan.None? || prior.None? { pending := Ready; }
      else if purpose.InstallConfiguration? && plan == prior { commitStarted, pending := Yes, UnchangedCheck; }
      else { state, writeStarted, pending := WriteConfirmed, Yes, Comparing; }
    }

    method Granted()
      modifies this, meter
      ensures Now() == TransactionModel.Granted(old(Now()))
    {
      meter.lock := Some(Handle(id));
      if closed.Yes? { meter.history := Record(meter.history, LeakedLease(id)); }
      lease := Yes;
      if purpose.SaveCalibration? { pending := Revalidating; } else { AfterRevalidation(); }
    }

    method EndPreview()
      modifies this, meter
      ensures Now() == TransactionModel.EndPreview(old(Now()))
    {
      if previewLease.Yes? { meter.lock := None; }
      previewLease, previewRelease := No, No;
    }

    method ResumeClaiming(r: Reply)
      requires pending.Claiming?
      modifies this, meter
      ensures Now() == TransactionModel.ResumePreparation(old(Now()), r)
    {
      pending := Ready;
      if r.kind.Ok? { EndPreview(); }
      else if r.kind.Refused? { Rejected(); }
      else { previewRelease := Yes; }
    }

    /** The verified calibration was already used. */
    method Rejected()
      requires pending.Ready?
      modifies this, meter
      ensures Now() == TransactionModel.EndPreview(old(Cfg(Finished(View().(reservationClaimed := No), Failed,
          evidence), meter.View())))
    {
      reservationClaimed := No;
      Scrubbed();
      EndPreview();
    }

    /** A preview ends its handle: its lock is released by the preview, not here. */
    method Scrubbed()
      requires pending.Ready?
      modifies this
      ensures View() == Finished(old(View()), Failed, old(evidence))
    {
      if closed.No? { Scrub(Failed); }
    }

    method ResumePreparation(r: Reply)
      modifies this, meter
      ensures Now() == TransactionModel.ResumePreparation(old(Now()), r)
    {
      hide Record, Mark, CheckPasses, TransactionModel.CheckFailed, AfterReleaseCall, Claimed, Drained,
        TransactionModel.FinishWith, TransactionModel.Finish, TransactionModel.Granted,
        TransactionModel.AfterRevalidation, TransactionModel.EndPreview, Finished, Secrets;
      match pending
      case Claiming => ResumeClaiming(r);
      case Acquiring =>
        if !r.kind.Ok? { pending := Ready; }
        else if meter.lock.None? { Granted(); }
      case Revalidating =>
        var code := if Cancels(r) then Cancelled else SourceChanged;
        if r.kind.Ok? { AfterRevalidation(); }
        else if reservationClaimed.Yes? { pending := ReleasingStale(code); }
        else { FinishWith(Failed, code); }
      case ReleasingStale(code) =>
        var kept := ReleaseReservation(r);
        if kept { pending := Ready; } else { FinishWith(Failed, code); }
      case UnchangedCheck =>
        var passes := CheckSource(r);
        if passes { pending := UnchangedSave; } else { CheckFailed(); }
      case UnchangedSave =>
        if Drained(r) {
          AddProgress(MetadataPersisted);
          Finish(Verified);
        } else { FinishWith(Failed, PersistenceFailed); }
      case _ =>
    }

    method ResumeComparing(r: Reply)
      requires pending.Comparing?
      modifies this, meter
      ensures Now() == TransactionModel.ResumeWrite(old(Now()), r)
    {
      if !r.kind.Ok? { Uncertain(r); }
      else if meter.remote == source { pending := Writing(meter.history.edits); }
      else {
        writeStarted := No;
        if reservationClaimed.Yes? { pending := ReleasingStale(SourceChanged); }
        else { FinishWith(Failed, SourceChanged); }
      }
    }

    method ResumeWriting(r: Reply)
      requires pending.Writing?
      modifies this, meter
      ensures Now() == TransactionModel.ResumeWrite(old(Now()), r)
    {
      hide Record, Mark, Plus, Cancels;
      if r.kind.Ok? || r.applied {
        meter.history := Record(meter.history, Wrote(id, source, meter.remote, proposed, pending.since));
        meter.remote := proposed;
      }
      if r.kind.Ok? { state, progress, pending := Written, Mark(progress, ConfigWritten), Validating; }
      else { Uncertain(r); }
    }

    method ResumeReconciling(r: Reply)
      requires pending.Reconciling?
      modifies this, meter
      ensures Now() == TransactionModel.ResumeWrite(old(Now()), r)
      ensures old(Good(Now())) ==>
                && (closed.Yes? <==> r.kind.Ok? && old(meter.remote) == source)
                && (pending.RestoreComparing? <==>
                    r.kind.Ok? && old(meter.remote) == proposed && old(meter.remote) != source)
    {
      hide Good;
      ghost var before := Now();
      if Good(before) { ReconcilingDecides(before, r); }
      if r.kind.Interrupted? { pending := Ready; }
      else if !r.kind.Ok? { RetainWriteRecovery(); }
      else if meter.remote == source { FinishWith(Failed, WriteNotApplied); }
      else if meter.remote == proposed { Rollback(); }
      else { RetainWriteRecovery(); }
    }

    method ResumeValidating(r: Reply)
      requires pending.Validating?
      modifies this, meter
      ensures Now() == TransactionModel.ResumeWrite(old(Now()), r)
    {
      hide Record, Mark, Plus, BeginRollback;
      if r.kind.Ok? {
        meter.history := Record(meter.history, ConfigValid(id));
        state, progress, pending := Validated, Mark(progress, ConfigValidated), Ready;
      } else { RollbackBecause(if r.kind.Refused? then ValidationFailed else ValidationUnavailable); }
    }

    method ResumeWrite(r: Reply)
      modifies this, meter
      ensures Now() == TransactionModel.ResumeWrite(old(Now()), r)
    {
      match pending
      case Comparing => ResumeComparing(r);
      case Writing(_) => ResumeWriting(r);
      case Reconciling => ResumeReconciling(r);
      case Validating => ResumeValidating(r);
      case _ =>
    }

    method Uncertain(r: Reply)
      modifies this`evidence, this`pending
      ensures Now() == TransactionModel.Uncertain(old(Now()), r)
    {
      evidence, pending := Plus(evidence, if Cancels(r) then Cancelled else WriteFailed), Reconciling;
    }

    method RollbackBecause(code: Evidence)
      modifies this, meter
      ensures Now() == BeginRollback(old(Now()), Plus(old(evidence), code))
    {
      if recovered.No? && OtaAttempted !in progress { evidence := Plus(evidence, code); }
      Rollback();
    }

    /** The release that a failed preview left running beside the handle's operations. */
    method ResumePreview(r: Reply)
      modifies this, meter
      ensures Now() == TransactionModel.ResumePreview(old(Now()), r)
    {
      var kept := ReleaseReservation(r);
      if !kept && closed.No? {
        Release();
        Scrub(Failed);
      }
      EndPreview();
    }

    // -------------------------------------------------------------------- compile

    method ResumeCompileCheck(r: Reply)
      requires pending.CompileCheck?
      modifies this, meter
      ensures Now() == TransactionModel.ResumeCompile(old(Now()), r)
    {
      hide Secrets;
      var passes := CheckSource(r);
      if passes { pending := Compiling; } else { CheckFailed(); }
    }

    method ResumeCompiling(r: Reply)
      requires pending.Compiling?
      modifies this, meter
      ensures Now() == TransactionModel.ResumeCompile(old(Now()), r)
    {
      hide Cancels, Plus, BeginRollback;
      if r.kind.Ok? { pending := CompiledCheck; }
      else if Cancels(r) { RollbackBecause(ValidationUnavailable); }
      else { state, rollbackAvailable, evidence, pending := Failed, Yes, Plus(evidence, CompileFailed), Ready; }
    }

    method ResumeCompiledCheck(r: Reply)
      requires pending.CompiledCheck?
      modifies this, meter
      ensures Now() == TransactionModel.ResumeCompile(old(Now()), r)
    {
      hide Record, Mark, CheckPasses, TransactionModel.CheckFailed, Secrets;
      var passes := CheckSource(r);
      if passes {
        meter.history := Record(meter.history, FirmwareBuilt(id));
        state, progress, pending := InstallConfirmationRequired, Mark(progress, FirmwareCompiled), Ready;
      } else { CheckFailed(); }
    }

    method ResumeCompile(r: Reply)
      modifies this, meter
      ensures Now() == TransactionModel.ResumeCompile(old(Now()), r)
    {
      match pending
      case CompileCheck => ResumeCompileCheck(r);
      case Compiling => ResumeCompiling(r);
      case CompiledCheck => ResumeCompiledCheck(r);
      case _ =>
    }

    // ------------------------------------------------------------ confirm install

    method StartConfirmInstall()
      modifies this, meter
      ensures Now() == TransactionModel.StartConfirmInstall(old(Now()))
    {
      if state.InstallConfirmationRequired? {
        if OtaAttempted in progress { pending := if recovered.Yes? then RecoveredRead else RetryCheck; }
        else if purpose.SaveCalibration? { pending := CheckingVerified; }
        else { commitStarted, pending := Yes, Revoking; }
      }
    }

    /** `_upload_locked`: the file was just read and is the proposal. */
    method Dispatch()
      modifies this, meter
      ensures Now() == TransactionModel.Dispatch(old(Now()), old(evidence))
      ensures OtaAttempted in progress && rollbackAvailable.No? && id in meter.history.dispatched
    {
      meter.history := Record(meter.history, Dispatched(id, source, proposed, meter.remote));
      state, rollbackAvailable, progress, pending := Installing, No, Mark(progress, OtaAttempted), Uploading;
    }

    method ResumeRecoveredRead(r: Reply)
      requires pending.RecoveredRead?
      modifies this, meter
      ensures Now() == TransactionModel.ResumeRetry(old(Now()), r)
    {
      hide Plus;
      if !r.kind.Ok? { pending := Ready; }
      else if meter.remote == proposed { plan, prior, pending := Some(meter.remote), Some(Empty), RetryCheck; }
      else {
        plan, prior := None, None;
        RetainInstallRetry(SourceChanged);
      }
    }

    method ResumeRetryCheck(r: Reply)
      requires pending.RetryCheck?
      modifies this, meter
      ensures Now() == TransactionModel.ResumeRetry(old(Now()), r)
    {
      hide CheckPasses, TransactionModel.CheckFailed, Without, Secrets;
      var passes := CheckSource(r);
      if !passes { CheckFailed(); }
      else {
        ForgetEvidence(true);
        if OtaUploaded in progress { state, pending := Reconnecting, Verifying; } else { Dispatch(); }
      }
    }

    method ResumeRetry(r: Reply)
      modifies this, meter
      ensures Now() == TransactionModel.ResumeRetry(old(Now()), r)
    {
      match pending
      case RecoveredRead => ResumeRecoveredRead(r);
      case RetryCheck => ResumeRetryCheck(r);
      case _ =>
    }

    method ResumeRevoking(r: Reply)
      requires pending.Revoking?
      modifies this, meter
      ensures Now() == TransactionModel.ResumeInstall(old(Now()), r)
    {
      hide Record, Drained, Cancels, TransactionModel.FinishWith;
      if Drained(r) || r.applied { meter.history := Record(meter.history, Revoked(id)); }
      commitStarted := No;
      if r.kind.Ok? { pending := InstallCheck; }
      else { FinishWith(Failed, if Cancels(r) then Cancelled else PersistenceFailed); }
    }

    method ResumeInstallCheck(r: Reply)
      requires pending.InstallCheck?
      modifies this, meter
      ensures Now() == TransactionModel.ResumeInstall(old(Now()), r)
    {
      hide Plus, Without, CheckPasses, TransactionModel.CheckFailed, Secrets;
      var passes := CheckSource(r);
      if passes {
        ForgetEvidence(false);
        state, commitStarted, pending := Installing, Yes, SavingCheckpoint;
      } else { CheckFailed(); }
    }

    method ResumeSavingCheckpoint(r: Reply)
      requires pending.SavingCheckpoint?
      modifies this, meter
      ensures Now() == TransactionModel.ResumeInstall(old(Now()), r)
    {
      hide AfterSave, Cancels, TransactionModel.FinishWith;
      SaveCheckpoint(r, false);
      if r.kind.Ok? { commitStarted, checkpointSaved, pending := No, Yes, DispatchCheck; }
      else if Cancels(r) {
        checkpointSaved, pending := Bit(checkpointSaved.Yes? || r.kind.OkCancelled?), ClearingCancelled;
      }
      else {
        commitStarted := No;
        FinishWith(Failed, PersistenceFailed);
      }
    }

    method ResumeClearingCancelled(r: Reply)
      requires pending.ClearingCancelled?
      modifies this, meter
      ensures Now() == TransactionModel.ResumeInstall(old(Now()), r)
    {
      hide AfterClear, Drained, TransactionModel.FinishWith;
      commitStarted := No;
      var cleared := ClearCheckpoint(r, true);
      if cleared { FinishWith(Failed, Cancelled); } else { pending := Ready; }
    }

    method ResumeDispatchCheck(r: Reply)
      requires pending.DispatchCheck?
      modifies this, meter
      ensures Now() == TransactionModel.ResumeInstall(old(Now()), r)
    {
      hide Secrets;
      var passes := CheckSource(r);
      if passes { Dispatch(); } else { CheckFailed(); }
    }

    method ResumeInstall(r: Reply)
      modifies this, meter
      ensures Now() == TransactionModel.ResumeInstall(old(Now()), r)
    {
      match pending
      case CheckingVerified => if r.kind.Ok? { commitStarted, pending := Yes, Revoking; } else { pending := Ready; }
      case Revoking => ResumeRevoking(r);
      case InstallCheck => ResumeInstallCheck(r);
      case SavingCheckpoint => ResumeSavingCheckpoint(r);
      case ClearingCancelled => ResumeClearingCancelled(r);
      case DispatchCheck => ResumeDispatchCheck(r);
      case _ =>
    }

    // --------------------------------------------------------- upload and verify

    method ResumeUploading(r: Reply)
      requires pending.Uploading?
      modifies this, meter
      ensures Now() == TransactionModel.ResumeUpload(old(Now()), r)
    {
      if r.kind.Ok? { UploadAcknowledged(); }
      else if r.kind.Refused? { commitStarted, pending := Yes, ClearingRejected(UploadFailed); }
      else { RetainInstallRetry(UploadOutcomeUnknown); }
    }

    method UploadAcknowledged()
      requires pending.Uploading?
      modifies this, meter
      ensures Now() == TransactionModel.ResumeUpload(old(Now()), Reply(Kind.Ok, true, Cancelled))
    {
      hide Record, Mark;
      meter.history := Record(meter.history, Acknowledged(id));
      progress := Mark(progress, OtaUploaded);
      if checkpointSaved.Yes? { commitStarted, pending := Yes, SavingUploaded; }
      else { state, pending := Reconnecting, Verifying; }
    }

    method ResumeSavingUploaded(r: Reply)
      requires pending.SavingUploaded?
      modifies this, meter
      ensures Now() == TransactionModel.ResumeUpload(old(Now()), r)
    {
      hide AfterSave, Plus, TransactionModel.RetainInstallRetry, Bit, Drained;
      SaveCheckpoint(r, true);
      commitStarted := No;
      if r.kind.Ok? { state, pending := Reconnecting, Verifying; }
      else { RetainInstallRetry(if r.kind.OkCancelled? then ReconnectUnavailable else PersistenceFailed); }
    }

    method ResumeClearingRejected(r: Reply)
      requires pending.ClearingRejected?
      modifies this, meter
      ensures Now() == TransactionModel.ResumeUpload(old(Now()), r)
    {
      hide AfterClear, Drained, TransactionModel.FinishWith, Plus;
      var code := pending.code;
      commitStarted := No;
      var cleared := ClearCheckpoint(r, true);
      if cleared { FinishWith(Failed, code); }
      else {
        evidence := Plus(evidence, code);
        RetainInstallRetry(PersistenceFailed);
      }
    }

    method ResumeUpload(r: Reply)
      modifies this, meter
      ensures Now() == TransactionModel.ResumeUpload(old(Now()), r)
    {
      match pending
      case Uploading => ResumeUploading(r);
      case SavingUploaded => ResumeSavingUploaded(r);
      case ClearingRejected(_) => ResumeClearingRejected(r);
      case _ =>
    }

    method ResumeVerifying(r: Reply)
      requires pending.Verifying?
      modifies this, meter
      ensures Now() == TransactionModel.ResumeVerify(old(Now()), r)
    {
      hide Mark, Plus, TransactionModel.RetainInstallRetry, Bit;
      if r.kind.Ok? { progress, commitStarted, pending := Mark(progress, DeviceVerified), Yes, PersistCheck; }
      else if r.kind.Refused? && !Retryable(r.code) { commitStarted, pending := Yes, ClearingRejected(r.code); }
      else { RetainInstallRetry(if r.kind.Refused? then r.code else ReconnectUnavailable); }
    }

    method ResumePersistCheck(r: Reply)
      requires pending.PersistCheck?
      modifies this, meter
      ensures Now() == TransactionModel.ResumeVerify(old(Now()), r)
    {
      hide CheckPasses, Secrets, TransactionModel.CheckFailed, TransactionModel.Retry;
      var passes := CheckSource(r);
      if passes { pending := Persisting; }
      else { NotPersisted(); }
    }

    method NotPersisted()
      modifies this, meter
      ensures Now() == TransactionModel.Retry(TransactionModel.CheckFailed(old(Now())), PersistenceFailed)
    {
      hide TransactionModel.CheckFailed, TransactionModel.RetainInstallRetry;
      CheckFailed();
      RetainInstallRetry(PersistenceFailed);
    }

    method ResumePersisting(r: Reply)
      requires pending.Persisting?
      modifies this, meter
      ensures Now() == TransactionModel.ResumeVerify(old(Now()), r)
    {
      hide Mark, Drained, Plus, TransactionModel.RetainInstallRetry, Bit;
      if Drained(r) { progress, commitStarted, pending := Mark(progress, MetadataPersisted), Yes, ClearingDone; }
      else { RetainInstallRetry(PersistenceFailed); }
    }

    method ResumeClearingDone(r: Reply)
      requires pending.ClearingDone?
      modifies this, meter
      ensures Now() == TransactionModel.ResumeVerify(old(Now()), r)
    {
      hide AfterClear, Clears, TransactionModel.Finish, Plus, TransactionModel.RetainInstallRetry, Bit;
      var cleared := ClearCheckpoint(r, true);
      if cleared { Finish(Verified); } else { RetainInstallRetry(PersistenceFailed); }
    }

    method ResumeVerify(r: Reply)
      modifies this, meter
      ensures Now() == TransactionModel.ResumeVerify(old(Now()), r)
    {
      match pending
      case Verifying => ResumeVerifying(r);
      case PersistCheck => ResumePersistCheck(r);
      case Persisting => ResumePersisting(r);
      case ClearingDone => ResumeClearingDone(r);
      case _ =>
    }

    // -------------------------------------------------------- abandon and expire

    method StartAbandon()
      modifies this, meter
      ensures Now() == TransactionModel.StartAbandon(old(Now()))
    {
      if state.Previewed? {
        if reservationClaimed.Yes? && writeStarted.No? { pending := AbandonRelease; } else { AfterAbandon(); }
      } else if AbandonableRetry(View()) {
        if recovered.Yes? { AfterAbandon(); } else { pending := AbandonCheck; }
      }
    }

    method AfterAbandon()
      modifies this, meter
      ensures Now() == TransactionModel.AfterAbandon(old(Now()))
    {
      if OtaAttempted in progress { pending := AbandonClear; } else { FinishWith(Failed, Cancelled); }
    }

    method ResumeAbandonRelease(r: Reply)
      requires pending.AbandonRelease?
      modifies this, meter
      ensures Now() == TransactionModel.ResumeAbandon(old(Now()), r)
    {
      var _ := ReleaseReservation(r);
      if r.kind.Ok? { AfterAbandon(); } else { pending := Ready; }
    }

    method ResumeAbandonClear(r: Reply)
      requires pending.AbandonClear?
      modifies this, meter
      ensures Now() == TransactionModel.ResumeAbandon(old(Now()), r)
    {
      hide AfterClear, Clears, TransactionModel.FinishWith;
      var cleared := ClearCheckpoint(r, false);
      if cleared { FinishWith(Failed, Cancelled); } else { pending := Ready; }
    }

    method ResumeExpiryReleasing(r: Reply)
      requires pending.ExpiryReleasing?
      modifies this, meter
      ensures Now() == TransactionModel.ResumeAbandon(old(Now()), r)
    {
      var _ := ReleaseReservation(r);
      plan, prior, closed, pending := None, None, Yes, Ready;
    }

    method ResumeAbandon(r: Reply)
      modifies this, meter
      ensures Now() == TransactionModel.ResumeAbandon(old(Now()), r)
    {
      hide Secrets;
      match pending
      case AbandonRelease => ResumeAbandonRelease(r);
      case AbandonCheck =>
        var passes := CheckSource(r);
        if passes { AfterAbandon(); } else { CheckFailed(); }
      case AbandonClear => ResumeAbandonClear(r);
      case ExpiryReleasing => ResumeExpiryReleasing(r);
      case _ =>
    }

    method Expire()
      modifies this, meter
      ensures Now() == TransactionModel.Expire(old(Now()))
      ensures old(Good(Now())) ==> Good(Now())
    {
      hide Good;
      ghost var before := Now();
      if closed.Yes? || expiryCleanupStarted.Yes? || commitStarted.Yes? || !pending.Ready? || cleanupQueued.Yes? {}
      else if recovered.No? && writeStarted.Yes? && OtaAttempted !in progress
           && !(state.Compiled? || state.InstallConfirmationRequired? || state.Installing? || state.Reconnecting?
             || state.Verified?) {
        state, rollbackAvailable, expiryCleanupStarted, cleanupQueued := Failed, Yes, Yes, Yes;
      } else {
        Release();
        if reservationClaimed.Yes? && writeStarted.No? { ExpireClaimed(); } else { ExpireClosing(); }
      }
      if Good(before) { ExpireGood(before); }
    }

    method ExpireClaimed()
      modifies this
      ensures View() == old(View()).(state := Failed, lease := No, expiryCleanupStarted := Yes,
          pending := ExpiryReleasing)
    {
      state, lease, expiryCleanupStarted, pending := Failed, No, Yes, ExpiryReleasing;
    }

    method ExpireClosing()
      modifies `state, `lease, `plan, `prior, `closed
      ensures View() == old(View()).(state := Failed, lease := No, plan := None, prior := None, closed := Yes)
    {
      state, lease, plan, prior, closed := Failed, No, None, None, Yes;
    }

    method StartCleanup()
      modifies this, meter
      ensures Now() == TransactionModel.StartCleanup(old(Now()))
      ensures old(Good(Now())) ==> Good(Now())
    {
      hide Good;
      ghost var before := Now();
      if cleanupQueued.Yes? && pending.Ready? {
        cleanupQueued := No;
        Rollback();
      }
      if Good(before) { CleanupGood(before); }
    }

    // ---------------------------------------------------------------- one whole step

    method Start(op: Operation)
      modifies this, meter
      ensures Now() == TransactionModel.Start(old(Now()), op)
      ensures old(Good(Now())) ==> Good(Now())
    {
      hide Good;
      ghost var before := Now();
      if closed.No? && pending.Ready? {
        match op
        case ConfirmWrite => if state.Previewed? { pending := Acquiring; }
        case Compile => if state.Validated? && plan.Some? && prior.Some? { pending := CompileCheck; }
        case ConfirmInstall => StartConfirmInstall();
        case Rollback =>
          if (state.Failed? || state.InstallConfirmationRequired?) && rollbackAvailable.Yes? { Rollback(); }
        case Abandon => StartAbandon();
      }
      if Good(before) { StartGood(before, op); }
    }

    method Resume(r: Reply)
      modifies this, meter
      ensures Now() == TransactionModel.Resume(old(Now()), r)
      ensures old(Good(Now())) ==> Good(Now())
    {
      hide Good;
      ghost var before := Now();
      match PartOf(pending) {
        case Preparation => ResumePreparation(r);
        case Write => ResumeWrite(r);
        case Restoring => ResumeRestore(r);
        case RolledBackPart => ResumeRolledBack(r);
        case Compilation => ResumeCompile(r);
        case Retrying => ResumeRetry(r);
        case Install => ResumeInstall(r);
        case Upload => ResumeUpload(r);
        case Verification => ResumeVerify(r);
        case Abandoning => ResumeAbandon(r);
        case NoPart =>
      }
      if Good(before) { ResumeGood(before, r); }
    }

    method Take(act: Act)
      modifies this, meter
      ensures Now() == Perform(old(Now()), act)
    {
      match act
      case Called(op) => Start(op);
      case Returned(r) => Resume(r);
      case Expired => Expire();
      case CleanedUp => StartCleanup();
    }

    /** What callers, replies and deadlines do to one handle, in order. It keeps the invariant of
        this handle and of every other one on the same meter. */
    method Serve(acts: seq<Act>)
      modifies this, meter
      ensures Now() == TransactionModel.Serve(old(Now()), acts)
      ensures old(Good(Now())) ==> Good(Now())
      ensures old(Good(Now())) ==> forall u: Txn :: u.id != id && Fits(u, old(meter.View())) ==> Fits(u, meter.View())
    {
      hide Good, Fits, Perform;
      ghost var before := Now();
      var i := 0;
      while i < |acts|
        invariant 0 <= i <= |acts|
        invariant Now() == TransactionModel.Serve(before, acts[..i])
      {
        assert acts[..i + 1][..i] == acts[..i] && acts[..i + 1][i] == acts[i];
        Take(acts[i]);
        i := i + 1;
      }
      assert acts[..i] == acts;
      if Good(before) {
        ServeGood(before, acts);
        forall u: Txn | u.id != id && Fits(u, before.w) ensures Fits(u, meter.View()) {
          ServeUnnoticed(before, acts, u);
        }
      }
    }
  }
}
