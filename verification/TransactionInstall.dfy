/** The stretches of an installation keep the invariant of their handle: from the second
    confirmation through dispatch, acknowledgement and verification to the final removal
    of the durable record, and the ways a handle is given up. */
module TransactionInstall {
  import opened Common
  import opened TransactionModel
  import opened TransactionLaws
  import opened TransactionSteps

  // -------------------------------------------------------------------- install

  /** What every await of an installation shares. */
  lemma InstallFacts(c: Cfg)
    requires Good(c) && !c.t.closed.Yes? && !c.t.pending.ReleasingRestored? && !c.t.pending.ClearingRolledBack?
    requires c.t.state.InstallConfirmationRequired? || c.t.state.Installing? || c.t.state.Reconnecting?
             || 4 <= Level(c.t.recovered, c.t.progress)
    ensures Running(c) && c.t.writeStarted.Yes? && c.t.lease.Yes? && !Undone(c.t.progress)
    ensures 3 <= Level(c.t.recovered, c.t.progress)
    ensures Attempted(c.t) <==> 4 <= Level(c.t.recovered, c.t.progress)
    ensures OtaUploaded in c.t.progress <==> 5 <= Level(c.t.recovered, c.t.progress)
    ensures c.t.recovered.Yes? ==> Attempted(c.t)
  {
    OpenRuns(c);
    Markers(c.t.recovered, c.t.progress);
    hide Shape, Level, Flow, WorldOk, Recorded, Running, Secrets, RollbackAuthority, Belongings;
  }

  lemma ForeignSourceGood(c: Cfg)
    requires Good(c) && c.t.pending.RecoveredRead?
    ensures Good(Retry(c.(t := c.t.(plan := None, prior := None)), SourceChanged))
  {
    InstallFacts(c);
    var d := c.(t := c.t.(plan := None, prior := None));
    assert Running(d) by { hide Trail, Marker, Lawful, Shape, Level; }
    hide Fits, WorldOk, Running, RetainInstallRetry, Level;
    RetryGood(d, d.t.evidence, SourceChanged);
  }

  lemma RecoveredReadGood(c: Cfg, r: Reply)
    requires Good(c) && c.t.pending.RecoveredRead?
    ensures Good(ResumeRetry(c, r))
  {
    InstallFacts(c);
    if !r.kind.Ok? { hide Trail, Marker, Lawful, WorldOk, Running; }
    else if c.w.remote == c.t.proposed { hide Trail, Marker, Lawful, WorldOk, Running; }
    else { ForeignSourceGood(c); hide Fits, WorldOk, Running, RetainInstallRetry, Level; }
  }

  lemma DispatchedOpen(c: Cfg)
    requires Good(c) && (c.t.pending.RetryCheck? || c.t.pending.DispatchCheck?)
    ensures !c.t.closed.Yes? && c.t.writeStarted.Yes? && c.t.lease.Yes? && !c.t.rollbackAvailable.Yes?
        && c.t.checkpointSaved.Yes?
    ensures c.t.state.InstallConfirmationRequired? || c.t.state.Installing?
  {
    InstallFacts(c);
    hide Shape, Level, WorldOk, Recorded, Secrets, Locks;
  }

  /** Before an upload is acknowledged the record is there unless a removal took effect behind
      an error. */
  lemma RecordKnown(t: Txn, w: World)
    requires Recorded(t, w) && Belongings(t, w) && !t.closed.Yes? && t.lease.Yes? && t.checkpointSaved.Yes?
    requires OtaUploaded !in t.progress
    ensures w.history.durable == Some(t.id) <==> ClearedSilently(t.id) !in w.history.seen
  {
    hide Level, Undone, Stuck;
  }

  lemma DispatchSeen(c: Cfg)
    requires Good(c) && (c.t.pending.RetryCheck? || c.t.pending.DispatchCheck?) && OtaUploaded !in c.t.progress
    ensures var h := c.w.history.seen;
            && Opened(c.t.id, c.t.source, c.t.proposed) in h && ConfigValid(c.t.id) in h && FirmwareBuilt(c.t.id) in h
            && Revoked(c.t.id) in h && Saved(c.t.id, false) in h && Saved(c.t.id, true) !in h
  {
    hide Shape, Level, Undone, WorldOk, Locks, Secrets, Staged, RollbackAuthority, Belongings, Running;
    InstallFacts(c);
    DispatchedOpen(c);
  }

  /** The first dispatch and every later one: the file was just read and is the proposal. */
  lemma DispatchLawful(c: Cfg)
    requires Good(c) && (c.t.pending.RetryCheck? || c.t.pending.DispatchCheck?)
    requires c.t.plan == Some(c.w.remote) && OtaUploaded !in c.t.progress
    ensures Lawful(c.w.history, Dispatched(c.t.id, c.t.source, c.t.proposed, c.w.remote))
    ensures Revoked(c.t.id) in c.w.history.seen && Saved(c.t.id, false) in c.w.history.seen && c.t.checkpointSaved.Yes?
  {
    assert c.t.proposed == c.w.remote && Recorded(c.t, c.w) && Belongings(c.t, c.w) by {
      hide Shape, Level, Undone, WorldOk, Locks, Recorded, Staged, RollbackAuthority, Belongings, Running, Flow;
    }
    hide Fits, WorldOk, Recorded, Belongings, Running, Level;
    DispatchSeen(c);
    DispatchedOpen(c);
    RecordKnown(c.t, c.w);
  }

  lemma DispatchWorldOk(c: Cfg, e: Effect)
    requires WorldOk(c.w) && (e.Dispatched? || e.Acknowledged? || e.Revoked? || e.Released? || e.FirmwareBuilt?)
        && Lawful(c.w.history, e)
    ensures WorldOk(Note(c.w, e))
  {
    hide Lawful;
  }

  lemma DispatchProgress(c: Cfg)
    requires Good(c) && (c.t.pending.RetryCheck? || c.t.pending.DispatchCheck?)
    requires OtaUploaded !in c.t.progress
    ensures var p := Mark(c.t.progress, OtaAttempted);
            && Shape(c.t.recovered, p) && !Undone(p) && Level(c.t.recovered, p) == 4 && p != []
            && OtaAttempted in p && OtaUploaded !in p
  {
    InstallFacts(c);
    hide Locks, Recorded, WorldOk, Staged, Secrets, RollbackAuthority, Belongings;
    Advance(c.t, 3);
    Markers(c.t.recovered, Mark(c.t.progress, OtaAttempted));
  }

  /** A handle that reached level three was built, and stays so. */
  lemma BuiltBefore(c: Cfg, e: Effect)
    requires Running(c) && 3 <= Level(c.t.recovered, c.t.progress)
    ensures FirmwareBuilt(c.t.id) in c.w.history.seen && FirmwareBuilt(c.t.id) in Note(c.w, e).history.seen
  {
    hide Shape, Level, Lawful, WorldOk, Secrets, Locks;
  }

  lemma DispatchedRuns(c: Cfg)
    requires Good(c) && (c.t.pending.RetryCheck? || c.t.pending.DispatchCheck?)
    requires c.t.plan == Some(c.w.remote) && OtaUploaded !in c.t.progress
    ensures Running(Cfg(c.t.(progress := Mark(c.t.progress, OtaAttempted)),
                        Note(c.w, Dispatched(c.t.id, c.t.source, c.t.proposed, c.w.remote))))
  {
    hide Fits, Shape, Mark, WorldOk, Lawful, Level, Undone;
    DispatchedOpen(c);
    InstallFacts(c);
    DispatchLawful(c);
    DispatchProgress(c);
    BuiltBefore(c, Crashed);
    DispatchWorldOk(c, Dispatched(c.t.id, c.t.source, c.t.proposed, c.w.remote));
  }

  lemma DispatchedGood(c: Cfg, evidence: seq<Evidence>)
    requires Good(c) && (c.t.pending.RetryCheck? || c.t.pending.DispatchCheck?)
    requires c.t.plan == Some(c.w.remote) && OtaUploaded !in c.t.progress
    ensures Good(Dispatch(c, evidence))
  {
    hide Fits, WorldOk, Running, Shape, Level, Lawful, Mark, Undone, Secrets, Locks, Recorded;
    DispatchedOpen(c);
    DispatchProgress(c);
    DispatchedRuns(c);
    var d := Cfg(c.t.(rollbackAvailable := No, progress := Mark(c.t.progress, OtaAttempted)),
                 Note(c.w, Dispatched(c.t.id, c.t.source, c.t.proposed, c.w.remote)));
    MovesGood(d, d.t.(state := Installing, evidence := evidence, pending := Uploading));
  }

  lemma RetryVerifiesGood(c: Cfg)
    requires Good(c) && c.t.pending.RetryCheck? && OtaUploaded in c.t.progress
    ensures Good(c.(t := c.t.(evidence := Without(c.t.evidence, true), state := Reconnecting, pending := Verifying)))
  {
    hide Fits, WorldOk, Running, Shape, Level, Without;
    DispatchedOpen(c);
    InstallFacts(c);
    MovesGood(c, c.t.(evidence := Without(c.t.evidence, true), state := Reconnecting, pending := Verifying));
  }

  lemma RetryCheckGood(c: Cfg, r: Reply)
    requires Good(c) && c.t.pending.RetryCheck?
    ensures Good(ResumeRetry(c, r))
  {
    hide Fits, WorldOk, Running, Shape, Level, Without, CheckFailed, Dispatch;
    DispatchedOpen(c);
    InstallFacts(c);
    if !CheckPasses(c, r) { StaleSourceGood(c); }
    else if OtaUploaded in c.t.progress { RetryVerifiesGood(c); }
    else { DispatchedGood(c, Without(c.t.evidence, true)); }
  }

  lemma ConfirmableGood(c: Cfg, p: Pending, commitStarted: Flag)
    requires Good(c) && !c.t.closed.Yes? && c.t.pending.Ready? && c.t.state.InstallConfirmationRequired?
    requires if Attempted(c.t) then p == if c.t.recovered.Yes? then RecoveredRead else RetryCheck
             else p.CheckingVerified? || p.Revoking?
    ensures Good(c.(t := c.t.(commitStarted := commitStarted, pending := p)))
  {
    InstallFacts(c);
    hide Shape, Level, Running, Locks, Recorded, Secrets, WorldOk, Belongings;
    MovesGood(c, c.t.(commitStarted := commitStarted, pending := p));
  }

  lemma StartInstallGood(c: Cfg)
    requires Good(c) && !c.t.closed.Yes? && c.t.pending.Ready?
    ensures Good(StartConfirmInstall(c))
  {
    hide Fits, WorldOk, Attempted;
    if !c.t.state.InstallConfirmationRequired? {}
    else if Attempted(c.t) {
      ConfirmableGood(c, if c.t.recovered.Yes? then RecoveredRead else RetryCheck, c.t.commitStarted);
    }
    else if c.t.purpose.SaveCalibration? { ConfirmableGood(c, CheckingVerified, c.t.commitStarted); }
    else { ConfirmableGood(c, Revoking, Yes); }
  }

  lemma CheckingVerifiedGood(c: Cfg, r: Reply)
    requires Good(c) && c.t.pending.CheckingVerified?
    ensures Good(ResumeInstall(c, r))
  {
    hide Shape, Lawful, WorldOk, Level;
    if r.kind.Ok? {} else {}
  }

  lemma NotedRecord(c: Cfg, e: Effect)
    requires Recorded(c.t, c.w) && (e == Revoked(c.t.id) || e == Acknowledged(c.t.id))
    ensures Recorded(c.t, Note(c.w, e))
  {
    hide Level, Lawful, Undone;
  }

  /** Remembering what was revoked or acknowledged asks nothing more of an open handle. */
  lemma NotedRuns(c: Cfg, e: Effect)
    requires Running(c) && (e == Revoked(c.t.id) || e == Acknowledged(c.t.id)) && Lawful(c.w.history, e)
    ensures Running(Cfg(c.t, Note(c.w, e)))
  {
    DispatchWorldOk(c, e);
    NotedRecord(c, e);
    hide Shape, Level, WorldOk, Lawful, Undone, Stuck, Recorded, Secrets;
  }

  lemma CommitRuns(c: Cfg, commitStarted: Flag)
    requires Running(c)
    ensures Running(c.(t := c.t.(commitStarted := commitStarted)))
  {
    hide Shape, Level, WorldOk;
  }

  lemma RevokedRuns(c: Cfg, r: Reply)
    requires Good(c) && c.t.pending.Revoking?
    ensures var w := if Drained(r) || r.applied then Note(c.w, Revoked(c.t.id)) else c.w;
            Running(Cfg(c.t.(commitStarted := No), w))
  {
    InstallFacts(c);
    BuiltBefore(c, Crashed);
    hide Fits, Running, WorldOk, Level;
    if Drained(r) || r.applied { NotedRuns(c, Revoked(c.t.id)); }
    CommitRuns(Cfg(c.t, if Drained(r) || r.applied then Note(c.w, Revoked(c.t.id)) else c.w), No);
  }

  lemma RevokedStage(c: Cfg)
    requires Good(c) && c.t.pending.Revoking?
    ensures c.t.state.InstallConfirmationRequired? && Level(c.t.recovered, c.t.progress) == 3 && !c.t.closed.Yes?
    ensures c.t.writeStarted.Yes? && !Undone(c.t.progress) && RollbackAuthority(c.t)
  {
    InstallFacts(c);
    hide Shape, Level, WorldOk, Recorded, Secrets, Locks, Belongings;
  }

  lemma RevokedSame(c: Cfg)
    ensures Revoked(c.t.id) in Note(c.w, Revoked(c.t.id)).history.seen
  {}

  lemma RevokedGood(c: Cfg)
    requires Good(c) && c.t.pending.Revoking?
    ensures Good(Cfg(c.t.(commitStarted := No, pending := InstallCheck), Note(c.w, Revoked(c.t.id))))
  {
    hide Fits, Running, WorldOk, Level, Shape;
    RevokedStage(c);
    var d := Cfg(c.t, Note(c.w, Revoked(c.t.id)));
    RevokedRuns(c, Reply(Kind.Ok, true, Cancelled));
    RevokedSame(c);
    MovesGood(Cfg(c.t.(commitStarted := No), d.w), c.t.(commitStarted := No, pending := InstallCheck));
  }

  lemma RevokingGood(c: Cfg, r: Reply)
    requires Good(c) && c.t.pending.Revoking?
    ensures Good(ResumeInstall(c, r))
  {
    var w := if Drained(r) || r.applied then Note(c.w, Revoked(c.t.id)) else c.w;
    var d := Cfg(c.t.(commitStarted := No), w);
    InstallFacts(c);
    RevokedRuns(c, r);
    BuiltBefore(c, Revoked(c.t.id));
    hide Fits, WorldOk, Running, Finished, Level, Note;
    if r.kind.Ok? { RevokedGood(c); }
    if !r.kind.Ok? { FinishGood(d, Failed, Plus(c.t.evidence, if Cancels(r) then Cancelled else PersistenceFailed)); }
  }

  lemma InstallCheckGood(c: Cfg, r: Reply)
    requires Good(c) && c.t.pending.InstallCheck?
    ensures Good(ResumeInstall(c, r))
  {
    InstallFacts(c);
    if CheckPasses(c, r) { hide Shape, Lawful, WorldOk, Running, Level, Without; }
    else { StaleSourceGood(c); hide Fits, WorldOk, Running, CheckFailed, Level; }
  }

  /** Saving the durable record puts this handle's own in place. */
  lemma SavedRuns(c: Cfg, uploaded: bool)
    requires Running(c) && c.t.lease.Yes? && 3 <= Level(c.t.recovered, c.t.progress)
    requires Revoked(c.t.id) in c.w.history.seen
    requires if uploaded then OtaUploaded in c.t.progress && Attempted(c.t)
             else !c.t.recovered.Yes? && !Attempted(c.t) && OtaUploaded !in c.t.progress
                  && c.t.state.Installing? && !Stuck(c.t) && !Undone(c.t.progress)
    ensures var cp := Checkpoint(c.t.id, uploaded, c.t.source, c.t.proposed, c.t.purpose);
            var w := Note(c.w.(checkpoint := Some(cp)), Saved(c.t.id, uploaded));
            && Running(Cfg(c.t, w)) && Running(Cfg(c.t.(checkpointSaved := Yes), w))
            && w.history.durable == Some(c.t.id) && c.w.history.seen <= w.history.seen
  {
    hide Shape, Level;
    var cp := Checkpoint(c.t.id, uploaded, c.t.source, c.t.proposed, c.t.purpose);
    var w := Note(c.w.(checkpoint := Some(cp)), Saved(c.t.id, uploaded));
    assert WorldOk(w);
    assert Locks(c.t, w);
    assert Recorded(c.t, w);
    assert Locks(c.t.(checkpointSaved := Yes), w);
    assert Recorded(c.t.(checkpointSaved := Yes), w);
  }

  lemma SavingCheckpointFacts(c: Cfg)
    requires Good(c) && (c.t.pending.SavingCheckpoint? || c.t.pending.ClearingCancelled? || c.t.pending.DispatchCheck?)
    ensures Running(c) && c.t.lease.Yes? && c.t.writeStarted.Yes? && !Undone(c.t.progress)
    ensures Level(c.t.recovered, c.t.progress) == 3 && !Attempted(c.t) && OtaUploaded !in c.t.progress
        && !c.t.recovered.Yes?
    ensures Revoked(c.t.id) in c.w.history.seen && FirmwareBuilt(c.t.id) in c.w.history.seen
    ensures c.t.state.Installing? && !c.t.rollbackAvailable.Yes?
  {
    hide Shape, WorldOk, Level, Recorded, Secrets, Belongings, Undone, Note;
    InstallFacts(c);
    BuiltBefore(c, Crashed);
    hide Running;
  }

  /** The save of the first record, whether it took effect or not. */
  lemma AfterSaveRuns(c: Cfg, r: Reply)
    requires Good(c) && c.t.pending.SavingCheckpoint?
    ensures var w := AfterSave(c, r, false);
            && Running(Cfg(c.t, w)) && (Drained(r) ==> Running(Cfg(c.t.(checkpointSaved := Yes), w)))
            && c.w.history.seen <= w.history.seen
  {
    SavingCheckpointFacts(c);
    SavedRuns(c, false);
    hide Fits, Running, WorldOk, Record, Level;
  }

  lemma SavingCheckpointGood(c: Cfg, r: Reply)
    requires Good(c) && c.t.pending.SavingCheckpoint?
    ensures Good(ResumeInstall(c, r))
  {
    SavingCheckpointFacts(c);
    AfterSaveRuns(c, r);
    var w := AfterSave(c, r, false);
    hide Fits, Running, WorldOk, AfterSave, Level, Finished, Shape;
    if r.kind.Ok? {
      var d := Cfg(c.t.(checkpointSaved := Yes), w);
      MovesGood(d, d.t.(commitStarted := No, pending := DispatchCheck));
    } else if Cancels(r) {
      var d := Cfg(if r.kind.OkCancelled? then c.t.(checkpointSaved := Yes) else c.t, w);
      MovesGood(d, d.t.(pending := ClearingCancelled));
    } else {
      CommitRuns(Cfg(c.t, w), No);
      FinishGood(Cfg(c.t.(commitStarted := No), w), Failed, Plus(c.t.evidence, PersistenceFailed));
    }
  }

  lemma ClearingCancelledGood(c: Cfg, r: Reply)
    requires Good(c) && c.t.pending.ClearingCancelled?
    ensures Good(ResumeInstall(c, r))
  {
    SavingCheckpointFacts(c);
    CommitRuns(c, No);
    var d := c.(t := c.t.(commitStarted := No));
    hide Fits, Running, WorldOk, Level, Finished, Shape, Record;
    hide AfterClear, Unlocked, Drained;
    if Clears(c, r, true) { ClearedEndsGood(d, r, true, Failed, Plus(c.t.evidence, Cancelled)); }
    else {
      UnclearedRuns(d, r, true);
      MovesGood(AfterClear(d, r, true), d.t.(pending := Ready));
    }
  }

  lemma DispatchCheckGood(c: Cfg, r: Reply)
    requires Good(c) && c.t.pending.DispatchCheck?
    ensures Good(ResumeInstall(c, r))
  {
    SavingCheckpointFacts(c);
    hide Fits, Running, WorldOk, Level, Finished, Shape, Dispatch, CheckFailed;
    if CheckPasses(c, r) { DispatchedGood(c, c.t.evidence); } else { StaleSourceGood(c); }
  }

  /** Behind the OTA attempt, progress only moves on along the canonical path. */
  lemma MarkedProgress(t: Txn, n: nat)
    requires Shape(t.recovered, t.progress) && Attempted(t) && !Undone(t.progress)
    requires 4 <= n < 7 && n <= Level(t.recovered, t.progress)
    ensures var p := Mark(t.progress, Marker(n));
            && Shape(t.recovered, p) && !Undone(p) && OtaAttempted in p && OtaUploaded in p && p != []
            && n + 1 <= Level(t.recovered, p) && Level(t.recovered, t.progress) <= Level(t.recovered, p)
  {
    Markers(t.recovered, t.progress);
    Advance(t, n);
    Markers(t.recovered, Mark(t.progress, Marker(n)));
  }

  lemma RecoveredLevel(c: Cfg)
    requires Running(c)
    ensures c.t.recovered.Yes? ==> 4 <= Level(c.t.recovered, c.t.progress)
  {}

  lemma ValidBefore(c: Cfg)
    requires Running(c) && 3 <= Level(c.t.recovered, c.t.progress)
    ensures ConfigValid(c.t.id) in c.w.history.seen && c.t.progress != []
  {
    hide Shape, Lawful, WorldOk, Secrets, Locks;
    if c.t.progress == [] { assert Level(c.t.recovered, c.t.progress) == Base(c.t.recovered); RecoveredLevel(c); }
  }

  lemma MarkedRuns(c: Cfg, n: nat)
    requires Running(c) && Attempted(c.t) && !Undone(c.t.progress)
    requires 4 <= n < 7 && n <= Level(c.t.recovered, c.t.progress) && Acknowledged(c.t.id) in c.w.history.seen
    ensures var t := c.t.(progress := Mark(c.t.progress, Marker(n)));
            && Running(Cfg(t, c.w)) && Attempted(t) && !Undone(t.progress)
            && n + 1 <= Level(t.recovered, t.progress)
              && Level(c.t.recovered, c.t.progress) <= Level(t.recovered, t.progress)
  {
    hide Shape, Mark, WorldOk, Level, Undone, Marker;
    MarkedProgress(c.t, n);
    BuiltBefore(c, Crashed);
    ValidBefore(c);
  }

  lemma AcknowledgedRuns(c: Cfg)
    requires Good(c) && c.t.pending.Uploading?
    ensures Running(Cfg(c.t, Note(c.w, Acknowledged(c.t.id))))
  {
    OpenRuns(c);
    assert c.t.id in c.w.history.dispatched;
    hide Fits, Running, WorldOk, Level;
    NotedRuns(c, Acknowledged(c.t.id));
  }

  // --------------------------------------------------------------------- upload

  lemma UploadingFacts(c: Cfg)
    requires Good(c) && c.t.pending.Uploading?
    ensures c.t.state.Installing? && !c.t.closed.Yes? && !c.t.rollbackAvailable.Yes?
        && 4 == Level(c.t.recovered, c.t.progress)
    ensures c.t.checkpointSaved.Yes?
  {
    InstallFacts(c);
    hide Level, Shape, WorldOk, Secrets, Locks, Staged;
  }

  lemma AcknowledgedGood(c: Cfg)
    requires Good(c) && c.t.pending.Uploading?
    ensures Good(Cfg(c.t.(progress := Mark(c.t.progress, OtaUploaded), commitStarted := Yes, pending := SavingUploaded),
                     Note(c.w, Acknowledged(c.t.id))))
    ensures c.t.checkpointSaved.Yes?
  {
    hide Fits, Shape, Mark, Running, WorldOk, Level, Undone, Secrets, Locks, Recorded;
    UploadingFacts(c);
    InstallFacts(c);
    AcknowledgedRuns(c);
    var d := Cfg(c.t, Note(c.w, Acknowledged(c.t.id)));
    MarkedRuns(d, 4);
    MovesGood(Cfg(c.t.(progress := Mark(c.t.progress, OtaUploaded)), d.w),
              c.t.(progress := Mark(c.t.progress, OtaUploaded), commitStarted := Yes, pending := SavingUploaded));
  }

  lemma UploadingGood(c: Cfg, r: Reply)
    requires Good(c) && c.t.pending.Uploading?
    ensures Good(ResumeUpload(c, r))
  {
    hide Fits, Running, WorldOk, Level, Shape, RetainInstallRetry, Note, Mark;
    UploadingFacts(c);
    InstallFacts(c);
    AcknowledgedGood(c);
    if r.kind.Ok? {}
    else if r.kind.Refused? { MovesGood(c, c.t.(commitStarted := Yes, pending := ClearingRejected(UploadFailed))); }
    else { RetryGood(c, c.t.evidence, UploadOutcomeUnknown); }
  }

  lemma SavingUploadedRuns(c: Cfg, r: Reply)
    requires Good(c) && c.t.pending.SavingUploaded?
    ensures var d := Cfg(c.t.(commitStarted := No), AfterSave(c, r, true));
            && Running(d) && d.t.writeStarted.Yes? && !Undone(d.t.progress) && Attempted(d.t)
            && 5 <= Level(d.t.recovered, d.t.progress) && !d.t.closed.Yes? && !d.t.rollbackAvailable.Yes?
              && !d.t.state.Failed?
  {
    InstallFacts(c);
    assert Revoked(c.t.id) in c.w.history.seen && c.t.state.Installing?;
    assert !c.t.rollbackAvailable.Yes? by { hide Shape, Level, Recorded, Locks, Secrets, WorldOk; }
    SavedRuns(c, true);
    hide Fits, Running, WorldOk, Level, Shape, Record;
    CommitRuns(Cfg(c.t, AfterSave(c, r, true)), No);
  }

  lemma SavingUploadedGood(c: Cfg, r: Reply)
    requires Good(c) && c.t.pending.SavingUploaded?
    ensures Good(ResumeUpload(c, r))
  {
    hide Fits, Running, WorldOk, Level, Shape, RetainInstallRetry, AfterSave;
    SavingUploadedRuns(c, r);
    var d := Cfg(c.t.(commitStarted := No), AfterSave(c, r, true));
    if r.kind.Ok? { MovesGood(d, d.t.(state := Reconnecting, pending := Verifying)); }
    else { RetryGood(d, d.t.evidence, if r.kind.OkCancelled? then ReconnectUnavailable else PersistenceFailed); }
  }

  lemma RejectedFacts(c: Cfg)
    requires Good(c) && (c.t.pending.ClearingRejected? || c.t.pending.AbandonClear?)
    ensures Running(c) && c.t.writeStarted.Yes? && !Undone(c.t.progress) && Attempted(c.t)
    ensures FirmwareBuilt(c.t.id) in c.w.history.seen
  {
    assert !c.t.closed.Yes? && 4 <= Level(c.t.recovered, c.t.progress) by {
      hide Shape, Level, WorldOk, Recorded, Secrets, Locks, Staged, RollbackAuthority, Belongings;
    }
    hide Fits, Running, WorldOk, Level;
    InstallFacts(c);
    BuiltBefore(c, Crashed);
  }

  lemma ClearingRejectedGood(c: Cfg, r: Reply)
    requires Good(c) && c.t.pending.ClearingRejected?
    ensures Good(ResumeUpload(c, r))
  {
    hide Fits, Running, WorldOk, Level, Finished, Shape, Record, RetainInstallRetry, AfterClear, Unlocked, Drained,
      Plus;
    RejectedFacts(c);
    CommitRuns(c, No);
    var d := c.(t := c.t.(commitStarted := No));
    if Clears(c, r, true) { ClearedEndsGood(d, r, true, Failed, Plus(c.t.evidence, c.t.pending.code)); }
    else {
      UnclearedRuns(d, r, true);
      RetryGood(AfterClear(d, r, true), Plus(c.t.evidence, c.t.pending.code), PersistenceFailed);
    }
  }

  // --------------------------------------------------------------- verification

  predicate Reconnected(p: Pending) { p.Verifying? || p.PersistCheck? || p.Persisting? || p.ClearingDone? }

  lemma ReconnectedFacts(c: Cfg)
    requires Good(c) && Reconnected(c.t.pending)
    ensures c.t.state.Reconnecting? && !c.t.closed.Yes? && !c.t.rollbackAvailable.Yes?
    ensures Level(c.t.recovered, c.t.progress) >=
            if c.t.pending.Verifying? then 5 else if c.t.pending.ClearingDone? then 7 else 6
  {
    hide Level, Shape, WorldOk, Recorded, Secrets, Locks, Staged;
  }

  /** Level and evidence of an upload behind the reconnect. */
  lemma UploadedFacts(c: Cfg)
    requires Good(c) && Reconnected(c.t.pending)
    ensures Running(c) && c.t.writeStarted.Yes? && !Undone(c.t.progress) && Attempted(c.t)
    ensures c.t.state.Reconnecting? && !c.t.closed.Yes? && !c.t.rollbackAvailable.Yes?
        && Acknowledged(c.t.id) in c.w.history.seen
    ensures Level(c.t.recovered, c.t.progress) >=
            if c.t.pending.Verifying? then 5 else if c.t.pending.ClearingDone? then 7 else 6
  {
    hide Level, Shape, WorldOk, Secrets, Locks, Running, RollbackAuthority, Belongings, Staged, Flow;
    ReconnectedFacts(c);
    InstallFacts(c);
  }

  lemma VerifiedGood(c: Cfg)
    requires Good(c) && c.t.pending.Verifying?
    ensures Good(c.(t := c.t.(progress := Mark(c.t.progress, DeviceVerified), commitStarted := Yes,
        pending := PersistCheck)))
  {
    hide Shape, Mark, Running, WorldOk, Level, Undone, Secrets, Locks, Fits;
    UploadedFacts(c);
    MarkedRuns(c, 5);
    MovesGood(c.(t := c.t.(progress := Mark(c.t.progress, DeviceVerified))),
              c.t.(progress := Mark(c.t.progress, DeviceVerified), commitStarted := Yes, pending := PersistCheck));
  }

  lemma VerifyingGood(c: Cfg, r: Reply)
    requires Good(c) && c.t.pending.Verifying?
    ensures Good(ResumeVerify(c, r))
  {
    hide Fits, Running, WorldOk, Level, Shape, RetainInstallRetry, Mark;
    UploadedFacts(c);
    VerifiedGood(c);
    if r.kind.Ok? {}
    else if r.kind.Refused? && !Retryable(r.code) {
      MovesGood(c, c.t.(commitStarted := Yes, pending := ClearingRejected(r.code)));
    }
    else { RetryGood(c, c.t.evidence, if r.kind.Refused? then r.code else ReconnectUnavailable); }
  }

  lemma RetainThenRetry(t: Txn, evidence: seq<Evidence>, code: Evidence)
    requires !t.closed.Yes?
    ensures var u := RetainWriteRecovery(t, evidence);
            RetainInstallRetry(u, u.evidence, code) == RetainInstallRetry(t, u.evidence, code)
  {}

  lemma PersistCheckGood(c: Cfg, r: Reply)
    requires Good(c) && c.t.pending.PersistCheck?
    ensures Good(ResumeVerify(c, r))
  {
    hide Fits, Running, WorldOk, Level, Shape, RetainInstallRetry, RetainWriteRecovery;
    UploadedFacts(c);
    if CheckPasses(c, r) { MovesGood(c, c.t.(pending := Persisting)); }
    else {
      var evidence := Plus(c.t.evidence, SourceChanged);
      RetainThenRetry(c.t, evidence, PersistenceFailed);
      RetryGood(c, RetainWriteRecovery(c.t, evidence).evidence, PersistenceFailed);
    }
  }

  lemma PersistedGood(c: Cfg)
    requires Good(c) && c.t.pending.Persisting?
    ensures Good(c.(t := c.t.(progress := Mark(c.t.progress, MetadataPersisted), commitStarted := Yes,
        pending := ClearingDone)))
  {
    hide Shape, Mark, Running, WorldOk, Level, Undone, Secrets, Locks, Fits;
    UploadedFacts(c);
    MarkedRuns(c, 6);
    MovesGood(c.(t := c.t.(progress := Mark(c.t.progress, MetadataPersisted))),
              c.t.(progress := Mark(c.t.progress, MetadataPersisted), commitStarted := Yes, pending := ClearingDone));
  }

  lemma PersistingGood(c: Cfg, r: Reply)
    requires Good(c) && c.t.pending.Persisting?
    ensures Good(ResumeVerify(c, r))
  {
    hide Fits, Running, WorldOk, Level, Shape, RetainInstallRetry, Mark;
    UploadedFacts(c);
    PersistedGood(c);
    if !Drained(r) { RetryGood(c, c.t.evidence, PersistenceFailed); }
  }

  lemma ClearingDoneGood(c: Cfg, r: Reply)
    requires Good(c) && c.t.pending.ClearingDone?
    ensures Good(ResumeVerify(c, r))
  {
    hide Fits, Running, WorldOk, Level, Finished, Shape, Record, RetainInstallRetry;
    UploadedFacts(c);
    BuiltBefore(c, Crashed);
    hide Clears, AfterClear, Unlocked;
    if Clears(c, r, true) { ClearedEndsGood(c, r, true, Verified, c.t.evidence); }
    else {
      UnclearedRuns(c, r, true);
      RetryGood(AfterClear(c, r, true), c.t.evidence, PersistenceFailed);
    }
  }

  // --------------------------------------------------------- abandon and expire

  /** Giving an open handle up: the record of an OTA attempt goes first. */
  lemma AfterAbandonGood(c: Cfg)
    requires Running(c) && Staged(c.t, c.w) && RollbackAuthority(c.t)
    requires c.t.state.Previewed? || c.t.state.InstallConfirmationRequired?
    requires !c.t.pending.ReleasingRestored? && !c.t.pending.ClearingRolledBack?
    requires c.t.state.Previewed? || c.t.purpose.InstallConfiguration?
    ensures Good(AfterAbandon(c))
  {
    hide Fits, WorldOk, Shape, Level, Finished;
    Markers(c.t.recovered, c.t.progress);
    if Attempted(c.t) {
      assert c.t.progress != [];
      MovesGood(c, c.t.(pending := AbandonClear));
    }
    else { FinishGood(c, Failed, Plus(c.t.evidence, Cancelled)); }
  }

  lemma AbandonFacts(c: Cfg)
    requires Good(c) && !c.t.closed.Yes? && c.t.pending.Ready?
    ensures Running(c) && Staged(c.t, c.w) && RollbackAuthority(c.t)
  {
    OpenRuns(c);
  }

  lemma AbandonCheckedGood(c: Cfg)
    requires Good(c) && !c.t.closed.Yes? && c.t.pending.Ready?
    requires c.t.state.InstallConfirmationRequired? && c.t.purpose.InstallConfiguration?
    ensures Good(Await(c, AbandonCheck))
  {
    AbandonFacts(c);
    hide Fits, WorldOk, Shape, Level, Running, Locks, Recorded, Secrets, Belongings;
    MovesGood(c, c.t.(pending := AbandonCheck));
  }

  lemma MovesPreviewed(c: Cfg)
    requires Good(c) && !c.t.closed.Yes? && c.t.pending.Ready? && c.t.state.Previewed?
    ensures Good(Await(c, AbandonRelease)) && Good(Await(c, Acquiring))
  {
    OpenRuns(c);
    assert Staged(c.t, c.w) && RollbackAuthority(c.t);
    hide Fits, WorldOk, Shape, Level, Running, Locks, Recorded, Secrets;
    MovesGood(c, c.t.(pending := AbandonRelease));
    MovesGood(c, c.t.(pending := Acquiring));
  }

  lemma StartAbandonGood(c: Cfg)
    requires Good(c) && !c.t.closed.Yes? && c.t.pending.Ready?
    ensures Good(StartAbandon(c))
  {
    AbandonFacts(c);
    hide Fits, WorldOk, Running, Staged, RollbackAuthority, Belongings, AfterAbandon;
    if c.t.state.Previewed? {
      AfterAbandonGood(c);
      MovesPreviewed(c);
    } else if AbandonableRetry(c.t) {
      AfterAbandonGood(c);
      AbandonCheckedGood(c);
    }
  }

  /** A handle closed by its failed preview ends what still runs on it. */
  lemma ClosedEndsGood(c: Cfg, state: State, evidence: seq<Evidence>)
    requires Good(c) && c.t.closed.Yes? && c.t.progress == []
    ensures Good(Cfg(Finished(c.t, state, evidence), Unlocked(c.t, c.w))) && Good(Await(c, Ready))
  {
    hide Trail, Marker, WorldOk;
  }

  lemma AbandonReleaseFacts(c: Cfg)
    requires Good(c) && c.t.pending.AbandonRelease?
    ensures !c.t.writeStarted.Yes? && !c.t.recovered.Yes? && (c.t.closed.Yes? ==> c.t.progress == [])
    ensures !c.t.closed.Yes? ==> Running(c) && c.t.state.Previewed? && Staged(c.t, c.w) && RollbackAuthority(c.t)
  {
    hide Shape, Level, WorldOk, Recorded, Secrets, Running, RollbackAuthority, Belongings, Undone;
    if !c.t.closed.Yes? { OpenRuns(c); }
  }

  lemma AbandonClosedGood(c: Cfg)
    requires Good(c) && c.t.closed.Yes? && c.t.progress == []
    ensures Good(AfterAbandon(c)) && Good(Await(c, Ready))
  {
    hide Fits, WorldOk, Finished;
    ClosedEndsGood(c, Failed, Plus(c.t.evidence, Cancelled));
  }

  lemma AbandonReleaseGood(c: Cfg, r: Reply)
    requires Good(c) && c.t.pending.AbandonRelease?
    ensures Good(ResumeAbandon(c, r))
  {
    hide Fits, WorldOk, Shape, Level, Running, AfterAbandon, Locks, Recorded, Secrets, AfterReleaseCall;
    AbandonReleaseFacts(c);
    ReleaseCallGood(c, r);
    var d := AfterReleaseCall(c, r);
    AbandonReleaseFacts(d);
    if d.t.closed.Yes? { AbandonClosedGood(d); }
    else if r.kind.Ok? { AfterAbandonGood(d); }
    else { MovesGood(d, d.t.(pending := Ready)); }
  }

  lemma AbandonCheckFacts(c: Cfg)
    requires Good(c) && c.t.pending.AbandonCheck?
    ensures c.t.state.InstallConfirmationRequired? && !c.t.closed.Yes? && Staged(c.t, c.w) && RollbackAuthority(c.t)
    ensures c.t.purpose.InstallConfiguration?
  {
    hide Shape, Level, WorldOk, Recorded, Secrets, Locks;
  }

  lemma AbandonCheckGood(c: Cfg, r: Reply)
    requires Good(c) && c.t.pending.AbandonCheck?
    ensures Good(ResumeAbandon(c, r))
  {
    hide Fits, WorldOk, Shape, Level, Running, AfterAbandon, Staged, RollbackAuthority, Belongings, CheckFailed;
    AbandonCheckFacts(c);
    InstallFacts(c);
    if CheckPasses(c, r) { AfterAbandonGood(c); } else { StaleSourceGood(c); }
  }

  lemma AbandonClearFacts(c: Cfg)
    requires Good(c) && c.t.pending.AbandonClear?
    ensures Staged(c.t, c.w) && RollbackAuthority(c.t) && !c.t.state.Previewed?
  {
    RejectedFacts(c);
    hide Shape, Level, WorldOk, Recorded, Secrets, Locks, Belongings, Flow;
  }

  lemma AbandonStays(c: Cfg, w: World)
    requires Running(Cfg(c.t, w)) && Staged(c.t, w) && RollbackAuthority(c.t) && Attempted(c.t)
        && c.t.pending.AbandonClear?
    ensures Good(Cfg(c.t.(pending := Ready), w))
  {
    hide Fits, WorldOk, Level, Running;
    MovesGood(Cfg(c.t, w), c.t.(pending := Ready));
  }

  lemma StagedAlike(c: Cfg, w: World)
    requires Staged(c.t, c.w) && !c.t.state.Previewed?
    ensures Staged(c.t, w)
  {
    hide Level;
  }

  lemma AbandonClearGood(c: Cfg, r: Reply)
    requires Good(c) && c.t.pending.AbandonClear?
    ensures Good(ResumeAbandon(c, r))
  {
    hide Fits, WorldOk, Level, Running, Finished, Staged, Record, Clears, AfterClear, Unlocked, Plus, RollbackAuthority;
    RejectedFacts(c);
    AbandonClearFacts(c);
    if Clears(c, r, false) { ClearedEndsGood(c, r, false, Failed, Plus(c.t.evidence, Cancelled)); }
    else {
      UnclearedRuns(c, r, false);
      StagedAlike(c, AfterClear(c, r, false).w);
      AbandonStays(c, AfterClear(c, r, false).w);
    }
  }

  lemma ScrubbedLocks(t: Txn, w: World)
    requires Fits(t, w) && t.pending.ExpiryReleasing?
    ensures Locks(t.(plan := None, prior := None, closed := Yes, pending := Ready), w) && !t.writeStarted.Yes?
  {
    hide Level, Undone, Recorded, Belongings, Secrets, Staged, RollbackAuthority, Shape;
  }

  lemma ScrubbedRecord(t: Txn, w: World)
    requires Fits(t, w) && t.pending.ExpiryReleasing?
    ensures Recorded(t.(plan := None, prior := None, closed := Yes, pending := Ready), w)
    ensures Belongings(t.(plan := None, prior := None, closed := Yes, pending := Ready), w)
  {
    hide Level, Undone, Secrets, Staged, Locks, Shape, RollbackAuthority;
  }

  lemma ScrubbedGood(c: Cfg)
    requires Good(c) && c.t.pending.ExpiryReleasing?
    ensures Good(c.(t := c.t.(plan := None, prior := None, closed := Yes, pending := Ready))) && !c.t.writeStarted.Yes?
  {
    ScrubbedLocks(c.t, c.w);
    ScrubbedRecord(c.t, c.w);
    hide WorldOk, Level, Undone, Recorded, Belongings, Locks, Shape;
  }

  lemma ExpiryReleasingGood(c: Cfg, r: Reply)
    requires Good(c) && c.t.pending.ExpiryReleasing?
    ensures Good(ResumeAbandon(c, r))
  {
    hide Fits, WorldOk, AfterReleaseCall;
    ScrubbedGood(c);
    ReleaseCallGood(c, r);
    ScrubbedGood(AfterReleaseCall(c, r));
  }

  predicate Behind(t: Txn) {
    t.state.Compiled? || t.state.InstallConfirmationRequired? || t.state.Installing? || t.state.Reconnecting?
      || t.state.Verified?
  }

  /** A write that was never built is queued for rollback. */
  lemma ExpireQueuesGood(c: Cfg)
    requires Good(c) && !c.t.closed.Yes? && c.t.pending.Ready? && !c.t.recovered.Yes? && c.t.writeStarted.Yes?
        && !Attempted(c.t) && !Behind(c.t)
    ensures Good(c.(t := c.t.(state := Failed, rollbackAvailable := Yes, expiryCleanupStarted := Yes,
        cleanupQueued := Yes)))
  {
    OpenRuns(c);
    Markers(c.t.recovered, c.t.progress);
    hide Shape, WorldOk, Lawful, Running;
  }

  lemma ExpireReleasesGood(c: Cfg)
    requires Good(c) && !c.t.closed.Yes? && c.t.pending.Ready? && !c.t.writeStarted.Yes? && !c.t.cleanupQueued.Yes?
    ensures Good(Cfg(c.t.(state := Failed, lease := No, expiryCleanupStarted := Yes, pending := ExpiryReleasing),
        Unlocked(c.t, c.w)))
  {
    OpenRuns(c);
    Markers(c.t.recovered, c.t.progress);
    hide Shape, Lawful, Running, Trail, Marker;
  }

  lemma ExpireClosesGood(c: Cfg)
    requires Good(c) && !c.t.closed.Yes? && c.t.pending.Ready?
        && (c.t.writeStarted.Yes? ==> c.t.recovered.Yes? || Attempted(c.t) || Behind(c.t))
    ensures Good(Cfg(c.t.(state := Failed, lease := No, plan := None, prior := None, closed := Yes),
        Unlocked(c.t, c.w)))
  {
    OpenRuns(c);
    Markers(c.t.recovered, c.t.progress);
    hide Shape, Lawful, Running, Trail, Marker;
  }

  /** Expiry: an unbuilt write is queued for rollback, a claim is dropped, the rest closes. */
  lemma ExpireGood(c: Cfg)
    requires Good(c)
    ensures Good(Expire(c))
  {
    hide Fits, WorldOk;
    var t := c.t;
    if t.closed.Yes? || t.expiryCleanupStarted.Yes? || t.commitStarted.Yes? || Busy(t) {}
    else if !t.recovered.Yes? && t.writeStarted.Yes? && !Attempted(t) && !Behind(t) { ExpireQueuesGood(c); }
    else if t.reservationClaimed.Yes? && !t.writeStarted.Yes? { ExpireReleasesGood(c); }
    else { ExpireClosesGood(c); }
  }

  lemma CleanupClosedGood(c: Cfg)
    requires Good(c) && c.t.closed.Yes? && c.t.cleanupQueued.Yes? && c.t.pending.Ready?
    ensures Good(c.(t := c.t.(cleanupQueued := No, rollbackAvailable := No)))
    ensures !c.t.recovered.Yes? && !Attempted(c.t) && c.t.plan.None?
  {
    hide Shape, WorldOk, Level, Trail, Marker;
  }

  lemma QueuedFacts(c: Cfg)
    requires Good(c) && !c.t.closed.Yes? && c.t.cleanupQueued.Yes? && c.t.pending.Ready?
    ensures var d := c.(t := c.t.(cleanupQueued := No));
            && Running(d) && !d.t.recovered.Yes? && Level(No, d.t.progress) <= 3
            && (d.t.writeStarted.Yes? || Undone(d.t.progress)) && Staged(d.t.(pending := Ready), d.w)
            && (Undone(d.t.progress) ==> d.w.history.standing != Some(d.t.id)) && !d.t.state.Installing?
  {
    OpenRuns(c);
    hide Shape, WorldOk, Level, Trail, Marker;
  }

  lemma CleanupGood(c: Cfg)
    requires Good(c)
    ensures Good(StartCleanup(c))
  {
    hide Fits, WorldOk, Running, Staged, Level, AfterRestore;
    var d := c.(t := c.t.(cleanupQueued := No));
    if c.t.cleanupQueued.Yes? && c.t.pending.Ready? {
      if c.t.closed.Yes? { CleanupClosedGood(c); }
      else {
        QueuedFacts(c);
        BeginRollbackGood(d, c.t.evidence);
      }
    }
  }

  // ----------------------------------------------------------------- every step

  lemma RollbackFacts(c: Cfg)
    requires Good(c) && !c.t.closed.Yes? && c.t.pending.Ready? && c.t.rollbackAvailable.Yes?
    ensures Running(c) && !c.t.recovered.Yes? && Level(No, c.t.progress) <= 3
    ensures c.t.writeStarted.Yes? || Undone(c.t.progress)
    ensures Staged(c.t.(pending := Ready), c.w) && !c.t.state.Installing?
    ensures Undone(c.t.progress) ==> c.w.history.standing != Some(c.t.id)
  {
    OpenRuns(c);
    hide Shape, WorldOk, Level, Trail, Marker;
  }

  lemma StartCompileGood(c: Cfg)
    requires Good(c) && !c.t.closed.Yes? && c.t.pending.Ready? && c.t.state.Validated?
    ensures Good(Await(c, CompileCheck))
  {
    OpenRuns(c);
    hide Shape, WorldOk, Level, Trail, Marker, Running, Locks, Recorded, Secrets;
    MovesGood(c, c.t.(pending := CompileCheck));
  }

  lemma StartGood(c: Cfg, op: Operation)
    requires Good(c)
    ensures Good(Start(c, op))
  {
    hide Fits, WorldOk, Running, Staged, Level, BeginRollback, StartAbandon, StartConfirmInstall;
    if c.t.closed.Yes? || !c.t.pending.Ready? {}
    else {
      match op
      case ConfirmWrite => if c.t.state.Previewed? { MovesPreviewed(c); }
      case Compile => if c.t.state.Validated? { StartCompileGood(c); }
      case ConfirmInstall => StartInstallGood(c);
      case Rollback =>
        if c.t.rollbackAvailable.Yes? {
          RollbackFacts(c);
          BeginRollbackGood(c, c.t.evidence);
        }
      case Abandon => StartAbandonGood(c);
    }
  }

  lemma ResumeGood(c: Cfg, r: Reply)
    requires Good(c)
    ensures Good(Resume(c, r))
  {
    hide Fits, WorldOk, ResumePreparation, ResumeWrite, ResumeRestore, ResumeRolledBack, ResumeCompile, ResumeRetry,
      ResumeInstall, ResumeUpload, ResumeVerify, ResumeAbandon;
    match c.t.pending
    case Ready =>
    case Claiming => ClaimingGood(c, r);
    case Acquiring => AcquiringGood(c, r);
    case Revalidating => RevalidatingGood(c, r);
    case ReleasingStale(_) => ReleasingStaleGood(c, r);
    case UnchangedCheck => UnchangedCheckGood(c, r);
    case UnchangedSave => UnchangedSaveGood(c, r);
    case Comparing => ComparingGood(c, r);
    case Writing(_) => WritingGood(c, r);
    case Reconciling => ReconcilingGood(c, r);
    case Validating => ValidatingGood(c, r);
    case CompileCheck => CompileCheckGood(c, r);
    case Compiling => CompilingGood(c, r);
    case CompiledCheck => CompiledCheckGood(c, r);
    case RecoveredRead => RecoveredReadGood(c, r);
    case RetryCheck => RetryCheckGood(c, r);
    case CheckingVerified => CheckingVerifiedGood(c, r);
    case Revoking => RevokingGood(c, r);
    case InstallCheck => InstallCheckGood(c, r);
    case SavingCheckpoint => SavingCheckpointGood(c, r);
    case ClearingCancelled => ClearingCancelledGood(c, r);
    case DispatchCheck => DispatchCheckGood(c, r);
    case Uploading => UploadingGood(c, r);
    case SavingUploaded => SavingUploadedGood(c, r);
    case ClearingRejected(_) => ClearingRejectedGood(c, r);
    case Verifying => VerifyingGood(c, r);
    case PersistCheck => PersistCheckGood(c, r);
    case Persisting => PersistingGood(c, r);
    case ClearingDone => ClearingDoneGood(c, r);
    case RestoreComparing => RestoreReadGood(c, r);
    case RestoreWriting(_) => RestoreWritingGood(c, r);
    case RestoreRereading => RestoreReadGood(c, r);
    case RestoreValidating => RestoreReadGood(c, r);
    case RestoreVerifying => RestoreVerifyingGood(c, r);
    case ReleasingRestored => ReleasingRestoredGood(c, r);
    case ClearingRolledBack => ClearingRolledBackGood(c, r);
    case AbandonRelease => AbandonReleaseGood(c, r);
    case AbandonCheck => AbandonCheckGood(c, r);
    case AbandonClear => AbandonClearGood(c, r);
    case ExpiryReleasing => ExpiryReleasingGood(c, r);
  }

  /** Whatever reaches a handle, in any order, keeps its invariant. */
  lemma {:induction false} ServeGood(c: Cfg, acts: seq<Act>)
    requires Good(c)
    ensures Good(Serve(c, acts))
  {
    hide Fits, WorldOk, Start, Resume, Expire, StartCleanup;
    if acts != [] {
      var before := Serve(c, acts[..|acts| - 1]);
      ServeGood(c, acts[..|acts| - 1]);
      match acts[|acts| - 1]
      case Called(op) => StartGood(before, op);
      case Returned(r) => ResumeGood(before, r);
      case Expired => ExpireGood(before);
      case CleanedUp => CleanupGood(before);
    }
  }
}
