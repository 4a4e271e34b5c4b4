/** Every stretch of code between two awaits keeps the invariant of its handle. */
module TransactionSteps {
  import opened Common
  import opened TransactionModel
  import opened TransactionLaws

  ghost predicate Good(c: Cfg) { Fits(c.t, c.w) && WorldOk(c.w) }

  /** What holds of an open handle in the middle of its code, whatever state it shows. */
  ghost predicate Running(c: Cfg) {
    && Shape(c.t.recovered, c.t.progress) && Secrets(c.t) && Locks(c.t, c.w) && Recorded(c.t, c.w) && WorldOk(c.w)
    && Belongings(c.t, c.w) && !c.t.closed.Yes?
  }

  // ------------------------------------------------------------------ ways to end

  /** A handle whose knowledge of its durable record does not depend on its state. */
  predicate Tidy(t: Txn) { t.state.Installing? && !Undone(t.progress) ==> t.checkpointSaved.Yes? && !Stuck(t) }

  lemma RetainFailedGood(c: Cfg, evidence: seq<Evidence>)
    requires Running(c) && !c.t.recovered.Yes? && !Attempted(c.t) && Tidy(c.t)
    requires c.t.writeStarted.Yes? <==> !Undone(c.t.progress)
    ensures Good(Cfg(RetainWriteRecovery(c.t, evidence), c.w))
  {
    Markers(c.t.recovered, c.t.progress);
    hide Shape, WorldOk;
  }

  lemma RetainRetryGood(c: Cfg, evidence: seq<Evidence>)
    requires Running(c) && (c.t.recovered.Yes? || Attempted(c.t)) && c.t.writeStarted.Yes? && !Undone(c.t.progress)
    ensures Good(Cfg(RetainWriteRecovery(c.t, evidence), c.w))
  {
    Markers(c.t.recovered, c.t.progress);
    hide Shape, WorldOk, Level;
  }

  lemma RetainGood(c: Cfg, evidence: seq<Evidence>)
    requires Running(c)
    requires c.t.writeStarted.Yes? <==> !Undone(c.t.progress)
    requires if c.t.recovered.Yes? || Attempted(c.t) then !Undone(c.t.progress) else Tidy(c.t)
    ensures Good(Cfg(RetainWriteRecovery(c.t, evidence), c.w))
  {
    hide Running, Fits, WorldOk, RetainWriteRecovery;
    if c.t.recovered.Yes? || Attempted(c.t) { RetainRetryGood(c, evidence); } else { RetainFailedGood(c, evidence); }
  }

  lemma RetryGood(c: Cfg, evidence: seq<Evidence>, code: Evidence)
    requires Running(c) && Attempted(c.t) && c.t.writeStarted.Yes? && !Undone(c.t.progress)
    ensures Good(Cfg(RetainInstallRetry(c.t, evidence, code), c.w))
  {
    Markers(c.t.recovered, c.t.progress);
    hide Trail, Marker, Lawful;
  }

  lemma FinishGood(c: Cfg, state: State, evidence: seq<Evidence>)
    requires Running(c)
    requires state.Failed? || state.RolledBack? || state.Verified?
    requires c.w.history.standing == Some(c.t.id) && c.t.proposed != c.t.source
        ==> FirmwareBuilt(c.t.id) in c.w.history.seen
    ensures Good(Cfg(Finished(c.t, state, evidence), Unlocked(c.t, c.w)))
  {
    hide Trail, Marker, Lawful;
  }

  lemma CheckFailedGood(c: Cfg)
    requires Running(c) && c.t.writeStarted.Yes? && !Undone(c.t.progress)
    requires Attempted(c.t) || c.t.recovered.Yes? || Tidy(c.t)
    ensures Good(CheckFailed(c))
  {
    RetainGood(c, Plus(c.t.evidence, SourceChanged));
    hide Running, Fits, WorldOk, RetainWriteRecovery, Finished;
  }

  /** An open handle may show another state and wait elsewhere as its stage allows. */
  lemma MovesGood(c: Cfg, t: Txn)
    requires Running(c)
    requires t == c.t.(state := t.state, evidence := t.evidence, commitStarted := t.commitStarted, pending := t.pending)
    requires t.state == c.t.state || !c.t.state.Failed?
    requires Attempted(t) || ((Stuck(c.t) ==> Stuck(t)) && (t.state == c.t.state || t.state.Installing?))
    requires Staged(t, c.w) && Flow(t, c.w) && RollbackAuthority(t)
    ensures Good(Cfg(t, c.w))
  {
    hide Shape, Level, Staged, Flow, RollbackAuthority, WorldOk, Trail, Marker;
  }

  // ------------------------------------------------------------------- rollback

  lemma AfterReleaseGood(c: Cfg)
    requires Running(c) && Undone(c.t.progress) && !c.t.writeStarted.Yes? && !c.t.rollbackAvailable.Yes?
    requires !c.t.reservationClaimed.Yes?
    ensures Good(AfterRelease(c))
  {
    hide Trail, Marker, Lawful;
    if c.t.checkpointSaved.Yes? {} else { FinishGood(c, RolledBack, c.t.evidence); }
  }

  lemma AfterRestoreGood(c: Cfg)
    requires Running(c) && Undone(c.t.progress) && !c.t.rollbackAvailable.Yes?
    requires c.w.history.standing != Some(c.t.id)
    ensures Good(AfterRestore(c))
  {
    hide Trail, Marker, Lawful;
    var d := c.(t := c.t.(writeStarted := No));
    assert Running(d);
    if c.t.reservationClaimed.Yes? {} else { AfterReleaseGood(d); }
  }

  lemma BeginRollbackGood(c: Cfg, evidence: seq<Evidence>)
    requires Running(c) && !c.t.recovered.Yes? && Level(No, c.t.progress) <= 3
    requires c.t.writeStarted.Yes? || Undone(c.t.progress)
    requires !Undone(c.t.progress) ==> Staged(c.t.(pending := Ready), c.w)
    requires Undone(c.t.progress) ==> c.w.history.standing != Some(c.t.id)
    requires !c.t.state.Installing?
    ensures Good(BeginRollback(c, evidence))
  {
    Markers(No, c.t.progress);
    hide Trail, Marker, Lawful;
    var d := c.(t := c.t.(rollbackAvailable := No, evidence := evidence));
    if Undone(c.t.progress) {
      assert Running(d);
      AfterRestoreGood(d);
      hide Fits, WorldOk, AfterRestore;
      assert BeginRollback(c, evidence) == AfterRestore(d);
    } else {
      assert BeginRollback(c, evidence) == Cfg(d.t.(pending := RestoreComparing), d.w);
    }
  }

  // ---------------------------------------------------------------- preparation

  lemma ClaimingGood(c: Cfg, r: Reply)
    requires Good(c) && c.t.pending.Claiming?
    ensures Good(ResumePreparation(c, r))
  {
    hide Trail, Marker, Lawful;
    if r.kind.Ok? {} else if r.kind.Refused? {} else {}
  }

  lemma AfterRevalidationGood(c: Cfg)
    requires c.t.pending.Revalidating? || c.t.pending.Acquiring?
    requires Good(c.(t := c.t.(pending := Revalidating)))
    ensures Good(AfterRevalidation(c))
  {
    hide Trail, Marker, Lawful;
    if c.t.plan.None? || c.t.prior.None? {}
    else if c.t.purpose.InstallConfiguration? && c.t.plan == c.t.prior {} else {}
  }

  lemma GrantedGood(c: Cfg)
    requires Good(c) && c.t.pending.Acquiring? && c.w.lock.None?
    ensures Good(Granted(c))
  {
    hide Trail, Marker;
    var w := c.w.(lock := Some(Handle(c.t.id)));
    var t := c.t.(lease := Yes, pending := Revalidating);
    if c.t.closed.Yes? {
      assert Good(Cfg(t, Note(w, LeakedLease(c.t.id))));
      AfterRevalidationGood(Cfg(c.t.(lease := Yes), Note(w, LeakedLease(c.t.id))));
    } else {
      assert Good(Cfg(t, w));
      AfterRevalidationGood(Cfg(c.t.(lease := Yes), w));
    }
  }

  lemma AcquiringGood(c: Cfg, r: Reply)
    requires Good(c) && c.t.pending.Acquiring?
    ensures Good(ResumePreparation(c, r))
  {
    if r.kind.Ok? && c.w.lock.None? {
      GrantedGood(c);
      hide Fits, WorldOk, Granted;
      assert ResumePreparation(c, r) == Granted(c);
    } else {
      hide Trail, Marker, Lawful, WorldOk;
      if r.kind.Ok? {} else {}
    }
  }

  lemma RevalidatingGood(c: Cfg, r: Reply)
    requires Good(c) && c.t.pending.Revalidating?
    ensures Good(ResumePreparation(c, r))
  {
    hide Trail, Marker, Lawful;
    var code := if Cancels(r) then Cancelled else SourceChanged;
    if r.kind.Ok? {
      AfterRevalidationGood(c);
      hide Fits, WorldOk, AfterRevalidation;
      assert ResumePreparation(c, r) == AfterRevalidation(c);
    }
    else if c.t.reservationClaimed.Yes? { assert ResumePreparation(c, r) == Await(c, ReleasingStale(code)); }
    else if c.t.closed.Yes? { assert ResumePreparation(c, r) == FinishWith(c, Failed, code); }
    else {
      FinishGood(c, Failed, Plus(c.t.evidence, code));
      hide Fits, WorldOk, Finished;
      assert ResumePreparation(c, r) == FinishWith(c, Failed, code);
    }
  }

  lemma UnclaimedFlows(c: Cfg, claimed: Flag)
    requires Good(c) && (claimed.Yes? ==> c.t.reservationClaimed.Yes?)
    ensures var t := c.t.(reservationClaimed := claimed); Staged(t, c.w) && Flow(t, c.w) && RollbackAuthority(t)
  {
    hide Shape, Level, WorldOk, Undone, Raced, Locks, Recorded, Belongings, Secrets;
  }

  lemma UnclaimedGood(c: Cfg, claimed: Flag)
    requires Good(c) && (claimed.Yes? ==> c.t.reservationClaimed.Yes?)
    ensures Good(c.(t := c.t.(reservationClaimed := claimed)))
  {
    UnclaimedFlows(c, claimed);
    hide Shape, Level, WorldOk, Undone, Staged, Flow, RollbackAuthority, Belongings;
  }

  /** Releasing the reservation disturbs nothing while the handle's write does not stand. */
  lemma ReleasedGood(c: Cfg)
    requires Good(c) && !c.t.writeStarted.Yes?
    ensures Good(Cfg(c.t, Note(c.w, Released(c.t.id))))
  {
    hide Shape, Trail, Marker, Level, Undone;
  }

  lemma ReleaseCallGood(c: Cfg, r: Reply)
    requires Good(c) && !c.t.writeStarted.Yes?
    ensures Good(AfterReleaseCall(c, r))
    ensures AfterReleaseCall(c, r).t == c.t.(reservationClaimed := Bit(Claimed(c.t, r)))
  {
    hide Fits, WorldOk, Record;
    UnclaimedGood(c, Bit(Claimed(c.t, r)));
    if Drained(r) || r.applied { ReleasedGood(c.(t := c.t.(reservationClaimed := Bit(Claimed(c.t, r))))); }
  }

  /** A refused handle that was never written ends here, or was already closed. */
  lemma StaleGood(c: Cfg, code: Evidence)
    requires Good(c) && c.t.pending.ReleasingStale?
    ensures Good(FinishWith(c, Failed, code)) && Good(Await(c, Ready))
  {
    hide Trail, Marker, Lawful;
    if c.t.closed.Yes? {} else { FinishGood(c, Failed, Plus(c.t.evidence, code)); }
  }

  lemma ReleasingStaleGood(c: Cfg, r: Reply)
    requires Good(c) && c.t.pending.ReleasingStale?
    ensures Good(ResumePreparation(c, r))
  {
    assert !c.t.writeStarted.Yes?;
    ReleaseCallGood(c, r);
    hide Fits, WorldOk, AfterReleaseCall, Finished;
    StaleGood(AfterReleaseCall(c, r), c.t.pending.code);
  }

  lemma UnchangedCheckGood(c: Cfg, r: Reply)
    requires Good(c) && c.t.pending.UnchangedCheck?
    ensures Good(ResumePreparation(c, r))
  {
    hide Trail, Marker, Lawful;
    if CheckPasses(c, r) { assert ResumePreparation(c, r) == Await(c, UnchangedSave); }
    else {
      FinishGood(c, Failed, Plus(c.t.evidence, SourceChanged));
      hide Fits, WorldOk, Finished;
      assert ResumePreparation(c, r) == FinishWith(c, Failed, SourceChanged);
    }
  }

  lemma UnchangedSaveGood(c: Cfg, r: Reply)
    requires Good(c) && c.t.pending.UnchangedSave?
    ensures Good(ResumePreparation(c, r))
  {
    if Drained(r) { hide Lawful; }
    else {
      FinishGood(c, Failed, Plus(c.t.evidence, PersistenceFailed));
      hide Fits, WorldOk, Finished;
      assert ResumePreparation(c, r) == FinishWith(c, Failed, PersistenceFailed);
    }
  }

  /** A failed preview closes its handle, whatever operation runs beside it. */
  lemma PreviewClosesGood(c: Cfg)
    requires Good(c) && c.t.previewRelease.Yes? && !c.t.closed.Yes?
    ensures Good(EndPreview(Cfg(Finished(c.t, Failed, c.t.evidence).(pending := c.t.pending), Unlocked(c.t, c.w))))
  {
    hide Trail, Marker, Lawful;
  }

  lemma PreviewEndsGood(c: Cfg)
    requires Good(c) && c.t.previewRelease.Yes?
    ensures Good(EndPreview(c))
  {
    hide Trail, Marker, Lawful;
  }

  lemma PreviewGood(c: Cfg, r: Reply)
    requires Good(c) && c.t.previewRelease.Yes?
    ensures Good(ResumePreview(c, r))
  {
    var d := AfterReleaseCall(c, r);
    assert !c.t.writeStarted.Yes?;
    ReleaseCallGood(c, r);
    hide Fits, WorldOk, AfterReleaseCall;
    if Claimed(c.t, r) || c.t.closed.Yes? { PreviewEndsGood(d); } else { PreviewClosesGood(d); }
    if !Claimed(c.t, r) && c.t.closed.Yes? {
      assert Finished(d.t, Failed, c.t.evidence).(pending := c.t.pending) == d.t;
    }
  }

  // ---------------------------------------------------------------------- write

  lemma ComparingGood(c: Cfg, r: Reply)
    requires Good(c) && c.t.pending.Comparing?
    ensures Good(ResumeWrite(c, r))
  {
    hide Trail, Marker, Lawful;
    if !r.kind.Ok? {}
    else if c.w.remote == c.t.source {}
    else if c.t.reservationClaimed.Yes? {}
    else {
      var d := c.(t := c.t.(writeStarted := No));
      FinishGood(d, Failed, Plus(d.t.evidence, SourceChanged));
    }
  }

  lemma WrittenGood(c: Cfg)
    requires Good(c) && c.t.pending.Writing?
    ensures Good(Cfg(c.t.(state := Written, progress := Mark(c.t.progress, ConfigWritten), pending := Validating),
                     AfterWrite(c, c.t.pending.since)))
  {
    hide Shape, Trail;
    Advance(c.t, 0);
  }

  lemma UncertainGood(c: Cfg, evidence: seq<Evidence>, applied: bool)
    requires Good(c) && c.t.pending.Writing?
    ensures Good(Cfg(c.t.(evidence := evidence, pending := Reconciling),
                     if applied then AfterWrite(c, c.t.pending.since) else c.w))
  {
    hide Shape, Trail;
    if applied {} else {}
  }

  lemma WritingGood(c: Cfg, r: Reply)
    requires Good(c) && c.t.pending.Writing?
    ensures Good(ResumeWrite(c, r))
  {
    hide Fits, WorldOk, AfterWrite;
    if r.kind.Ok? { WrittenGood(c); }
    else { UncertainGood(c, Plus(c.t.evidence, if Cancels(r) then Cancelled else WriteFailed), r.applied); }
  }

  lemma ReconcilingGood(c: Cfg, r: Reply)
    requires Good(c) && c.t.pending.Reconciling?
    ensures Good(ResumeWrite(c, r))
  {
    hide Trail, Marker, Lawful;
    if r.kind.Interrupted? {}
    else if r.kind.Ok? && c.w.remote == c.t.source {
      FinishGood(c, Failed, Plus(c.t.evidence, WriteNotApplied));
      hide Fits, WorldOk, Finished;
      assert ResumeWrite(c, r) == FinishWith(c, Failed, WriteNotApplied);
    }
    else if r.kind.Ok? && c.w.remote == c.t.proposed {
      BeginRollbackGood(c, c.t.evidence);
      hide Fits, WorldOk, BeginRollback;
      assert ResumeWrite(c, r) == BeginRollback(c, c.t.evidence);
    }
    else {
      RetainGood(c, c.t.evidence);
      hide Fits, WorldOk, RetainWriteRecovery;
      assert ResumeWrite(c, r) == Retain(c);
    }
  }

  lemma ReconcilingRuns(c: Cfg)
    requires Good(c) && c.t.pending.Reconciling?
    ensures c.t.closed.No? && c.t.recovered.No? && !Attempted(c.t) && !Undone(c.t.progress)
    ensures c.t.plan.Some? && c.t.prior.Some?
  {
    hide Trail, Marker, Lawful;
  }

  /** What the read after an uncertain write decides: the original in the file closes the
      handle, its own proposal starts the rollback, and anything else, or no answer, leaves
      the handle open with the rollback on offer, unless the reader was interrupted. */
  lemma ReconcilingDecides(c: Cfg, r: Reply)
    requires Good(c) && c.t.pending.Reconciling?
    ensures var t := ResumeWrite(c, r).t;
            && (t.closed.Yes? <==> r.kind.Ok? && c.w.remote == c.t.source)
            && (t.pending.RestoreComparing? <==>
                r.kind.Ok? && c.w.remote == c.t.proposed && c.w.remote != c.t.source)
            && (t.state.Failed? && t.rollbackAvailable.Yes? <==>
                !r.kind.Interrupted? && (r.kind.Ok? ==> c.w.remote != c.t.source && c.w.remote != c.t.proposed))
  {
    ReconcilingRuns(c);
    hide Good, Plus, Undone;
  }

  lemma ValidatedGood(c: Cfg)
    requires Good(c) && c.t.pending.Validating?
    ensures Good(Cfg(c.t.(state := Validated, progress := Mark(c.t.progress, ConfigValidated), pending := Ready),
                     Note(c.w, ConfigValid(c.t.id))))
  {
    Advance(c.t, 1);
    hide Trail;
  }

  lemma UnvalidatedGood(c: Cfg, evidence: seq<Evidence>)
    requires Good(c) && c.t.pending.Validating?
    ensures Good(BeginRollback(c, evidence))
  {
    BeginRollbackGood(c, evidence);
    hide Fits, WorldOk, BeginRollback;
  }

  lemma ValidatingGood(c: Cfg, r: Reply)
    requires Good(c) && c.t.pending.Validating?
    ensures Good(ResumeWrite(c, r))
  {
    hide Fits, WorldOk, BeginRollback, Note, Mark;
    ValidatedGood(c);
    UnvalidatedGood(c, Plus(c.t.evidence, if r.kind.Refused? then ValidationFailed else ValidationUnavailable));
  }

  // -------------------------------------------------------------------- restore

  lemma RestoreFailedGood(c: Cfg, r: Reply)
    requires Running(c) && c.t.writeStarted.Yes? && !Undone(c.t.progress) && !c.t.state.Installing?
    ensures Good(RestoreFailed(c, r))
  {
    if Cancels(r) { RetainGood(c, Plus(c.t.evidence, Cancelled)); hide Fits, WorldOk, RetainWriteRecovery; }
    else if r.kind.TimedOut? { RetainGood(c, c.t.evidence); hide Fits, WorldOk, RetainWriteRecovery; }
    else { RetainGood(c, Plus(c.t.evidence, RollbackFailed)); hide Fits, WorldOk, RetainWriteRecovery; }
  }

  predicate InRestore(p: Pending) {
    p.RestoreComparing? || p.RestoreWriting? || p.RestoreRereading? || p.RestoreValidating? || p.RestoreVerifying?
  }

  lemma InRestoreRuns(c: Cfg)
    requires Good(c) && InRestore(c.t.pending)
    ensures Running(c) && c.t.writeStarted.Yes? && !Undone(c.t.progress) && c.t.prior == Some(c.t.source)
    ensures !c.t.state.Installing?
  {
    hide Trail, Marker, Lawful;
  }

  lemma RestoreStopsGood(c: Cfg, r: Reply)
    requires Good(c) && InRestore(c.t.pending)
    ensures Good(RestoreFailed(c, r)) && Good(Retain(c)) && Good(RetainWith(c, RollbackFailed))
  {
    InRestoreRuns(c);
    hide Fits, WorldOk, Running, RetainWriteRecovery, RestoreFailed;
    RestoreFailedGood(c, r);
    RetainGood(c, c.t.evidence);
    RetainGood(c, Plus(c.t.evidence, RollbackFailed));
  }

  predicate RestoreMove(c: Cfg, p: Pending) {
    match c.t.pending
    case RestoreComparing =>
      if c.w.remote == c.t.proposed then p == RestoreWriting(c.w.history.edits) else p == RestoreRereading
    case RestoreRereading => p == RestoreValidating
    case RestoreValidating => p == RestoreVerifying
    case _ => false
  }

  lemma RestoreMoveFlows(c: Cfg, p: Pending)
    requires Good(c) && RestoreMove(c, p)
    ensures var t := c.t.(pending := p); Staged(t, c.w) && Flow(t, c.w) && RollbackAuthority(t)
  {
    hide Shape, Level, Undone, CheckpointOk, Locks, Belongings, Secrets, Lawful;
  }

  lemma RestoreMovesGood(c: Cfg, p: Pending)
    requires Good(c) && RestoreMove(c, p)
    ensures Good(Await(c, p))
  {
    InRestoreRuns(c);
    RestoreMoveFlows(c, p);
    hide Fits, WorldOk, Running, Staged, Flow, RollbackAuthority, Belongings;
    MovesGood(c, c.t.(pending := p));
  }

  lemma RestoreReadGood(c: Cfg, r: Reply)
    requires Good(c) && (c.t.pending.RestoreComparing? || c.t.pending.RestoreRereading?
        || c.t.pending.RestoreValidating?)
    ensures Good(ResumeRestore(c, r))
  {
    hide Fits, WorldOk, RestoreFailed, RetainWriteRecovery;
    RestoreStopsGood(c, r);
    if !r.kind.Ok? {}
    else if c.t.pending.RestoreComparing? {
      RestoreMovesGood(c, if c.w.remote == c.t.proposed then RestoreWriting(c.w.history.edits) else RestoreRereading);
    }
    else if c.t.pending.RestoreValidating? { RestoreMovesGood(c, RestoreVerifying); }
    else if c.t.prior == Some(c.w.remote) { RestoreMovesGood(c, RestoreValidating); }
  }

  lemma RestoreFacts(c: Cfg)
    requires Good(c) && c.t.pending.RestoreWriting?
    ensures !c.t.recovered.Yes? && Level(c.t.recovered, c.t.progress) <= 3
        && Raced(c.w, c.t.proposed, c.t.pending.since)
    ensures Shape(c.t.recovered, c.t.progress) && !Undone(c.t.progress)
  {
    hide Shape, WorldOk, Recorded, Secrets, Locks, Staged, RollbackAuthority, Belongings, Level;
  }

  /** The restored text replaces exactly the proposal, unless a third party raced. */
  lemma RestoreLawful(c: Cfg)
    requires Good(c) && c.t.pending.RestoreWriting?
    ensures Lawful(c.w.history, Restored(c.t.id, c.t.proposed, c.w.remote, c.t.source, c.t.pending.since))
  {
    hide Shape, Secrets, Locks, Staged, RollbackAuthority, Belongings, Level, Flow, CheckpointOk;
    RestoreFacts(c);
    Markers(c.t.recovered, c.t.progress);
  }

  lemma RestoreWriteWorldGood(c: Cfg)
    requires Good(c) && c.t.pending.RestoreWriting?
    ensures WorldOk(AfterRestoreWrite(c, c.t.source, c.t.pending.since))
  {
    RestoreLawful(c);
    hide Fits, Lawful;
  }

  lemma RestoreWriteRuns(c: Cfg)
    requires Good(c) && c.t.pending.RestoreWriting?
    ensures Running(Cfg(c.t, AfterRestoreWrite(c, c.t.source, c.t.pending.since)))
  {
    InRestoreRuns(c);
    RestoreWriteWorldGood(c);
    hide Fits, Shape, Level, Undone, WorldOk, Lawful;
  }

  lemma RestoreWriteFlows(c: Cfg)
    requires Good(c) && c.t.pending.RestoreWriting?
    ensures var t := c.t.(pending := RestoreValidating);
            var w := AfterRestoreWrite(c, c.t.source, c.t.pending.since);
            Staged(t, w) && Flow(t, w) && RollbackAuthority(t)
  {
    hide Shape, Level, Undone, WorldOk, Locks, Belongings, Secrets, Lawful;
  }

  lemma RestoreWriteGood(c: Cfg)
    requires Good(c) && c.t.pending.RestoreWriting?
    ensures Good(Cfg(c.t.(pending := RestoreValidating), AfterRestoreWrite(c, c.t.source, c.t.pending.since)))
  {
    InRestoreRuns(c);
    RestoreWriteRuns(c);
    RestoreWriteFlows(c);
    hide Fits, WorldOk, Running, Staged, Flow, RollbackAuthority, Belongings, AfterRestoreWrite;
    MovesGood(Cfg(c.t, AfterRestoreWrite(c, c.t.source, c.t.pending.since)), c.t.(pending := RestoreValidating));
  }

  lemma RestoreWritingCases(c: Cfg, r: Reply)
    requires c.t.pending.RestoreWriting? && c.t.prior == Some(c.t.source)
    ensures var w := AfterRestoreWrite(c, c.t.source, c.t.pending.since);
            ResumeRestore(c, r) ==
            if r.kind.Ok? then Cfg(c.t.(pending := RestoreValidating), w)
            else if r.applied then RestoreFailed(Cfg(c.t, w), r)
            else RestoreFailed(c, r)
  {
    hide RestoreFailed, AfterRestoreWrite;
  }

  lemma RestoreFailedForgets(t: Txn, w: World, r: Reply)
    ensures RestoreFailed(Cfg(t.(pending := RestoreValidating), w), r) == RestoreFailed(Cfg(t, w), r)
  {}

  lemma RestoreWritingGood(c: Cfg, r: Reply)
    requires Good(c) && c.t.pending.RestoreWriting?
    ensures Good(ResumeRestore(c, r))
  {
    InRestoreRuns(c);
    RestoreWritingCases(c, r);
    RestoreWriteGood(c);
    RestoreStopsGood(c, r);
    hide Fits, WorldOk, Running, RestoreFailed, AfterRestoreWrite, ResumeRestore;
    if !r.kind.Ok? && r.applied {
      var w := AfterRestoreWrite(c, c.t.source, c.t.pending.since);
      RestoreStopsGood(Cfg(c.t.(pending := RestoreValidating), w), r);
      RestoreFailedForgets(c.t, w, r);
    }
  }

  lemma ConfirmableFacts(c: Cfg)
    requires Good(c) && c.t.pending.RestoreVerifying?
    ensures Running(c) && !c.t.recovered.Yes? && Level(c.t.recovered, c.t.progress) <= 3 && !Undone(c.t.progress)
    ensures c.w.history.standing != Some(c.t.id) && !c.t.rollbackAvailable.Yes?
  {
    hide Shape, WorldOk, Recorded, Secrets, Locks, Staged, RollbackAuthority, Belongings, Level, Running, Undone;
    InRestoreRuns(c);
  }

  lemma ConfirmedOriginal(c: Cfg)
    requires Good(c) && c.t.pending.RestoreVerifying? && c.t.prior == Some(c.w.remote)
    ensures Original(c.w.history, c.t.id)
  {
    hide Shape, Level, Undone, Locks, Staged, Belongings, RollbackAuthority, Lawful, CheckpointOk;
    assert Opened(c.t.id, c.t.source, c.t.proposed) in c.w.history.seen;
  }

  lemma ConfirmedRuns(c: Cfg)
    requires Good(c) && c.t.pending.RestoreVerifying? && c.t.prior == Some(c.w.remote)
    ensures var d := Cfg(c.t.(progress := Mark(c.t.progress, ConfigRestored)), Note(c.w, RestoreConfirmed(c.t.id)));
            Running(d) && Undone(d.t.progress)
  {
    hide Original;
    ConfirmableFacts(c);
    ConfirmedOriginal(c);
    Undo(c.t);
    Markers(c.t.recovered, c.t.progress);
    Markers(No, Mark(c.t.progress, ConfigRestored));
    hide Fits, Shape, Level, Undone;
  }

  /** The restore is confirmed by a second read: the write no longer stands. */
  lemma ConfirmedGood(c: Cfg)
    requires Good(c) && c.t.pending.RestoreVerifying? && c.t.prior == Some(c.w.remote)
    ensures Good(AfterRestore(Cfg(c.t.(progress := Mark(c.t.progress, ConfigRestored)),
        Note(c.w, RestoreConfirmed(c.t.id)))))
  {
    hide Fits, WorldOk, Running, AfterRestore, Undone, Mark, Level;
    ConfirmableFacts(c);
    ConfirmedRuns(c);
    AfterRestoreGood(Cfg(c.t.(progress := Mark(c.t.progress, ConfigRestored)), Note(c.w, RestoreConfirmed(c.t.id))));
  }

  lemma RestoreVerifyingGood(c: Cfg, r: Reply)
    requires Good(c) && c.t.pending.RestoreVerifying?
    ensures Good(ResumeRestore(c, r))
  {
    hide Fits, WorldOk, RestoreFailed, RetainWriteRecovery, AfterRestore;
    RestoreStopsGood(c, r);
    if c.t.prior == Some(c.w.remote) { ConfirmedGood(c); }
  }

  lemma UndoneFacts(c: Cfg)
    requires Running(c) && Undone(c.t.progress)
    ensures !c.t.recovered.Yes? && !Attempted(c.t)
  {
    hide Trail, Marker, WorldOk, Recorded, Secrets, Locks;
    Markers(c.t.recovered, c.t.progress);
  }

  lemma ReleasingFacts(c: Cfg)
    requires Good(c) && (c.t.pending.ReleasingRestored? || c.t.pending.ClearingRolledBack?)
    ensures Undone(c.t.progress) && !c.t.closed.Yes? && !c.t.writeStarted.Yes? && !c.t.rollbackAvailable.Yes?
    ensures c.w.history.standing != Some(c.t.id)
  {
    hide Shape, Level, WorldOk, Secrets, Locks, Staged, RollbackAuthority, Belongings;
  }

  lemma OpenRuns(c: Cfg)
    requires Good(c) && !c.t.closed.Yes?
    ensures Running(c)
  {
    hide Shape, Level, Trail, Marker, Lawful, Staged, Flow, Locks, Recorded, WorldOk, Secrets;
  }

  lemma RolledBackRuns(c: Cfg)
    requires Good(c) && (c.t.pending.ReleasingRestored? || c.t.pending.ClearingRolledBack?)
    ensures Running(c) && Undone(c.t.progress) && !c.t.recovered.Yes? && !Attempted(c.t)
    ensures !c.t.writeStarted.Yes? && !c.t.rollbackAvailable.Yes? && c.w.history.standing != Some(c.t.id)
  {
    hide Fits, Running, WorldOk;
    ReleasingFacts(c);
    OpenRuns(c);
    UndoneFacts(c);
  }

  lemma ReleasingRestoredGood(c: Cfg, r: Reply)
    requires Good(c) && c.t.pending.ReleasingRestored?
    ensures Good(ResumeRolledBack(c, r))
  {
    var d := AfterReleaseCall(c, r);
    RolledBackRuns(c);
    ReleaseCallGood(c, r);
    RolledBackRuns(d);
    hide Fits, WorldOk, Running, AfterReleaseCall, AfterRelease, RetainWriteRecovery, Finished;
    if r.kind.Ok? { AfterReleaseGood(d); }
    else if Cancels(r) {
      if Claimed(c.t, r) { RetainGood(d, d.t.evidence); } else { FinishGood(d, RolledBack, d.t.evidence); }
    }
    else { RetainGood(d, Plus(d.t.evidence, RollbackFailed)); }
  }

  // ------------------------------------------------- removing the durable record

  lemma ClearedWorldGood(c: Cfg)
    requires WorldOk(c.w) && ClearAllowed(c)
    ensures WorldOk(Note(c.w.(checkpoint := None), Cleared(c.t.id)))
  {}

  lemma ClearedRecorded(c: Cfg, state: State, evidence: seq<Evidence>)
    requires Running(c)
    requires c.w.history.standing == Some(c.t.id) && c.t.proposed != c.t.source
        ==> FirmwareBuilt(c.t.id) in c.w.history.seen
    ensures var t := c.t.(checkpointSaved := No);
            var w := Note(c.w.(checkpoint := None), Cleared(c.t.id));
            Recorded(Finished(t, state, evidence), Unlocked(t, w))
  {
    hide Shape, Level, Undone, Lawful, WorldOk, Secrets, Locks, Belongings;
  }

  lemma ClearedLocks(c: Cfg, state: State, evidence: seq<Evidence>)
    requires Running(c)
    requires state.Failed? || state.RolledBack? || state.Verified?
    ensures var t := c.t.(checkpointSaved := No);
            var w := Note(c.w.(checkpoint := None), Cleared(c.t.id));
            var d := Cfg(Finished(t, state, evidence), Unlocked(t, w));
            Locks(d.t, d.w) && Belongings(d.t, d.w) && (WorldOk(w) ==> WorldOk(d.w))
  {
    hide Shape, Level, Undone, Lawful, Recorded, CheckpointOk;
  }

  /** A record may go when its handle ends. */
  lemma ClearedFinishGood(c: Cfg, state: State, evidence: seq<Evidence>)
    requires Running(c) && ClearAllowed(c)
    requires state.Failed? || state.RolledBack? || state.Verified?
    requires c.w.history.standing == Some(c.t.id) && c.t.proposed != c.t.source
        ==> FirmwareBuilt(c.t.id) in c.w.history.seen
    ensures var t := c.t.(checkpointSaved := No);
            var w := Note(c.w.(checkpoint := None), Cleared(c.t.id));
            Good(Cfg(Finished(t, state, evidence), Unlocked(t, w)))
  {
    ClearedWorldGood(c);
    ClearedRecorded(c, state, evidence);
    ClearedLocks(c, state, evidence);
    hide Shape, Level, Undone, Lawful, CheckpointOk, WorldOk, Recorded, Locks, Belongings, Record;
  }

  lemma ClearedEndsGood(c: Cfg, r: Reply, drained: bool, state: State, evidence: seq<Evidence>)
    requires Running(c) && Clears(c, r, drained)
    requires state.Failed? || state.RolledBack? || state.Verified?
    requires c.w.history.standing == Some(c.t.id) && c.t.proposed != c.t.source
        ==> FirmwareBuilt(c.t.id) in c.w.history.seen
    ensures var d := AfterClear(c, r, drained);
            d.t.evidence == c.t.evidence && Good(Cfg(Finished(d.t, state, evidence), Unlocked(d.t, d.w)))
  {
    ClearedFinishGood(c, state, evidence);
    hide Running, Fits, WorldOk, Finished, Unlocked, Record;
  }

  /** A removal that reports failure although it took effect is survived, not noticed. */
  lemma SilentRuns(c: Cfg)
    requires Running(c) && ClearAllowed(c) && (Attempted(c.t) || Undone(c.t.progress) || Stuck(c.t))
    ensures Running(Cfg(c.t, Note(c.w.(checkpoint := None), ClearedSilently(c.t.id))))
  {
    hide Shape, Trail, Marker;
    var w := Note(c.w.(checkpoint := None), ClearedSilently(c.t.id));
    assert w.history.lawful;
    assert WorldOk(w);
  }

  lemma UnclearedRuns(c: Cfg, r: Reply, drained: bool)
    requires Running(c) && !Clears(c, r, drained) && (Attempted(c.t) || Undone(c.t.progress) || Stuck(c.t))
    ensures Running(AfterClear(c, r, drained)) && AfterClear(c, r, drained).t == c.t
  {
    hide Running, Record;
    if ClearAllowed(c) && r.applied { SilentRuns(c); }
  }

  lemma ClearingRolledBackGood(c: Cfg, r: Reply)
    requires Good(c) && c.t.pending.ClearingRolledBack?
    ensures Good(ResumeRolledBack(c, r))
  {
    RolledBackRuns(c);
    hide Fits, WorldOk, Running, RetainWriteRecovery, Finished, Record;
    hide Clears, AfterClear, Unlocked;
    if Clears(c, r, false) { ClearedEndsGood(c, r, false, RolledBack, c.t.evidence); }
    else {
      UnclearedRuns(c, r, false);
      var d := AfterClear(c, r, false);
      RetainGood(d, d.t.evidence);
      RetainGood(d, Plus(d.t.evidence, RollbackFailed));
    }
  }

  // -------------------------------------------------------------------- compile

  /** A failed source check of a handle that wrote leaves it open for recovery. */
  lemma StaleSourceGood(c: Cfg)
    requires Good(c) && c.t.writeStarted.Yes? && !c.t.closed.Yes? && !Undone(c.t.progress)
    requires Attempted(c.t) || c.t.recovered.Yes? || Tidy(c.t)
    ensures Good(CheckFailed(c))
  {
    OpenRuns(c);
    hide Fits, WorldOk, Running, CheckFailed;
    CheckFailedGood(c);
  }

  lemma CompileMovesGood(c: Cfg, p: Pending)
    requires Good(c)
    requires (c.t.pending.CompileCheck? && p.Compiling?) || (c.t.pending.Compiling? && p.CompiledCheck?)
    ensures Good(Await(c, p))
  {
    hide Trail, Marker, Lawful, WorldOk;
  }

  lemma CompileFacts(c: Cfg)
    requires Good(c) && PartOf(c.t.pending).Compilation?
    ensures Running(c) && c.t.state.Validated? && c.t.writeStarted.Yes? && !Undone(c.t.progress) && !c.t.recovered.Yes?
    ensures Level(No, c.t.progress) == 2 && c.t.plan.Some? && c.t.prior == Some(c.t.source)
  {
    OpenRuns(c);
    hide Shape, Trail, Marker, Lawful, WorldOk, Locks, Recorded, Running;
  }

  lemma CompileCheckGood(c: Cfg, r: Reply)
    requires Good(c) && c.t.pending.CompileCheck?
    ensures Good(ResumeCompile(c, r))
  {
    CompileFacts(c);
    hide Fits, WorldOk, Running, CheckFailed, Staged, Level;
    if CheckPasses(c, r) { CompileMovesGood(c, Compiling); } else { StaleSourceGood(c); }
  }

  lemma CompileRejectedGood(c: Cfg)
    requires Good(c) && c.t.pending.Compiling?
    ensures Good(c.(t := c.t.(state := Failed, rollbackAvailable := Yes,
                              evidence := Plus(c.t.evidence, CompileFailed), pending := Ready)))
  {
    CompileFacts(c);
    Markers(c.t.recovered, c.t.progress);
    hide Trail, Marker, Lawful, WorldOk, Running;
  }

  lemma CompileCancelledGood(c: Cfg)
    requires Good(c) && c.t.pending.Compiling?
    ensures Good(BeginRollback(c, Plus(c.t.evidence, ValidationUnavailable)))
  {
    CompileFacts(c);
    assert Staged(c.t.(pending := Ready), c.w) by {
      hide Shape, Trail, Marker, Lawful, WorldOk, Locks, Recorded, Running, Level; }
    hide Fits, WorldOk, Running, Staged, BeginRollback;
    BeginRollbackGood(c, Plus(c.t.evidence, ValidationUnavailable));
  }

  lemma CompilingGood(c: Cfg, r: Reply)
    requires Good(c) && c.t.pending.Compiling?
    ensures Good(ResumeCompile(c, r))
  {
    CompileFacts(c);
    if Cancels(r) { CompileCancelledGood(c); }
    hide Fits, WorldOk, Running, Staged, Level, BeginRollback;
    if r.kind.Ok? { CompileMovesGood(c, CompiledCheck); }
    else if !Cancels(r) { CompileRejectedGood(c); }
  }

  lemma BuiltGood(c: Cfg)
    requires Good(c) && c.t.pending.CompiledCheck?
    ensures Good(Cfg(c.t.(state := InstallConfirmationRequired, progress := Mark(c.t.progress, FirmwareCompiled),
        pending := Ready),
                     Note(c.w, FirmwareBuilt(c.t.id))))
  {
    CompileFacts(c);
    Markers(c.t.recovered, c.t.progress);
    Advance(c.t, 2);
    Markers(c.t.recovered, Mark(c.t.progress, FirmwareCompiled));
    hide Shape, Trail, Mark, Running;
  }

  lemma CompiledCheckGood(c: Cfg, r: Reply)
    requires Good(c) && c.t.pending.CompiledCheck?
    ensures Good(ResumeCompile(c, r))
  {
    CompileFacts(c);
    hide Fits, WorldOk, Running, CheckFailed, Staged, Level;
    if CheckPasses(c, r) { BuiltGood(c); } else { StaleSourceGood(c); }
  }
}
