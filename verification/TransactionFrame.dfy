/** What a step of one handle may do to the world, and why it disturbs no other handle. */
module TransactionFrame {
  import opened Common
  import opened TransactionModel
  import opened TransactionLaws
  import opened TransactionSteps
  import opened TransactionInstall

  function Owner(e: Effect): Option<Id> {
    if e.Edited? || e.Crashed? then None else Some(e.id)
  }

  /** The history that a log amounts to. */
  function Replay(log: seq<Effect>): History {
    if log == [] then NOTHING else Record(Replay(log[..|log| - 1]), log[|log| - 1])
  }

  /** The book-keeping is exactly what the log says. */
  predicate Logged(h: History) { h == Replay(h.log) }

  lemma RecordLogged(h: History, e: Effect)
    requires Logged(h)
    ensures Logged(Record(h, e))
  {
    hide Lawful;
    var log := h.log + [e];
    assert log[..|log| - 1] == h.log;
  }

  /** The handle `a` adds only its own entries, and touches the lock, the file and the
      durable record only while it holds the meter. */
  ghost predicate Guarantee(a: Id, w: World, w': World) {
    var h, h' := w.history, w'.history;
    && h.seen <= h'.seen && (forall e :: e in h'.seen && e !in h.seen ==> Owner(e) == Some(a) && !e.Opened?)
    && (Logged(h) ==> Logged(h'))
    && h.log <= h'.log && h'.edits == h.edits && h'.ids == h.ids
    && (h'.settled == h.settled || w.lock == Some(Handle(a)))
    && (h'.durable == h.durable || h'.durable == None || h'.durable == Some(a))
    && (forall id :: id != a ==> (id in h'.wrote <==> id in h.wrote) && (id in h'.dispatched <==> id in h.dispatched))
    && h.wrote <= h'.wrote && h.dispatched <= h'.dispatched
    && (h'.standing == h.standing || h'.standing == None || h'.standing == Some(a))
    && (w'.remote == w.remote || (w.lock == Some(Handle(a)) && (h'.standing == None || h'.standing == Some(a))))
    && (w'.lock == w.lock || (w.lock in {None, Some(Handle(a))} && w'.lock in {None, Some(Handle(a))}))
    && (h'.durable == h.durable || h.durable == Some(a) || w.lock == Some(Handle(a)))
  }

  /** What a step needs in order to keep the guarantee. */
  predicate Holds(c: Cfg) {
    && (c.t.lease.Yes? || c.t.previewLease.Yes? ==> c.w.lock == Some(Handle(c.t.id)))
    && (c.t.pending.Writing? || c.t.pending.RestoreWriting? || c.t.pending.SavingCheckpoint? ||
        c.t.pending.SavingUploaded? ==>
          c.w.lock == Some(Handle(c.t.id)))
    && c.w.history.durable == (if c.w.checkpoint.Some? then Some(c.w.checkpoint.value.id) else None)
  }

  lemma GoodHolds(c: Cfg)
    requires Good(c)
    ensures Holds(c)
  {
    hide Shape, Level, Recorded, Secrets, RollbackAuthority, Belongings;
    if c.t.pending.Writing? {} else if c.t.pending.RestoreWriting? {} else if c.t.pending.SavingCheckpoint? {}
      else if c.t.pending.SavingUploaded? {}
  }

  // ------------------------------------------------------------- single calls

  predicate Plain(e: Effect) {
    !(e.Wrote? || e.Restored? || e.Saved? || e.Cleared? || e.ClearedSilently? || e.Edited? || e.Opened? || e.Crashed?)
  }

  lemma NoteFrame(a: Id, w: World, e: Effect)
    requires Plain(e) && e.id == a
    ensures Guarantee(a, w, Note(w, e)) && Note(w, e).lock == w.lock
  {
    hide Lawful, Logged;
    if Logged(w.history) { RecordLogged(w.history, e); }
  }

  lemma SaveFrame(c: Cfg, r: Reply, uploaded: bool)
    requires c.w.lock == Some(Handle(c.t.id))
    ensures Guarantee(c.t.id, c.w, AfterSave(c, r, uploaded)) && AfterSave(c, r, uploaded).lock == c.w.lock
  {
    hide Lawful, Logged;
    if Logged(c.w.history) { RecordLogged(c.w.history, Saved(c.t.id, uploaded)); }
  }

  lemma ClearedFrame(c: Cfg, e: Effect)
    requires Holds(c) && ClearAllowed(c) && (e == Cleared(c.t.id) || e == ClearedSilently(c.t.id))
    ensures var w := Note(c.w.(checkpoint := None), e);
            Guarantee(c.t.id, c.w, w) && w.lock == c.w.lock
  {
    hide Lawful, Logged;
    if Logged(c.w.history) { RecordLogged(c.w.history, e); }
  }

  lemma SameFrame(a: Id, w: World)
    ensures Guarantee(a, w, w)
  {}

  lemma ClearFrame(c: Cfg, r: Reply, drained: bool)
    requires Holds(c)
    ensures Guarantee(c.t.id, c.w, AfterClear(c, r, drained).w) && AfterClear(c, r, drained).w.lock == c.w.lock
    ensures var t := AfterClear(c, r, drained).t;
        t.id == c.t.id && t.lease.Yes? == c.t.lease.Yes? && t.closed.Yes? == c.t.closed.Yes?
  {
    hide Guarantee, Record, Holds, Drained;
    if Clears(c, r, drained) { ClearedFrame(c, Cleared(c.t.id)); }
    else if ClearAllowed(c) && r.applied { ClearedFrame(c, ClearedSilently(c.t.id)); }
    else { SameFrame(c.t.id, c.w); }
  }

  lemma ReleaseFrame(c: Cfg, r: Reply)
    ensures var d := AfterReleaseCall(c, r);
            && Guarantee(c.t.id, c.w, d.w) && d.w.lock == c.w.lock
            && d.t == c.t.(reservationClaimed := Bit(Claimed(c.t, r)))
  {
    hide Guarantee, Record, Drained;
    NoteFrame(c.t.id, c.w, Released(c.t.id));
    SameFrame(c.t.id, c.w);
  }

  lemma WriteCallFrame(c: Cfg, since: nat, content: Yaml)
    requires c.w.lock == Some(Handle(c.t.id))
    ensures Guarantee(c.t.id, c.w, AfterWrite(c, since)) && AfterWrite(c, since).lock == c.w.lock
    ensures Guarantee(c.t.id, c.w, AfterRestoreWrite(c, content, since))
        && AfterRestoreWrite(c, content, since).lock == c.w.lock
  {
    hide Lawful, Logged;
    if Logged(c.w.history) {
      RecordLogged(c.w.history, Wrote(c.t.id, c.t.source, c.w.remote, c.t.proposed, since));
      RecordLogged(c.w.history, Restored(c.t.id, c.t.proposed, c.w.remote, content, since));
    }
  }

  lemma UnlockFrame(a: Id, w: World, w': World)
    requires Guarantee(a, w, w') && w.lock == Some(Handle(a)) && w'.lock == w.lock
    ensures Guarantee(a, w, w'.(lock := None))
  {}

  lemma GrantFrame(a: Id, w: World)
    requires w.lock.None?
    ensures Guarantee(a, w, w.(lock := Some(Handle(a))))
    ensures Guarantee(a, w, Note(w.(lock := Some(Handle(a))), LeakedLease(a)))
  {
    hide Lawful, Logged;
    if Logged(w.history) { RecordLogged(w.history, LeakedLease(a)); }
  }

  // ------------------------------------------------- code after the call, lock aside

  /** From `c` to `d` nothing happened to the world, except that the lock may be given back. */
  predicate Quiet(c: Cfg, d: Cfg) {
    d.w == c.w || (c.t.lease.Yes? && !c.t.closed.Yes? && d.w == c.w.(lock := None))
  }

  lemma QuietFrame(w: World, c: Cfg, d: Cfg)
    requires Guarantee(c.t.id, w, c.w) && c.w.lock == w.lock && Quiet(c, d)
    requires c.t.lease.Yes? ==> w.lock == Some(Handle(c.t.id))
    ensures Guarantee(c.t.id, w, d.w)
  {
    hide Guarantee;
    if d.w != c.w { UnlockFrame(c.t.id, w, c.w); }
  }

  lemma FinishQuiet(c: Cfg, state: State, code: Evidence)
    ensures Quiet(c, Finish(c, state)) && Quiet(c, FinishWith(c, state, code)) && Quiet(c, CheckFailed(c))
  {
    hide Finished, RetainWriteRecovery;
  }

  lemma AfterRestoreQuiet(c: Cfg)
    ensures Quiet(c, AfterRestore(c)) && Quiet(c, AfterRelease(c)) && Quiet(c, AfterAbandon(c))
  {
    hide Finished;
  }

  lemma BeginRollbackFrame(c: Cfg, evidence: seq<Evidence>)
    requires Holds(c)
    ensures Guarantee(c.t.id, c.w, BeginRollback(c, evidence).w)
  {
    hide Guarantee, Record, AfterRestore;
    NoteFrame(c.t.id, c.w, RollbackRefused(c.t.id));
    SameFrame(c.t.id, c.w);
    var d := c.(t := c.t.(rollbackAvailable := No, evidence := evidence));
    AfterRestoreQuiet(d);
    QuietFrame(c.w, d, AfterRestore(d));
  }

  // ------------------------------------------------------------- whole segments

  lemma CompileFrame(c: Cfg, r: Reply)
    requires Holds(c)
    ensures Guarantee(c.t.id, c.w, ResumeCompile(c, r).w)
  {
    hide Guarantee, Record, Finished, RetainWriteRecovery, RetainInstallRetry, AfterRestore, AfterRelease, AfterAbandon,
      CheckFailed, BeginRollback, AfterClear, AfterSave, AfterReleaseCall, AfterWrite, AfterRestoreWrite, Drained,
      Mark, Plus, Without;
    SameFrame(c.t.id, c.w);
    FinishQuiet(c, Failed, SourceChanged);
    QuietFrame(c.w, c, CheckFailed(c));
    BeginRollbackFrame(c, Plus(c.t.evidence, ValidationUnavailable));
    NoteFrame(c.t.id, c.w, FirmwareBuilt(c.t.id));
  }

  lemma RetryFrame(c: Cfg, r: Reply)
    requires Holds(c)
    ensures Guarantee(c.t.id, c.w, ResumeRetry(c, r).w)
  {
    hide Guarantee, Record, Finished, RetainWriteRecovery, RetainInstallRetry, AfterRestore, AfterRelease, AfterAbandon,
      CheckFailed, BeginRollback, AfterClear, AfterSave, AfterReleaseCall, AfterWrite, AfterRestoreWrite, Drained,
      Mark, Plus, Without;
    SameFrame(c.t.id, c.w);
    FinishQuiet(c, Failed, SourceChanged);
    QuietFrame(c.w, c, CheckFailed(c));
    NoteFrame(c.t.id, c.w, Dispatched(c.t.id, c.t.source, c.t.proposed, c.w.remote));
  }

  lemma VerifyFrame(c: Cfg, r: Reply)
    requires Holds(c)
    ensures Guarantee(c.t.id, c.w, ResumeVerify(c, r).w)
  {
    hide Guarantee, Record, Finished, RetainWriteRecovery, RetainInstallRetry, AfterRestore, AfterRelease, AfterAbandon,
      CheckFailed, BeginRollback, AfterClear, AfterSave, AfterReleaseCall, AfterWrite, AfterRestoreWrite, Drained,
      Mark, Plus, Without;
    SameFrame(c.t.id, c.w);
    FinishQuiet(c, Failed, SourceChanged);
    QuietFrame(c.w, c, CheckFailed(c));
    ClearFrame(c, r, true);
    var d := AfterClear(c, r, true);
    FinishQuiet(d, Verified, SourceChanged);
    QuietFrame(c.w, d, Finish(d, Verified));
  }

  lemma GrantedFrame(c: Cfg)
    ensures c.w.lock.None? ==> Guarantee(c.t.id, c.w, Granted(c).w)
  {
    hide Guarantee, Record;
    if c.w.lock.None? { GrantFrame(c.t.id, c.w); }
  }

  lemma RevalidatedSame(c: Cfg)
    ensures AfterRevalidation(c).w == c.w
  {}

  lemma EndPreviewFrame(c: Cfg, w: World)
    requires Guarantee(c.t.id, w, c.w) && c.w.lock == w.lock
        && (c.t.previewLease.Yes? ==> w.lock == Some(Handle(c.t.id)))
    ensures Guarantee(c.t.id, w, EndPreview(c).w)
  {
    hide Guarantee;
    if c.t.previewLease.Yes? { UnlockFrame(c.t.id, w, c.w); }
    else { assert EndPreview(c).w == c.w; }
  }

  lemma ClaimingFrame(c: Cfg, r: Reply)
    requires Holds(c) && c.t.pending.Claiming?
    ensures Guarantee(c.t.id, c.w, ResumePreparation(c, r).w)
  {
    hide Guarantee, Record, EndPreview;
    SameFrame(c.t.id, c.w);
    if r.kind.Ok? { EndPreviewFrame(Await(c, Ready), c.w); }
    else if r.kind.Refused? {
      EndPreviewFrame(c.(t := Finished(c.t.(reservationClaimed := No), Failed, c.t.evidence)), c.w);
    }
  }

  lemma StaleFrame(c: Cfg, r: Reply, code: Evidence)
    requires Holds(c)
    ensures var d := AfterReleaseCall(c, r);
            Guarantee(c.t.id, c.w, d.w) && Guarantee(c.t.id, c.w, FinishWith(d, Failed, code).w)
  {
    hide Guarantee, Record, AfterReleaseCall, Finished;
    ReleaseFrame(c, r);
    var d := AfterReleaseCall(c, r);
    FinishQuiet(d, Failed, code);
    QuietFrame(c.w, d, FinishWith(d, Failed, code));
  }

  lemma StopFrame(c: Cfg, state: State, code: Evidence)
    requires Holds(c)
    ensures Guarantee(c.t.id, c.w, FinishWith(c, state, code).w) && Guarantee(c.t.id, c.w, Finish(c, state).w)
    ensures Guarantee(c.t.id, c.w, CheckFailed(c).w)
  {
    hide Guarantee, FinishWith, Finish, CheckFailed;
    SameFrame(c.t.id, c.w);
    FinishQuiet(c, state, code);
    QuietFrame(c.w, c, FinishWith(c, state, code));
    QuietFrame(c.w, c, Finish(c, state));
    QuietFrame(c.w, c, CheckFailed(c));
  }

  lemma UnchangedFrame(c: Cfg, r: Reply)
    requires Holds(c) && (c.t.pending.UnchangedCheck? || c.t.pending.UnchangedSave?)
    ensures Guarantee(c.t.id, c.w, ResumePreparation(c, r).w)
  {
    hide Guarantee, Record, CheckFailed, Drained, Mark, FinishWith, Finish, CheckPasses;
    SameFrame(c.t.id, c.w);
    StopFrame(c, Failed, if c.t.pending.UnchangedCheck? then SourceChanged else PersistenceFailed);
    StopFrame(c.(t := c.t.(progress := Mark(c.t.progress, MetadataPersisted))), Verified, PersistenceFailed);
  }

  lemma PreparingFrame(c: Cfg, r: Reply)
    requires Holds(c) && !c.t.pending.Claiming? && !c.t.pending.UnchangedCheck? && !c.t.pending.UnchangedSave?
    ensures Guarantee(c.t.id, c.w, ResumePreparation(c, r).w)
  {
    hide Guarantee, Record, Finished, CheckFailed, AfterReleaseCall, Drained, AfterRevalidation, Granted, FinishWith,
      Finish, EndPreview, CheckPasses;
    SameFrame(c.t.id, c.w);
    match c.t.pending
    case Acquiring => GrantedFrame(c);
    case Revalidating =>
      RevalidatedSame(c);
      StopFrame(c, Failed, if Cancels(r) then Cancelled else SourceChanged);
    case ReleasingStale(code) => StaleFrame(c, r, code);
    case _ =>
  }

  lemma PreparationFrame(c: Cfg, r: Reply)
    requires Holds(c)
    ensures Guarantee(c.t.id, c.w, ResumePreparation(c, r).w)
  {
    hide Guarantee, Holds, ResumePreparation;
    if c.t.pending.Claiming? { ClaimingFrame(c, r); }
    else if c.t.pending.UnchangedCheck? || c.t.pending.UnchangedSave? { UnchangedFrame(c, r); }
    else { PreparingFrame(c, r); }
  }

  lemma WriteFrame(c: Cfg, r: Reply)
    requires Holds(c)
    ensures Guarantee(c.t.id, c.w, ResumeWrite(c, r).w)
  {
    hide Guarantee, Record, Finished, RetainWriteRecovery, RetainInstallRetry, AfterRestore, AfterRelease, AfterAbandon,
      CheckFailed, BeginRollback, AfterClear, AfterSave, AfterReleaseCall, AfterWrite, AfterRestoreWrite, Drained,
      Mark, Plus, Without;
    SameFrame(c.t.id, c.w);
    match c.t.pending
    case Comparing =>
      var d := c.(t := c.t.(writeStarted := No));
      FinishQuiet(d, Failed, SourceChanged);
      QuietFrame(c.w, d, FinishWith(d, Failed, SourceChanged));
    case Writing(since) => WriteCallFrame(c, since, c.t.source);
    case Reconciling =>
      FinishQuiet(c, Failed, WriteNotApplied);
      QuietFrame(c.w, c, FinishWith(c, Failed, WriteNotApplied));
      BeginRollbackFrame(c, c.t.evidence);
    case Validating =>
      NoteFrame(c.t.id, c.w, ConfigValid(c.t.id));
      BeginRollbackFrame(c, Plus(c.t.evidence, if r.kind.Refused? then ValidationFailed else ValidationUnavailable));
    case _ =>
  }

  lemma RestoreFrame(c: Cfg, r: Reply)
    requires Holds(c)
    ensures Guarantee(c.t.id, c.w, ResumeRestore(c, r).w)
  {
    hide Guarantee, Record, Finished, RetainWriteRecovery, RetainInstallRetry, AfterRestore, AfterRelease, AfterAbandon,
      CheckFailed, BeginRollback, AfterClear, AfterSave, AfterReleaseCall, AfterWrite, AfterRestoreWrite, Drained,
      Mark, Plus, Without;
    SameFrame(c.t.id, c.w);
    if c.t.pending.RestoreWriting? && c.t.prior.Some? { WriteCallFrame(c, c.t.pending.since, c.t.prior.value); }
    var d := Cfg(c.t.(progress := Mark(c.t.progress, ConfigRestored)), Note(c.w, RestoreConfirmed(c.t.id)));
    NoteFrame(c.t.id, c.w, RestoreConfirmed(c.t.id));
    AfterRestoreQuiet(d);
    QuietFrame(c.w, d, AfterRestore(d));
  }

  lemma RolledBackFrame(c: Cfg, r: Reply)
    requires Holds(c)
    ensures Guarantee(c.t.id, c.w, ResumeRolledBack(c, r).w)
  {
    hide Guarantee, Record, Finished, RetainWriteRecovery, RetainInstallRetry, AfterRestore, AfterRelease, AfterAbandon,
      CheckFailed, BeginRollback, AfterClear, AfterSave, AfterReleaseCall, AfterWrite, AfterRestoreWrite, Drained,
      Mark, Plus, Without;
    SameFrame(c.t.id, c.w);
    ReleaseFrame(c, r);
    ClearFrame(c, r, false);
    var d, e := AfterReleaseCall(c, r), AfterClear(c, r, false);
    AfterRestoreQuiet(d);
    QuietFrame(c.w, d, AfterRelease(d));
    FinishQuiet(d, RolledBack, Cancelled);
    QuietFrame(c.w, d, Finish(d, RolledBack));
    FinishQuiet(e, RolledBack, Cancelled);
    QuietFrame(c.w, e, Finish(e, RolledBack));
  }

  lemma InstallFrame(c: Cfg, r: Reply)
    requires Holds(c)
    ensures Guarantee(c.t.id, c.w, ResumeInstall(c, r).w)
  {
    hide Guarantee, Record, Finished, RetainWriteRecovery, RetainInstallRetry, AfterRestore, AfterRelease, AfterAbandon,
      CheckFailed, BeginRollback, AfterClear, AfterSave, AfterReleaseCall, AfterWrite, AfterRestoreWrite, Drained,
      Mark, Plus, Without;
    SameFrame(c.t.id, c.w);
    FinishQuiet(c, Failed, SourceChanged);
    QuietFrame(c.w, c, CheckFailed(c));
    match c.t.pending
    case Revoking =>
      NoteFrame(c.t.id, c.w, Revoked(c.t.id));
      var w := if Drained(r) || r.applied then Note(c.w, Revoked(c.t.id)) else c.w;
      var d := Cfg(c.t.(commitStarted := No), w);
      var code := if Cancels(r) then Cancelled else PersistenceFailed;
      FinishQuiet(d, Failed, code);
      QuietFrame(c.w, d, FinishWith(d, Failed, code));
    case SavingCheckpoint =>
      SaveFrame(c, r, false);
      var d := Cfg(c.t.(commitStarted := No), AfterSave(c, r, false));
      FinishQuiet(d, Failed, PersistenceFailed);
      QuietFrame(c.w, d, FinishWith(d, Failed, PersistenceFailed));
    case ClearingCancelled =>
      var d := c.(t := c.t.(commitStarted := No));
      ClearFrame(d, r, true);
      var e := AfterClear(d, r, true);
      FinishQuiet(e, Failed, Cancelled);
      QuietFrame(c.w, e, FinishWith(e, Failed, Cancelled));
    case DispatchCheck => NoteFrame(c.t.id, c.w, Dispatched(c.t.id, c.t.source, c.t.proposed, c.w.remote));
    case _ =>
  }

  lemma UploadFrame(c: Cfg, r: Reply)
    requires Holds(c)
    ensures Guarantee(c.t.id, c.w, ResumeUpload(c, r).w)
  {
    hide Guarantee, Record, Finished, RetainWriteRecovery, RetainInstallRetry, AfterRestore, AfterRelease, AfterAbandon,
      CheckFailed, BeginRollback, AfterClear, AfterSave, AfterReleaseCall, AfterWrite, AfterRestoreWrite, Drained,
      Mark, Plus, Without;
    SameFrame(c.t.id, c.w);
    match c.t.pending
    case Uploading => NoteFrame(c.t.id, c.w, Acknowledged(c.t.id));
    case SavingUploaded => SaveFrame(c, r, true);
    case ClearingRejected(code) =>
      var d := c.(t := c.t.(commitStarted := No));
      ClearFrame(d, r, true);
      var e := AfterClear(d, r, true);
      FinishQuiet(e, Failed, code);
      QuietFrame(c.w, e, FinishWith(e, Failed, code));
    case _ =>
  }

  lemma AbandonReleaseFrame(c: Cfg, r: Reply)
    requires Holds(c)
    ensures Guarantee(c.t.id, c.w, AfterReleaseCall(c, r).w)
        && Guarantee(c.t.id, c.w, AfterAbandon(AfterReleaseCall(c, r)).w)
  {
    hide Guarantee, Record, AfterReleaseCall, AfterAbandon;
    ReleaseFrame(c, r);
    var d := AfterReleaseCall(c, r);
    AfterRestoreQuiet(d);
    QuietFrame(c.w, d, AfterAbandon(d));
  }

  lemma AbandonClearFrame(c: Cfg, r: Reply)
    requires Holds(c)
    ensures var e := AfterClear(c, r, false);
            Guarantee(c.t.id, c.w, e.w) && Guarantee(c.t.id, c.w, FinishWith(e, Failed, Cancelled).w)
  {
    hide Guarantee, Record, AfterClear, Finished;
    ClearFrame(c, r, false);
    var e := AfterClear(c, r, false);
    FinishQuiet(e, Failed, Cancelled);
    QuietFrame(c.w, e, FinishWith(e, Failed, Cancelled));
  }

  lemma AbandonCheckFrame(c: Cfg)
    requires Holds(c)
    ensures Guarantee(c.t.id, c.w, CheckFailed(c).w) && Guarantee(c.t.id, c.w, AfterAbandon(c).w)
  {
    hide Guarantee, CheckFailed, AfterAbandon;
    SameFrame(c.t.id, c.w);
    FinishQuiet(c, Failed, SourceChanged);
    QuietFrame(c.w, c, CheckFailed(c));
    AfterRestoreQuiet(c);
    QuietFrame(c.w, c, AfterAbandon(c));
  }

  lemma AbandonFrame(c: Cfg, r: Reply)
    requires Holds(c)
    ensures Guarantee(c.t.id, c.w, ResumeAbandon(c, r).w)
  {
    hide Guarantee, Holds, CheckPasses, AfterAbandon, CheckFailed, AfterClear, Clears, AfterReleaseCall, FinishWith;
    FinishQuiet(c, Failed, SourceChanged);
    AfterRestoreQuiet(c);
    AbandonReleaseFrame(c, r);
    AbandonClearFrame(c, r);
    AbandonCheckFrame(c);
    SameFrame(c.t.id, c.w);
  }

  lemma PreviewFrame(c: Cfg, r: Reply)
    requires Holds(c) && c.t.previewRelease.Yes? && !(c.t.lease.Yes? && c.t.previewLease.Yes?)
    ensures Guarantee(c.t.id, c.w, ResumePreview(c, r).w)
  {
    hide Guarantee, Record, AfterReleaseCall, Drained;
    ReleaseFrame(c, r);
    var d := AfterReleaseCall(c, r);
    if c.t.lease.Yes? || c.t.previewLease.Yes? { UnlockFrame(c.t.id, c.w, d.w); }
  }

  lemma ResumeFrame(c: Cfg, r: Reply)
    requires Holds(c)
    ensures Guarantee(c.t.id, c.w, Resume(c, r).w)
  {
    hide Guarantee, Holds, ResumePreparation, ResumeWrite, ResumeRestore, ResumeRolledBack, ResumeCompile, ResumeRetry,
      ResumeInstall, ResumeUpload, ResumeVerify, ResumeAbandon, PartOf;
    match PartOf(c.t.pending)
    case Preparation => PreparationFrame(c, r);
    case Write => WriteFrame(c, r);
    case Restoring => RestoreFrame(c, r);
    case RolledBackPart => RolledBackFrame(c, r);
    case Compilation => CompileFrame(c, r);
    case Retrying => RetryFrame(c, r);
    case Install => InstallFrame(c, r);
    case Upload => UploadFrame(c, r);
    case Verification => VerifyFrame(c, r);
    case Abandoning => AbandonFrame(c, r);
    case NoPart => SameFrame(c.t.id, c.w);
  }

  lemma StartFrame(c: Cfg, op: Operation)
    requires Holds(c)
    ensures Guarantee(c.t.id, c.w, Start(c, op).w)
  {
    hide Guarantee, BeginRollback, AfterAbandon;
    SameFrame(c.t.id, c.w);
    BeginRollbackFrame(c, c.t.evidence);
    AfterRestoreQuiet(c);
    QuietFrame(c.w, c, AfterAbandon(c));
  }

  lemma ExpireFrame(c: Cfg)
    requires Holds(c)
    ensures Guarantee(c.t.id, c.w, Expire(c).w)
  {
    hide Guarantee;
    SameFrame(c.t.id, c.w);
    if c.t.lease.Yes? { UnlockFrame(c.t.id, c.w, c.w); }
  }

  lemma CleanupFrame(c: Cfg)
    requires Holds(c)
    ensures Guarantee(c.t.id, c.w, StartCleanup(c).w)
  {
    hide Guarantee, BeginRollback;
    SameFrame(c.t.id, c.w);
    BeginRollbackFrame(c.(t := c.t.(cleanupQueued := No)), c.t.evidence);
  }

  /** No step changes the identity of a handle, reopens it or claims the reservation. */
  predicate Same(t: Txn, t': Txn) {
    t'.id == t.id && t'.source == t.source && t'.proposed == t.proposed && t'.purpose == t.purpose
      && t'.recovered == t.recovered
    && (t.closed.Yes? ==> t'.closed.Yes?) && (t.reservationClaimed.No? ==> t'.reservationClaimed.No?)
  }

  lemma EndsSame(c: Cfg, state: State, code: Evidence)
    ensures Same(c.t, Finish(c, state).t) && Same(c.t, FinishWith(c, state, code).t)
    ensures Same(c.t, Retain(c).t) && Same(c.t, RetainWith(c, code).t) && Same(c.t, Retry(c, code).t)
  {
    hide Plus, Unlocked;
  }

  lemma CheckFailedSame(c: Cfg)
    ensures Same(c.t, CheckFailed(c).t)
  {
    hide FinishWith, RetainWith;
    EndsSame(c, Failed, SourceChanged);
  }

  lemma AfterReleaseSame(c: Cfg)
    ensures Same(c.t, AfterRelease(c).t)
  {
    hide Finish;
    if !c.t.checkpointSaved.Yes? { EndsSame(c, RolledBack, Cancelled); }
  }

  lemma AfterAbandonSame(c: Cfg)
    ensures Same(c.t, AfterAbandon(c).t)
  {
    hide FinishWith, Attempted;
    if !Attempted(c.t) { EndsSame(c, Failed, Cancelled); }
  }

  lemma AfterRestoreSame(c: Cfg)
    ensures Same(c.t, AfterRestore(c).t)
  {
    hide AfterRelease;
    var d := c.(t := c.t.(writeStarted := No));
    if c.t.reservationClaimed.Yes? {} else { AfterReleaseSame(d); assert AfterRestore(c) == AfterRelease(d); }
  }

  lemma BeginRollbackCases(c: Cfg, evidence: seq<Evidence>)
    ensures var d := c.t.(rollbackAvailable := No, evidence := evidence);
            var t := BeginRollback(c, evidence).t;
            t == c.t.(pending := Ready) || t == d.(pending := Ready) || t == d.(pending := RestoreComparing)
              || t == AfterRestore(Cfg(d, c.w)).t
  {
    hide AfterRestore, Note, Attempted;
  }

  lemma BeginRollbackSame(c: Cfg, evidence: seq<Evidence>)
    ensures Same(c.t, BeginRollback(c, evidence).t)
  {
    hide AfterRestore, Note, Attempted, BeginRollback;
    var d := c.t.(rollbackAvailable := No, evidence := evidence);
    AfterRestoreSame(Cfg(d, c.w));
    BeginRollbackCases(c, evidence);
  }

  lemma CallsSame(c: Cfg, r: Reply, drained: bool)
    ensures Same(c.t, AfterReleaseCall(c, r).t) && Same(c.t, AfterClear(c, r, drained).t)
  {
    hide Note, Drained, Clears;
  }

  lemma ClaimingSame(c: Cfg, r: Reply)
    requires c.t.pending.Claiming?
    ensures Same(c.t, ResumePreparation(c, r).t)
  {
    if r.kind.Ok? {} else if r.kind.Refused? {} else {}
  }

  lemma RevalidationSame(c: Cfg)
    ensures Same(c.t, AfterRevalidation(c).t)
  {
    if c.t.plan.None? || c.t.prior.None? {}
    else if c.t.purpose.InstallConfiguration? && c.t.plan == c.t.prior {} else {}
  }

  lemma GrantedSame(c: Cfg)
    ensures Same(c.t, Granted(c).t)
  {
    hide Note, AfterRevalidation;
    var w := c.w.(lock := Some(Handle(c.t.id)));
    var v := if c.t.closed.Yes? then Note(w, LeakedLease(c.t.id)) else w;
    if c.t.purpose.SaveCalibration? {} else { RevalidationSame(Cfg(c.t.(lease := Yes), v)); }
  }

  lemma PreparationSame(c: Cfg, r: Reply)
    ensures Same(c.t, ResumePreparation(c, r).t)
  {
    hide Record, Note, Unlocked, Finish, FinishWith, Retain, RetainWith, Retry, CheckFailed, CheckPasses, BeginRollback,
      AfterRestore, AfterRelease, AfterAbandon, AfterReleaseCall, AfterClear, AfterSave, AfterWrite,
      AfterRestoreWrite, Mark, Plus, Without, Drained, Cancels, Clears, Claimed, Finished, AfterRevalidation,
      Granted, EndPreview;
    match c.t.pending
    case Claiming => ClaimingSame(c, r);
    case Acquiring => GrantedSame(c);
    case Revalidating =>
      RevalidationSame(c);
      EndsSame(c, Failed, if Cancels(r) then Cancelled else SourceChanged);
    case ReleasingStale(code) =>
      CallsSame(c, r, true);
      EndsSame(AfterReleaseCall(c, r), Failed, code);
    case UnchangedCheck => CheckFailedSame(c);
    case UnchangedSave =>
      EndsSame(c.(t := c.t.(progress := Mark(c.t.progress, MetadataPersisted))), Verified, Cancelled);
      EndsSame(c, Failed, PersistenceFailed);
    case _ =>
  }

  lemma UncertainSame(c: Cfg, r: Reply)
    ensures Same(c.t, Uncertain(c, r).t)
  {
    hide Plus;
  }

  lemma WriteSame(c: Cfg, r: Reply)
    ensures Same(c.t, ResumeWrite(c, r).t)
  {
    hide Record, Note, Unlocked, Finish, FinishWith, Retain, RetainWith, Retry, CheckFailed, CheckPasses, BeginRollback,
      AfterRestore, AfterRelease, AfterAbandon, AfterReleaseCall, AfterClear, AfterSave, AfterWrite,
      AfterRestoreWrite, Mark, Plus, Without, Drained, Cancels, Clears, Claimed, Uncertain;
    match c.t.pending
    case Comparing =>
      UncertainSame(c, r);
      EndsSame(c.(t := c.t.(writeStarted := No)), Failed, SourceChanged);
    case Writing(since) =>
      UncertainSame(c, r);
      UncertainSame(c.(w := AfterWrite(c, since)), r);
    case Reconciling =>
      EndsSame(c, Failed, WriteNotApplied);
      BeginRollbackSame(c, c.t.evidence);
    case Validating =>
      BeginRollbackSame(c, Plus(c.t.evidence, if r.kind.Refused? then ValidationFailed else ValidationUnavailable));
    case _ =>
  }

  lemma RestoreFailedSame(c: Cfg, r: Reply)
    ensures Same(c.t, RestoreFailed(c, r).t)
  {
    hide Retain, RetainWith;
    EndsSame(c, Failed, Cancelled);
    EndsSame(c, Failed, RollbackFailed);
  }

  lemma RestoreSame(c: Cfg, r: Reply)
    ensures Same(c.t, ResumeRestore(c, r).t)
  {
    hide Record, Note, Unlocked, Finish, FinishWith, Retain, RetainWith, Retry, CheckFailed, CheckPasses, BeginRollback,
      AfterRestore, AfterRelease, AfterAbandon, AfterReleaseCall, AfterClear, AfterSave, AfterWrite,
      AfterRestoreWrite, Mark, Plus, Without, Drained, Cancels, Clears, Claimed, RestoreFailed;
    RestoreFailedSame(c, r);
    match c.t.pending
    case RestoreWriting(since) =>
      if c.t.prior.Some? { RestoreFailedSame(c.(w := AfterRestoreWrite(c, c.t.prior.value, since)), r); }
    case RestoreRereading => EndsSame(c, Failed, RollbackFailed);
    case RestoreVerifying =>
      AfterRestoreSame(Cfg(c.t.(progress := Mark(c.t.progress, ConfigRestored)), Note(c.w, RestoreConfirmed(c.t.id))));
      EndsSame(c, Failed, RollbackFailed);
    case _ =>
  }

  lemma RolledBackSame(c: Cfg, r: Reply)
    ensures Same(c.t, ResumeRolledBack(c, r).t)
  {
    hide Record, Note, Unlocked, Finish, FinishWith, Retain, RetainWith, Retry, CheckFailed, CheckPasses, BeginRollback,
      AfterRestore, AfterRelease, AfterAbandon, AfterReleaseCall, AfterClear, AfterSave, AfterWrite,
      AfterRestoreWrite, Mark, Plus, Without, Drained, Cancels, Clears, Claimed;
    CallsSame(c, r, false);
    var d, e := AfterReleaseCall(c, r), AfterClear(c, r, false);
    AfterReleaseSame(d);
    EndsSame(d, RolledBack, RollbackFailed);
    EndsSame(e, RolledBack, RollbackFailed);
  }

  lemma CompileSame(c: Cfg, r: Reply)
    ensures Same(c.t, ResumeCompile(c, r).t)
  {
    hide Record, Note, Unlocked, Finish, FinishWith, Retain, RetainWith, Retry, CheckFailed, CheckPasses, BeginRollback,
      AfterRestore, AfterRelease, AfterAbandon, AfterReleaseCall, AfterClear, AfterSave, AfterWrite,
      AfterRestoreWrite, Mark, Plus, Without, Drained, Cancels, Clears, Claimed;
    CheckFailedSame(c);
    BeginRollbackSame(c, Plus(c.t.evidence, ValidationUnavailable));
    match c.t.pending
    case CompileCheck => case Compiling => case CompiledCheck => case _ =>
  }

  lemma DispatchSame(c: Cfg, evidence: seq<Evidence>)
    ensures Same(c.t, Dispatch(c, evidence).t)
  {
    hide Note, Mark;
  }

  lemma RetrySame(c: Cfg, r: Reply)
    ensures Same(c.t, ResumeRetry(c, r).t)
  {
    hide Record, Note, Unlocked, Finish, FinishWith, Retain, RetainWith, Retry, CheckFailed, CheckPasses, BeginRollback,
      AfterRestore, AfterRelease, AfterAbandon, AfterReleaseCall, AfterClear, AfterSave, AfterWrite,
      AfterRestoreWrite, Mark, Plus, Without, Drained, Cancels, Clears, Claimed, Dispatch;
    CheckFailedSame(c);
    DispatchSame(c, Without(c.t.evidence, true));
    match c.t.pending
    case RecoveredRead => EndsSame(c.(t := c.t.(plan := None, prior := None)), Failed, SourceChanged);
    case RetryCheck =>
    case _ =>
  }

  lemma InstallSame(c: Cfg, r: Reply)
    ensures Same(c.t, ResumeInstall(c, r).t)
  {
    hide Record, Note, Unlocked, Finish, FinishWith, Retain, RetainWith, Retry, CheckFailed, CheckPasses, BeginRollback,
      AfterRestore, AfterRelease, AfterAbandon, AfterReleaseCall, AfterClear, AfterSave, AfterWrite,
      AfterRestoreWrite, Mark, Plus, Without, Drained, Cancels, Clears, Claimed, Dispatch;
    var d := c.t.(commitStarted := No);
    match c.t.pending
    case CheckingVerified =>
    case Revoking =>
      var w := if Drained(r) || r.applied then Note(c.w, Revoked(c.t.id)) else c.w;
      EndsSame(Cfg(d, w), Failed, if Cancels(r) then Cancelled else PersistenceFailed);
    case InstallCheck => CheckFailedSame(c);
    case SavingCheckpoint => EndsSame(Cfg(d, AfterSave(c, r, false)), Failed, PersistenceFailed);
    case ClearingCancelled =>
      CallsSame(Cfg(d, c.w), r, true);
      EndsSame(AfterClear(Cfg(d, c.w), r, true), Failed, Cancelled);
    case DispatchCheck =>
      CheckFailedSame(c);
      DispatchSame(c, c.t.evidence);
    case _ =>
  }

  lemma RetriesSame(t: Txn, evidence: seq<Evidence>, code: Evidence)
    ensures Same(t, RetainInstallRetry(t, evidence, code))
  {
    hide Plus;
  }

  lemma UploadSame(c: Cfg, r: Reply)
    ensures Same(c.t, ResumeUpload(c, r).t)
  {
    hide Record, Note, Unlocked, Finish, FinishWith, Retain, RetainWith, Retry, CheckFailed, CheckPasses, BeginRollback,
      AfterRestore, AfterRelease, AfterAbandon, AfterReleaseCall, AfterClear, AfterSave, AfterWrite,
      AfterRestoreWrite, Mark, Plus, Without, Drained, Cancels, Clears, Claimed, RetainInstallRetry;
    var d := c.t.(commitStarted := No);
    match c.t.pending
    case Uploading => EndsSame(c, Failed, UploadOutcomeUnknown);
    case SavingUploaded =>
      EndsSame(Cfg(d, AfterSave(c, r, true)), Failed, if r.kind.OkCancelled? then ReconnectUnavailable
        else PersistenceFailed);
    case ClearingRejected(code) =>
      CallsSame(Cfg(d, c.w), r, true);
      var e := AfterClear(Cfg(d, c.w), r, true);
      EndsSame(e, Failed, code);
      RetriesSame(e.t, Plus(e.t.evidence, code), PersistenceFailed);
    case _ =>
  }

  lemma VerifySame(c: Cfg, r: Reply)
    ensures Same(c.t, ResumeVerify(c, r).t)
  {
    hide Record, Note, Unlocked, Finish, FinishWith, Retain, RetainWith, Retry, CheckFailed, CheckPasses, BeginRollback,
      AfterRestore, AfterRelease, AfterAbandon, AfterReleaseCall, AfterClear, AfterSave, AfterWrite,
      AfterRestoreWrite, Mark, Plus, Without, Drained, Cancels, Clears, Claimed;
    match c.t.pending
    case Verifying => EndsSame(c, Failed, if r.kind.Refused? then r.code else ReconnectUnavailable);
    case PersistCheck =>
      CheckFailedSame(c);
      EndsSame(CheckFailed(c), Failed, PersistenceFailed);
    case Persisting => EndsSame(c, Failed, PersistenceFailed);
    case ClearingDone =>
      CallsSame(c, r, true);
      EndsSame(AfterClear(c, r, true), Verified, PersistenceFailed);
    case _ =>
  }

  lemma AbandonSame(c: Cfg, r: Reply)
    ensures Same(c.t, ResumeAbandon(c, r).t)
  {
    hide Record, Note, Unlocked, Finish, FinishWith, Retain, RetainWith, Retry, CheckFailed, CheckPasses, BeginRollback,
      AfterRestore, AfterRelease, AfterAbandon, AfterReleaseCall, AfterClear, AfterSave, AfterWrite,
      AfterRestoreWrite, Mark, Plus, Without, Drained, Cancels, Clears, Claimed;
    CallsSame(c, r, false);
    match c.t.pending
    case AbandonRelease => AfterAbandonSame(AfterReleaseCall(c, r));
    case AbandonCheck =>
      AfterAbandonSame(c);
      CheckFailedSame(c);
    case AbandonClear => EndsSame(AfterClear(c, r, false), Failed, Cancelled);
    case ExpiryReleasing =>
    case _ =>
  }

  lemma PreviewSame(c: Cfg, r: Reply)
    ensures Same(c.t, ResumePreview(c, r).t)
  {
    hide AfterReleaseCall, Unlocked;
    CallsSame(c, r, true);
    if Claimed(c.t, r) {} else {}
  }

  lemma Itself(t: Txn)
    ensures Same(t, t)
  {}

  lemma ResumeSame(c: Cfg, r: Reply)
    ensures Same(c.t, Resume(c, r).t)
  {
    hide Same, ResumePreparation, ResumeWrite, ResumeRestore, ResumeRolledBack, ResumeCompile, ResumeRetry,
      ResumeInstall, ResumeUpload, ResumeVerify, ResumeAbandon, PartOf;
    match PartOf(c.t.pending)
    case Preparation => PreparationSame(c, r);
    case Write => WriteSame(c, r);
    case Restoring => RestoreSame(c, r);
    case RolledBackPart => RolledBackSame(c, r);
    case Compilation => CompileSame(c, r);
    case Retrying => RetrySame(c, r);
    case Install => InstallSame(c, r);
    case Upload => UploadSame(c, r);
    case Verification => VerifySame(c, r);
    case Abandoning => AbandonSame(c, r);
    case NoPart => Itself(c.t);
  }

  lemma StartInstallSame(c: Cfg)
    ensures Same(c.t, StartConfirmInstall(c).t)
  {
    hide Attempted;
    if !c.t.state.InstallConfirmationRequired? {}
    else if Attempted(c.t) {} else if c.t.purpose.SaveCalibration? {} else {}
  }

  lemma StartSame(c: Cfg, op: Operation)
    ensures Same(c.t, Start(c, op).t)
  {
    hide BeginRollback, AfterAbandon, StartConfirmInstall, AbandonableRetry;
    match op
    case ConfirmWrite => case Compile =>
    case ConfirmInstall => StartInstallSame(c);
    case Rollback => BeginRollbackSame(c, c.t.evidence);
    case Abandon => AfterAbandonSame(c);
  }

  lemma ExpireSame(c: Cfg)
    ensures Same(c.t, Expire(c).t)
  {
    hide Unlocked, Busy, Attempted;
  }

  lemma CleanupSame(c: Cfg)
    ensures Same(c.t, StartCleanup(c).t)
  {
    hide BeginRollback;
    BeginRollbackSame(c.(t := c.t.(cleanupQueued := No)), c.t.evidence);
  }

  lemma PerformSame(c: Cfg, act: Act)
    ensures Same(c.t, Perform(c, act).t)
  {
    hide Same, Start, Resume, Expire, StartCleanup;
    match act
    case Called(op) => StartSame(c, op);
    case Returned(r) => ResumeSame(c, r);
    case Expired => ExpireSame(c);
    case CleanedUp => CleanupSame(c);
  }

  /** What the handle `u` can bear from its surroundings. */
  ghost predicate Harmless(u: Id, w: World, w': World) {
    var h, h' := w.history, w'.history;
    && h.seen <= h'.seen && (forall e :: e in h'.seen && e !in h.seen ==> Owner(e) != Some(u))
    && (u in h'.wrote <==> u in h.wrote) && (u in h'.dispatched <==> u in h.dispatched)
    && (h'.standing == Some(u) ==> h.standing == Some(u) && w'.remote == w.remote)
    && h.edits <= h'.edits && (w'.remote == w.remote || h.edits < h'.edits || w.lock != Some(Handle(u)))
    && (h'.settled == h.settled || w.lock != Some(Handle(u))) && (h'.durable == Some(u) ==> h.durable == Some(u))
    && (w'.lock == Some(Handle(u)) <==> w.lock == Some(Handle(u)))
    && (h.durable == Some(u) ==> h'.durable == Some(u) || w.lock != Some(Handle(u)))
  }

  lemma FitsStable(u: Txn, w: World, w': World)
    requires Fits(u, w) && Harmless(u.id, w, w')
    ensures Fits(u, w')
  {
    hide Shape, Level, Trail, Marker;
  }

  /** Whatever a handle does under its guarantee, no other handle notices. */
  lemma GuaranteeHarmless(a: Id, u: Id, w: World, w': World)
    requires Guarantee(a, w, w') && u != a
    ensures Harmless(u, w, w')
  {
    hide Logged;
  }

  lemma PerformKeeps(c: Cfg, act: Act)
    requires Good(c)
    ensures Good(Perform(c, act)) && Guarantee(c.t.id, c.w, Perform(c, act).w) && Perform(c, act).t.id == c.t.id
  {
    hide Good, Holds, Guarantee, Start, Resume, Expire, StartCleanup;
    GoodHolds(c);
    PerformSame(c, act);
    match act
    case Called(op) => StartGood(c, op); StartFrame(c, op);
    case Returned(r) => ResumeGood(c, r); ResumeFrame(c, r);
    case Expired => ExpireGood(c); ExpireFrame(c);
    case CleanedUp => CleanupGood(c); CleanupFrame(c);
  }

  /** Whatever reaches one handle, another one on the same meter keeps its invariant. */
  lemma {:induction false} ServeUnnoticed(c: Cfg, acts: seq<Act>, u: Txn)
    requires Good(c) && Fits(u, c.w) && u.id != c.t.id
    ensures Good(Serve(c, acts)) && Serve(c, acts).t.id == c.t.id && Fits(u, Serve(c, acts).w)
  {
    hide Good, Fits, Guarantee, Perform, Harmless;
    if acts != [] {
      var before := Serve(c, acts[..|acts| - 1]);
      var act := acts[|acts| - 1];
      ServeUnnoticed(c, acts[..|acts| - 1], u);
      PerformKeeps(before, act);
      GuaranteeHarmless(c.t.id, u.id, before.w, Perform(before, act).w);
      FitsStable(u, before.w, Perform(before, act).w);
    }
  }
}
