/** The configuration/OTA transaction as a value machine.
    One `Txn` is one handle held by the manager. Every `await` of the source is a
    `Pending` constructor, and the code between two awaits is one function here, so an
    environment may act wherever the source gives up control: third parties edit the
    YAML, other transactions run, a caller is cancelled, the process dies.
    `World.history` is what really happened; no function reads it except to remember
    when a compare took place. */
module TransactionModel {
  import opened Common

  type Id = nat

  /** File contents up to their SHA-256 digest; `Empty` is the empty text that recovery
      puts in place of the original it no longer has. */
  datatype Yaml = Empty | Text(digest: nat)

  datatype State =
    | Previewed | WriteConfirmed | Written | Validated | Compiled | InstallConfirmationRequired
    | Installing | Reconnecting | Verified | RolledBack | Failed

  datatype Evidence =
    | WriteFailed | WriteNotApplied | WriteRecoveryRequired | SourceChanged | ValidationFailed
    | ValidationUnavailable | CompileFailed | UploadFailed | UploadOutcomeUnknown
    | ReconnectUnavailable | MeterCommunicationFailed | IdentityMismatch | TopologyMismatch
    | EntityMismatch | SensorCountMismatch | PersistenceFailed | RollbackFailed | Cancelled

  datatype Progress =
    | ConfigWritten | ConfigValidated | FirmwareCompiled | OtaAttempted | OtaUploaded
    | DeviceVerified | MetadataPersisted | ConfigRestored

  datatype Purpose = InstallConfiguration | SaveCalibration

  /** Where the running operation of a handle waits; `Ready` when none runs. `since` is the
      number of third-party edits when the file was compared with its expected content. */
  datatype Pending =
    | Ready
    // async_preview_calibrated_gains
    | Claiming
    // async_confirm_write
    | Acquiring | Revalidating | ReleasingStale(code: Evidence)
    | UnchangedCheck | UnchangedSave
    | Comparing | Writing(since: nat) | Reconciling | Validating
    // async_compile
    | CompileCheck | Compiling | CompiledCheck
    // async_confirm_install
    | RecoveredRead | RetryCheck | CheckingVerified | Revoking | InstallCheck
    | SavingCheckpoint | ClearingCancelled | DispatchCheck
    | Uploading | SavingUploaded | ClearingRejected(code: Evidence)
    | Verifying | PersistCheck | Persisting | ClearingDone
    // _rollback_locked
    | RestoreComparing | RestoreWriting(since: nat) | RestoreRereading
    | RestoreValidating | RestoreVerifying | ReleasingRestored | ClearingRolledBack
    // async_abandon
    | AbandonRelease | AbandonCheck | AbandonClear
    // _expire
    | ExpiryReleasing

  /** How an awaited call comes back. `OkCancelled` is a drained call that succeeded while
      its caller was cancelled; `applied` says whether a call that reports no success took
      effect nevertheless; `code` is the mismatch the reconnect verifier found. */
  datatype Kind = Ok | OkCancelled | Refused | Raised | TimedOut | Interrupted
  datatype Reply = Reply(kind: Kind, applied: bool, code: Evidence)

  datatype Checkpoint = Checkpoint(id: Id, uploaded: bool, source: Yaml, proposed: Yaml, purpose: Purpose)

  /** What happened. A write carries the content it was meant to replace, the content it
      did replace, and the third-party edits counted at its compare; a dispatch carries
      what its source check read. */
  datatype Effect =
    | Edited(content: Yaml)                        // a third party changed the file
    | Opened(id: Id, source: Yaml, proposed: Yaml) // a reviewed source and its proposal
    | Wrote(id: Id, expected: Yaml, found: Yaml, content: Yaml, since: nat)
    | Restored(id: Id, expected: Yaml, found: Yaml, content: Yaml, since: nat)
    | RestoreConfirmed(id: Id)                     // a later read showed the original again
    | ConfigValid(id: Id) | FirmwareBuilt(id: Id)
    | Revoked(id: Id)                              // installed calibration was revoked
    | Saved(id: Id, uploaded: bool) | Cleared(id: Id) | ClearedSilently(id: Id)
    | Dispatched(id: Id, source: Yaml, proposed: Yaml, found: Yaml)
    | Acknowledged(id: Id)
    | Released(id: Id)                             // the calibration reservation
    | Recovered(id: Id, uploaded: bool)
    | LeakedLease(id: Id)                          // the meter lock went to a closed handle
    | RollbackRefused(id: Id)                      // a RuntimeError at the head of rollback
    | Crashed

  /** A true-or-false field of a handle. */
  datatype Flag = No | Yes

  datatype Holder = Handle(id: Id) | Recovering(task: nat)

  /** The log together with what the laws ask of it: the entries seen, who wrote and who
      dispatched, whose proposal stands in the file, whose checkpoint is durable, how often
      a third party edited, what the last change left in the file (`shown`), how many edits
      preceded the last write or restore (`settled`), and the identities given out. `lawful`
      says that every entry was lawful when it was made. */
  datatype History = History(
    log: seq<Effect>, seen: set<Effect>, wrote: set<Id>, dispatched: set<Id>,
    standing: Option<Id>, durable: Option<Id>, edits: nat, shown: Option<Yaml>, settled: nat,
    ids: set<Id>, lawful: bool)

  datatype World = World(
    remote: Yaml, lock: Option<Holder>, checkpoint: Option<Checkpoint>, history: History)

  datatype Txn = Txn(
    id: Id, purpose: Purpose, source: Yaml, proposed: Yaml,
    plan: Option<Yaml>, prior: Option<Yaml>,
    state: State, progress: seq<Progress>, evidence: seq<Evidence>,
    rollbackAvailable: Flag, lease: Flag, reservationClaimed: Flag, writeStarted: Flag,
    commitStarted: Flag, expiryCleanupStarted: Flag, closed: Flag,
    recovered: Flag, checkpointSaved: Flag,
    pending: Pending, previewLease: Flag, previewRelease: Flag, cleanupQueued: Flag)

  function Bit(b: bool): Flag { if b then Yes else No }

  /** One handle together with the world it acts on. */
  datatype Cfg = Cfg(t: Txn, w: World)

  // ------------------------------------------------------------------- the laws

  /** A write finds what the last change of the file left. That is what its compare found,
      unless an edit came since; no other write came in between. */
  predicate Finds(h: History, expected: Yaml, found: Yaml, since: nat) {
    && h.settled <= since <= h.edits
    && (if since == h.edits then found == expected else h.shown == Some(found))
    && (h.shown.Some? ==> h.shown == Some(found))
  }

  /** The file shows what the handle was previewed from. */
  predicate Original(h: History, id: Id) {
    exists e :: e in h.seen && e.Opened? && e.id == id && (h.shown.Some? ==> h.shown == Some(e.source))
  }

  /** When `e` may come after the history `h`. */
  predicate Lawful(h: History, e: Effect) {
    match e
    case Opened(id, _, _) => id !in h.ids
    case Wrote(id, expected, found, content, since) =>
      && Finds(h, expected, found, since)
      && Opened(id, expected, content) in h.seen
      && id !in h.wrote && id !in h.dispatched && RestoreConfirmed(id) !in h.seen
    case Restored(id, expected, found, content, since) =>
      && Finds(h, expected, found, since)
      && Opened(id, content, expected) in h.seen
      && id !in h.dispatched && Recovered(id, false) !in h.seen && Recovered(id, true) !in h.seen
      && RestoreConfirmed(id) !in h.seen
    case RestoreConfirmed(id) =>
      RestoreConfirmed(id) !in h.seen && id !in h.dispatched && h.standing != Some(id) && Original(h, id)
    case ConfigValid(id) => id in h.wrote
    case FirmwareBuilt(id) => ConfigValid(id) in h.seen
    case Revoked(id) => FirmwareBuilt(id) in h.seen
    case Saved(id, uploaded) =>
      && FirmwareBuilt(id) in h.seen && Revoked(id) in h.seen
      && if uploaded then Acknowledged(id) in h.seen
         else id !in h.dispatched && Saved(id, true) !in h.seen
    case Cleared(id) => h.durable == None || h.durable == Some(id)
    case ClearedSilently(id) => h.durable == None || h.durable == Some(id)
    case Dispatched(id, source, proposed, found) =>
      && found == proposed && Opened(id, source, proposed) in h.seen
      && ConfigValid(id) in h.seen && FirmwareBuilt(id) in h.seen && Revoked(id) in h.seen
      && Saved(id, false) in h.seen && Saved(id, true) !in h.seen
      && (h.durable == Some(id) <==> ClearedSilently(id) !in h.seen)
    case Acknowledged(id) => id in h.dispatched
    case Released(id) => h.standing != Some(id) && (id in h.wrote ==> RestoreConfirmed(id) in h.seen)
    case Recovered(id, uploaded) => Saved(id, uploaded) in h.seen && (uploaded ==> Acknowledged(id) in h.seen)
    case RollbackRefused(id) => false
    case _ => true
  }

  function Record(h: History, e: Effect): History {
    History(
      h.log + [e], h.seen + {e},
      if e.Wrote? then h.wrote + {e.id} else h.wrote,
      if e.Dispatched? then h.dispatched + {e.id} else h.dispatched,
      if e.Wrote? then Some(e.id) else if e.Restored? || e.Edited? then None else h.standing,
      if e.Saved? then Some(e.id) else if e.Cleared? || e.ClearedSilently? then None else h.durable,
      if e.Edited? then h.edits + 1 else h.edits,
      if e.Wrote? || e.Restored? || e.Edited? then Some(e.content) else h.shown,
      if e.Wrote? || e.Restored? then h.edits else h.settled,
      if e.Opened? then h.ids + {e.id} else h.ids,
      h.lawful && Lawful(h, e))
  }

  const NOTHING := History([], {}, {}, {}, None, None, 0, None, 0, {}, true)

  // ---------------------------------------------------------------- small steps

  function Note(w: World, e: Effect): World {
    w.(history := Record(w.history, e))
  }

  function Await(c: Cfg, p: Pending): Cfg {
    Cfg(c.t.(pending := p), c.w)
  }

  /** The evidence list takes a code once. */
  function Plus(evidence: seq<Evidence>, code: Evidence): seq<Evidence> {
    if code in evidence then evidence else evidence + [code]
  }

  /** The progress list takes a marker once. */
  function Mark(progress: seq<Progress>, p: Progress): seq<Progress> {
    if p in progress then progress else progress + [p]
  }

  predicate Attempted(t: Txn) { OtaAttempted in t.progress }

  predicate Retryable(code: Evidence) {
    || code.UploadOutcomeUnknown? || code.ReconnectUnavailable? || code.MeterCommunicationFailed?
    || code.EntityMismatch? || code.SensorCountMismatch? || code.PersistenceFailed?
  }

  /** Evidence an install attempt starts without; a retry also forgets the terminal codes. */
  predicate Forgotten(code: Evidence, retried: bool) {
    || Retryable(code)
    || (retried && (code.SourceChanged? || code.UploadFailed? || code.IdentityMismatch? || code.TopologyMismatch?))
  }

  function Without(evidence: seq<Evidence>, retried: bool): seq<Evidence> {
    if evidence == [] then []
    else
      (if Forgotten(evidence[0], retried) then [] else [evidence[0]]) + Without(evidence[1..], retried)
  }

  /** `_finish` on the handle: final state, lease given back, secrets erased. */
  function Finished(t: Txn, state: State, evidence: seq<Evidence>): Txn {
    if t.closed.Yes? then t.(pending := Ready)
    else t.(state := state, rollbackAvailable := No, evidence := evidence, lease := No,
            plan := None, prior := None, closed := Yes, pending := Ready)
  }

  function Unlocked(t: Txn, w: World): World {
    w.(lock := if t.lease.Yes? && !t.closed.Yes? then None else w.lock)
  }

  function Finish(c: Cfg, state: State): Cfg {
    Cfg(Finished(c.t, state, c.t.evidence), Unlocked(c.t, c.w))
  }

  function FinishWith(c: Cfg, state: State, code: Evidence): Cfg {
    Cfg(Finished(c.t, state, Plus(c.t.evidence, code)), Unlocked(c.t, c.w))
  }

  function RetainInstallRetry(t: Txn, evidence: seq<Evidence>, code: Evidence): Txn {
    t.(state := InstallConfirmationRequired,
       rollbackAvailable := Bit(code != PersistenceFailed && !t.recovered.Yes? && !Attempted(t)),
       evidence := Plus(evidence, code), pending := Ready)
  }

  /** Leave the handle open for recovery and end the operation; after an OTA attempt, or
      on a recovered handle, this is an install retry. */
  function RetainWriteRecovery(t: Txn, evidence: seq<Evidence>): Txn {
    if t.closed.Yes? then t.(evidence := evidence, pending := Ready)
    else if t.recovered.Yes? || Attempted(t) then
      RetainInstallRetry(t, evidence, if t.recovered.Yes? then ReconnectUnavailable else SourceChanged)
    else
      t.(state := Failed, rollbackAvailable := Bit(t.plan.Some? && t.prior.Some?),
         evidence := Plus(evidence, WriteRecoveryRequired), pending := Ready)
  }

  function Retain(c: Cfg): Cfg {
    Cfg(RetainWriteRecovery(c.t, c.t.evidence), c.w)
  }

  function RetainWith(c: Cfg, code: Evidence): Cfg {
    Cfg(RetainWriteRecovery(c.t, Plus(c.t.evidence, code)), c.w)
  }

  function Retry(c: Cfg, code: Evidence): Cfg {
    Cfg(RetainInstallRetry(c.t, c.t.evidence, code), c.w)
  }

  /** The proposed source is still exactly the file. */
  predicate CheckPasses(c: Cfg, r: Reply) {
    r.kind.Ok? && c.t.plan.Some? && c.t.prior.Some? && c.w.remote == c.t.plan.value
  }

  function CheckFailed(c: Cfg): Cfg {
    if c.t.writeStarted.Yes? then RetainWith(c, SourceChanged)
    else if c.t.reservationClaimed.Yes? then Await(c, ReleasingStale(SourceChanged))
    else FinishWith(c, Failed, SourceChanged)
  }

  predicate Cancels(r: Reply) { r.kind.Interrupted? || r.kind.OkCancelled? }

  /** A drained call whose effect took place. */
  predicate Drained(r: Reply) { r.kind.Ok? || r.kind.OkCancelled? }

  // ------------------------------------------------- calls that change the world

  /** The reservation release was asked for; the claim is dropped only on success. */
  function Claimed(t: Txn, r: Reply): bool { t.reservationClaimed.Yes? && !Drained(r) }

  function AfterReleaseCall(c: Cfg, r: Reply): Cfg {
    Cfg(c.t.(reservationClaimed := Bit(Claimed(c.t, r))),
        if Drained(r) || r.applied then Note(c.w, Released(c.t.id)) else c.w)
  }

  /** A drained save of the durable checkpoint. */
  function AfterSave(c: Cfg, r: Reply, uploaded: bool): World {
    if Drained(r) || r.applied then
      Note(c.w.(checkpoint := Some(Checkpoint(c.t.id, uploaded, c.t.source, c.t.proposed, c.t.purpose))),
           Saved(c.t.id, uploaded))
    else c.w
  }

  /** The store removes only the record of the transaction that asks. */
  predicate ClearAllowed(c: Cfg) {
    c.w.checkpoint.Some? ==> c.w.checkpoint.value.id == c.t.id
  }

  predicate Clears(c: Cfg, r: Reply, drained: bool) {
    ClearAllowed(c) && (r.kind.Ok? || (drained && r.kind.OkCancelled?))
  }

  function AfterClear(c: Cfg, r: Reply, drained: bool): Cfg {
    if Clears(c, r, drained) then
      Cfg(c.t.(checkpointSaved := No), Note(c.w.(checkpoint := None), Cleared(c.t.id)))
    else if ClearAllowed(c) && r.applied then
      Cfg(c.t, Note(c.w.(checkpoint := None), ClearedSilently(c.t.id)))
    else c
  }

  /** The write half of a compare-and-write takes effect. */
  function AfterWrite(c: Cfg, since: nat): World {
    Note(c.w.(remote := c.t.proposed), Wrote(c.t.id, c.t.source, c.w.remote, c.t.proposed, since))
  }

  function AfterRestoreWrite(c: Cfg, content: Yaml, since: nat): World {
    Note(c.w.(remote := content), Restored(c.t.id, c.t.proposed, c.w.remote, content, since))
  }

  // ------------------------------------------------------------------- rollback

  function AfterRelease(c: Cfg): Cfg {
    if c.t.checkpointSaved.Yes? then Await(c, ClearingRolledBack) else Finish(c, RolledBack)
  }

  function AfterRestore(c: Cfg): Cfg {
    if c.t.reservationClaimed.Yes? then c.(t := c.t.(writeStarted := No, pending := ReleasingRestored))
    else AfterRelease(c.(t := c.t.(writeStarted := No)))
  }

  function BeginRollback(c: Cfg, evidence: seq<Evidence>): Cfg {
    if c.t.recovered.Yes? || Attempted(c.t) then
      Cfg(c.t.(pending := Ready), Note(c.w, RollbackRefused(c.t.id)))
    else if c.t.plan.None? || c.t.prior.None? then
      c.(t := c.t.(rollbackAvailable := No, evidence := evidence, pending := Ready))
    else if ConfigRestored !in c.t.progress then
      c.(t := c.t.(rollbackAvailable := No, evidence := evidence, pending := RestoreComparing))
    else AfterRestore(c.(t := c.t.(rollbackAvailable := No, evidence := evidence)))
  }

  function RestoreFailed(c: Cfg, r: Reply): Cfg {
    if Cancels(r) then RetainWith(c, Cancelled)
    else if r.kind.TimedOut? then Retain(c)
    else RetainWith(c, RollbackFailed)
  }

  function ResumeRestore(c: Cfg, r: Reply): Cfg {
    match c.t.pending
    case RestoreComparing =>
      if !r.kind.Ok? then RestoreFailed(c, r)
      else if c.w.remote == c.t.proposed then Await(c, RestoreWriting(c.w.history.edits))
      else Await(c, RestoreRereading)
    case RestoreWriting(since) =>
      if c.t.prior.None? || !(r.kind.Ok? || r.applied) then RestoreFailed(c, r)
      else
        var w := AfterRestoreWrite(c, c.t.prior.value, since);
        if r.kind.Ok? then Cfg(c.t.(pending := RestoreValidating), w) else RestoreFailed(c.(w := w), r)
    case RestoreRereading =>
      if !r.kind.Ok? then RestoreFailed(c, r)
      else if c.t.prior == Some(c.w.remote) then Await(c, RestoreValidating)
      else Retain(c)
    case RestoreValidating =>
      if r.kind.Ok? then Await(c, RestoreVerifying) else RestoreFailed(c, r)
    case RestoreVerifying =>
      if !r.kind.Ok? then RestoreFailed(c, r)
      else if c.t.prior == Some(c.w.remote) then
        AfterRestore(Cfg(c.t.(progress := Mark(c.t.progress, ConfigRestored)), Note(c.w, RestoreConfirmed(c.t.id))))
      else RetainWith(c, RollbackFailed)
    case _ => c
  }

  function ResumeRolledBack(c: Cfg, r: Reply): Cfg {
    match c.t.pending
    case ReleasingRestored =>
      var c' := AfterReleaseCall(c, r);
      if r.kind.Ok? then AfterRelease(c')
      else if Cancels(r) then
        if Claimed(c.t, r) then Retain(c') else Finish(c', RolledBack)
      else RetainWith(c', RollbackFailed)
    case ClearingRolledBack =>
      var c' := AfterClear(c, r, false);
      if Clears(c, r, false) then Finish(c', RolledBack)
      else if Cancels(r) then Retain(c')
      else RetainWith(c', RollbackFailed)
    case _ => c
  }

  // -------------------------------------------------------------- confirm write

  function AfterRevalidation(c: Cfg): Cfg {
    if c.t.plan.None? || c.t.prior.None? then Await(c, Ready)
    else if c.t.purpose.InstallConfiguration? && c.t.plan == c.t.prior then
      c.(t := c.t.(commitStarted := Yes, pending := UnchangedCheck))
    else c.(t := c.t.(state := WriteConfirmed, writeStarted := Yes, pending := Comparing))
  }

  /** The meter lock is granted; a handle that a failed preview closed meanwhile keeps it. */
  function Granted(c: Cfg): Cfg {
    var w := c.w.(lock := Some(Handle(c.t.id)));
    var w := if c.t.closed.Yes? then Note(w, LeakedLease(c.t.id)) else w;
    if c.t.purpose.SaveCalibration? then Cfg(c.t.(lease := Yes, pending := Revalidating), w)
    else AfterRevalidation(Cfg(c.t.(lease := Yes), w))
  }

  function Uncertain(c: Cfg, r: Reply): Cfg {
    c.(t := c.t.(evidence := Plus(c.t.evidence, if Cancels(r) then Cancelled else WriteFailed), pending := Reconciling))
  }

  /** A preview ends: its own lease is given back. */
  function EndPreview(c: Cfg): Cfg {
    Cfg(c.t.(previewLease := No, previewRelease := No),
        c.w.(lock := if c.t.previewLease.Yes? then None else c.w.lock))
  }

  function ResumePreparation(c: Cfg, r: Reply): Cfg {
    match c.t.pending
    case Claiming =>
      if r.kind.Ok? then EndPreview(Await(c, Ready))
      else if r.kind.Refused? then
        EndPreview(c.(t := Finished(c.t.(reservationClaimed := No), Failed, c.t.evidence)))
      else c.(t := c.t.(previewRelease := Yes, pending := Ready))
    case Acquiring =>
      if !r.kind.Ok? then Await(c, Ready)
      else if c.w.lock.Some? then c
      else Granted(c)
    case Revalidating =>
      if r.kind.Ok? then AfterRevalidation(c)
      else
        var code := if Cancels(r) then Cancelled else SourceChanged;
        if c.t.reservationClaimed.Yes? then Await(c, ReleasingStale(code)) else FinishWith(c, Failed, code)
    case ReleasingStale(code) =>
      var c' := AfterReleaseCall(c, r);
      if Claimed(c.t, r) then Await(c', Ready) else FinishWith(c', Failed, code)
    case UnchangedCheck =>
      if CheckPasses(c, r) then Await(c, UnchangedSave) else CheckFailed(c)
    case UnchangedSave =>
      if Drained(r) then Finish(c.(t := c.t.(progress := Mark(c.t.progress, MetadataPersisted))), Verified)
      else FinishWith(c, Failed, PersistenceFailed)
    case _ => c
  }

  function ResumeWrite(c: Cfg, r: Reply): Cfg {
    match c.t.pending
    case Comparing =>
      if !r.kind.Ok? then Uncertain(c, r)
      else if c.w.remote == c.t.source then Await(c, Writing(c.w.history.edits))
      else if c.t.reservationClaimed.Yes? then
        c.(t := c.t.(writeStarted := No, pending := ReleasingStale(SourceChanged)))
      else FinishWith(c.(t := c.t.(writeStarted := No)), Failed, SourceChanged)
    case Writing(since) =>
      if r.kind.Ok? then
        Cfg(c.t.(state := Written, progress := Mark(c.t.progress, ConfigWritten), pending := Validating),
            AfterWrite(c, since))
      else Uncertain(c.(w := if r.applied then AfterWrite(c, since) else c.w), r)
    case Reconciling =>
      if r.kind.Interrupted? then Await(c, Ready)
      else if !r.kind.Ok? then Retain(c)
      else if c.w.remote == c.t.source then FinishWith(c, Failed, WriteNotApplied)
      else if c.w.remote == c.t.proposed then BeginRollback(c, c.t.evidence)
      else Retain(c)
    case Validating =>
      if r.kind.Ok? then
        Cfg(c.t.(state := Validated, progress := Mark(c.t.progress, ConfigValidated), pending := Ready),
            Note(c.w, ConfigValid(c.t.id)))
      else BeginRollback(c, Plus(c.t.evidence, if r.kind.Refused? then ValidationFailed else ValidationUnavailable))
    case _ => c
  }

  /** The release that a failed preview left running beside the handle's operations. */
  function ResumePreview(c: Cfg, r: Reply): Cfg {
    var c' := AfterReleaseCall(c, r);
    if Claimed(c.t, r) then EndPreview(c')
    else EndPreview(Cfg(Finished(c'.t, Failed, c.t.evidence).(pending := c.t.pending), Unlocked(c.t, c'.w)))
  }

  // -------------------------------------------------------------------- compile

  function ResumeCompile(c: Cfg, r: Reply): Cfg {
    match c.t.pending
    case CompileCheck =>
      if CheckPasses(c, r) then Await(c, Compiling) else CheckFailed(c)
    case Compiling =>
      if r.kind.Ok? then Await(c, CompiledCheck)
      else if Cancels(r) then BeginRollback(c, Plus(c.t.evidence, ValidationUnavailable))
      else c.(t := c.t.(state := Failed, rollbackAvailable := Yes,
                        evidence := Plus(c.t.evidence, CompileFailed), pending := Ready))
    case CompiledCheck =>
      if CheckPasses(c, r) then
        Cfg(c.t.(state := InstallConfirmationRequired, progress := Mark(c.t.progress, FirmwareCompiled),
          pending := Ready),
            Note(c.w, FirmwareBuilt(c.t.id)))
      else CheckFailed(c)
    case _ => c
  }

  // ------------------------------------------------------------ confirm install

  function StartConfirmInstall(c: Cfg): Cfg {
    if !c.t.state.InstallConfirmationRequired? then c
    else if Attempted(c.t) then Await(c, if c.t.recovered.Yes? then RecoveredRead else RetryCheck)
    else if c.t.purpose.SaveCalibration? then Await(c, CheckingVerified)
    else c.(t := c.t.(commitStarted := Yes, pending := Revoking))
  }

  /** `_upload_locked`, entered right after the file was read and matched the proposal. */
  function Dispatch(c: Cfg, evidence: seq<Evidence>): Cfg {
    Cfg(c.t.(state := Installing, rollbackAvailable := No, evidence := evidence,
             progress := Mark(c.t.progress, OtaAttempted), pending := Uploading),
        Note(c.w, Dispatched(c.t.id, c.t.source, c.t.proposed, c.w.remote)))
  }

  function ResumeRetry(c: Cfg, r: Reply): Cfg {
    match c.t.pending
    case RecoveredRead =>
      if !r.kind.Ok? then Await(c, Ready)
      else if c.w.remote == c.t.proposed then
        c.(t := c.t.(plan := Some(c.w.remote), prior := Some(Empty), pending := RetryCheck))
      else Retry(c.(t := c.t.(plan := None, prior := None)), SourceChanged)
    case RetryCheck =>
      if !CheckPasses(c, r) then CheckFailed(c)
      else if OtaUploaded in c.t.progress then
        c.(t := c.t.(evidence := Without(c.t.evidence, true), state := Reconnecting, pending := Verifying))
      else Dispatch(c, Without(c.t.evidence, true))
    case _ => c
  }

  function ResumeInstall(c: Cfg, r: Reply): Cfg {
    match c.t.pending
    case CheckingVerified =>
      if r.kind.Ok? then c.(t := c.t.(commitStarted := Yes, pending := Revoking)) else Await(c, Ready)
    case Revoking =>
      var w := if Drained(r) || r.applied then Note(c.w, Revoked(c.t.id)) else c.w;
      if r.kind.Ok? then Cfg(c.t.(commitStarted := No, pending := InstallCheck), w)
      else FinishWith(Cfg(c.t.(commitStarted := No), w), Failed, if Cancels(r) then Cancelled else PersistenceFailed)
    case InstallCheck =>
      if CheckPasses(c, r) then
        c.(t := c.t.(evidence := Without(c.t.evidence, false), state := Installing,
                     commitStarted := Yes, pending := SavingCheckpoint))
      else CheckFailed(c)
    case SavingCheckpoint =>
      var w := AfterSave(c, r, false);
      if r.kind.Ok? then Cfg(c.t.(commitStarted := No, checkpointSaved := Yes, pending := DispatchCheck), w)
      else if Cancels(r) then
        Cfg(c.t.(checkpointSaved := Bit(c.t.checkpointSaved.Yes? || r.kind.OkCancelled?),
          pending := ClearingCancelled), w)
      else FinishWith(Cfg(c.t.(commitStarted := No), w), Failed, PersistenceFailed)
    case ClearingCancelled =>
      var c' := AfterClear(c.(t := c.t.(commitStarted := No)), r, true);
      if Clears(c, r, true) then FinishWith(c', Failed, Cancelled) else Await(c', Ready)
    case DispatchCheck =>
      if CheckPasses(c, r) then Dispatch(c, c.t.evidence) else CheckFailed(c)
    case _ => c
  }

  function ResumeUpload(c: Cfg, r: Reply): Cfg {
    match c.t.pending
    case Uploading =>
      if r.kind.Ok? then
        var w := Note(c.w, Acknowledged(c.t.id));
        if c.t.checkpointSaved.Yes? then
          Cfg(c.t.(progress := Mark(c.t.progress, OtaUploaded), commitStarted := Yes, pending := SavingUploaded), w)
        else
          Cfg(c.t.(progress := Mark(c.t.progress, OtaUploaded), state := Reconnecting, pending := Verifying), w)
      else if r.kind.Refused? then c.(t := c.t.(commitStarted := Yes, pending := ClearingRejected(UploadFailed)))
      else Retry(c, UploadOutcomeUnknown)
    case SavingUploaded =>
      var w := AfterSave(c, r, true);
      if r.kind.Ok? then Cfg(c.t.(commitStarted := No, state := Reconnecting, pending := Verifying), w)
      else Retry(Cfg(c.t.(commitStarted := No), w), if r.kind.OkCancelled? then ReconnectUnavailable
        else PersistenceFailed)
    case ClearingRejected(code) =>
      var c' := AfterClear(c.(t := c.t.(commitStarted := No)), r, true);
      if Clears(c, r, true) then FinishWith(c', Failed, code)
      else Cfg(RetainInstallRetry(c'.t, Plus(c'.t.evidence, code), PersistenceFailed), c'.w)
    case _ => c
  }

  function ResumeVerify(c: Cfg, r: Reply): Cfg {
    match c.t.pending
    case Verifying =>
      if r.kind.Ok? then
        c.(t := c.t.(progress := Mark(c.t.progress, DeviceVerified), commitStarted := Yes, pending := PersistCheck))
      else if r.kind.Refused? && !Retryable(r.code) then
        c.(t := c.t.(commitStarted := Yes, pending := ClearingRejected(r.code)))
      else Retry(c, if r.kind.Refused? then r.code else ReconnectUnavailable)
    case PersistCheck =>
      if CheckPasses(c, r) then Await(c, Persisting)
      else Retry(CheckFailed(c), PersistenceFailed)
    case Persisting =>
      if Drained(r) then
        c.(t := c.t.(progress := Mark(c.t.progress, MetadataPersisted), commitStarted := Yes, pending := ClearingDone))
      else Retry(c, PersistenceFailed)
    case ClearingDone =>
      var c' := AfterClear(c, r, true);
      if Clears(c, r, true) then Finish(c', Verified) else Retry(c', PersistenceFailed)
    case _ => c
  }

  // ------------------------------------------------------- abandon, roll back, expire

  predicate AbandonableRetry(t: Txn) {
    && t.purpose.InstallConfiguration? && t.state.InstallConfirmationRequired?
    && exists code :: code in t.evidence && (code.SourceChanged? || Retryable(code))
  }

  function AfterAbandon(c: Cfg): Cfg {
    if Attempted(c.t) then Await(c, AbandonClear) else FinishWith(c, Failed, Cancelled)
  }

  function StartAbandon(c: Cfg): Cfg {
    if c.t.state.Previewed? then
      if c.t.reservationClaimed.Yes? && !c.t.writeStarted.Yes? then Await(c, AbandonRelease) else AfterAbandon(c)
    else if AbandonableRetry(c.t) then
      if c.t.recovered.Yes? then AfterAbandon(c) else Await(c, AbandonCheck)
    else c
  }

  function ResumeAbandon(c: Cfg, r: Reply): Cfg {
    match c.t.pending
    case AbandonRelease =>
      var c' := AfterReleaseCall(c, r);
      if r.kind.Ok? then AfterAbandon(c') else Await(c', Ready)
    case AbandonCheck =>
      if CheckPasses(c, r) then AfterAbandon(c) else CheckFailed(c)
    case AbandonClear =>
      var c' := AfterClear(c, r, false);
      if Clears(c, r, false) then FinishWith(c', Failed, Cancelled) else Await(c', Ready)
    case ExpiryReleasing =>
      var c' := AfterReleaseCall(c, r);
      c'.(t := c'.t.(plan := None, prior := None, closed := Yes, pending := Ready))
    case _ => c
  }

  /** Tasks that keep `_expire` away; a preview's leftover release is not among them. */
  predicate Busy(t: Txn) { !t.pending.Ready? || t.cleanupQueued.Yes? }

  /** `_expire`, entered when the deadline has passed. */
  function Expire(c: Cfg): Cfg {
    var t := c.t;
    if t.closed.Yes? || t.expiryCleanupStarted.Yes? || t.commitStarted.Yes? || Busy(t) then c
    else if !t.recovered.Yes? && t.writeStarted.Yes? && !Attempted(t)
         && !(t.state.Compiled? || t.state.InstallConfirmationRequired? || t.state.Installing?
              || t.state.Reconnecting? || t.state.Verified?) then
      c.(t := t.(state := Failed, rollbackAvailable := Yes, expiryCleanupStarted := Yes, cleanupQueued := Yes))
    else if t.reservationClaimed.Yes? && !t.writeStarted.Yes? then
      Cfg(t.(state := Failed, lease := No, expiryCleanupStarted := Yes, pending := ExpiryReleasing), Unlocked(t, c.w))
    else
      Cfg(t.(state := Failed, lease := No, plan := None, prior := None, closed := Yes), Unlocked(t, c.w))
  }

  /** The queued expiry cleanup obtains the operation lock. */
  function StartCleanup(c: Cfg): Cfg {
    if c.t.cleanupQueued.Yes? && c.t.pending.Ready? then
      BeginRollback(c.(t := c.t.(cleanupQueued := No)), c.t.evidence)
    else c
  }

  // ---------------------------------------------------------------- one whole step

  datatype Operation = ConfirmWrite | Compile | ConfirmInstall | Rollback | Abandon

  /** A caller's request; it is refused without a trace where the source raises. */
  function Start(c: Cfg, op: Operation): Cfg {
    if c.t.closed.Yes? || !c.t.pending.Ready? then c
    else
      match op
      case ConfirmWrite => if c.t.state.Previewed? then Await(c, Acquiring) else c
      case Compile =>
        if c.t.state.Validated? && c.t.plan.Some? && c.t.prior.Some? then Await(c, CompileCheck) else c
      case ConfirmInstall => StartConfirmInstall(c)
      case Rollback =>
        if (c.t.state.Failed? || c.t.state.InstallConfirmationRequired?) && c.t.rollbackAvailable.Yes?
        then BeginRollback(c, c.t.evidence) else c
      case Abandon => StartAbandon(c)
  }

  datatype Part = Preparation | Write | Restoring | RolledBackPart | Compilation | Retrying | Install | Upload
    | Verification | Abandoning | NoPart

  function PartOf(p: Pending): Part {
    match p
    case Ready => NoPart
    case Claiming => Preparation case Acquiring => Preparation case Revalidating => Preparation
    case ReleasingStale(_) => Preparation case UnchangedCheck => Preparation case UnchangedSave => Preparation
    case Comparing => Write case Writing(_) => Write case Reconciling => Write case Validating => Write
    case CompileCheck => Compilation case Compiling => Compilation case CompiledCheck => Compilation
    case RecoveredRead => Retrying case RetryCheck => Retrying
    case CheckingVerified => Install case Revoking => Install case InstallCheck => Install
    case SavingCheckpoint => Install case ClearingCancelled => Install case DispatchCheck => Install
    case Uploading => Upload case SavingUploaded => Upload case ClearingRejected(_) => Upload
    case Verifying => Verification case PersistCheck => Verification
    case Persisting => Verification case ClearingDone => Verification
    case RestoreComparing => Restoring case RestoreWriting(_) => Restoring case RestoreRereading => Restoring
    case RestoreValidating => Restoring case RestoreVerifying => Restoring
    case ReleasingRestored => RolledBackPart case ClearingRolledBack => RolledBackPart
    case AbandonRelease => Abandoning case AbandonCheck => Abandoning
    case AbandonClear => Abandoning case ExpiryReleasing => Abandoning
  }

  /** The awaited call of the running operation comes back. */
  function Resume(c: Cfg, r: Reply): Cfg {
    match PartOf(c.t.pending)
    case Preparation => ResumePreparation(c, r)
    case Write => ResumeWrite(c, r)
    case Restoring => ResumeRestore(c, r)
    case RolledBackPart => ResumeRolledBack(c, r)
    case Compilation => ResumeCompile(c, r)
    case Retrying => ResumeRetry(c, r)
    case Install => ResumeInstall(c, r)
    case Upload => ResumeUpload(c, r)
    case Verification => ResumeVerify(c, r)
    case Abandoning => ResumeAbandon(c, r)
    case NoPart => c
  }

  /** What reaches one handle. */
  datatype Act = Called(op: Operation) | Returned(r: Reply) | Expired | CleanedUp

  function Perform(c: Cfg, act: Act): Cfg {
    match act
    case Called(op) => Start(c, op)
    case Returned(r) => Resume(c, r)
    case Expired => Expire(c)
    case CleanedUp => StartCleanup(c)
  }

  function Serve(c: Cfg, acts: seq<Act>): Cfg {
    if acts == [] then c else Perform(Serve(c, acts[..|acts| - 1]), acts[|acts| - 1])
  }

  // -------------------------------------------------------------- creating handles

  function Open(id: Id, source: Yaml, proposed: Yaml, purpose: Purpose): Txn {
    Txn(id, purpose, source, proposed, Some(proposed), Some(source),
        Previewed, [], [], No, No, Bit(purpose.SaveCalibration?), No,
        No, No, No, No, No,
        if purpose.SaveCalibration? then Claiming else Ready, Bit(purpose.SaveCalibration?), No, No)
  }

  /** `_restore_install_checkpoint` followed by `_adopt_recovered_source`. */
  function Restore(cp: Checkpoint, adopted: bool): Txn {
    Txn(cp.id, cp.purpose, cp.source, cp.proposed,
        if adopted then Some(cp.proposed) else None, if adopted then Some(Empty) else None,
        InstallConfirmationRequired, if cp.uploaded then [OtaAttempted, OtaUploaded] else [OtaAttempted],
        [if cp.uploaded then ReconnectUnavailable else UploadOutcomeUnknown] + (if adopted then []
          else [SourceChanged]),
        No, Yes, No, Yes,
        No, No, No, Yes, Yes,
        Ready, No, No, No)
  }
}
