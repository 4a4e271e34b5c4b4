/** What the history must look like, and the invariant of one handle that keeps it so. */
module TransactionLaws {
  import opened Common
  import opened TransactionModel

  // ------------------------------------------------------------ progress of a handle

  function Marker(n: nat): Progress
    requires n < 7
  {
    match n
    case 0 => ConfigWritten case 1 => ConfigValidated case 2 => FirmwareCompiled
    case 3 => OtaAttempted case 4 => OtaUploaded case 5 => DeviceVerified
    case _ => MetadataPersisted
  }

  /** The canonical markers from `base` up to `level`, in order. */
  function Trail(base: nat, level: nat): (s: seq<Progress>)
    requires base <= level <= 7
    ensures |s| == level - base
    ensures forall i :: 0 <= i < |s| ==> s[i] == Marker(base + i)
    ensures ConfigRestored !in s
  {
    if level == base then [] else Trail(base, level - 1) + [Marker(level - 1)]
  }

  function Base(recovered: Flag): nat { if recovered.Yes? then 3 else 0 }

  predicate Undone(progress: seq<Progress>) { ConfigRestored in progress }

  /** How far the canonical path was followed. */
  function Level(recovered: Flag, progress: seq<Progress>): nat {
    Base(recovered) + (if Undone(progress) && progress != [] then |progress| - 1 else |progress|)
  }

  /** The exact shape of `progress`. */
  predicate Shape(recovered: Flag, progress: seq<Progress>) {
    var level := Level(recovered, progress);
    && level <= 7
    && (recovered.Yes? ==> 4 <= level)
    && (Undone(progress) ==> recovered.No? && level <= 3)
    && progress == Trail(Base(recovered), level) + (if Undone(progress) then [ConfigRestored] else [])
  }

  lemma MarkerRank(n: nat, m: nat)
    requires n < 7 && m < 7
    ensures Marker(n) == Marker(m) <==> n == m
  {}

  lemma Reached(recovered: Flag, progress: seq<Progress>, n: nat)
    requires Shape(recovered, progress) && Base(recovered) <= n < 7
    ensures Marker(n) in progress <==> n < Level(recovered, progress)
  {
    var base := Base(recovered);
    var trail := Trail(base, Level(recovered, progress));
    if n < Level(recovered, progress) {
      assert trail[n - base] == Marker(n);
      assert progress[n - base] == Marker(n);
    } else if Marker(n) in progress {
      var i :| 0 <= i < |progress| && progress[i] == Marker(n);
      assert i < |trail| ==> trail[i] == Marker(base + i);
      if i < |trail| { MarkerRank(n, base + i); }
      assert false;
    }
  }

  /** The markers the code asks for, read off the level. */
  lemma Markers(recovered: Flag, progress: seq<Progress>)
    requires Shape(recovered, progress)
    ensures OtaAttempted in progress <==> 4 <= Level(recovered, progress)
    ensures OtaUploaded in progress <==> 5 <= Level(recovered, progress)
    ensures DeviceVerified in progress <==> 6 <= Level(recovered, progress)
    ensures MetadataPersisted in progress <==> 7 <= Level(recovered, progress)
    ensures progress == [] <==> Level(recovered, progress) == 0 && !Undone(progress)
    ensures recovered.Yes? ==> 4 <= Level(recovered, progress) && !Undone(progress)
  {
    Reached(recovered, progress, 3); Reached(recovered, progress, 4);
    Reached(recovered, progress, 5); Reached(recovered, progress, 6);
  }

  /** Adding the next canonical marker moves one level on; adding an old one changes nothing. */
  lemma Advance(t: Txn, n: nat)
    requires Shape(t.recovered, t.progress) && Base(t.recovered) <= n <= Level(t.recovered, t.progress) && n < 7
    requires !Undone(t.progress)
    ensures var p := Mark(t.progress, Marker(n));
            && Shape(t.recovered, p) && !Undone(p)
            && Level(t.recovered, p) == if n == Level(t.recovered, t.progress) then n + 1
              else Level(t.recovered, t.progress)
  {
    Reached(t.recovered, t.progress, n);
    if n == Level(t.recovered, t.progress) {
      var p := Mark(t.progress, Marker(n));
      assert Marker(n) != ConfigRestored;
      assert ConfigRestored !in p;
      assert p == Trail(Base(t.recovered), n + 1) + [];
    }
  }

  lemma Undo(t: Txn)
    requires Shape(t.recovered, t.progress) && !t.recovered.Yes? && Level(No, t.progress) <= 3
    ensures var p := Mark(t.progress, ConfigRestored);
            Shape(No, p) && Undone(p) && Level(No, p) == Level(No, t.progress)
  {
    if !Undone(t.progress) {
      var p := Mark(t.progress, ConfigRestored);
      assert t.progress == Trail(0, Level(No, t.progress));
      assert p == Trail(0, Level(No, t.progress)) + [ConfigRestored];
      assert p[|t.progress|] == ConfigRestored;
    }
  }

  // --------------------------------------------------------- the invariant of a handle

  /** Only a handle whose proposal was already in the file skips the canonical path. */
  predicate Progressed(t: Txn) {
    Shape(t.recovered, t.progress) || (t.closed.Yes? && !t.recovered.Yes? && t.progress == [MetadataPersisted])
  }

  predicate Claimless(p: Pending) {
    p.Ready? || p.Acquiring? || p.Revalidating? || p.ReleasingStale? || p.AbandonRelease? || p.ExpiryReleasing?
  }

  /** The file is still what the compare found, unless a third party edited it since. */
  predicate Raced(w: World, expected: Yaml, since: nat) {
    w.history.settled <= since <= w.history.edits && (since == w.history.edits ==> w.remote == expected)
  }

  predicate Restoring(t: Txn) {
    && !t.recovered.Yes? && Level(t.recovered, t.progress) <= 3 && !t.closed.Yes? && t.writeStarted.Yes?
    && !t.rollbackAvailable.Yes? && t.prior == Some(t.source)
    && !t.state.Installing?
  }

  /** What each await relies on. */
  predicate Flow(t: Txn, w: World) {
    var l := Level(t.recovered, t.progress);
    match t.pending
    case Ready => true
    case Claiming => t.state.Previewed? && t.previewLease.Yes? && !t.previewRelease.Yes? && !t.closed.Yes? && l == 0
    case Acquiring => (t.closed.Yes? || t.state.Previewed?) && !t.writeStarted.Yes? && !t.recovered.Yes?
    case Revalidating => (t.closed.Yes? || t.state.Previewed?) && t.lease.Yes? && !t.writeStarted.Yes?
      && !t.recovered.Yes?
    case ReleasingStale(_) =>
      !t.writeStarted.Yes? && !t.recovered.Yes? && t.lease.Yes?
        && (t.closed.Yes? || t.state.Previewed? || t.state.WriteConfirmed?)
    case UnchangedCheck => t.state.Previewed? && t.lease.Yes? && !t.closed.Yes? && t.plan == t.prior
      && t.purpose.InstallConfiguration?
    case UnchangedSave => t.state.Previewed? && t.lease.Yes? && !t.closed.Yes? && t.plan == t.prior
      && t.purpose.InstallConfiguration?
    case Comparing => t.state.WriteConfirmed? && t.writeStarted.Yes? && !t.closed.Yes? && t.id !in w.history.wrote
    case Writing(since) =>
      && t.state.WriteConfirmed? && t.writeStarted.Yes? && !t.closed.Yes? && t.id !in w.history.wrote
      && Raced(w, t.source, since)
    case Reconciling => t.state.WriteConfirmed? && t.writeStarted.Yes? && !t.closed.Yes?
    case Validating => t.state.Written? && t.writeStarted.Yes? && !t.closed.Yes? && t.id in w.history.wrote
    case CompileCheck => t.state.Validated? && !t.closed.Yes?
    case Compiling => t.state.Validated? && !t.closed.Yes?
    case CompiledCheck => t.state.Validated? && !t.closed.Yes?
    case RecoveredRead => t.state.InstallConfirmationRequired? && l >= 4 && t.recovered.Yes? && !t.closed.Yes?
    case RetryCheck => t.state.InstallConfirmationRequired? && l >= 4 && !t.closed.Yes?
    case CheckingVerified => t.state.InstallConfirmationRequired? && l == 3 && !t.closed.Yes?
    case Revoking => t.state.InstallConfirmationRequired? && l == 3 && !t.closed.Yes?
    case InstallCheck => t.state.InstallConfirmationRequired? && l == 3 && !t.closed.Yes?
      && Revoked(t.id) in w.history.seen
    case SavingCheckpoint => t.state.Installing? && l == 3 && !t.closed.Yes? && Revoked(t.id) in w.history.seen
    case ClearingCancelled => t.state.Installing? && l == 3 && !t.closed.Yes? && Revoked(t.id) in w.history.seen
    case DispatchCheck => t.state.Installing? && l == 3 && !t.closed.Yes? && Revoked(t.id) in w.history.seen
      && t.checkpointSaved.Yes?
    case Uploading => t.state.Installing? && l == 4 && !t.closed.Yes? && t.id in w.history.dispatched
    case SavingUploaded => t.state.Installing? && l >= 5 && !t.closed.Yes?
    case ClearingRejected(_) => l >= 4 && !t.closed.Yes?
    case Verifying => t.state.Reconnecting? && l >= 5 && !t.closed.Yes?
    case PersistCheck => t.state.Reconnecting? && l >= 6 && !t.closed.Yes?
    case Persisting => t.state.Reconnecting? && l >= 6 && !t.closed.Yes?
    case ClearingDone => t.state.Reconnecting? && l >= 7 && !t.closed.Yes?
    case RestoreComparing => Restoring(t) && !Undone(t.progress)
    case RestoreWriting(since) =>
      Restoring(t) && !Undone(t.progress) && Raced(w, t.proposed, since)
    case RestoreRereading => Restoring(t) && !Undone(t.progress) && w.history.standing != Some(t.id)
    case RestoreValidating => Restoring(t) && !Undone(t.progress) && w.history.standing != Some(t.id)
    case RestoreVerifying => Restoring(t) && !Undone(t.progress) && w.history.standing != Some(t.id)
    case ReleasingRestored => Undone(t.progress) && !t.closed.Yes? && !t.writeStarted.Yes? && !t.rollbackAvailable.Yes?
    case ClearingRolledBack =>
      Undone(t.progress) && !t.closed.Yes? && !t.writeStarted.Yes? && !t.rollbackAvailable.Yes?
        && !t.reservationClaimed.Yes?
    case AbandonRelease => (t.closed.Yes? || t.state.Previewed?) && !t.writeStarted.Yes? && !t.recovered.Yes?
    case AbandonCheck => t.state.InstallConfirmationRequired? && !t.closed.Yes? && t.purpose.InstallConfiguration?
    case AbandonClear => l >= 4 && !t.closed.Yes? && t.purpose.InstallConfiguration?
    case ExpiryReleasing => t.state.Failed? && !t.writeStarted.Yes? && !t.lease.Yes?
  }

  /** How the visible state limits the rest of an open handle. */
  predicate Staged(t: Txn, w: World) {
    !t.closed.Yes? && !t.pending.ReleasingRestored? && !t.pending.ClearingRolledBack? ==>
      match t.state
      case Previewed => t.progress == [] && !t.writeStarted.Yes? && !t.recovered.Yes? && !t.checkpointSaved.Yes?
        && t.id !in w.history.wrote
      case WriteConfirmed => t.progress == [] && !t.recovered.Yes?
      case Written => Level(t.recovered, t.progress) == 1 && !t.recovered.Yes? && t.writeStarted.Yes?
        && !Undone(t.progress)
      case Validated => Level(t.recovered, t.progress) == 2 && !t.recovered.Yes? && t.writeStarted.Yes?
        && !Undone(t.progress)
      case InstallConfirmationRequired => Level(t.recovered, t.progress) >= 3 && t.writeStarted.Yes?
        && !Undone(t.progress)
      case Installing => Level(t.recovered, t.progress) >= 3 && t.writeStarted.Yes? && !Undone(t.progress)
      case Reconnecting => Level(t.recovered, t.progress) >= 5 && t.writeStarted.Yes? && !Undone(t.progress)
      case Failed =>
        && Level(t.recovered, t.progress) <= 3 && !t.recovered.Yes?
        && (Undone(t.progress) ==> !t.writeStarted.Yes?)
          && (t.cleanupQueued.Yes? ==> t.writeStarted.Yes? || Undone(t.progress))
      case _ => false
  }

  /** An open handle may be rolled back only while everything rollback needs is there. */
  predicate RollbackAuthority(t: Txn) {
    t.rollbackAvailable.Yes? && !t.closed.Yes? ==>
      && t.state.Failed? && t.plan.Some? && t.prior == Some(t.source) && !t.recovered.Yes? && !Attempted(t)
      && (t.writeStarted.Yes? || Undone(t.progress))
  }

  predicate Secrets(t: Txn) {
    && (t.plan.Some? ==> t.plan == Some(t.proposed))
    && (t.plan.Some? <==> t.prior.Some?)
    && (t.prior.Some? ==> t.prior == Some(if t.recovered.Yes? then Empty else t.source))
    && (t.closed.Yes? ==> t.plan.None?)
    && (!t.closed.Yes? && !t.recovered.Yes? ==> t.plan.Some?)
  }

  predicate Unsaved(id: Id, w: World) { Saved(id, false) !in w.history.seen && Saved(id, true) !in w.history.seen }

  predicate Locks(t: Txn, w: World) {
    && (w.lock == Some(Handle(t.id)) <==> t.lease.Yes? || t.previewLease.Yes?)
    && !(t.lease.Yes? && t.previewLease.Yes?)
    && (t.previewRelease.Yes? ==> t.previewLease.Yes? && !t.writeStarted.Yes?)
    && (t.previewLease.Yes? ==> !t.recovered.Yes? && t.progress == [] && !t.writeStarted.Yes? && Unsaved(t.id, w))
    && (!t.closed.Yes? && (t.writeStarted.Yes? || t.recovered.Yes?) ==> t.lease.Yes?)
    && (t.closed.Yes? ==> (t.lease.Yes? <==> LeakedLease(t.id) in w.history.seen))
    && (!t.closed.Yes? ==> LeakedLease(t.id) !in w.history.seen)
    && (LeakedLease(t.id) in w.history.seen ==> !t.checkpointSaved.Yes? && Unsaved(t.id, w))
    && (t.closed.Yes? ==> Claimless(t.pending))
    && (t.closed.Yes? && t.pending != Ready ==> t.progress == [] && !t.recovered.Yes? && Unsaved(t.id, w))
    && (t.closed.Yes? ==> t.state.Failed? || t.state.RolledBack? || t.state.Verified?)
    && (t.cleanupQueued.Yes? ==> !t.recovered.Yes? && !Attempted(t) && (!t.closed.Yes? ==> t.state.Failed?))
  }

  /** What the history says about this handle. */
  predicate Recorded(t: Txn, w: World) {
    var h := w.history.seen;
    var l := Level(t.recovered, t.progress);
    && Opened(t.id, t.source, t.proposed) in h
    && (t.closed.Yes? && w.history.standing == Some(t.id) && t.proposed != t.source ==> FirmwareBuilt(t.id) in h)
    && (w.history.standing == Some(t.id) ==> w.remote == t.proposed && t.id in w.history.wrote)
    && (!t.writeStarted.Yes? ==> w.history.standing != Some(t.id))
    && (2 <= l ==> ConfigValid(t.id) in h)
    && (3 <= l ==> FirmwareBuilt(t.id) in h)
    && (Attempted(t) ==> Revoked(t.id) in h && Saved(t.id, false) in h)
    && (t.checkpointSaved.Yes? ==> Saved(t.id, false) in h)
    && (!t.recovered.Yes? ==> Recovered(t.id, false) !in h && Recovered(t.id, true) !in h)
    && (!t.recovered.Yes? && RestoreConfirmed(t.id) in h ==> Undone(t.progress))
    && (Undone(t.progress) ==> RestoreConfirmed(t.id) in h)
    && (!t.writeStarted.Yes? && t.id in w.history.wrote ==> RestoreConfirmed(t.id) in h)
    && (!t.recovered.Yes? && !Attempted(t) ==> t.id !in w.history.dispatched)
    && (OtaUploaded in t.progress ==> Acknowledged(t.id) in h)
    && (Saved(t.id, true) in h ==> OtaUploaded in t.progress)
    && (!t.closed.Yes? && Attempted(t) ==> t.checkpointSaved.Yes?)
    && (t.checkpointSaved.Yes? && t.lease.Yes? ==> w.history.durable == Some(t.id) || ClearedSilently(t.id) in h)
  }

  /** The removal after a cancelled save may end in a handle that only expiry still moves. */
  predicate Stuck(t: Txn) {
    t.state.Installing? && (t.pending.Ready? || t.pending.ClearingCancelled?)
  }

  /** What the purpose and the record of a handle say: only a calibration holds a reservation
      or obtains a lease after its close; an open handle knows of its durable record unless
      the outcome of the save was lost; after a lost removal the record is gone for good, or
      until an acknowledged upload is saved. */
  predicate Belongings(t: Txn, w: World) {
    var h := w.history.seen;
    && (t.reservationClaimed.Yes? || t.previewLease.Yes? || LeakedLease(t.id) in h ==> t.purpose.SaveCalibration?)
    && (t.closed.Yes? && t.pending != Ready ==> t.purpose.SaveCalibration?)
    && (!t.closed.Yes? && w.history.durable == Some(t.id) ==>
          t.checkpointSaved.Yes? || (t.state.Installing? && !Undone(t.progress)))
    && (!t.closed.Yes? && ClearedSilently(t.id) in h ==>
          OtaUploaded in t.progress
          || (w.history.durable != Some(t.id) && (Attempted(t) || Undone(t.progress) || Stuck(t))))
  }

  predicate Fits(t: Txn, w: World) {
    && Progressed(t) && Secrets(t) && RollbackAuthority(t)
    && Locks(t, w) && Staged(t, w) && Flow(t, w) && Recorded(t, w) && Belongings(t, w)
  }

  predicate CheckpointOk(cp: Checkpoint, h: set<Effect>) {
    && Opened(cp.id, cp.source, cp.proposed) in h
    && ConfigValid(cp.id) in h && FirmwareBuilt(cp.id) in h && Revoked(cp.id) in h
    && Saved(cp.id, false) in h
    && (Saved(cp.id, true) in h <==> cp.uploaded)
    && (cp.uploaded ==> Acknowledged(cp.id) in h)
    && (!cp.uploaded ==> ClearedSilently(cp.id) !in h)
    && LeakedLease(cp.id) !in h
  }

  /** The part of the world that no single handle owns. */
  ghost predicate WorldOk(w: World) {
    && w.history.lawful
    && (w.history.shown.Some? ==> w.history.shown.value == w.remote)
    && (w.history.edits > 0 ==> w.history.shown.Some?) && w.history.settled <= w.history.edits
    && w.history.durable == (if w.checkpoint.Some? then Some(w.checkpoint.value.id) else None)
    && (w.checkpoint.Some? ==> CheckpointOk(w.checkpoint.value, w.history.seen))
  }
}
