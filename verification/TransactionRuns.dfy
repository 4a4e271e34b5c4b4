/** The meter as a whole: handles, recoveries, third parties and crashes in any order. */
module TransactionRuns {
  import opened Common
  import opened TransactionModel
  import opened TransactionLaws
  import opened TransactionSteps
  import opened TransactionInstall
  import opened TransactionFrame

  /** `async_recover_install` after it read the checkpoint: waiting for the meter lock,
      reading the file, comparing the checkpoint once more. */
  datatype Recovery =
    | Waiting(cp: Checkpoint)
    | ReadingSource(cp: Checkpoint)
    | Confirming(cp: Checkpoint, adopted: bool)

  /** Everything about one meter. Handles stay listed after they closed. */
  datatype Sys = Sys(w: World, txs: map<Id, Txn>, recoveries: map<nat, Recovery>)

  datatype Event =
    | ForeignEdit(content: Yaml)
    | Preview(id: Id, source: Yaml, proposed: Yaml, purpose: Purpose)
    | Call(id: Id, op: Operation)
    | Return(id: Id, r: Reply)
    | PreviewReturn(id: Id, r: Reply)
    | Expiry(id: Id)
    | Cleanup(id: Id)
    | Recover(task: nat)
    | RecoverReturn(task: nat, r: Reply)
    | Crash

  function At(s: Sys, id: Id): Cfg
    requires id in s.txs
  {
    Cfg(s.txs[id], s.w)
  }

  function Put(s: Sys, id: Id, c: Cfg): Sys {
    Sys(c.w, s.txs[id := c.t], s.recoveries)
  }

  function OpenedWorld(w: World, id: Id, source: Yaml, proposed: Yaml, purpose: Purpose): World {
    Note(w.(lock := if purpose.SaveCalibration? then Some(Handle(id)) else w.lock), Opened(id, source, proposed))
  }

  predicate Previewable(s: Sys, id: Id, purpose: Purpose) {
    id !in s.w.history.ids && (purpose.SaveCalibration? ==> s.w.lock.None?)
  }

  predicate Recoverable(s: Sys, task: nat) {
    && task !in s.recoveries && s.w.checkpoint.Some? && s.w.lock.None?
    && (forall id :: id in s.txs ==> s.txs[id].closed.Yes?)
  }

  /** The recovery ends without a handle; the lock is given back if it was taken. */
  function DropRecovery(s: Sys, task: nat): Sys {
    s.(recoveries := s.recoveries - {task},
       w := s.w.(lock := if s.w.lock == Some(Recovering(task)) then None else s.w.lock))
  }

  /** The recovered handle is registered and takes over the lock. */
  function Register(s: Sys, task: nat, cp: Checkpoint, adopted: bool): Sys {
    Sys(Note(s.w.(lock := Some(Handle(cp.id))), Recovered(cp.id, cp.uploaded)),
        s.txs[cp.id := Restore(cp, adopted)],
        s.recoveries - {task})
  }

  function StepRecovery(s: Sys, task: nat, r: Reply): Sys
    requires task in s.recoveries
  {
    if !r.kind.Ok? then DropRecovery(s, task)
    else
      match s.recoveries[task]
      case Waiting(cp) =>
        if s.w.lock.Some? then s
        else s.(w := s.w.(lock := Some(Recovering(task))), recoveries := s.recoveries[task := ReadingSource(cp)])
      case ReadingSource(cp) =>
        s.(recoveries := s.recoveries[task := Confirming(cp, s.w.remote == cp.proposed)])
      case Confirming(cp, adopted) =>
        if s.w.checkpoint == Some(cp) then Register(s, task, cp, adopted) else DropRecovery(s, task)
  }

  function Step(s: Sys, e: Event): Sys {
    match e
    case ForeignEdit(content) => s.(w := Note(s.w.(remote := content), Edited(content)))
    case Preview(id, source, proposed, purpose) =>
      if Previewable(s, id, purpose) then
        Put(s, id, Cfg(Open(id, source, proposed, purpose), OpenedWorld(s.w, id, source, proposed, purpose)))
      else s
    case Call(id, op) => if id in s.txs then Put(s, id, Start(At(s, id), op)) else s
    case Return(id, r) => if id in s.txs then Put(s, id, Resume(At(s, id), r)) else s
    case PreviewReturn(id, r) =>
      if id in s.txs && s.txs[id].previewRelease.Yes? then Put(s, id, ResumePreview(At(s, id), r)) else s
    case Expiry(id) => if id in s.txs then Put(s, id, Expire(At(s, id))) else s
    case Cleanup(id) => if id in s.txs then Put(s, id, StartCleanup(At(s, id))) else s
    case Recover(task) =>
      if Recoverable(s, task) then s.(recoveries := s.recoveries[task := Waiting(s.w.checkpoint.value)]) else s
    case RecoverReturn(task, r) => if task in s.recoveries then StepRecovery(s, task, r) else s
    case Crash => Sys(Note(s.w.(lock := None), Crashed), map[], map[])
  }

  function Initial(remote: Yaml): Sys {
    Sys(World(remote, None, None, NOTHING), map[], map[])
  }

  /** The system after any sequence of events. */
  function Run(remote: Yaml, events: seq<Event>): Sys {
    if events == [] then Initial(remote)
    else Step(Run(remote, events[..|events| - 1]), events[|events| - 1])
  }

  // ------------------------------------------------------------------ the invariant

  ghost predicate Handles(s: Sys) {
    forall id :: id in s.txs ==> s.txs[id].id == id && id in s.w.history.ids && Fits(s.txs[id], s.w)
  }

  /** Identities are given out once, and every entry belongs to one that was. */
  ghost predicate Owned(h: History) {
    && (forall e :: e in h.seen && Owner(e).Some? ==> Owner(e).value in h.ids)
    && h.wrote <= h.ids && h.dispatched <= h.ids
    && (forall id, source, proposed, source', proposed' ::
          Opened(id, source, proposed) in h.seen && Opened(id, source', proposed') in h.seen
          ==> source == source' && proposed == proposed')
  }

  /** A proposal that stands is really in the file. */
  ghost predicate Standing(w: World) {
    w.history.standing.Some? ==>
      && w.history.standing.value in w.history.wrote
      && forall source, proposed ::
        Opened(w.history.standing.value, source, proposed) in w.history.seen ==> w.remote == proposed
  }

  predicate Holding(s: Sys, task: nat) { task in s.recoveries && !s.recoveries[task].Waiting? }

  /** The meter lock is held by whom it names, and recoveries await a foreign past. */
  ghost predicate LockOk(s: Sys) {
    && (s.w.lock.Some? && s.w.lock.value.Handle? ==> s.w.lock.value.id in s.txs)
    && (s.w.lock.Some? && s.w.lock.value.Recovering? ==> Holding(s, s.w.lock.value.task))
    && (forall task :: Holding(s, task) ==> s.w.lock == Some(Recovering(task)))
  }

  ghost predicate RecoveriesOk(s: Sys) {
    forall task :: task in s.recoveries ==>
      var id := s.recoveries[task].cp.id;
      id in s.w.history.ids && (id in s.txs && s.txs[id].closed.No? ==> s.txs[id].recovered.Yes?)
  }

  ghost predicate SysOk(s: Sys) {
    && WorldOk(s.w) && Handles(s) && Owned(s.w.history) && Standing(s.w) && LockOk(s) && RecoveriesOk(s)
    && Logged(s.w.history)
  }

  // ------------------------------------------------------- a step of one handle

  lemma PutHandles(s: Sys, id: Id, c: Cfg)
    requires SysOk(s) && id in s.txs && Good(c) && Guarantee(id, s.w, c.w) && Same(s.txs[id], c.t)
    ensures Handles(Put(s, id, c))
  {
    hide Fits, WorldOk, Owned, Standing, LockOk, RecoveriesOk, Logged;
    forall u | u in s.txs && u != id ensures Fits(s.txs[u], c.w) {
      GuaranteeHarmless(id, u, s.w, c.w);
      FitsStable(s.txs[u], s.w, c.w);
    }
  }

  lemma OwnedKept(id: Id, w: World, w': World)
    requires Owned(w.history) && Guarantee(id, w, w') && id in w.history.ids
    ensures Owned(w'.history)
  {
    hide Logged;
  }

  lemma StandingKept(id: Id, w: World, w': World)
    requires Standing(w) && Guarantee(id, w, w') && w'.history.standing != Some(id)
    requires forall e :: e in w'.history.seen && e !in w.history.seen ==> !e.Opened?
    ensures Standing(w')
  {
    hide Logged, Owned;
  }

  lemma StandingOwn(t: Txn, w: World)
    requires Recorded(t, w) && Owned(w.history) && w.history.standing == Some(t.id)
    ensures Standing(w)
  {
    hide Shape, Level, Undone;
  }

  lemma SysParts(s: Sys)
    requires SysOk(s)
    ensures WorldOk(s.w) && Handles(s) && Owned(s.w.history) && Standing(s.w) && LockOk(s) && RecoveriesOk(s)
        && Logged(s.w.history)
  {}

  lemma PutOwned(s: Sys, id: Id, c: Cfg)
    requires SysOk(s) && id in s.txs && Good(c) && Guarantee(id, s.w, c.w) && Same(s.txs[id], c.t)
    ensures Owned(c.w.history) && Standing(c.w)
  {
    assert id in s.w.history.ids && c.t.id == id && Recorded(c.t, c.w) by {
      hide WorldOk, LockOk, RecoveriesOk, Logged, Owned, Standing, Guarantee, Recorded;
    }
    hide SysOk, Good, Recorded, Owned, Standing;
    assert Owned(s.w.history) && Standing(s.w) by { SysParts(s); }
    OwnedKept(id, s.w, c.w);
    if c.w.history.standing == Some(id) { StandingOwn(c.t, c.w); } else { StandingKept(id, s.w, c.w); }
  }

  lemma PutLock(s: Sys, id: Id, c: Cfg)
    requires SysOk(s) && id in s.txs && Good(c) && Guarantee(id, s.w, c.w) && Same(s.txs[id], c.t)
    ensures LockOk(Put(s, id, c)) && RecoveriesOk(Put(s, id, c))
  {
    hide WorldOk, Fits, Owned, Standing, Logged;
    assert c.t.closed.No? ==> s.txs[id].closed.No?;
  }

  /** A handle that keeps its own invariant under its guarantee keeps everyone's. */
  lemma PutOk(s: Sys, id: Id, c: Cfg)
    requires SysOk(s) && id in s.txs
    requires Good(c) && Guarantee(id, s.w, c.w) && Same(s.txs[id], c.t)
    ensures SysOk(Put(s, id, c))
  {
    var s' := Put(s, id, c);
    assert Handles(s') by { PutHandles(s, id, c); }
    assert Owned(s'.w.history) && Standing(s'.w) by { PutOwned(s, id, c); }
    assert LockOk(s') && RecoveriesOk(s') by { PutLock(s, id, c); }
    hide Fits, WorldOk, Handles, Owned, Standing, LockOk, RecoveriesOk;
  }

  lemma PutStep(s: Sys, id: Id)
    requires SysOk(s) && id in s.txs
    ensures Good(At(s, id)) && Holds(At(s, id)) && At(s, id).t.id == id && At(s, id).w == s.w
    ensures !(At(s, id).t.lease.Yes? && At(s, id).t.previewLease.Yes?)
  {
    GoodHolds(At(s, id)) by { hide WorldOk, Fits, Owned, Standing, Logged, LockOk, RecoveriesOk; }
    hide WorldOk, Owned, Standing, Logged, LockOk, RecoveriesOk, Recorded, Flow, Staged, Secrets, RollbackAuthority,
      Belongings, Shape;
  }

  lemma CallOk(s: Sys, id: Id, op: Operation)
    requires SysOk(s)
    ensures SysOk(Step(s, Call(id, op)))
  {
    hide SysOk, Good, Holds, Guarantee, Same, Start;
    if id in s.txs {
      PutStep(s, id);
      var c := At(s, id);
      StartGood(c, op); StartFrame(c, op); StartSame(c, op);
      PutOk(s, id, Start(c, op));
    }
  }

  lemma ReturnOk(s: Sys, id: Id, r: Reply)
    requires SysOk(s)
    ensures SysOk(Step(s, Return(id, r)))
  {
    hide SysOk, Good, Holds, Guarantee, Same, Resume;
    if id in s.txs {
      PutStep(s, id);
      var c := At(s, id);
      ResumeGood(c, r); ResumeFrame(c, r); ResumeSame(c, r);
      PutOk(s, id, Resume(c, r));
    }
  }

  lemma PreviewReturnOk(s: Sys, id: Id, r: Reply)
    requires SysOk(s)
    ensures SysOk(Step(s, PreviewReturn(id, r)))
  {
    hide SysOk, Good, Holds, Guarantee, Same, ResumePreview;
    if id in s.txs && s.txs[id].previewRelease.Yes? {
      PutStep(s, id);
      var c := At(s, id);
      PreviewGood(c, r); PreviewFrame(c, r); PreviewSame(c, r);
      PutOk(s, id, ResumePreview(c, r));
    }
  }

  lemma ExpiryOk(s: Sys, id: Id)
    requires SysOk(s)
    ensures SysOk(Step(s, Expiry(id)))
  {
    hide SysOk, Good, Holds, Guarantee, Same, Expire;
    if id in s.txs {
      PutStep(s, id);
      var c := At(s, id);
      ExpireGood(c); ExpireFrame(c); ExpireSame(c);
      PutOk(s, id, Expire(c));
    }
  }

  lemma CleanupOk(s: Sys, id: Id)
    requires SysOk(s)
    ensures SysOk(Step(s, Cleanup(id)))
  {
    hide SysOk, Good, Holds, Guarantee, Same, StartCleanup;
    if id in s.txs {
      PutStep(s, id);
      var c := At(s, id);
      CleanupGood(c); CleanupFrame(c); CleanupSame(c);
      PutOk(s, id, StartCleanup(c));
    }
  }

  // ---------------------------------------------------------- steps around handles

  lemma HandlesStable(s: Sys, w: World)
    requires Handles(s) && s.w.history.ids <= w.history.ids
    requires forall u :: u in s.txs ==> Harmless(u, s.w, w)
    ensures Handles(s.(w := w))
  {
    hide Fits, Harmless;
    forall u | u in s.txs ensures Fits(s.txs[u], w) { FitsStable(s.txs[u], s.w, w); }
  }

  lemma EditWorld(w: World, content: Yaml)
    requires WorldOk(w) && Owned(w.history) && Logged(w.history)
    ensures var w' := Note(w.(remote := content), Edited(content));
            WorldOk(w') && Owned(w'.history) && Standing(w') && Logged(w'.history)
  {
    RecordLogged(w.history, Edited(content));
    hide Logged;
  }

  lemma EditStep(s: Sys, content: Yaml)
    ensures Step(s, ForeignEdit(content)) == s.(w := Note(s.w.(remote := content), Edited(content)))
  {
    hide Note, OpenedWorld, Put, Start, Resume, ResumePreview, Expire, StartCleanup, StepRecovery, Open;
  }

  lemma EditRest(s: Sys, content: Yaml)
    requires LockOk(s) && RecoveriesOk(s)
    ensures var s' := s.(w := Note(s.w.(remote := content), Edited(content))); LockOk(s') && RecoveriesOk(s')
  {
    hide Lawful;
  }

  lemma EditHandles(s: Sys, content: Yaml)
    requires SysOk(s)
    ensures Handles(s.(w := Note(s.w.(remote := content), Edited(content))))
  {
    hide Fits, WorldOk, Owned, Standing, LockOk, RecoveriesOk, Logged, Lawful;
    HandlesStable(s, Note(s.w.(remote := content), Edited(content)));
  }

  lemma EditOk(s: Sys, content: Yaml)
    requires SysOk(s)
    ensures SysOk(Step(s, ForeignEdit(content)))
  {
    hide Fits, Handles, Logged, Step, RecoveriesOk, LockOk, WorldOk, Owned, Standing;
    EditHandles(s, content);
    EditWorld(s.w, content);
    EditRest(s, content);
    EditStep(s, content);
  }

  lemma RecoverTasks(s: Sys, task: nat)
    requires SysOk(s) && Recoverable(s, task)
    ensures var s' := s.(recoveries := s.recoveries[task := Waiting(s.w.checkpoint.value)]);
        LockOk(s') && RecoveriesOk(s')
  {
    hide Fits, Logged, Lawful, Standing, Handles;
  }

  lemma SameWorldOk(s: Sys, recoveries: map<nat, Recovery>)
    requires SysOk(s)
    requires LockOk(s.(recoveries := recoveries)) && RecoveriesOk(s.(recoveries := recoveries))
    ensures SysOk(s.(recoveries := recoveries))
  {
    hide Fits, Logged, Lawful, LockOk, RecoveriesOk, WorldOk, Owned, Standing;
  }

  lemma RecoverOk(s: Sys, task: nat)
    requires SysOk(s)
    ensures SysOk(Step(s, Recover(task)))
  {
    hide Fits, Logged, Lawful, Standing, WorldOk, LockOk, RecoveriesOk;
    if Recoverable(s, task) {
      var recoveries := s.recoveries[task := Waiting(s.w.checkpoint.value)];
      RecoverTasks(s, task);
      SameWorldOk(s, recoveries);
    }
  }

  lemma CrashKeepsWorld(w: World)
    requires WorldOk(w)
    ensures WorldOk(Note(w.(lock := None), Crashed))
  {}

  lemma CrashKeepsOwned(w: World)
    requires Owned(w.history)
    ensures Owned(Note(w.(lock := None), Crashed).history)
  {
    hide Lawful;
  }

  lemma CrashKeepsStanding(w: World)
    requires Standing(w)
    ensures Standing(Note(w.(lock := None), Crashed))
  {
    hide Lawful;
  }

  lemma CrashWorld(w: World)
    requires WorldOk(w) && Owned(w.history) && Standing(w) && Logged(w.history)
    ensures var w' := Note(w.(lock := None), Crashed);
            WorldOk(w') && Owned(w'.history) && Standing(w') && Logged(w'.history)
  {
    RecordLogged(w.history, Crashed);
    hide Logged, WorldOk, Owned, Standing;
    CrashKeepsWorld(w);
    CrashKeepsOwned(w);
    CrashKeepsStanding(w);
  }

  lemma LockKept(w: World, e: Effect)
    ensures Note(w, e).lock == w.lock
  {}

  lemma CrashOk(s: Sys)
    requires SysOk(s)
    ensures SysOk(Step(s, Crash))
  {
    hide Fits, Logged, WorldOk, Owned, Standing, Note;
    CrashWorld(s.w);
    assert Note(s.w.(lock := None), Crashed).lock == None by { LockKept(s.w.(lock := None), Crashed); }
  }

  lemma UnknownRecord(w: World, id: Id)
    requires WorldOk(w) && Owned(w.history) && id !in w.history.ids
    ensures w.history.durable != Some(id)
  {
    if w.checkpoint.Some? {
      var cp := w.checkpoint.value;
      assert Owner(Opened(cp.id, cp.source, cp.proposed)) == Some(cp.id);
    }
  }

  lemma NothingSeen(w: World, id: Id)
    requires Owned(w.history) && Standing(w) && id !in w.history.ids
    ensures forall e :: e in w.history.seen && !e.Edited? && !e.Crashed? ==> e.id != id
    ensures id !in w.history.wrote && id !in w.history.dispatched && w.history.standing != Some(id)
  {
    forall e | e in w.history.seen && !e.Edited? && !e.Crashed? ensures e.id != id { assert Owner(e) == Some(e.id); }
  }

  lemma FreshFits(s: Sys, id: Id, source: Yaml, proposed: Yaml, purpose: Purpose)
    requires Owned(s.w.history) && Standing(s.w) && Previewable(s, id, purpose)
    requires s.w.lock != Some(Handle(id)) && s.w.history.durable != Some(id)
    ensures Fits(Open(id, source, proposed, purpose), OpenedWorld(s.w, id, source, proposed, purpose))
  {
    var t := Open(id, source, proposed, purpose);
    assert t.progress == Trail(0, 0) + [];
    NothingSeen(s.w, id);
    hide Trail, Lawful, Owned;
  }

  /** A fresh identity has no past, so its handle starts within the invariant. */
  lemma OpensGood(s: Sys, id: Id, source: Yaml, proposed: Yaml, purpose: Purpose)
    requires SysOk(s) && Previewable(s, id, purpose)
    ensures Fits(Open(id, source, proposed, purpose), OpenedWorld(s.w, id, source, proposed, purpose))
  {
    UnknownRecord(s.w, id);
    hide Logged, RecoveriesOk, WorldOk, Fits;
    assert id !in s.txs;
    FreshFits(s, id, source, proposed, purpose);
  }

  lemma AddHandles(s: Sys, id: Id, t: Txn, w: World, recoveries: map<nat, Recovery>)
    requires Handles(s) && t.id == id && Fits(t, w) && id in w.history.ids && s.w.history.ids <= w.history.ids
    requires forall u :: u in s.txs && u != id ==> Harmless(u, s.w, w)
    ensures Handles(Sys(w, s.txs[id := t], recoveries))
  {
    hide Fits, Harmless;
    forall u | u in s.txs && u != id ensures Fits(s.txs[u], w) { FitsStable(s.txs[u], s.w, w); }
  }

  lemma OpenedHarmless(w: World, id: Id, source: Yaml, proposed: Yaml, purpose: Purpose, u: Id)
    requires u != id && (purpose.SaveCalibration? ==> w.lock.None?)
    ensures Harmless(u, w, OpenedWorld(w, id, source, proposed, purpose))
  {
    hide Lawful;
  }

  lemma PreviewHandles(s: Sys, id: Id, source: Yaml, proposed: Yaml, purpose: Purpose)
    requires SysOk(s) && Previewable(s, id, purpose)
    ensures Handles(Step(s, Preview(id, source, proposed, purpose)))
  {
    hide Fits, WorldOk, Owned, Standing, LockOk, RecoveriesOk, Logged, Handles, Harmless;
    var w := OpenedWorld(s.w, id, source, proposed, purpose);
    OpensGood(s, id, source, proposed, purpose);
    forall u | u in s.txs && u != id ensures Harmless(u, s.w, w) {
      OpenedHarmless(s.w, id, source, proposed, purpose, u);
    }
    AddHandles(s, id, Open(id, source, proposed, purpose), w, s.recoveries);
  }

  lemma OpenedKeeps(w: World, id: Id, source: Yaml, proposed: Yaml, purpose: Purpose)
    requires WorldOk(w) && Logged(w.history) && id !in w.history.ids
    ensures var w' := OpenedWorld(w, id, source, proposed, purpose); WorldOk(w') && Logged(w'.history)
  {
    RecordLogged(w.history, Opened(id, source, proposed));
    hide Logged;
  }

  lemma OpenedOwned(w: World, id: Id, source: Yaml, proposed: Yaml, purpose: Purpose)
    requires Owned(w.history) && id !in w.history.ids
    ensures Owned(OpenedWorld(w, id, source, proposed, purpose).history)
  {
    hide Lawful;
  }

  lemma OpenedStanding(w: World, id: Id, source: Yaml, proposed: Yaml, purpose: Purpose)
    requires Standing(w) && Owned(w.history) && id !in w.history.ids
    ensures Standing(OpenedWorld(w, id, source, proposed, purpose))
  {
    hide Lawful;
  }

  lemma PreviewRest(s: Sys, id: Id, source: Yaml, proposed: Yaml, purpose: Purpose)
    requires SysOk(s) && Previewable(s, id, purpose)
    ensures var s' := Step(s, Preview(id, source, proposed, purpose));
            WorldOk(s'.w) && Owned(s'.w.history) && Standing(s'.w) && Logged(s'.w.history)
  {
    hide Fits, Handles, WorldOk, Owned, Standing, LockOk, RecoveriesOk, Logged, Open, OpenedWorld;
    OpenedKeeps(s.w, id, source, proposed, purpose);
    OpenedOwned(s.w, id, source, proposed, purpose);
    OpenedStanding(s.w, id, source, proposed, purpose);
  }

  lemma PreviewLock(s: Sys, id: Id, source: Yaml, proposed: Yaml, purpose: Purpose)
    requires SysOk(s) && Previewable(s, id, purpose)
    ensures var s' := Step(s, Preview(id, source, proposed, purpose)); LockOk(s') && RecoveriesOk(s')
  {
    hide Fits, Logged, WorldOk, Standing, Lawful;
    assert id !in s.txs;
  }

  lemma PreviewOk(s: Sys, id: Id, source: Yaml, proposed: Yaml, purpose: Purpose)
    requires SysOk(s)
    ensures SysOk(Step(s, Preview(id, source, proposed, purpose)))
  {
    hide Fits, Handles, WorldOk, Owned, Standing, LockOk, RecoveriesOk, Logged, Open, OpenedWorld;
    if Previewable(s, id, purpose) {
      PreviewHandles(s, id, source, proposed, purpose);
      PreviewRest(s, id, source, proposed, purpose);
      PreviewLock(s, id, source, proposed, purpose);
    }
  }

  // --------------------------------------------------------------------- recovery

  /** Only the lock moves, and not to or from a handle. */
  lemma LockMovesOk(s: Sys, lock: Option<Holder>)
    requires SysOk(s)
    requires forall id :: s.w.lock != Some(Handle(id)) && lock != Some(Handle(id))
    ensures var w := s.w.(lock := lock);
            WorldOk(w) && Handles(s.(w := w)) && Owned(w.history) && Standing(w) && Logged(w.history)
  {
    hide Fits, Logged, Lawful, LockOk, RecoveriesOk;
    HandlesStable(s, s.w.(lock := lock));
  }

  lemma DropOk(s: Sys, task: nat)
    requires SysOk(s) && task in s.recoveries
    ensures SysOk(DropRecovery(s, task))
  {
    var lock := if s.w.lock == Some(Recovering(task)) then None else s.w.lock;
    if s.w.lock == Some(Recovering(task)) { LockMovesOk(s, lock); }
    else { assert s.w.(lock := lock) == s.w; }
    hide Fits, Logged, Lawful, Standing, WorldOk, Owned;
    var s' := DropRecovery(s, task);
    assert Handles(s') by { hide LockOk, RecoveriesOk; assert Handles(s.(w := s'.w)); }
  }

  lemma AcquireOk(s: Sys, task: nat)
    requires SysOk(s) && task in s.recoveries && s.recoveries[task].Waiting? && s.w.lock.None?
    ensures SysOk(s.(w := s.w.(lock := Some(Recovering(task))),
                     recoveries := s.recoveries[task := ReadingSource(s.recoveries[task].cp)]))
  {
    LockMovesOk(s, Some(Recovering(task)));
    hide Fits, Logged, Lawful, Standing, WorldOk, Owned;
    var w := s.w.(lock := Some(Recovering(task)));
    var s' := s.(w := w, recoveries := s.recoveries[task := ReadingSource(s.recoveries[task].cp)]);
    assert Handles(s') by { hide LockOk, RecoveriesOk; assert Handles(s.(w := w)); }
  }

  lemma ReadOk(s: Sys, task: nat, adopted: bool)
    requires SysOk(s) && task in s.recoveries && s.recoveries[task].ReadingSource?
    ensures SysOk(s.(recoveries := s.recoveries[task := Confirming(s.recoveries[task].cp, adopted)]))
  {
    hide Fits, Logged, Lawful, Standing, WorldOk;
  }

  lemma RestoredProgress(cp: Checkpoint, adopted: bool)
    ensures var t := Restore(cp, adopted);
            && Shape(Yes, t.progress) && 4 <= Level(Yes, t.progress) && !Undone(t.progress) && t.progress != []
            && Attempted(t) && (OtaUploaded in t.progress <==> cp.uploaded)
  {
    var t := Restore(cp, adopted);
    assert t.progress == Trail(3, 3 + |t.progress|) + [];
    Markers(Yes, t.progress);
  }

  /** A recovered handle starts within the invariant: its checkpoint tells the truth. */
  lemma RestoredFits(w: World, cp: Checkpoint, adopted: bool)
    requires WorldOk(w) && w.checkpoint == Some(cp) && Standing(w)
    ensures Fits(Restore(cp, adopted), Note(w.(lock := Some(Handle(cp.id))), Recovered(cp.id, cp.uploaded)))
  {
    hide Shape, Level, Undone, Lawful;
    RestoredProgress(cp, adopted);
  }

  lemma RegisterHarmless(w: World, cp: Checkpoint, u: Id)
    requires u != cp.id && w.lock != Some(Handle(u))
    ensures Harmless(u, w, Note(w.(lock := Some(Handle(cp.id))), Recovered(cp.id, cp.uploaded)))
  {
    hide Lawful;
  }

  lemma RestoreId(cp: Checkpoint, adopted: bool)
    ensures Restore(cp, adopted).id == cp.id && Restore(cp, adopted).recovered.Yes? && Restore(cp, adopted).closed.No?
  {}

  lemma RegisterHandles(s: Sys, task: nat)
    requires SysOk(s) && task in s.recoveries && s.recoveries[task].Confirming?
    requires s.w.checkpoint == Some(s.recoveries[task].cp)
    ensures Handles(Register(s, task, s.recoveries[task].cp, s.recoveries[task].adopted))
  {
    var cp := s.recoveries[task].cp;
    var w := Note(s.w.(lock := Some(Handle(cp.id))), Recovered(cp.id, cp.uploaded));
    assert s.w.lock == Some(Recovering(task))
      && cp.id in s.w.history.ids by { hide Fits, WorldOk, Handles, Owned, Standing, Logged; }
    hide Fits, WorldOk, Owned, Standing, LockOk, RecoveriesOk, Logged, Handles, Harmless, Restore, Lawful;
    RestoredFits(s.w, cp, s.recoveries[task].adopted);
    RestoreId(cp, s.recoveries[task].adopted);
    forall u | u in s.txs && u != cp.id ensures Harmless(u, s.w, w) { RegisterHarmless(s.w, cp, u); }
    AddHandles(s, cp.id, Restore(cp, s.recoveries[task].adopted), w, s.recoveries - {task});
  }

  lemma RegisterWorld(w: World, cp: Checkpoint)
    requires WorldOk(w) && Owned(w.history) && Standing(w) && Logged(w.history)
    requires w.checkpoint == Some(cp) && cp.id in w.history.ids
    ensures var w' := Note(w.(lock := Some(Handle(cp.id))), Recovered(cp.id, cp.uploaded));
            WorldOk(w') && Owned(w'.history) && Standing(w') && Logged(w'.history)
  {
    hide Logged;
    RecordLogged(w.history, Recovered(cp.id, cp.uploaded));
  }

  lemma RegisterRest(s: Sys, task: nat)
    requires SysOk(s) && task in s.recoveries && s.recoveries[task].Confirming?
    requires s.w.checkpoint == Some(s.recoveries[task].cp)
    ensures var s' := Register(s, task, s.recoveries[task].cp, s.recoveries[task].adopted);
            WorldOk(s'.w) && Owned(s'.w.history) && Standing(s'.w) && Logged(s'.w.history)
  {
    hide Fits, Logged, Restore, Handles, WorldOk, Owned, Standing, LockOk;
    RegisterWorld(s.w, s.recoveries[task].cp);
  }

  lemma RegisterLock(s: Sys, task: nat)
    requires SysOk(s) && task in s.recoveries && s.recoveries[task].Confirming?
    ensures var s' := Register(s, task, s.recoveries[task].cp, s.recoveries[task].adopted);
        LockOk(s') && RecoveriesOk(s')
  {
    var cp := s.recoveries[task].cp;
    RestoreId(cp, s.recoveries[task].adopted);
    assert s.w.lock == Some(Recovering(task));
    hide Fits, Logged, Restore, Handles, WorldOk, Owned, Standing, Lawful;
  }

  lemma RegisterOk(s: Sys, task: nat)
    requires SysOk(s) && task in s.recoveries && s.recoveries[task].Confirming?
    requires s.w.checkpoint == Some(s.recoveries[task].cp)
    ensures SysOk(Register(s, task, s.recoveries[task].cp, s.recoveries[task].adopted))
  {
    hide Fits, Handles, WorldOk, Owned, Standing, LockOk, RecoveriesOk, Logged, Register;
    RegisterHandles(s, task);
    RegisterRest(s, task);
    RegisterLock(s, task);
  }

  lemma RecoverReturnOk(s: Sys, task: nat, r: Reply)
    requires SysOk(s)
    ensures SysOk(Step(s, RecoverReturn(task, r)))
  {
    hide SysOk, Register, DropRecovery;
    if task in s.recoveries {
      if !r.kind.Ok? { DropOk(s, task); }
      else {
        match s.recoveries[task]
        case Waiting(cp) => if s.w.lock.None? { AcquireOk(s, task); }
        case ReadingSource(cp) => ReadOk(s, task, s.w.remote == cp.proposed);
        case Confirming(cp, adopted) => if s.w.checkpoint == Some(cp) { RegisterOk(s, task); } else { DropOk(s, task); }
      }
    }
  }

  // ------------------------------------------------------------------ every run

  lemma StepOk(s: Sys, e: Event)
    requires SysOk(s)
    ensures SysOk(Step(s, e))
  {
    hide SysOk, Step;
    match e
    case ForeignEdit(content) => EditOk(s, content);
    case Preview(id, source, proposed, purpose) => PreviewOk(s, id, source, proposed, purpose);
    case Call(id, op) => CallOk(s, id, op);
    case Return(id, r) => ReturnOk(s, id, r);
    case PreviewReturn(id, r) => PreviewReturnOk(s, id, r);
    case Expiry(id) => ExpiryOk(s, id);
    case Cleanup(id) => CleanupOk(s, id);
    case Recover(task) => RecoverOk(s, task);
    case RecoverReturn(task, r) => RecoverReturnOk(s, task, r);
    case Crash => CrashOk(s);
  }

  /** Every run, whatever third parties, callers, the network and crashes do. */
  lemma {:induction false} RunOk(remote: Yaml, events: seq<Event>)
    ensures SysOk(Run(remote, events))
  {
    if events == [] {
    } else {
      RunOk(remote, events[..|events| - 1]);
      StepOk(Run(remote, events[..|events| - 1]), events[|events| - 1]);
    }
  }
}
