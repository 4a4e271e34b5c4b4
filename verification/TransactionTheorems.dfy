/** What every run of the transaction protocol guarantees. The first group reads the
    guarantees off the log of the run, entry by entry; the second states them about the
    handles that a run can reach. */
module TransactionTheorems {
  import opened Common
  import opened TransactionModel
  import opened TransactionLaws
  import opened TransactionSteps
  import opened TransactionInstall
  import opened TransactionFrame
  import opened TransactionRuns

  // -------------------------------------------------------------- reading the log

  lemma {:induction false} ReplaySeen(log: seq<Effect>)
    ensures Replay(log).log == log && forall e :: e in Replay(log).seen <==> e in log
  {
    hide Lawful;
    if log != [] {
      var n := |log| - 1;
      ReplaySeen(log[..n]);
      assert log == log[..n] + [log[n]];
    }
  }

  lemma {:induction false} ReplayWrote(log: seq<Effect>, id: Id)
    ensures id in Replay(log).wrote <==> exists i :: 0 <= i < |log| && log[i].Wrote? && log[i].id == id
  {
    hide Lawful;
    if log != [] {
      var n := |log| - 1;
      ReplayWrote(log[..n], id);
      if i :| 0 <= i < n && log[..n][i].Wrote? && log[..n][i].id == id { assert log[i].Wrote?; }
      if i :| 0 <= i < |log| && log[i].Wrote? && log[i].id == id { assert i < n ==> log[..n][i].Wrote?; }
    }
  }

  lemma {:induction false} ReplayDispatched(log: seq<Effect>, id: Id)
    ensures id in Replay(log).dispatched <==> exists i :: 0 <= i < |log| && log[i].Dispatched? && log[i].id == id
  {
    hide Lawful;
    if log != [] {
      var n := |log| - 1;
      ReplayDispatched(log[..n], id);
      if i :| 0 <= i < n && log[..n][i].Dispatched? && log[..n][i].id == id { assert log[i].Dispatched?; }
      if i :| 0 <= i < |log| && log[i].Dispatched? && log[i].id == id { assert i < n ==> log[..n][i].Dispatched?; }
    }
  }

  /** The book-keeping of a history means what its names say. */
  lemma ReplayMeans(log: seq<Effect>)
    ensures Replay(log).log == log
    ensures forall e :: e in Replay(log).seen <==> e in log
    ensures forall id :: id in Replay(log).wrote <==> exists i :: 0 <= i < |log| && log[i].Wrote? && log[i].id == id
    ensures forall id ::
        id in Replay(log).dispatched <==> exists i :: 0 <= i < |log| && log[i].Dispatched? && log[i].id == id
  {
    hide Replay;
    ReplaySeen(log);
    forall id: Id ensures id in Replay(log).wrote <==> exists i :: 0 <= i < |log| && log[i].Wrote? && log[i].id == id {
      ReplayWrote(log, id);
    }
    forall id: Id ensures id in Replay(log).dispatched
      <==> exists i :: 0 <= i < |log| && log[i].Dispatched? && log[i].id == id {
      ReplayDispatched(log, id);
    }
  }

  function Edits(log: seq<Effect>): nat {
    if log == [] then 0 else Edits(log[..|log| - 1]) + if log[|log| - 1].Edited? then 1 else 0
  }

  /** Writes, restores and edits decide what the file holds and whose proposal stands. */
  predicate Replaces(e: Effect) { e.Wrote? || e.Restored? || e.Edited? }

  predicate LastChange(log: seq<Effect>, m: int) {
    0 <= m < |log| && Replaces(log[m]) && forall k :: m < k < |log| ==> !Replaces(log[k])
  }

  lemma {:induction false} EditsCounted(log: seq<Effect>)
    ensures Replay(log).edits == Edits(log)
  {
    hide Lawful;
    if log != [] { EditsCounted(log[..|log| - 1]); }
  }

  /** The file holds what its last change left, and a write or restore settles the edits so far. */
  lemma {:induction false} ShownMeans(log: seq<Effect>, m: int)
    requires LastChange(log, m)
    ensures Replay(log).shown == Some(log[m].content) && Replay(log).edits == Edits(log)
    ensures if log[m].Edited? then Edits(log[..m]) + 1 == Edits(log) else Replay(log).settled == Edits(log)
  {
    hide Lawful;
    var n := |log| - 1;
    EditsCounted(log[..n]);
    if m < n {
      assert log == log[..n] + [log[n]];
      ShownMeans(log[..n], m);
      assert log[..n][..m] == log[..m];
    }
  }

  lemma {:induction false} ShownChanged(log: seq<Effect>)
    requires Replay(log).shown.Some?
    ensures exists m :: LastChange(log, m)
  {
    hide Lawful;
    var n := |log| - 1;
    if Replaces(log[n]) { assert LastChange(log, n); }
    else {
      ShownChanged(log[..n]);
      var m :| LastChange(log[..n], m);
      assert log == log[..n] + [log[n]];
      assert LastChange(log, m);
    }
  }

  /** A proposal stands when its write was the last thing to happen to the file. */
  lemma {:induction false} StandingMeans(log: seq<Effect>, id: Id)
    ensures Replay(log).standing == Some(id) <==>
            exists i :: 0 <= i < |log| && log[i].Wrote? && log[i].id == id && forall k ::
              i < k < |log| ==> !Replaces(log[k])
  {
    if log != [] {
      var n := |log| - 1;
      StandingMeans(log[..n], id);
      assert log == log[..n] + [log[n]];
      hide Lawful;
      if Replay(log).standing == Some(id) && !log[n].Wrote? {
        var i :| 0 <= i < n && log[..n][i].Wrote? && log[..n][i].id == id && forall k ::
          i < k < n ==> !Replaces(log[..n][k]);
        assert forall k :: i < k < |log| ==> !Replaces(log[k]);
      }
      if i :| 0 <= i < |log| && log[i].Wrote? && log[i].id == id && forall k :: i < k < |log| ==> !Replaces(log[k]) {
        if i < n { assert log[..n][i].Wrote? && forall k :: i < k < n ==> !Replaces(log[..n][k]); }
      }
    }
  }

  /** Saves and removals decide whose record is durable. */
  predicate Stores(e: Effect) { e.Saved? || e.Cleared? || e.ClearedSilently? }

  /** The last change of the store is a save of this handle. */
  predicate RecordStored(log: seq<Effect>, id: Id) {
    exists i :: 0 <= i < |log| && log[i].Saved? && log[i].id == id && forall k :: i < k < |log| ==> !Stores(log[k])
  }

  lemma {:induction false} DurableMeans(log: seq<Effect>, id: Id)
    ensures Replay(log).durable == Some(id) <==> RecordStored(log, id)
  {
    if log != [] {
      var n := |log| - 1;
      DurableMeans(log[..n], id);
      assert log == log[..n] + [log[n]];
      hide Lawful;
      if Replay(log).durable == Some(id) && !log[n].Saved? {
        var i :| 0 <= i < n && log[..n][i].Saved? && log[..n][i].id == id && forall k ::
          i < k < n ==> !Stores(log[..n][k]);
        assert forall k :: i < k < |log| ==> !Stores(log[k]);
      }
      if i :| 0 <= i < |log| && log[i].Saved? && log[i].id == id && forall k :: i < k < |log| ==> !Stores(log[k]) {
        if i < n { assert log[..n][i].Saved? && forall k :: i < k < n ==> !Stores(log[..n][k]); }
      }
    }
  }

  lemma {:induction false} LawfulThen(log: seq<Effect>, i: nat)
    requires Replay(log).lawful && i < |log|
    ensures Lawful(Replay(log[..i]), log[i])
  {
    hide Lawful;
    if i < |log| - 1 {
      LawfulThen(log[..|log| - 1], i);
      assert log[..|log| - 1][..i] == log[..i];
    }
  }

  /** Some run leads here. */
  ghost predicate Reachable(s: Sys) {
    exists remote, events :: s == Run(remote, events)
  }

  lemma ReachableOk(s: Sys)
    requires Reachable(s)
    ensures SysOk(s)
  {
    hide SysOk;
    var remote, events :| s == Run(remote, events);
    RunOk(remote, events);
  }

  function Log(s: Sys): seq<Effect> { s.w.history.log }

  /** Every entry of the log of every run was lawful when it was made. */
  lemma Entry(s: Sys, i: nat)
    requires Reachable(s) && i < |Log(s)|
    ensures Lawful(Replay(Log(s)[..i]), Log(s)[i])
  {
    ReachableOk(s);
    hide Reachable, Lawful, Replay, Handles, Owned, Standing, LockOk, RecoveriesOk;
    LawfulThen(Log(s), i);
  }

  lemma ClearLaw(h: History, e: Effect)
    requires Lawful(h, e) && (e.Cleared? || e.ClearedSilently?)
    ensures h.durable == None || h.durable == Some(e.id)
  {}

  predicate SavesFor(e: Effect, id: Id) { e.Saved? && e.id == id }

  /** A removal of this handle's own record, or the save of another's in its place. */
  predicate Loses(e: Effect, id: Id) {
    e == Cleared(id) || e == ClearedSilently(id) || (e.Saved? && e.id != id)
  }

  lemma {:induction false} NothingLost(log: seq<Effect>, id: Id, i: nat)
    requires i <= |log| && RecordStored(log[..i], id) && forall k :: i <= k < |log| ==> !Stores(log[k])
    ensures RecordStored(log, id)
  {
    var n :| 0 <= n < i && log[..i][n].Saved? && log[..i][n].id == id && forall k :: n < k < i ==> !Stores(log[..i][k]);
    assert log[n].Saved?;
    forall k | n < k < |log| ensures !Stores(log[k]) { if k < i { assert log[..i][k] == log[k]; } }
  }

  lemma FirstStore(log: seq<Effect>, i: nat) returns (k: nat)
    requires i <= |log|
    ensures i <= k <= |log| && (k < |log| ==> Stores(log[k])) && forall n :: i <= n < k ==> !Stores(log[n])
  {
    k := i;
    while k < |log| && !Stores(log[k])
      invariant i <= k <= |log| && forall n :: i <= n < k ==> !Stores(log[n])
    {
      k := k + 1;
    }
  }

  lemma LastSave(log: seq<Effect>, id: Id, i: nat) returns (n: nat)
    requires i <= |log| && RecordStored(log[..i], id)
    ensures n <= |log| && i <= n && RecordStored(log[..n], id) && forall k :: n <= k < |log| ==> !SavesFor(log[k], id)
  {
    n := |log|;
    while n > i && !SavesFor(log[n - 1], id)
      invariant i <= n <= |log| && forall k :: n <= k < |log| ==> !SavesFor(log[k], id)
    {
      n := n - 1;
    }
    if n > i {
      var front := log[..n];
      assert front[n - 1].Saved? && front[n - 1].id == id;
    }
  }

  /** A stored record is gone, crashes and expiries in between or not, exactly if it was
      removed on behalf of its own handle, or displaced by the save of another one, and not
      saved again since. */
  lemma RecordLost(s: Sys, id: Id, i: nat)
    requires Reachable(s) && i <= |Log(s)| && RecordStored(Log(s)[..i], id)
    ensures !RecordStored(Log(s), id) <==>
            exists k :: i <= k < |Log(s)| && Loses(Log(s)[k], id)
                        && forall m :: k < m < |Log(s)| ==> !SavesFor(Log(s)[m], id)
  {
    hide Reachable, Replay, Lawful;
    var log := Log(s);
    if !RecordStored(log, id) {
      var n := LastSave(log, id, i);
      var k := FirstStore(log, n);
      if k == |log| { NothingLost(log, id, n); }
      assert log[..k][..n] == log[..n];
      NothingLost(log[..k], id, n);
      DurableMeans(log[..k], id);
      Entry(s, k);
      if !log[k].Saved? { ClearLaw(Replay(log[..k]), log[k]); }
      assert Loses(log[k], id);
    }
  }

  lemma NotLost(e: Effect, id: Id)
    requires e.Dispatched?
    ensures !Loses(e, id)
  {}

  lemma DispatchLaw(h: History, e: Effect)
    requires Lawful(h, e)
    ensures e.Dispatched? ==> e.found == e.proposed && Opened(e.id, e.source, e.proposed) in h.seen
    ensures e.Dispatched? ==> Saved(e.id, false) in h.seen && Saved(e.id, true) !in h.seen
    ensures e.Dispatched? ==> (h.durable == Some(e.id) <==> ClearedSilently(e.id) !in h.seen)
    ensures e.Saved? ==> Revoked(e.id) in h.seen
    ensures e.Revoked? ==> FirmwareBuilt(e.id) in h.seen
    ensures e.FirmwareBuilt? ==> ConfigValid(e.id) in h.seen
    ensures e.ConfigValid? ==> e.id in h.wrote
  {}

  /** The record of a dispatched install, with or without its handle: at the dispatch it is
      stored unless a removal took effect behind an error, and from then on it is lost exactly
      by a removal of its own or by the save of another install. */
  lemma DispatchedRecord(s: Sys, i: nat)
    requires Reachable(s)
    requires i < |Log(s)| && Log(s)[i].Dispatched? && ClearedSilently(Log(s)[i].id) !in Log(s)[..i]
    ensures var log := Log(s);
            var id := log[i].id;
            !RecordStored(log, id) <==>
            exists k :: i < k < |log| && Loses(log[k], id) && forall m :: k < m < |log| ==> !SavesFor(log[m], id)
  {
    hide Reachable, Replay, Lawful, Loses, SavesFor, Stores, RecordStored;
    var log := Log(s);
    Entry(s, i);
    DispatchLaw(Replay(log[..i]), log[i]);
    ReplayMeans(log[..i]);
    DurableMeans(log[..i], log[i].id);
    RecordLost(s, log[i].id, i);
    NotLost(log[i], log[i].id);
  }

  lemma RecoveryLaw(h: History, e: Effect)
    requires Lawful(h, e)
    ensures e.Recovered? ==> Saved(e.id, e.uploaded) in h.seen && (e.uploaded ==> Acknowledged(e.id) in h.seen)
    ensures e.Acknowledged? ==> e.id in h.dispatched
  {}

  // ------------------------------------------------------- what the log of a run says

  lemma WriteLaw(h: History, e: Effect)
    requires Lawful(h, e) && (e.Wrote? || e.Restored?)
    ensures Finds(h, e.expected, e.found, e.since)
    ensures e.Wrote? ==> Opened(e.id, e.expected, e.content) in h.seen
    ensures e.Restored? ==> Opened(e.id, e.content, e.expected) in h.seen
  {}

  /** The edit at `j` came after the compare of the write or restore at `i`, left something
      else than that compare expects, and was the last to touch the file before it. */
  predicate Overwritten(log: seq<Effect>, i: nat, j: int)
    requires i < |log| && (log[i].Wrote? || log[i].Restored?)
  {
    && 0 <= j < i && log[j].Edited? && log[i].since <= Edits(log[..j]) && log[j].content != log[i].expected
    && forall k :: j < k < i ==> !Replaces(log[k])
  }

  /** Third-party edits survive: a write replaces exactly the reviewed source and a restore
      exactly the proposal of the same handle, unless the last change of the file is an edit
      to something else that came after the compare; then it replaces that edit. */
  lemma EditsSurvive(s: Sys, i: nat)
    requires Reachable(s)
    requires i < |Log(s)| && (Log(s)[i].Wrote? || Log(s)[i].Restored?)
    ensures var log := Log(s);
            var e := log[i];
            && (e.Wrote? ==> Opened(e.id, e.expected, e.content) in log[..i])
            && (e.Restored? ==> Opened(e.id, e.content, e.expected) in log[..i])
            && (e.found != e.expected <==> exists j :: Overwritten(log, i, j))
            && (forall j :: Overwritten(log, i, j) ==> e.found == log[j].content)
            && (forall m :: LastChange(log[..i], m) ==> e.found == log[m].content)
  {
    hide Reachable, Replay, Lawful;
    var log := Log(s);
    var e := log[i];
    Entry(s, i);
    WriteLaw(Replay(log[..i]), e);
    ReplayMeans(log[..i]);
    EditsCounted(log[..i]);
    forall m | LastChange(log[..i], m) ensures e.found == log[m].content { ShownMeans(log[..i], m); }
    forall j | Overwritten(log, i, j) ensures e.found == log[j].content && e.found != e.expected {
      assert LastChange(log[..i], j);
      ShownMeans(log[..i], j);
      assert log[..i][..j] == log[..j];
    }
    if e.found != e.expected {
      ShownChanged(log[..i]);
      var j :| LastChange(log[..i], j);
      ShownMeans(log[..i], j);
      assert log[..i][..j] == log[..j];
      assert Overwritten(log, i, j);
    }
  }

  lemma SameOpening(s: Sys, id: Id, source: Yaml, proposed: Yaml, source': Yaml, proposed': Yaml)
    requires Reachable(s)
    requires Opened(id, source, proposed) in Log(s) && Opened(id, source', proposed') in Log(s)
    ensures source == source' && proposed == proposed'
  {
    hide Reachable, Replay, Handles, Standing, LockOk, RecoveriesOk, WorldOk;
    ReachableOk(s);
    ReplayMeans(Log(s));
  }

  lemma RestoredOpened(s: Sys, i: nat)
    requires Reachable(s) && i < |Log(s)| && Log(s)[i].Restored?
    ensures Opened(Log(s)[i].id, Log(s)[i].content, Log(s)[i].expected) in Log(s)
    ensures Finds(Replay(Log(s)[..i]), Log(s)[i].expected, Log(s)[i].found, Log(s)[i].since)
  {
    hide Reachable, Replay, Lawful, Finds;
    Entry(s, i);
    WriteLaw(Replay(Log(s)[..i]), Log(s)[i]);
    ReplayMeans(Log(s)[..i]);
  }

  /** A restore that took effect is not applied again: unless the proposal is the original, a
      second restore of a handle comes only after something else changed the file. */
  lemma RestoredAgain(s: Sys, i: nat, j: nat)
    requires Reachable(s)
    requires i < j < |Log(s)| && Log(s)[i].Restored? && Log(s)[j].Restored? && Log(s)[i].id == Log(s)[j].id
    requires Log(s)[i].expected != Log(s)[i].content
    ensures exists k :: i < k < j && Replaces(Log(s)[k])
  {
    hide Reachable, Replay, Lawful;
    var log := Log(s);
    RestoredOpened(s, i);
    RestoredOpened(s, j);
    SameOpening(s, log[i].id, log[i].content, log[i].expected, log[j].content, log[j].expected);
    if forall k :: i < k < j ==> !Replaces(log[k]) {
      assert LastChange(log[..j], i);
      ShownMeans(log[..j], i);
    }
  }

  /** A restore is confirmed at most once, and after the write of its handle if there is one. */
  lemma ConfirmedOnce(s: Sys, i: nat, j: nat)
    requires Reachable(s)
    requires i < j < |Log(s)| && Log(s)[i].RestoreConfirmed? && (Log(s)[j].RestoreConfirmed? || Log(s)[j].Wrote?)
    ensures Log(s)[i].id != Log(s)[j].id
  {
    hide Reachable, Replay;
    var log := Log(s);
    Entry(s, j);
    ReplayMeans(log[..j]);
    assert log[..j][i] == log[i];
  }

  /** A handle writes its proposal once, before any dispatch of its own. */
  lemma WritesOnce(s: Sys, i: nat, j: nat)
    requires Reachable(s)
    requires i < j < |Log(s)| && Log(s)[j].Wrote?
    requires Log(s)[i].Wrote? || Log(s)[i].Dispatched?
    ensures Log(s)[i].id != Log(s)[j].id
  {
    hide Reachable, Replay;
    var log := Log(s);
    Entry(s, j);
    ReplayMeans(log[..j]);
    assert log[..j][i] == log[i];
  }

  /** No restore after a dispatch, after a recovery or after a confirmed restore. */
  lemma RestoresNoMore(s: Sys, i: nat, j: nat)
    requires Reachable(s)
    requires i < j < |Log(s)| && Log(s)[j].Restored?
    requires var e := Log(s)[i]; e.Dispatched? || e.Recovered? || e.RestoreConfirmed?
    ensures Log(s)[i].id != Log(s)[j].id
  {
    hide Reachable, Replay;
    var log := Log(s);
    Entry(s, j);
    ReplayMeans(log[..j]);
    assert log[..j][i] == log[i];
    assert log[i].Recovered? ==> log[i].uploaded == true || log[i].uploaded == false;
  }

  lemma Prerequisite(s: Sys, n: nat, e: Effect) returns (m: nat)
    requires Reachable(s) && n < |Log(s)|
    requires match Log(s)[n]
             case Saved(id, _) => e == Revoked(id)
             case Revoked(id) => e == FirmwareBuilt(id)
             case FirmwareBuilt(id) => e == ConfigValid(id)
             case Dispatched(id, _, _, _) => e == Saved(id, false)
             case _ => false
    ensures m < n && Log(s)[m] == e
  {
    hide Reachable, Replay, Lawful;
    var log := Log(s);
    Entry(s, n);
    DispatchLaw(Replay(log[..n]), log[n]);
    ReplayMeans(log[..n]);
    m :| 0 <= m < n && log[..n][m] == e;
  }

  /** Before a save came, in this order: the write of the handle, its validation, the
      compilation and the revocation of the installed calibration. */
  lemma SavePrerequisites(s: Sys, n: nat) returns (w: nat, v: nat, b: nat, r: nat)
    requires Reachable(s)
    requires n < |Log(s)| && Log(s)[n].Saved?
    ensures w < v < b < r < n && Log(s)[w].Wrote?
    ensures var id := Log(s)[n].id;
            && Log(s)[w].id == id && Log(s)[v] == ConfigValid(id) && Log(s)[b] == FirmwareBuilt(id)
              && Log(s)[r] == Revoked(id)
  {
    hide Reachable, Replay, Lawful;
    var log := Log(s);
    var id := log[n].id;
    r := Prerequisite(s, n, Revoked(id));
    b := Prerequisite(s, r, FirmwareBuilt(id));
    v := Prerequisite(s, b, ConfigValid(id));
    Entry(s, v);
    DispatchLaw(Replay(log[..v]), log[v]);
    ReplayMeans(log[..v]);
    w :| 0 <= w < v && log[..v][w].Wrote? && log[..v][w].id == id;
  }

  /** Write, validation, compilation, revocation and save of one handle, in this order. */
  predicate Prepared(log: seq<Effect>, id: Id, content: Yaml, w: int, v: int, b: int, r: int, n: int) {
    && 0 <= w < v < b < r < n < |log| && log[w].Wrote? && log[w].id == id && log[w].content == content
    && log[v] == ConfigValid(id) && log[b] == FirmwareBuilt(id) && log[r] == Revoked(id) && log[n] == Saved(id, false)
  }

  lemma WrittenOpened(s: Sys, w: nat)
    requires Reachable(s) && w < |Log(s)| && Log(s)[w].Wrote?
    ensures Opened(Log(s)[w].id, Log(s)[w].expected, Log(s)[w].content) in Log(s)
  {
    hide Reachable, Replay, Lawful;
    Entry(s, w);
    WriteLaw(Replay(Log(s)[..w]), Log(s)[w]);
    ReplayMeans(Log(s)[..w]);
  }

  /** An OTA dispatch comes after the write of its proposal, its validation, its compilation,
      the revocation and the save of the durable record, in this order, finds exactly the
      proposal in the file, and has its record in the store exactly if no removal took
      effect behind an error. */
  lemma DispatchPrerequisites(s: Sys, i: nat)
    requires Reachable(s)
    requires i < |Log(s)| && Log(s)[i].Dispatched?
    ensures var log := Log(s);
            var e := log[i];
            && e.found == e.proposed && Opened(e.id, e.source, e.proposed) in log[..i]
            && (exists w, v, b, r, n :: Prepared(log[..i], e.id, e.proposed, w, v, b, r, n))
            && (ClearedSilently(e.id) !in log[..i] <==> RecordStored(log[..i], e.id))
  {
    hide Reachable, Replay, Lawful;
    var log := Log(s);
    var e := log[i];
    var n := Prerequisite(s, i, Saved(e.id, false));
    var w, v, b, r := SavePrerequisites(s, n);
    Entry(s, i);
    DispatchLaw(Replay(log[..i]), e);
    WrittenOpened(s, w);
    DurableMeans(log[..i], e.id);
    ReplayMeans(log[..i]);
    SameOpening(s, e.id, e.source, e.proposed, log[w].expected, log[w].content);
    assert Prepared(log[..i], e.id, e.proposed, w, v, b, r, n);
  }

  /** Once an acknowledged upload was made durable, nothing is uploaded again. */
  lemma UploadsNoMore(s: Sys, i: nat, j: nat)
    requires Reachable(s)
    requires i < j < |Log(s)| && Log(s)[j].Dispatched?
    ensures Log(s)[i] != Saved(Log(s)[j].id, true)
  {
    hide Reachable, Replay, Lawful;
    var log := Log(s);
    Entry(s, j);
    DispatchLaw(Replay(log[..j]), log[j]);
    ReplayMeans(log[..j]);
    assert log[..j][i] == log[i];
  }

  /** An upload is acknowledged only after it was dispatched. */
  lemma AcknowledgedAfter(s: Sys, a: nat)
    requires Reachable(s) && a < |Log(s)| && Log(s)[a].Acknowledged?
    ensures exists d :: 0 <= d < a && Log(s)[d].Dispatched? && Log(s)[d].id == Log(s)[a].id
  {
    hide Reachable, Replay, Lawful;
    var log := Log(s);
    Entry(s, a);
    RecoveryLaw(Replay(log[..a]), log[a]);
    ReplayMeans(log[..a]);
    var d :| 0 <= d < a && log[..a][d].Dispatched? && log[..a][d].id == log[a].id;
    assert log[d] == log[..a][d];
  }

  /** A recovery restores what was saved; it claims an upload only if one was acknowledged
      after a dispatch. */
  lemma RecoveryIsTrue(s: Sys, i: nat)
    requires Reachable(s)
    requires i < |Log(s)| && Log(s)[i].Recovered?
    ensures var log := Log(s);
            var e := log[i];
            && Saved(e.id, e.uploaded) in log[..i]
            && (e.uploaded ==> exists d, a ::
              0 <= d < a < i && log[d].Dispatched? && log[d].id == e.id && log[a] == Acknowledged(e.id))
  {
    hide Reachable, Replay, Lawful;
    var log := Log(s);
    Entry(s, i);
    RecoveryLaw(Replay(log[..i]), log[i]);
    ReplayMeans(log[..i]);
    if log[i].uploaded {
      var a :| 0 <= a < i && log[..i][a] == Acknowledged(log[i].id);
      AcknowledgedAfter(s, a);
      var d :| 0 <= d < a && log[d].Dispatched? && log[d].id == log[a].id;
      assert log[a] == Acknowledged(log[i].id);
    }
  }

  lemma ReleaseLaw(h: History, id: Id)
    requires Lawful(h, Released(id))
    ensures h.standing != Some(id) && (id in h.wrote ==> RestoreConfirmed(id) in h.seen)
  {}

  /** The calibration reservation of a handle that wrote its proposal is released only after a
      restore of that handle was confirmed, and so after the file changed again. */
  lemma ReleaseDiscipline(s: Sys, i: nat, j: nat)
    requires Reachable(s)
    requires i < j < |Log(s)| && Log(s)[i].Wrote?
    requires Log(s)[j] == Released(Log(s)[i].id)
    ensures exists k :: i < k < j && Log(s)[k] == RestoreConfirmed(Log(s)[i].id)
    ensures exists k :: i < k < j && Replaces(Log(s)[k])
  {
    hide Reachable, Replay, Lawful;
    var log := Log(s);
    var id := log[i].id;
    Entry(s, j);
    ReleaseLaw(Replay(log[..j]), id);
    ReplayMeans(log[..j]);
    StandingMeans(log[..j], id);
    assert log[..j][i] == log[i];
    var k :| 0 <= k < j && log[..j][k] == RestoreConfirmed(id);
    if k < i { ConfirmedOnce(s, k, i); }
    assert exists k :: i < k < j && Replaces(log[..j][k]);
  }

  lemma ConfirmedLaw(h: History, id: Id)
    requires Lawful(h, RestoreConfirmed(id))
    ensures Original(h, id)
  {}

  /** A confirmed restore has seen the original: what the last change of the file left is what
      the handle was previewed from. */
  lemma ConfirmedOriginal(s: Sys, i: nat, source: Yaml, proposed: Yaml, m: int)
    requires Reachable(s) && i < |Log(s)| && Log(s)[i].RestoreConfirmed?
    requires Opened(Log(s)[i].id, source, proposed) in Log(s) && LastChange(Log(s)[..i], m)
    ensures Log(s)[m].content == source
  {
    hide Reachable, Replay, Lawful;
    var log := Log(s);
    Entry(s, i);
    ConfirmedLaw(Replay(log[..i]), log[i].id);
    ReplayMeans(log[..i]);
    ShownMeans(log[..i], m);
    var e :| e in log[..i] && e.Opened? && e.id == log[i].id && log[m].content == e.source;
    SameOpening(s, e.id, e.source, e.proposed, source, proposed);
  }

  lemma NoRefusal(h: History, e: Effect)
    requires Lawful(h, e)
    ensures !e.RollbackRefused?
  {}

  /** The two refusals at the head of the rollback are never reached. */
  lemma RollbackNeverRefused(s: Sys)
    requires Reachable(s)
    ensures forall i :: 0 <= i < |Log(s)| ==> !Log(s)[i].RollbackRefused?
  {
    hide *;
    forall i | 0 <= i < |Log(s)| ensures !Log(s)[i].RollbackRefused? {
      Entry(s, i);
      NoRefusal(Replay(Log(s)[..i]), Log(s)[i]);
    }
  }

  // -------------------------------------------------- what holds of reachable handles

  lemma HandleFits(s: Sys, id: Id)
    requires Reachable(s)
    requires id in s.txs
    ensures SysOk(s) && s.txs[id].id == id && Fits(s.txs[id], s.w)
  {
    ReachableOk(s);
    hide Reachable, Fits, WorldOk, Owned, Standing, LockOk, RecoveriesOk, Logged;
  }

  /** `progress` is a run of the canonical path, from `OtaAttempted` on a recovered handle,
      from the start otherwise; `ConfigRestored` may follow before any attempt; only a
      handle with nothing to change ends with `MetadataPersisted` alone. */
  lemma ProgressShape(s: Sys, id: Id)
    requires Reachable(s)
    requires id in s.txs
    ensures var t := s.txs[id];
            || (t.closed.Yes? && t.recovered.No? && t.progress == [MetadataPersisted])
            || exists base, level ::
                 && base == (if t.recovered.Yes? then 3 else 0) && base <= level <= 7
                   && (t.recovered.Yes? ==> 4 <= level)
                 && (t.progress == Trail(base, level)
                     || (t.recovered.No? && level <= 3 && t.progress == Trail(base, level) + [ConfigRestored]))
  {
    HandleFits(s, id);
    hide Reachable, SysOk, Secrets, RollbackAuthority, Belongings, Locks, Staged, Flow, Recorded, Trail;
    var t := s.txs[id];
    if !(t.closed.Yes? && t.recovered.No? && t.progress == [MetadataPersisted]) {
      var base, level := Base(t.recovered), Level(t.recovered, t.progress);
      assert t.progress == Trail(base, level) + (if Undone(t.progress) then [ConfigRestored] else []);
      assert !Undone(t.progress) ==> t.progress == Trail(base, level);
    }
  }

  /** An open handle with an unresolved write holds the meter lock, so there is at most one. */
  lemma MutualExclusion(s: Sys, a: Id, b: Id)
    requires Reachable(s)
    requires a in s.txs && b in s.txs && a != b
    requires var t := s.txs[a]; t.closed.No? && t.writeStarted.Yes?
    ensures s.w.lock == Some(Handle(a)) && s.txs[a].lease.Yes?
    ensures var u := s.txs[b]; u.lease.No? && (u.closed.Yes? || u.writeStarted.No?)
  {
    HandleFits(s, a);
    HandleFits(s, b);
    hide Reachable, SysOk, Secrets, RollbackAuthority, Belongings, Staged, Flow, Recorded, Progressed;
  }

  /** A closed handle holds a lease exactly if the lock was granted to it after it closed,
      which happens to calibrations alone. */
  lemma ClosedLease(s: Sys, id: Id)
    requires Reachable(s)
    requires id in s.txs && s.txs[id].closed.Yes?
    ensures s.txs[id].lease.Yes? <==> LeakedLease(id) in Log(s)
    ensures s.txs[id].purpose.InstallConfiguration? ==> s.txs[id].lease.No?
  {
    HandleFits(s, id);
    hide Reachable, Secrets, RollbackAuthority, Staged, Flow, Recorded, Progressed, Replay;
    ReplayMeans(Log(s));
  }

  /** No half-done close: when a handle is closed while its proposal, different from the
      reviewed source, stands in the file, the firmware was built from that proposal. */
  lemma NoHalfDoneClose(s: Sys, id: Id, i: nat)
    requires Reachable(s)
    requires id in s.txs
    requires var t := s.txs[id]; t.closed.Yes? && t.proposed != t.source
    requires i < |Log(s)| && Log(s)[i].Wrote? && Log(s)[i].id == id
    requires forall k :: i < k < |Log(s)| ==> !Replaces(Log(s)[k])
    ensures FirmwareBuilt(id) in Log(s)
    ensures s.w.remote == s.txs[id].proposed
  {
    HandleFits(s, id);
    hide Reachable, Secrets, RollbackAuthority, Belongings, Staged, Flow, Locks, Progressed, Replay;
    ReplayMeans(Log(s));
    StandingMeans(Log(s), id);
  }

  /** Whatever failed: an open handle that may be rolled back has all that rollback needs. */
  lemma RollbackNeedsMet(s: Sys, id: Id)
    requires Reachable(s)
    requires id in s.txs
    requires var t := s.txs[id]; t.closed.No? && t.rollbackAvailable.Yes?
    ensures var t := s.txs[id];
            t.state.Failed? && t.plan == Some(t.proposed) && t.prior == Some(t.source) && t.recovered.No?
              && OtaAttempted !in t.progress
  {
    HandleFits(s, id);
    hide Reachable, SysOk, Staged, Flow, Locks, Progressed, Recorded;
  }

  lemma AttemptedFacts(c: Cfg)
    requires Good(c) && c.t.closed.No? && OtaAttempted in c.t.progress
    ensures c.t.writeStarted.Yes? && c.t.lease.Yes? && c.t.checkpointSaved.Yes?
  {
    OpenRuns(c);
    hide Shape, Level, WorldOk, Secrets, RollbackAuthority, Belongings;
    Markers(c.t.recovered, c.t.progress);
    if c.t.pending.ReleasingRestored? || c.t.pending.ClearingRolledBack? { RolledBackRuns(c); }
    InstallFacts(c);
  }

  lemma AttemptedSaved(s: Sys, id: Id)
    requires Reachable(s)
    requires id in s.txs
    requires var t := s.txs[id]; t.closed.No? && OtaAttempted in t.progress
    ensures s.txs[id].writeStarted.Yes? && s.txs[id].lease.Yes?
  {
    var c := Cfg(s.txs[id], s.w);
    HandleFits(s, id);
    hide Reachable;
    AttemptedFacts(c);
  }

  /** From the first dispatch to the terminal decision the durable record of the install
      exists, as long as no removal takes effect behind an error. */
  lemma DurableWhileAttempted(s: Sys, id: Id)
    requires Reachable(s)
    requires id in s.txs
    requires var t := s.txs[id]; t.closed.No? && OtaAttempted in t.progress
    requires ClearedSilently(id) !in Log(s)
    ensures var t := s.txs[id];
            && s.w.checkpoint.Some? && s.w.checkpoint.value.id == id
            && s.w.checkpoint.value.source == t.source && s.w.checkpoint.value.proposed == t.proposed
            && (s.w.checkpoint.value.uploaded ==> OtaUploaded in t.progress)
  {
    HandleFits(s, id);
    AttemptedSaved(s, id);
    hide Reachable, Secrets, RollbackAuthority, Belongings, Staged, Flow, Progressed, Replay, Level;
    ReplayMeans(Log(s));
  }

  /** A recovered handle has attempted its upload, claims one only if it was acknowledged,
      and has no original to restore. */
  lemma RecoveredHandles(s: Sys, id: Id)
    requires Reachable(s)
    requires id in s.txs && s.txs[id].recovered.Yes?
    ensures var t := s.txs[id];
            && OtaAttempted in t.progress && ConfigRestored !in t.progress
            && (t.prior.Some? ==> t.prior == Some(Empty))
    ensures OtaUploaded in s.txs[id].progress ==> Acknowledged(id) in Log(s)
  {
    HandleFits(s, id);
    Markers(s.txs[id].recovered, s.txs[id].progress);
    hide Reachable, RollbackAuthority, Belongings, Staged, Flow, Replay, Level, Locks;
    ReplayMeans(Log(s));
  }
}
