/** Every sequence of applications leaves, per chip and stage, the last table written; flags of
    chips that a request does not name survive it. */
module OffsetHistories {
  import opened Common
  import opened CalibratedOffsets
  import opened OffsetMerges

  // --------------------------------------------------------------- what a block holds

  predicate SmallAll(fields: Fields) { forall f :: f in fields ==> Small(fields[f]) }

  predicate NoOwners(lines: seq<Line>) { forall i :: 0 <= i < |lines| ==> !lines[i].Owner? }

  /** `rest` is what remains of the lines, and what was read holds no owner. */
  predicate Consumed(lines: seq<Line>, rest: seq<Line>) {
    && |rest| <= |lines| && rest == lines[|lines| - |rest|..]
    && NoOwners(lines[..|lines| - |rest|])
  }

  lemma ConsumedMore(lines: seq<Line>, middle: seq<Line>, rest: seq<Line>)
    requires Consumed(lines, middle) && Consumed(middle, rest)
    ensures Consumed(lines, rest)
  {
    var m, n := |lines| - |middle|, |lines| - |rest|;
    assert forall i :: 0 <= i < |middle| ==> lines[m + i] == middle[i];
    forall i | 0 <= i < n ensures !lines[..n][i].Owner? {
      if i < m { assert lines[..m][i] == lines[i]; } else { assert middle[..|middle| - |rest|][i - m] == lines[i]; }
    }
  }

  lemma ConsumedOne(lines: seq<Line>)
    requires lines != [] && !lines[0].Owner?
    ensures Consumed(lines, lines[1..])
  {}

  lemma {:induction false} ValuesMean(lines: seq<Line>, got: Fields)
    requires ReadValues(lines, got).Some? && SmallAll(got)
    ensures SmallAll(ReadValues(lines, got).value.0) && Consumed(lines, ReadValues(lines, got).value.1)
  {
    if lines == [] || Breaks(lines[0]) {
    } else {
      hide Small, ReadNumeral, Consumed;
      var next := got[lines[0].field := Number(lines[0]).value];
      ValuesMean(lines[1..], next);
      ConsumedOne(lines);
      ConsumedMore(lines, lines[1..], ReadValues(lines, got).value.1);
    }
  }

  lemma PhaseMeans(lines: seq<Line>, phase: nat)
    requires ReadPhase(lines, phase).Some?
    ensures SmallAll(ReadPhase(lines, phase).value.0) && Consumed(lines, ReadPhase(lines, phase).value.1)
  {
    hide ReadValues, Consumed;
    ValuesMean(lines[1..], map[]);
    ConsumedOne(lines);
    ConsumedMore(lines, lines[1..], ReadPhase(lines, phase).value.1);
  }

  lemma StagesMean(a: Fields, b: Fields, c: Fields)
    requires StagesOf(a, b, c).Some? && SmallAll(a) && SmallAll(b) && SmallAll(c)
    ensures SmallStages(StagesOf(a, b, c).value) && Some1(StagesOf(a, b, c).value)
  {
    hide Small;
    assert a.Keys * b.Keys * c.Keys == a.Keys;
  }

  lemma PhasesMean(lines: seq<Line>)
    requires ReadPhases(lines).Some?
    ensures var read := ReadPhases(lines).value; SmallStages(read.0) && Some1(read.0) && Consumed(lines, read.1)
  {
    hide ReadPhase, StagesOf, SmallAll, SmallStages, Some1, Consumed;
    var a := ReadPhase(lines, 0).value;
    var b := ReadPhase(a.1, 1).value;
    var c := ReadPhase(b.1, 2).value;
    PhaseMeans(lines, 0);
    PhaseMeans(a.1, 1);
    PhaseMeans(b.1, 2);
    StagesMean(a.0, b.0, c.0);
    ConsumedMore(lines, a.1, b.1);
    ConsumedMore(lines, b.1, c.1);
  }

  /** An entry that is read: its owner, good tables, and no second owner in its lines. */
  lemma EntryMeans(lines: seq<Line>, chips: set<Id>)
    requires ReadEntry(lines, chips).Some?
    ensures var read := ReadEntry(lines, chips).value;
            && lines != [] && lines[0] == Owner(read.0) && read.0 in chips && SmallStages(read.1) && Some1(read.1)
            && Consumed(lines[1..], read.2)
  {
    hide ReadPhases, SmallStages, Some1, Consumed;
    if |lines| > 1 && lines[1].Enable? {
      PhasesMean(lines[2..]);
      assert lines[1..][1..] == lines[2..];
      ConsumedOne(lines[1..]);
      ConsumedMore(lines[1..], lines[2..], ReadEntry(lines, chips).value.2);
    } else { PhasesMean(lines[1..]); }
  }

  predicate Owned(lines: seq<Line>, entries: Entries) {
    forall i :: 0 <= i < |lines| && lines[i].Owner? ==> lines[i].id in entries
  }

  predicate GoodEntries(entries: Entries, chips: set<Id>) {
    forall id :: id in entries ==> id in chips && Some1(entries[id]) && SmallStages(entries[id])
  }

  lemma OwnedNone(entries: Entries)
    ensures Owned([], entries)
  {}

  lemma GoodPlus(entries: Entries, chips: set<Id>, id: Id, s: Stages)
    requires GoodEntries(entries, chips) && id in chips && Some1(s) && SmallStages(s)
    ensures GoodEntries(entries[id := s], chips)
  {
    hide Some1, SmallStages;
  }

  lemma OwnedMore(lines: seq<Line>, rest: seq<Line>, all: Entries)
    requires lines != [] && lines[0].Owner? && lines[0].id in all && Consumed(lines[1..], rest) && Owned(rest, all)
    ensures Owned(lines, all)
  {
    var tail := lines[1..];
    var n := |tail| - |rest|;
    forall i | 0 < i <= n ensures !lines[i].Owner? { assert tail[..n][i - 1] == lines[i]; }
    forall i | n < i < |lines| && lines[i].Owner? ensures lines[i].id in all { assert rest[i - 1 - n] == lines[i]; }
  }

  /** Entries that are read are good, and every owner in the lines has one. */
  lemma {:induction false} ReadMeans(lines: seq<Line>, chips: set<Id>, entries: Entries)
    requires ReadAll(lines, chips, entries).Ok? && GoodEntries(entries, chips)
    ensures var all := ReadAll(lines, chips, entries).value;
            GoodEntries(all, chips) && Owned(lines, all) && forall id :: id in entries ==> id in all
    decreases |lines|
  {
    hide ReadEntry, SmallStages, Some1, GoodEntries, Owned;
    if lines != [] {
      var read := ReadEntry(lines, chips).value;
      EntryMeans(lines, chips);
      GoodPlus(entries, chips, read.0, read.1);
      ReadMeans(read.2, chips, entries[read.0 := read.1]);
      var all := ReadAll(lines, chips, entries).value;
      assert read.0 in entries[read.0 := read.1];
      OwnedMore(lines, read.2, all);
    } else { OwnedNone(entries); }
  }

  lemma {:induction false} FlagsOwned(lines: seq<Line>, entries: Entries)
    requires Owned(lines, entries)
    ensures forall id :: id in Flags(lines) ==> id in entries
  {
    if |lines| >= 2 { FlagsOwned(lines[..|lines| - 1], entries); }
  }

  // ------------------------------------------------------------------ one application

  /** Tables to write, and flags to set for some of their chips. */
  datatype Request = Request(rms: map<Id, Table>, power: map<Id, Table>, flags: map<Id, bool>)

  datatype State = State(entries: Entries, flags: map<Id, bool>)

  /** What the block says; nothing, if there is none. */
  function StateOf(block: Option<seq<Line>>, chips: set<Id>): Result<State> {
    if block.None? then Result.Ok(State(map[], map[]))
    else
      var entries := ReadAll(block.value, chips, map[]);
      if entries.Refusal? then Refusal else Result.Ok(State(entries.value, Flags(block.value)))
  }

  function RmsOf(entries: Entries, id: Id): Option<Table> { if id in entries then entries[id].rms else None }

  function PowerOf(entries: Entries, id: Id): Option<Table> { if id in entries then entries[id].power else None }

  function Merged(entries: Entries, r: Request): Entries {
    map id | id in entries.Keys + r.rms.Keys + r.power.Keys ::
      Stages(if id in r.rms then Some(r.rms[id]) else RmsOf(entries, id), if id in r.power then Some(r.power[id])
        else PowerOf(entries, id))
  }

  function Applied(block: Option<seq<Line>>, chips: set<Id>, r: Request): Result<Option<seq<Line>>> {
    if r.rms == map[] && r.power == map[] then Result.Ok(block)
    else if StateOf(block, chips).Refusal? then Refusal
    else
      var state := StateOf(block, chips).value;
      Result.Ok(Some(Rendered(Merged(state.entries, r), state.flags + r.flags, 0)))
  }

  function PutRms(entries: Entries, id: Id, t: Table): Entries {
    entries[id := if id in entries then entries[id].(rms := Some(t)) else Stages(Some(t), None)]
  }

  function PutPower(entries: Entries, id: Id, t: Table): Entries {
    entries[id := if id in entries then entries[id].(power := Some(t)) else Stages(None, Some(t))]
  }

  /** The tables of some chips, one after the other. */
  method PutAll(entries: Entries, tables: map<Id, Table>, rms: bool) returns (all: Entries)
    ensures all == Merged(entries, if rms then Request(tables, map[], map[]) else Request(map[], tables, map[]))
  {
    all := entries;
    var left := tables.Keys;
    while left != {}
      invariant left <= tables.Keys && all.Keys == entries.Keys + (tables.Keys - left)
      invariant forall id :: id in all ==>
                  all[id] == if id !in tables || id in left then entries[id]
                             else if rms then Stages(Some(tables[id]), PowerOf(entries, id))
                               else Stages(RmsOf(entries, id), Some(tables[id]))
    {
      var id :| id in left;
      all := if rms then PutRms(all, id, tables[id]) else PutPower(all, id, tables[id]);
      left := left - {id};
    }
  }

  method Apply(block: Option<seq<Line>>, chips: set<Id>, r: Request) returns (after: Result<Option<seq<Line>>>)
    ensures after == Applied(block, chips, r)
  {
    if r.rms == map[] && r.power == map[] { return Result.Ok(block); }
    var entries: Entries, flags: map<Id, bool> := map[], map[];
    if block.Some? {
      var read := ReadEntries(block.value, chips);
      if read.Refusal? { return Refusal; }
      entries, flags := read.value, Flags(block.value);
    }
    flags := flags + r.flags;
    var one := PutAll(entries, r.rms, true);
    var two := PutAll(one, r.power, false);
    assert two == Merged(entries, r);
    after := Result.Ok(Some(Rendered(two, flags, 0)));
  }

  // ------------------------------------------------------------- what it does

  /** Tables of known chips, in 16 bits, and flags only for chips with a table. */
  predicate Allowed(r: Request, chips: set<Id>) {
    && (forall id :: id in r.rms ==> id in chips && SmallTable(Some(r.rms[id])))
    && (forall id :: id in r.power ==> id in chips && SmallTable(Some(r.power[id])))
    && forall id :: id in r.flags ==> id in r.rms || id in r.power
  }

  predicate Chips(chips: set<Id>) { forall id :: id in chips ==> id < CHIPS }

  /** A state that a block can be in. */
  predicate Consistent(state: State, chips: set<Id>) {
    GoodEntries(state.entries, chips) && forall id :: id in state.flags ==> id in state.entries
  }

  lemma StateConsistent(block: Option<seq<Line>>, chips: set<Id>)
    requires StateOf(block, chips).Ok?
    ensures Consistent(StateOf(block, chips).value, chips)
  {
    hide ReadAll, Flags, SmallStages, Some1;
    if block.Some? {
      ReadMeans(block.value, chips, map[]);
      FlagsOwned(block.value, ReadAll(block.value, chips, map[]).value);
    }
  }

  lemma RenderedState(state: State, chips: set<Id>)
    requires Consistent(state, chips) && Chips(chips)
    ensures StateOf(Some(Rendered(state.entries, state.flags, 0)), chips) == Result.Ok(state)
  {
    hide Rendered, ReadAll, Flags, SmallStages, Some1;
    ReadUndoesRender(state.entries, state.flags, chips);
    RenderedFlags(state.entries, state.flags, 0);
    assert Flagged(state.entries, state.flags, 0) == state.flags;
  }

  function After(state: State, r: Request): State { State(Merged(state.entries, r), state.flags + r.flags) }

  lemma MergedEntry(entries: Entries, r: Request, chips: set<Id>, id: Id)
    requires GoodEntries(entries, chips) && Allowed(r, chips) && id in Merged(entries, r)
    ensures id in chips && Some1(Merged(entries, r)[id]) && SmallStages(Merged(entries, r)[id])
  {
    hide SmallPair;
  }

  lemma MergedGood(state: State, r: Request, chips: set<Id>)
    requires Consistent(state, chips) && Allowed(r, chips)
    ensures Consistent(After(state, r), chips)
  {
    var all := Merged(state.entries, r);
    forall id | id in all ensures id in chips && Some1(all[id]) && SmallStages(all[id]) {
      MergedEntry(state.entries, r, chips, id);
    }
  }

  lemma NothingMerged(state: State, r: Request, chips: set<Id>)
    requires r.rms == map[] && r.power == map[] && Allowed(r, chips)
    ensures After(state, r) == state
  {
    assert r.flags == map[];
    assert forall id :: id in state.entries ==> Merged(state.entries, r)[id] == state.entries[id];
  }

  /** An application to any readable block succeeds, and the new block says the merged tables
      and flags. */
  lemma AppliedMeans(block: Option<seq<Line>>, chips: set<Id>, r: Request)
    requires StateOf(block, chips).Ok? && Allowed(r, chips) && Chips(chips)
    ensures Applied(block, chips, r).Ok?
    ensures StateOf(Applied(block, chips, r).value, chips) == Result.Ok(After(StateOf(block, chips).value, r))
  {
    var state := StateOf(block, chips).value;
    if r.rms == map[] && r.power == map[] {
      NothingMerged(state, r, chips);
    } else {
      hide StateOf, Rendered, Consistent, Allowed;
      StateConsistent(block, chips);
      MergedGood(state, r, chips);
      RenderedState(After(state, r), chips);
    }
  }

  // ---------------------------------------------------------------- many applications

  function AppliedAll(block: Option<seq<Line>>, chips: set<Id>, rs: seq<Request>): Result<Option<seq<Line>>> {
    if rs == [] then Result.Ok(block)
    else
      var before := AppliedAll(block, chips, rs[..|rs| - 1]);
      if before.Refusal? then Refusal else Applied(before.value, chips, rs[|rs| - 1])
  }

  /** The last table or flag written for a chip, or what was there. */
  function LastRms(rs: seq<Request>, id: Id, was: Option<Table>): Option<Table> {
    if rs == [] then was
    else if id in rs[|rs| - 1].rms then Some(rs[|rs| - 1].rms[id]) else LastRms(rs[..|rs| - 1], id, was)
  }

  function LastPower(rs: seq<Request>, id: Id, was: Option<Table>): Option<Table> {
    if rs == [] then was
    else if id in rs[|rs| - 1].power then Some(rs[|rs| - 1].power[id]) else LastPower(rs[..|rs| - 1], id, was)
  }

  function LastFlag(rs: seq<Request>, id: Id, was: Option<bool>): Option<bool> {
    if rs == [] then was
    else if id in rs[|rs| - 1].flags then Some(rs[|rs| - 1].flags[id]) else LastFlag(rs[..|rs| - 1], id, was)
  }

  predicate SaysLast(was: State, now: State, rs: seq<Request>, id: Id) {
    && RmsOf(now.entries, id) == LastRms(rs, id, RmsOf(was.entries, id))
    && PowerOf(now.entries, id) == LastPower(rs, id, PowerOf(was.entries, id))
    && Flag(now.flags, id) == LastFlag(rs, id, Flag(was.flags, id))
  }

  lemma LastSaid(was: State, before: State, rs: seq<Request>, r: Request, id: Id)
    requires SaysLast(was, before, rs, id)
    ensures SaysLast(was, After(before, r), rs + [r], id)
  {
    assert (rs + [r])[..|rs|] == rs;
  }

  lemma SaysNothing(state: State, id: Id)
    ensures SaysLast(state, state, [], id)
  {}

  /** Any sequence of allowed applications to a readable block, or to none, succeeds; it leaves
      for every chip and stage the last table written, or the one that was there, and so for
      every flag. */
  lemma {:induction false} ApplicationsMerge(block: Option<seq<Line>>, chips: set<Id>, rs: seq<Request>)
    requires StateOf(block, chips).Ok? && Chips(chips) && forall r :: r in rs ==> Allowed(r, chips)
    ensures AppliedAll(block, chips, rs).Ok? && StateOf(AppliedAll(block, chips, rs).value, chips).Ok?
    ensures forall id :: SaysLast(StateOf(block, chips).value,
        StateOf(AppliedAll(block, chips, rs).value, chips).value, rs, id)
  {
    hide StateOf, Applied, Allowed, SaysLast, Chips;
    if rs == [] {
      forall id ensures SaysLast(StateOf(block, chips).value, StateOf(block, chips).value, rs, id) {
        SaysNothing(StateOf(block, chips).value, id);
      }
    } else {
      var init, r := rs[..|rs| - 1], rs[|rs| - 1];
      ApplicationsMerge(block, chips, init);
      var before := AppliedAll(block, chips, init).value;
      AppliedMeans(before, chips, r);
      assert rs == init + [r];
      forall id ensures SaysLast(StateOf(block, chips).value, After(StateOf(before, chips).value, r), rs, id) {
        assert SaysLast(StateOf(block, chips).value, StateOf(before, chips).value, init, id);
        LastSaid(StateOf(block, chips).value, StateOf(before, chips).value, init, r, id);
      }
    }
  }
}
