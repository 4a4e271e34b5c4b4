/** What is rendered is read back, and every sequence of applications leaves the last table of
    each chip and stage. */
module OffsetMerges {
  import opened Common
  import opened CalibratedOffsets

  // --------------------------------------------------------------------- round trip

  /** The fields of one phase. */
  function FieldsOf(s: Stages, phase: nat): Fields {
    (if s.rms.Some? then map[OffsetVoltage := PairOf(s.rms.value, phase).first,
      OffsetCurrent := PairOf(s.rms.value, phase).second] else map[])
    + (if s.power.Some? then
      map[OffsetActive := PairOf(s.power.value, phase).first, OffsetReactive := PairOf(s.power.value, phase).second]
        else map[])
  }

  predicate SmallFields(s: Stages, phase: nat) {
    && (s.rms.Some? ==> SmallPair(PairOf(s.rms.value, phase)))
    && (s.power.Some? ==> SmallPair(PairOf(s.power.value, phase)))
  }

  /** What follows a phase starts with a header, or is nothing. */
  predicate Headed(rest: seq<Line>) { rest != [] ==> Breaks(rest[0]) }

  lemma ValuesStep(lines: seq<Line>, got: Fields, n: int)
    requires lines != [] && lines[0].Entry? && ReadNumeral(lines[0].text) == Some(n) && lines[0].field !in got
    ensures ReadValues(lines, got) == if Small(n) then ReadValues(lines[1..], got[lines[0].field := n]) else None
  {
    hide ReadNumeral, Small;
  }

  lemma PairReads(t: Option<Table>, phase: nat, first: Field, second: Field, rest: seq<Line>, got: Fields)
    requires first != second && first !in got && second !in got
    ensures ReadValues(PairLines(t, phase, first, second) + rest, got) ==
            if t.None? then ReadValues(rest, got)
            else if SmallPair(PairOf(t.value, phase)) then
              ReadValues(rest, got[first := PairOf(t.value, phase).first][second := PairOf(t.value, phase).second])
            else None
  {
    hide Numeral, ReadNumeral, PairOf, ReadValues, Small, Breaks, Number;
    var lines := PairLines(t, phase, first, second);
    if t.None? {
      assert lines + rest == rest;
    } else {
      var p := PairOf(t.value, phase);
      NumeralReads(p.first);
      NumeralReads(p.second);
      assert (lines + rest)[1..] == [lines[1]] + rest && ([lines[1]] + rest)[1..] == rest;
      ValuesStep(lines + rest, got, p.first);
      if Small(p.first) { ValuesStep([lines[1]] + rest, got[first := p.first], p.second); }
    }
  }

  lemma StopReads(rest: seq<Line>, got: Fields)
    requires Headed(rest)
    ensures ReadValues(rest, got) == Some((got, rest))
  {}

  lemma FieldsInOrder(s: Stages, phase: nat, got: Fields)
    requires
      got == if s.rms.Some?
             then map[OffsetVoltage := PairOf(s.rms.value, phase).first,
                      OffsetCurrent := PairOf(s.rms.value, phase).second]
             else map[]
    ensures
      s.rms.Some? ==>
        var pair := PairOf(s.rms.value, phase);
        got == map[][OffsetVoltage := pair.first][OffsetCurrent := pair.second]
    ensures
      FieldsOf(s, phase) == if s.power.None? then got
                            else var pair := PairOf(s.power.value, phase);
                                 got[OffsetActive := pair.first][OffsetReactive := pair.second]
  {}

  lemma PhaseReads(s: Stages, phase: nat, rest: seq<Line>)
    requires Headed(rest)
    ensures ReadPhase(PhaseLines(s, phase) + rest, phase) == if SmallFields(s, phase) then
        Some((FieldsOf(s, phase), rest)) else None
  {
    hide ReadValues, PairLines, SmallPair;
    var one := PairLines(s.rms, phase, OffsetVoltage, OffsetCurrent);
    var two := PairLines(s.power, phase, OffsetActive, OffsetReactive);
    assert (PhaseLines(s, phase) + rest)[1..] == one + (two + rest);
    var got: Fields := if s.rms.Some? then
      map[OffsetVoltage := PairOf(s.rms.value, phase).first, OffsetCurrent := PairOf(s.rms.value, phase).second]
        else map[];
    PairReads(s.rms, phase, OffsetVoltage, OffsetCurrent, two + rest, map[]);
    PairReads(s.power, phase, OffsetActive, OffsetReactive, rest, got);
    StopReads(rest, FieldsOf(s, phase));
    FieldsInOrder(s, phase, got);
  }

  predicate Some1(s: Stages) { s.rms.Some? || s.power.Some? }

  lemma StageKeys(s: Stages, phase: nat)
    requires Some1(s)
    ensures FieldsOf(s, phase).Keys == (if s.rms.Some? then RMS else {}) + (if s.power.Some? then POWER else {})
    ensures s.rms.Some? ==>
        Pair(FieldsOf(s, phase)[OffsetVoltage], FieldsOf(s, phase)[OffsetCurrent]) == PairOf(s.rms.value, phase)
    ensures s.power.Some? ==>
        Pair(FieldsOf(s, phase)[OffsetActive], FieldsOf(s, phase)[OffsetReactive]) == PairOf(s.power.value, phase)
  {}

  lemma StagesBack(s: Stages)
    requires Some1(s)
    ensures StagesOf(FieldsOf(s, 0), FieldsOf(s, 1), FieldsOf(s, 2)) == Some(s)
  {
    StageKeys(s, 0);
    StageKeys(s, 1);
    StageKeys(s, 2);
    hide FieldsOf;
    if s.rms.Some? { assert RMS == {OffsetVoltage, OffsetCurrent}; }
  }

  lemma SmallPhases(s: Stages)
    ensures SmallStages(s) <==> SmallFields(s, 0) && SmallFields(s, 1) && SmallFields(s, 2)
  {}

  lemma PhasesRead(s: Stages, rest: seq<Line>)
    requires Some1(s) && Headed(rest)
    ensures ReadPhases(PhaseLines(s, 0) + PhaseLines(s, 1) + PhaseLines(s, 2) + rest) == if SmallStages(s) then
        Some((s, rest)) else None
  {
    hide ReadPhase, FieldsOf, SmallFields, SmallStages, StagesOf, ValueLines;
    var two := PhaseLines(s, 2) + rest;
    var one := PhaseLines(s, 1) + two;
    SmallPhases(s);
    PhaseReads(s, 0, one);
    PhaseReads(s, 1, two);
    PhaseReads(s, 2, rest);
    StagesBack(s);
    assert PhaseLines(s, 0) + PhaseLines(s, 1) + PhaseLines(s, 2) + rest == PhaseLines(s, 0) + one;
  }

  lemma Join(a: seq<Line>, b: seq<Line>, c: seq<Line>)
    ensures a + b + c == a + (b + c)
  {}

  lemma Regroup(front: seq<Line>, a: seq<Line>, b: seq<Line>, c: seq<Line>, rest: seq<Line>)
    ensures front + a + b + c + rest == front + (a + b + c + rest)
    ensures (front + (a + b + c + rest))[|front|..] == a + b + c + rest
  {
    Join(front, a, b);
    Join(front, a + b, c);
    Join(front, a + b + c, rest);
  }

  lemma PhaseStart(s: Stages, rest: seq<Line>)
    ensures var phases := PhaseLines(s, 0) + PhaseLines(s, 1) + PhaseLines(s, 2) + rest;
            phases != [] && phases[0] == PhaseHead(0)
  {}

  lemma EntryShape(id: Id, s: Stages, enabled: Option<bool>, rest: seq<Line>)
    ensures var lines := EntryLines(id, s, enabled) + rest;
            && |lines| > 1 && lines[0] == Owner(id)
            && (if lines[1].Enable? then lines[2..] else lines[1..])
              == PhaseLines(s, 0) + PhaseLines(s, 1) + PhaseLines(s, 2) + rest
  {
    PhaseStart(s, rest);
    var a, b, c := PhaseLines(s, 0), PhaseLines(s, 1), PhaseLines(s, 2);
    hide PhaseLines;
    if enabled.Some? {
      Regroup([Owner(id), Enable(enabled.value)], a, b, c, rest);
      assert [Owner(id)] + [Enable(enabled.value)] == [Owner(id), Enable(enabled.value)];
    } else {
      Regroup([Owner(id)], a, b, c, rest);
      assert [Owner(id)] + [] == [Owner(id)];
    }
  }

  /** One chip's lines are read back as its tables, exactly if every number fits 16 bits. */
  lemma EntryReads(id: Id, s: Stages, enabled: Option<bool>, rest: seq<Line>, chips: set<Id>)
    requires Some1(s) && Headed(rest) && id in chips
    ensures ReadEntry(EntryLines(id, s, enabled) + rest, chips) == if SmallStages(s) then Some((id, s, rest)) else None
  {
    hide PhaseLines, ReadPhases, SmallStages, EntryLines, Some1, Headed;
    EntryShape(id, s, enabled, rest);
    PhasesRead(s, rest);
  }

  /** The entries of the chips from one on. */
  function From(entries: Entries, from: nat): Entries { map id | id in entries && id >= from :: entries[id] }

  predicate Placed(entries: Entries, chips: set<Id>) {
    forall id :: id in entries ==> id in chips && id < CHIPS && Some1(entries[id])
  }

  lemma {:induction false} RenderedHeaded(entries: Entries, flags: map<Id, bool>, from: nat)
    ensures Headed(Rendered(entries, flags, from))
    decreases CHIPS - from
  {
    if from < CHIPS { RenderedHeaded(entries, flags, from + 1); }
  }

  predicate AllSmall(entries: Entries, from: nat) {
    forall id :: id in entries && id >= from ==> SmallStages(entries[id])
  }

  lemma SmallFrom(entries: Entries, from: nat)
    ensures AllSmall(entries, from) <==> AllSmall(entries, from + 1) && (from in entries ==> SmallStages(entries[from]))
  {
    hide SmallStages;
  }

  lemma NoneFrom(entries: Entries, from: nat, chips: set<Id>)
    requires Placed(entries, chips) && from >= CHIPS
    ensures AllSmall(entries, from) && From(entries, from) == map[]
  {
    hide SmallStages;
  }

  lemma EntrySome(id: Id, s: Stages, enabled: Option<bool>)
    ensures EntryLines(id, s, enabled) != [] && EntryLines(id, s, enabled)[0] == Owner(id)
  {}

  lemma FromStep(entries: Entries, from: nat, read: Entries)
    requires forall id :: id in read ==> id < from
    ensures read + From(entries, from)
         == (if from in entries then read[from := entries[from]] else read) + From(entries, from + 1)
  {}

  lemma {:induction false} RenderedReads(entries: Entries, flags: map<Id, bool>, from: nat, chips: set<Id>,
                                         read: Entries)
    requires Placed(entries, chips) && forall id :: id in read ==> id < from
    ensures ReadAll(Rendered(entries, flags, from), chips, read) ==
            if AllSmall(entries, from) then Result.Ok(read + From(entries, from)) else Refusal
    decreases CHIPS - from
  {
    hide SmallStages, ReadEntry, EntryLines, Some1, AllSmall, Headed, From;
    SmallFrom(entries, from);
    FromStep(entries, from, read);
    if from >= CHIPS {
      NoneFrom(entries, from, chips);
      assert read + From(entries, from) == read;
    } else if from !in entries {
      RenderedReads(entries, flags, from + 1, chips, read);
      assert [] + Rendered(entries, flags, from + 1) == Rendered(entries, flags, from + 1);
    } else {
      var s, rest := entries[from], Rendered(entries, flags, from + 1);
      RenderedHeaded(entries, flags, from + 1);
      EntryReads(from, s, Flag(flags, from), rest, chips);
      RenderedReads(entries, flags, from + 1, chips, read[from := s]);
      EntrySome(from, s, Flag(flags, from));
    }
  }

  /** Reading what was rendered gives the same tables, for every map of tables, exactly if every
      number fits 16 bits. */
  lemma ReadUndoesRender(entries: Entries, flags: map<Id, bool>, chips: set<Id>)
    requires Placed(entries, chips)
    ensures ReadAll(Rendered(entries, flags, 0), chips, map[]) ==
            if AllSmall(entries, 0) then Result.Ok(entries) else Refusal
  {
    hide Rendered, ReadAll, AllSmall, Placed;
    RenderedReads(entries, flags, 0, chips, map[]);
    assert map[] + From(entries, 0) == entries;
  }

  // -------------------------------------------------------------------------- flags

  lemma {:induction false} FlagsPlus(a: seq<Line>, b: seq<Line>)
    requires b != [] ==> !b[0].Enable?
    ensures Flags(a + b) == Flags(a) + Flags(b)
  {
    if b == [] {
      assert a + b == a && Flags(a) + map[] == Flags(a);
    } else {
      var all, front := a + b, b[..|b| - 1];
      FlagsPlus(a, front);
      assert all[..|all| - 1] == a + front;
      if |b| == 1 { assert front == [] && Flags(a) + map[] == Flags(a); }
      else { assert all[|all| - 2] == b[|b| - 2]; }
    }
  }

  lemma {:induction false} FlagsNone(lines: seq<Line>)
    requires forall i :: 0 <= i < |lines| ==> !lines[i].Owner?
    ensures Flags(lines) == map[]
  {
    if |lines| >= 2 { FlagsNone(lines[..|lines| - 1]); }
  }

  lemma FrontFlags(id: Id, enabled: Option<bool>)
    ensures Flags([Owner(id)] + if enabled.Some? then [Enable(enabled.value)] else []) == if enabled.Some? then
        map[id := enabled.value] else map[]
  {
    if enabled.Some? { assert [Owner(id), Enable(enabled.value)][..1] == [Owner(id)] && Flags([Owner(id)]) == map[]; }
  }

  lemma NoOwner(s: Stages, phase: nat)
    ensures forall i :: 0 <= i < |PhaseLines(s, phase)| ==> !PhaseLines(s, phase)[i].Owner?
  {}

  lemma PhasesFlagless(s: Stages)
    ensures var phases := PhaseLines(s, 0) + PhaseLines(s, 1) + PhaseLines(s, 2);
            phases != [] && phases[0] == PhaseHead(0) && Flags(phases) == map[]
  {
    var phases := PhaseLines(s, 0) + PhaseLines(s, 1) + PhaseLines(s, 2);
    PhaseStart(s, []);
    assert phases + [] == phases;
    NoOwner(s, 0);
    NoOwner(s, 1);
    NoOwner(s, 2);
    hide PhaseLines;
    FlagsNone(phases);
  }

  lemma EntryFlags(id: Id, s: Stages, enabled: Option<bool>)
    ensures Flags(EntryLines(id, s, enabled)) == if enabled.Some? then map[id := enabled.value] else map[]
  {
    hide PhaseLines, Flags;
    var front := [Owner(id)] + if enabled.Some? then [Enable(enabled.value)] else [];
    var phases := PhaseLines(s, 0) + PhaseLines(s, 1) + PhaseLines(s, 2);
    PhasesFlagless(s);
    FrontFlags(id, enabled);
    FlagsPlus(front, phases);
    assert EntryLines(id, s, enabled) == front + phases;
  }

  /** The flags of the chips from one on that have tables. */
  function Flagged(entries: Entries, flags: map<Id, bool>, from: nat): map<Id, bool> {
    map id | id in flags && id in entries && id >= from :: flags[id]
  }

  lemma {:induction false} RenderedOwner(entries: Entries, flags: map<Id, bool>, from: nat)
    ensures Rendered(entries, flags, from) != [] ==> Rendered(entries, flags, from)[0].Owner?
    decreases CHIPS - from
  {
    if from < CHIPS { RenderedOwner(entries, flags, from + 1); }
  }

  /** Rendered flags are found again. */
  lemma {:induction false} RenderedFlags(entries: Entries, flags: map<Id, bool>, from: nat)
    requires forall id :: id in entries ==> id < CHIPS
    ensures Flags(Rendered(entries, flags, from)) == Flagged(entries, flags, from)
    decreases CHIPS - from
  {
    hide EntryLines, Flags;
    if from >= CHIPS {
      FlagsNone([]);
    } else {
      var rest := Rendered(entries, flags, from + 1);
      RenderedFlags(entries, flags, from + 1);
      if from in entries {
        EntryFlags(from, entries[from], Flag(flags, from));
        RenderedOwner(entries, flags, from + 1);
        FlagsPlus(EntryLines(from, entries[from], Flag(flags, from)), rest);
      } else { assert [] + rest == rest; }
    }
  }
}
