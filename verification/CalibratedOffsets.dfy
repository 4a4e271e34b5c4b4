/** The block of calibrated offsets: tables per chip and stage, rendered to lines, read back and
    merged (`_render_calibrated_offset_entry`, `_read_calibrated_offset_entries`,
    `_apply_calibrated_offsets`). */
module CalibratedOffsets {
  import opened Common

  // ----------------------------------------------------------------------- numerals

  function Digit(n: nat): char
    requires n < 10
  {
    (n + '0' as int) as char
  }

  function Digits(n: nat): (s: string)
    ensures s != "" && (n > 0 ==> s[0] != '0') && (n == 0 ==> s == "0")
  {
    if n < 10 then [Digit(n)] else Digits(n / 10) + [Digit(n % 10)]
  }

  function Numeral(n: int): string { if n < 0 then "-" + Digits(-n) else Digits(n) }

  /** The value of decimal digits. */
  function Value(s: string): Option<nat> {
    if s == "" then Some(0)
    else
      var c, front := s[|s| - 1], Value(s[..|s| - 1]);
      if front.None? || !('0' <= c <= '9') then None else Some(front.value * 10 + (c as int - '0' as int))
  }

  /** A sign, and a numeral without leading zeros. */
  function ReadNumeral(s: string): Option<int> {
    var digits := if s != "" && s[0] == '-' then s[1..] else s;
    if digits == "" || Value(digits).None? || (digits[0] == '0' && digits != "0") then None
    else
      var n: int := Value(digits).value;
      Some(if digits == s then n else -n)
  }

  lemma {:induction false} DigitsValue(n: nat)
    ensures Value(Digits(n)) == Some(n) && Digits(n)[0] != '-'
  {
    var s := Digits(n);
    if n < 10 {
      assert s[..0] == "";
    } else {
      DigitsValue(n / 10);
      assert s[..|s| - 1] == Digits(n / 10);
    }
  }

  lemma NumeralReads(n: int)
    ensures ReadNumeral(Numeral(n)) == Some(n)
  {
    DigitsValue(if n < 0 then -n else n);
    if n < 0 { assert Numeral(n)[1..] == Digits(-n); }
  }

  // -------------------------------------------------------------------- tables, lines

  datatype Field = OffsetVoltage | OffsetCurrent | OffsetActive | OffsetReactive

  datatype Pair = Pair(first: int, second: int)

  /** The offsets of one stage, for the phases A, B and C. */
  datatype Table = Table(a: Pair, b: Pair, c: Pair)

  datatype Stages = Stages(rms: Option<Table>, power: Option<Table>)

  /** Chips, numbered in the order of their names. */
  type Id = nat

  const CHIPS := 14

  type Entries = map<Id, Stages>

  /** A line between the markers, indented by two. `Strange` lines match none of the patterns;
      some of them start as an owner or a phase does. */
  datatype Line =
    | Owner(id: Id)
    | Enable(on: bool)
    | PhaseHead(phase: nat)
    | Entry(field: Field, text: string)
    | Strange(breaks: bool)

  predicate Small(n: int) { -32768 <= n <= 32767 }

  predicate SmallPair(p: Pair) { Small(p.first) && Small(p.second) }

  predicate SmallTable(t: Option<Table>) {
    t.Some? ==> SmallPair(t.value.a) && SmallPair(t.value.b) && SmallPair(t.value.c)
  }

  predicate SmallStages(s: Stages) { SmallTable(s.rms) && SmallTable(s.power) }

  function PairOf(t: Table, phase: nat): Pair { if phase == 0 then t.a else if phase == 1 then t.b else t.c }

  // ---------------------------------------------------------------------- rendering

  function PairLines(t: Option<Table>, phase: nat, first: Field, second: Field): seq<Line> {
    if t.None? then [] else [Entry(first, Numeral(PairOf(t.value, phase).first)),
      Entry(second, Numeral(PairOf(t.value, phase).second))]
  }

  function ValueLines(s: Stages, phase: nat): seq<Line> {
    PairLines(s.rms, phase, OffsetVoltage, OffsetCurrent) + PairLines(s.power, phase, OffsetActive, OffsetReactive)
  }

  function PhaseLines(s: Stages, phase: nat): seq<Line> { [PhaseHead(phase)] + ValueLines(s, phase) }

  function EntryLines(id: Id, s: Stages, enabled: Option<bool>): seq<Line> {
    [Owner(id)] + (if enabled.Some? then [Enable(enabled.value)] else [])
    + PhaseLines(s, 0) + PhaseLines(s, 1) + PhaseLines(s, 2)
  }

  function Flag(flags: map<Id, bool>, id: Id): Option<bool> { if id in flags then Some(flags[id]) else None }

  /** The entries from a chip on, in order. */
  function Rendered(entries: Entries, flags: map<Id, bool>, from: nat): seq<Line>
    decreases CHIPS - from
  {
    if from >= CHIPS then []
    else
      (if from in entries then EntryLines(from, entries[from], Flag(flags, from)) else [])
      + Rendered(entries, flags, from + 1)
  }

  // ------------------------------------------------------------------------- reading

  type Fields = map<Field, int>

  predicate Breaks(line: Line) { line.Owner? || line.PhaseHead? || (line.Strange? && line.breaks) }

  function Number(line: Line): Option<int> {
    if line.Entry? && ReadNumeral(line.text).Some? && Small(ReadNumeral(line.text).value) then ReadNumeral(line.text)
      else None
  }

  /** The values of one phase, up to the next header. */
  function ReadValues(lines: seq<Line>, got: Fields): (read: Option<(Fields, seq<Line>)>)
    ensures read.Some? ==> |read.value.1| <= |lines|
  {
    if lines == [] || Breaks(lines[0]) then Some((got, lines))
    else if Number(lines[0]).None? || lines[0].field in got then None
    else ReadValues(lines[1..], got[lines[0].field := Number(lines[0]).value])
  }

  function ReadPhase(lines: seq<Line>, phase: nat): (read: Option<(Fields, seq<Line>)>)
    ensures read.Some? ==> |read.value.1| < |lines|
  {
    if lines == [] || lines[0] != PhaseHead(phase) then None else ReadValues(lines[1..], map[])
  }

  const RMS := {OffsetVoltage, OffsetCurrent}
  const POWER := {OffsetActive, OffsetReactive}

  function TableOf(a: Fields, b: Fields, c: Fields, first: Field, second: Field): Option<Table> {
    if {first, second} <= a.Keys * b.Keys * c.Keys
    then Some(Table(Pair(a[first], a[second]), Pair(b[first], b[second]), Pair(c[first], c[second])))
    else None
  }

  /** Three phases with the same fields, which make up one stage or both. */
  function StagesOf(a: Fields, b: Fields, c: Fields): Option<Stages> {
    if a.Keys == b.Keys == c.Keys && (a.Keys == RMS || a.Keys == POWER || a.Keys == RMS + POWER)
    then Some(Stages(TableOf(a, b, c, OffsetVoltage, OffsetCurrent), TableOf(a, b, c, OffsetActive, OffsetReactive)))
    else None
  }

  function ReadPhases(lines: seq<Line>): (read: Option<(Stages, seq<Line>)>)
    ensures read.Some? ==> |read.value.1| < |lines|
  {
    var a := ReadPhase(lines, 0);
    if a.None? then None
    else
      var b := ReadPhase(a.value.1, 1);
      if b.None? then None
      else
        var c := ReadPhase(b.value.1, 2);
        if c.None? || StagesOf(a.value.0, b.value.0, c.value.0).None? then None
        else Some((StagesOf(a.value.0, b.value.0, c.value.0).value, c.value.1))
  }

  /** One chip: its owner line, perhaps a flag, three phases. */
  function ReadEntry(lines: seq<Line>, chips: set<Id>): (read: Option<(Id, Stages, seq<Line>)>)
    ensures read.Some? ==> |read.value.2| < |lines|
  {
    if lines == [] || !lines[0].Owner? || lines[0].id !in chips then None
    else
      var read := ReadPhases(if |lines| > 1 && lines[1].Enable? then lines[2..] else lines[1..]);
      if read.None? then None else Some((lines[0].id, read.value.0, read.value.1))
  }

  function ReadAll(lines: seq<Line>, chips: set<Id>, entries: Entries): Result<Entries>
    decreases |lines|
  {
    if lines == [] then Result.Ok(entries)
    else
      var read := ReadEntry(lines, chips);
      if read.None? || read.value.0 in entries then Refusal
      else ReadAll(read.value.2, chips, entries[read.value.0 := read.value.1])
  }

  /** The flags that stand right behind an owner line. */
  function Flags(lines: seq<Line>): map<Id, bool> {
    if |lines| < 2 then map[]
    else
      var front := Flags(lines[..|lines| - 1]);
      if lines[|lines| - 2].Owner? && lines[|lines| - 1].Enable? then
        front[lines[|lines| - 2].id := lines[|lines| - 1].on] else front
  }

  // ---------------------------------------------------------------------- the loops

  method ValuesLoop(lines: seq<Line>, start: nat) returns (values: Option<Fields>, index: nat)
    requires start <= |lines|
    ensures index <= |lines|
    ensures ReadValues(lines[start..], map[]) == if values.None? then None else Some((values.value, lines[index..]))
  {
    index := start;
    var got: Fields := map[];
    while index < |lines| && !Breaks(lines[index])
      invariant start <= index <= |lines|
      invariant ReadValues(lines[start..], map[]) == ReadValues(lines[index..], got)
    {
      if Number(lines[index]).None? || lines[index].field in got { return None, index; }
      assert lines[index..][1..] == lines[index + 1..];
      got := got[lines[index].field := Number(lines[index]).value];
      index := index + 1;
    }
    values := Some(got);
  }

  method PhaseLoop(lines: seq<Line>, start: nat, phase: nat) returns (values: Option<Fields>, index: nat)
    requires start <= |lines|
    ensures index <= |lines|
    ensures ReadPhase(lines[start..], phase) == if values.None? then None else Some((values.value, lines[index..]))
  {
    if start >= |lines| || lines[start] != PhaseHead(phase) { return None, start; }
    assert lines[start..][1..] == lines[start + 1..];
    values, index := ValuesLoop(lines, start + 1);
  }

  method PhasesLoop(lines: seq<Line>, start: nat) returns (read: Option<Stages>, index: nat)
    requires start <= |lines|
    ensures index <= |lines|
    ensures ReadPhases(lines[start..]) == if read.None? then None else Some((read.value, lines[index..]))
  {
    hide ReadPhase, StagesOf;
    var a, b, c: Option<Fields>;
    a, index := PhaseLoop(lines, start, 0);
    if a.None? { return None, index; }
    b, index := PhaseLoop(lines, index, 1);
    if b.None? { return None, index; }
    c, index := PhaseLoop(lines, index, 2);
    if c.None? { return None, index; }
    read := StagesOf(a.value, b.value, c.value);
  }

  method EntryLoop(lines: seq<Line>, start: nat, chips: set<Id>) returns (read: Option<(Id, Stages)>, index: nat)
    requires start < |lines|
    ensures index <= |lines|
    ensures ReadEntry(lines[start..], chips) == if read.None? then None
        else Some((read.value.0, read.value.1, lines[index..]))
  {
    hide ReadPhases;
    index := start;
    if !lines[start].Owner? || lines[start].id !in chips { return None, index; }
    index := start + 1;
    if index < |lines| && lines[index].Enable? { index := index + 1; }
    ghost var rest := lines[start..];
    assert (if |rest| > 1 && rest[1].Enable? then rest[2..] else rest[1..]) == lines[index..];
    var stages: Option<Stages>;
    stages, index := PhasesLoop(lines, index);
    read := if stages.None? then None else Some((lines[start].id, stages.value));
  }

  method ReadEntries(lines: seq<Line>, chips: set<Id>) returns (entries: Result<Entries>)
    ensures entries == ReadAll(lines, chips, map[])
  {
    hide ReadEntry;
    var index, found: Entries := 0, map[];
    assert lines[0..] == lines;
    while index < |lines|
      invariant index <= |lines| && ReadAll(lines, chips, map[]) == ReadAll(lines[index..], chips, found)
      decreases |lines| - index
    {
      var read, next := EntryLoop(lines, index, chips);
      if read.None? || read.value.0 in found { return Refusal; }
      found, index := found[read.value.0 := read.value.1], next;
    }
    entries := Result.Ok(found);
  }
}
