/** Replacing one helper block of a configuration without touching any other line
    (`replace_managed_block`). */
module ConfigBlocks {
  import opened Common
  import opened ManagedBlocks

  // ------------------------------------------------------------------- looking up

  datatype Kind = IsSensor | IsRoot | IsBlock(name: Name)

  predicate Is(p: Piece, kind: Kind) {
    match kind
    case IsSensor => p.Plain? && p.line.text.SensorKey?
    case IsRoot => p.Plain? && Root(p.line.text)
    case IsBlock(name) => p.Managed? && p.name == name
  }

  /** The first piece of a kind, or the end. */
  function First(ps: seq<Piece>, start: nat, kind: Kind): (i: nat)
    requires start <= |ps|
    ensures start <= i <= |ps| && (i < |ps| ==> Is(ps[i], kind)) && forall j :: start <= j < i ==> !Is(ps[j], kind)
    decreases |ps| - start
  {
    if start == |ps| || Is(ps[start], kind) then start else First(ps, start + 1, kind)
  }

  function BlockAt(ps: seq<Piece>, name: Name): nat { First(ps, 0, IsBlock(name)) }

  /** Where the items of the only sensor section start and end, in pieces. */
  datatype Section = Section(start: nat, end: nat)

  function SensorSection(ps: seq<Piece>): (section: Option<Section>)
    ensures section.Some? ==> section.value.start <= section.value.end <= |ps|
  {
    var s := First(ps, 0, IsSensor);
    if s == |ps| || First(ps, s + 1, IsSensor) < |ps| then None
    else Some(Section(s + 1, First(ps, s + 1, IsRoot)))
  }

  /** The canonical order of the blocks of the sensor section; status overrides have no place in it. */
  function Rank(name: Name): nat {
    match name
    case VoltageReferences => 0 case PhaseOverrides => 1 case CalibratedVoltageGains => 2
    case CalibratedOffsets => 3 case Aggregates => 4 case StatusOverrides => 5
  }

  function Named(rank: nat): Name {
    match rank
    case 0 => VoltageReferences case 1 => PhaseOverrides case 2 => CalibratedVoltageGains
    case 3 => CalibratedOffsets case 4 => Aggregates case _ => StatusOverrides
  }

  predicate Placed(p: Piece) { p.Managed? && !p.name.StatusOverrides? }

  predicate Sorted(ps: seq<Piece>) {
    forall i, j :: 0 <= i < j < |ps| && Placed(ps[i]) && Placed(ps[j]) ==> Rank(ps[i].name) < Rank(ps[j].name)
  }

  predicate Within(ps: seq<Piece>, section: Section) {
    forall k :: 0 <= k < |ps| && Placed(ps[k]) ==> section.start <= k < section.end
  }

  /** Helper blocks lie in the sensor section, in canonical order. */
  predicate Layout(ps: seq<Piece>) {
    && Sorted(ps)
    && if SensorSection(ps).Some? then Within(ps, SensorSection(ps).value) else Within(ps, Section(0, 0))
  }

  /** The next block in canonical order that is present. */
  function Later(ps: seq<Piece>, rank: nat): (k: Option<nat>)
    ensures k.Some? ==> k.value < |ps|
    decreases 5 - rank
  {
    if rank >= 5 then None
    else if BlockAt(ps, Named(rank)) < |ps| then Some(BlockAt(ps, Named(rank)))
    else Later(ps, rank + 1)
  }

  function Earlier(ps: seq<Piece>, rank: nat): (k: Option<nat>)
    ensures k.Some? ==> k.value < |ps|
  {
    if rank == 0 then None
    else if BlockAt(ps, Named(rank - 1)) < |ps| then Some(BlockAt(ps, Named(rank - 1)))
    else Earlier(ps, rank - 1)
  }

  /** `_insertion_position`, or the end of the section for aggregates and status overrides. */
  function Position(ps: seq<Piece>, name: Name, section: Section): (position: nat)
    requires section.start <= |ps| && section.end <= |ps|
    ensures position <= |ps|
  {
    if Rank(name) >= 4 then section.end
    else if Later(ps, Rank(name) + 1).Some? then Later(ps, Rank(name) + 1).value
    else if Earlier(ps, Rank(name)).Some? then Earlier(ps, Rank(name)).value + 1
    else section.start
  }

  // ------------------------------------------------------------------- writing

  /** A body line that a helper may write: nested by two or more, in steps of two. */
  predicate Nested(t: Text) {
    match t
    case Blank => true
    case Separator(indent) => indent >= 2 && indent % 2 == 0
    case Other(indent, _, safe) => safe && indent >= 2 && indent % 2 == 0
    case _ => false
  }

  predicate ValidBody(body: seq<Text>) { forall t :: t in body ==> Nested(t) }

  /** Items at the margin: the body moves left by two. */
  function Dedent(t: Text, margin: bool): Text
    requires Nested(t)
  {
    if !margin || t.Blank? then t
    else if t.Separator? then Separator(t.indent - 2)
    else Other(t.indent - 2, t.words, t.safe)
  }

  /** The line end that a file uses. */
  function Newline(lines: seq<Line>): Eol {
    if exists i :: 0 <= i < |lines| && lines[i].eol.CrLf? then CrLf else Lf
  }

  function Inside(body: seq<Text>, eol: Eol, margin: bool): (lines: seq<Line>)
    requires ValidBody(body)
    ensures |lines| == |body| && forall i :: 0 <= i < |body| ==> lines[i] == Line(Dedent(body[i], margin), eol)
  {
    if body == [] then []
    else Inside(body[..|body| - 1], eol, margin) + [Line(Dedent(body[|body| - 1], margin), eol)]
  }

  function NewBlock(name: Name, body: seq<Text>, eol: Eol, margin: bool): seq<Line>
    requires ValidBody(body)
  {
    [Line(Marker(name, false), eol)] + Inside(body, eol, margin) + [Line(Marker(name, true), eol)]
  }

  predicate Unterminated(lines: seq<Line>) { lines != [] && lines[|lines| - 1].eol.NoEol? }

  function Terminated(lines: seq<Line>, eol: Eol): seq<Line>
    requires lines != []
  {
    lines[|lines| - 1 := lines[|lines| - 1].(eol := eol)]
  }

  /** The text without a final `eol`. */
  function Stripped(lines: seq<Line>, eol: Eol): seq<Line> {
    if lines == [] || lines[|lines| - 1].eol != eol then lines
    else if lines[|lines| - 1].text.Blank? then lines[..|lines| - 1]
    else Terminated(lines, NoEol)
  }

  function Insert(lines: seq<Line>, ps: seq<Piece>, name: Name, body: seq<Text>, margin: bool): Result<seq<Line>> {
    var section := SensorSection(ps);
    if section.None? || !ValidBody(body) then Refusal
    else
      var position := Position(ps, name, section.value);
      if section.value.start == |ps| && Unterminated(lines) then Refusal
      else if position == |ps| && Unterminated(lines) then
        if name.Aggregates? then
          Result.Ok(Terminated(lines, Newline(lines)) + NewBlock(name, [Separator(2)] + body, Newline(lines), margin))
        else Refusal
      else Result.Ok(Flatten(ps[..position]) + NewBlock(name, body, Newline(lines), margin) + Flatten(ps[position..]))
  }

  /** The block is not there: find its place and write it. */
  function Place(lines: seq<Line>, name: Name, body: seq<Text>, margin: bool): Result<seq<Line>> {
    var found := Pieces(lines);
    if found.None? || !Layout(found.value) || BlockAt(found.value, name) < |found.value| then Refusal
    else Insert(lines, found.value, name, body, margin)
  }

  /** The document without its block: a note in front of the end of the file takes the line
      end before the block along. */
  function Removed(lines: seq<Line>, ps: seq<Piece>, k: nat): seq<Line>
    requires k < |ps| && ps[k].Managed? && |ps[k].lines| >= 2
  {
    var head, tail := Flatten(ps[..k]), Flatten(ps[k + 1..]);
    (if tail == [] && ps[k].lines[1].text.Separator? then Stripped(head, Newline(lines)) else head) + tail
  }

  /** `replace_managed_block`; an empty body removes. `margin` says that the items of the
      section stand at the margin. */
  function Replace(lines: seq<Line>, name: Name, body: seq<Text>, margin: bool): Result<seq<Line>> {
    var found := Pieces(lines);
    if found.None? || !Layout(found.value) then Refusal
    else
      var ps, k, section := found.value, BlockAt(found.value, name), SensorSection(found.value);
      if k == |ps| then if body == [] then Result.Ok(lines) else Insert(lines, ps, name, body, margin)
      else if section.None? || !(section.value.start <= k < section.value.end) || |ps[k].lines| < 2 then Refusal
      else if body == [] then Result.Ok(Removed(lines, ps, k))
      else if name.Aggregates? then Place(Removed(lines, ps, k), name, body, margin)
      else if !ValidBody(body) then Refusal
      else Result.Ok(Flatten(ps[..k]) + NewBlock(name, body, Newline(lines), margin) + Flatten(ps[k + 1..]))
  }
}
