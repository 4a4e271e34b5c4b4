/** A document as the parser sees it for managed blocks: lines, and the blocks that marker
    lines delimit (`_DocumentParser._managed_blocks`). */
module ManagedBlocks {
  import opened Common

  datatype Name = VoltageReferences | PhaseOverrides | CalibratedVoltageGains | CalibratedOffsets | Aggregates
    | StatusOverrides

  datatype Eol = Lf | CrLf | NoEol

  /** The text of a line: a marker, the root key of the sensor section, another root key, the
      note that the file had no final newline, or anything else. `safe` says that a helper may
      write the text, indentation aside. */
  datatype Text =
    | Marker(name: Name, end: bool)
    | SensorKey
    | RootKey(key: nat)
    | Separator(indent: nat)
    | Other(indent: nat, words: nat, safe: bool)
    | Blank

  datatype Line = Line(text: Text, eol: Eol)

  /** Only the last line may lack a line end, and then it is not empty. */
  predicate Document(lines: seq<Line>) {
    forall i :: 0 <= i < |lines| ==> lines[i].eol.NoEol? ==> i == |lines| - 1 && !lines[i].text.Blank?
  }

  datatype Piece = Plain(line: Line) | Managed(name: Name, lines: seq<Line>)

  predicate Root(t: Text) { t.SensorKey? || t.RootKey? }

  /** A block: its two markers, and neither markers nor root keys between them. */
  predicate Block(name: Name, lines: seq<Line>) {
    && |lines| >= 2 && lines[0].text == Marker(name, false) && lines[|lines| - 1].text == Marker(name, true)
    && forall i :: 0 < i < |lines| - 1 ==> !lines[i].text.Marker? && !Root(lines[i].text)
  }

  function LinesOf(p: Piece): seq<Line> {
    match p
    case Plain(line) => [line]
    case Managed(_, lines) => lines
  }

  function Flatten(ps: seq<Piece>): seq<Line> {
    if ps == [] then [] else Flatten(ps[..|ps| - 1]) + LinesOf(ps[|ps| - 1])
  }

  predicate Sound(p: Piece) {
    match p
    case Plain(line) => !line.text.Marker?
    case Managed(name, lines) => Block(name, lines)
  }

  /** Every piece is sound and no block occurs twice. */
  predicate WellFormed(ps: seq<Piece>) {
    && (forall i :: 0 <= i < |ps| ==> Sound(ps[i]))
    && forall i, j :: 0 <= i < j < |ps| && ps[i].Managed? && ps[j].Managed? ==> ps[i].name != ps[j].name
  }

  predicate Has(ps: seq<Piece>, name: Name) {
    exists i :: 0 <= i < |ps| && ps[i].Managed? && ps[i].name == name
  }

  // ------------------------------------------------------------------ scanning

  /** The pieces found so far and the block that is open. */
  datatype Scan = Scan(pieces: seq<Piece>, open: Option<(Name, seq<Line>)>)

  /** One more line; `None` for a nested, duplicate, unopened or mismatched marker, and for a
      root key inside a block. */
  function Advance(s: Scan, line: Line): Option<Scan> {
    var text := line.text;
    if text.Marker? && !text.end then
      if s.open.Some? || Has(s.pieces, text.name) then None else Some(Scan(s.pieces, Some((text.name, [line]))))
    else if text.Marker? then
      if s.open.None? || s.open.value.0 != text.name then None
      else Some(Scan(s.pieces + [Managed(text.name, s.open.value.1 + [line])], None))
    else if s.open.None? then Some(Scan(s.pieces + [Plain(line)], None))
    else if Root(text) then None
    else Some(Scan(s.pieces, Some((s.open.value.0, s.open.value.1 + [line]))))
  }

  function ScanFrom(s: Scan, lines: seq<Line>): Option<Scan> {
    if lines == [] then Some(s)
    else
      var before := ScanFrom(s, lines[..|lines| - 1]);
      if before.None? then None else Advance(before.value, lines[|lines| - 1])
  }

  const NOTHING := Scan([], None)

  /** The blocks of a document; `None` where the parser refuses, an unterminated block included. */
  function Pieces(lines: seq<Line>): Option<seq<Piece>> {
    var s := ScanFrom(NOTHING, lines);
    if s.Some? && s.value.open.None? then Some(s.value.pieces) else None
  }

  lemma {:induction false} Refused(s: Scan, lines: seq<Line>, n: nat)
    requires n <= |lines| && ScanFrom(s, lines[..n]).None?
    ensures ScanFrom(s, lines).None?
  {
    if n < |lines| {
      assert lines[..|lines| - 1][..n] == lines[..n];
      Refused(s, lines[..|lines| - 1], n);
    } else { assert lines[..n] == lines; }
  }

  method FindBlocks(lines: seq<Line>) returns (found: Option<seq<Piece>>)
    ensures found == Pieces(lines)
  {
    var s, i := NOTHING, 0;
    while i < |lines|
      invariant 0 <= i <= |lines| && ScanFrom(NOTHING, lines[..i]) == Some(s)
    {
      assert lines[..i + 1][..i] == lines[..i];
      var next := Advance(s, lines[i]);
      if next.None? {
        Refused(NOTHING, lines, i + 1);
        return None;
      }
      s, i := next.value, i + 1;
    }
    assert lines[..i] == lines;
    found := if s.open.None? then Some(s.pieces) else None;
  }

  lemma {:induction false} ScanThrough(s: Scan, a: seq<Line>, b: seq<Line>)
    requires ScanFrom(s, a).Some?
    ensures ScanFrom(s, a + b) == ScanFrom(ScanFrom(s, a).value, b)
  {
    if b == [] {
      assert a + b == a;
    } else {
      ScanThrough(s, a, b[..|b| - 1]);
      assert (a + b)[..|a + b| - 1] == a + b[..|b| - 1];
    }
  }

  function OpenLines(s: Scan): seq<Line> { if s.open.None? then [] else s.open.value.1 }

  /** What the scan has read: sound pieces, and the beginning of a block. */
  predicate Reading(s: Scan) {
    && WellFormed(s.pieces)
    && (s.open.Some? ==>
          && !Has(s.pieces, s.open.value.0) && s.open.value.1 != []
            && s.open.value.1[0].text == Marker(s.open.value.0, false)
          && forall i :: 0 < i < |s.open.value.1| ==> !s.open.value.1[i].text.Marker? && !Root(s.open.value.1[i].text))
  }

  lemma WellFormedPlus(ps: seq<Piece>, p: Piece)
    requires WellFormed(ps) && Sound(p) && (p.Managed? ==> !Has(ps, p.name))
    ensures WellFormed(ps + [p]) && Flatten(ps + [p]) == Flatten(ps) + LinesOf(p)
  {
    assert (ps + [p])[..|ps|] == ps;
  }

  lemma AdvanceReads(s: Scan, line: Line)
    requires Reading(s) && Advance(s, line).Some?
    ensures var s' := Advance(s, line).value;
            Reading(s') && Flatten(s'.pieces) + OpenLines(s') == Flatten(s.pieces) + OpenLines(s) + [line]
  {
    hide WellFormed, Flatten;
    var text := line.text;
    if text.Marker? && !text.end {}
    else if text.Marker? {
      var lines := s.open.value.1 + [line];
      assert Block(text.name, lines);
      WellFormedPlus(s.pieces, Managed(text.name, lines));
    }
    else if s.open.None? { WellFormedPlus(s.pieces, Plain(line)); }
    else {}
  }

  /** Parsing loses nothing: the pieces of a document are sound and flatten back to it. */
  lemma {:induction false} ScanReads(lines: seq<Line>)
    requires ScanFrom(NOTHING, lines).Some?
    ensures var s := ScanFrom(NOTHING, lines).value; Reading(s) && Flatten(s.pieces) + OpenLines(s) == lines
  {
    if lines == [] {
    } else {
      var init, last := lines[..|lines| - 1], lines[|lines| - 1];
      ScanReads(init);
      var s := ScanFrom(NOTHING, init).value;
      AdvanceReads(s, last);
      assert ScanFrom(NOTHING, lines) == Advance(s, last);
      hide Reading, Flatten, Advance, ScanFrom, OpenLines;
      assert lines == init + [last];
    }
  }

  lemma PiecesFlatten(lines: seq<Line>)
    requires Pieces(lines).Some?
    ensures WellFormed(Pieces(lines).value) && Flatten(Pieces(lines).value) == lines
  {
    ScanReads(lines);
  }

  lemma {:induction false} ScanBlock(ps: seq<Piece>, name: Name, lines: seq<Line>, n: nat)
    requires Block(name, lines) && !Has(ps, name) && 0 < n < |lines|
    ensures ScanFrom(Scan(ps, None), lines[..n]) == Some(Scan(ps, Some((name, lines[..n]))))
  {
    assert lines[..n][..n - 1] == lines[..n - 1] && lines[..n] == lines[..n - 1] + [lines[n - 1]];
    if n == 1 {
      assert lines[..0] == [];
    } else { ScanBlock(ps, name, lines, n - 1); }
  }

  lemma ScanPiece(ps: seq<Piece>, p: Piece)
    requires Sound(p) && (p.Managed? ==> !Has(ps, p.name))
    ensures ScanFrom(Scan(ps, None), LinesOf(p)) == Some(Scan(ps + [p], None))
  {
    match p
    case Plain(line) => assert [line][..0] == [];
    case Managed(name, lines) =>
      ScanBlock(ps, name, lines, |lines| - 1);
      assert lines == lines[..|lines| - 1] + [lines[|lines| - 1]];
  }

  lemma LastSound(ps: seq<Piece>)
    requires WellFormed(ps) && ps != []
    ensures var init, last := ps[..|ps| - 1], ps[|ps| - 1];
            WellFormed(init) && Sound(last) && (last.Managed? ==> !Has(init, last.name)) && ps == init + [last]
  {}

  lemma FlattenLast(ps: seq<Piece>, p: Piece)
    ensures Flatten(ps + [p]) == Flatten(ps) + LinesOf(p)
  {
    assert (ps + [p])[..|ps|] == ps;
  }

  lemma {:induction false} ScanFlatten(ps: seq<Piece>)
    requires WellFormed(ps)
    ensures ScanFrom(NOTHING, Flatten(ps)) == Some(Scan(ps, None))
  {
    if ps != [] {
      var init, last := ps[..|ps| - 1], ps[|ps| - 1];
      LastSound(ps);
      hide *;
      ScanFlatten(init);
      ScanThrough(NOTHING, Flatten(init), LinesOf(last));
      ScanPiece(init, last);
      FlattenLast(init, last);
    }
  }

  /** Parsing invents nothing: what sound pieces flatten to parses back to them. */
  lemma FlattenPieces(ps: seq<Piece>)
    requires WellFormed(ps)
    ensures Pieces(Flatten(ps)) == Some(ps)
  {
    ScanFlatten(ps);
  }

  lemma LastApart(a: seq<Piece>, b: seq<Piece>)
    requires b != []
    ensures var init, last := b[..|b| - 1], b[|b| - 1]; a + b == a + init + [last] && b == init + [last]
  {}

  lemma Joined(a: seq<Line>, b: seq<Line>, c: seq<Line>)
    ensures a + b + c == a + (b + c)
  {}

  lemma {:induction false} FlattenPlus(a: seq<Piece>, b: seq<Piece>)
    ensures Flatten(a + b) == Flatten(a) + Flatten(b)
  {
    if b == [] {
      assert a + b == a;
    } else {
      hide *;
      var init, last := b[..|b| - 1], b[|b| - 1];
      FlattenPlus(a, init);
      FlattenLast(a + init, last);
      FlattenLast(init, last);
      LastApart(a, b);
      Joined(Flatten(a), Flatten(init), LinesOf(last));
    }
  }
}
