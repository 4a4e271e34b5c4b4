/** Where block replacement does not meet its promise: a file without a final line end. */
module BlockLimits {
  import opened Common
  import opened ManagedBlocks
  import opened ConfigBlocks
  import opened BlockLaws
  import opened BlockRoundTrips
  import opened BlockHistories

  const KEY := Plain(Line(SensorKey, Lf))
  const BODY: seq<Text> := [Other(2, 0, true)]

  function Last(eol: Eol): Piece { Plain(Line(Other(2, 1, true), eol)) }

  function Lines(name: Name, note: bool, eol: Eol): seq<Line> {
    [Line(Marker(name, false), Lf)] + (if note then [Line(Separator(2), Lf)] else [])
    + [Line(Other(2, 0, true), Lf), Line(Marker(name, true), eol)]
  }

  function Block(name: Name, note: bool, eol: Eol): Piece { Managed(name, Lines(name, note, eol)) }

  /** No final line end; then with the aggregates; then with the overrides in front of them;
      then without the aggregates; then without the overrides. */
  const BARE := [KEY, Last(NoEol)]
  const TOTALS := [KEY, Last(Lf), Block(Aggregates, true, Lf)]
  const BOTH := [KEY, Last(Lf), Block(PhaseOverrides, false, Lf), Block(Aggregates, true, Lf)]
  const CUT := [KEY, Last(Lf), Block(PhaseOverrides, false, NoEol)]
  const ENDED := [KEY, Last(Lf)]

  /** A file of this shape, and its section. */
  predicate Shaped(ps: seq<Piece>) {
    && |ps| >= 2 && ps[0] == KEY && ps[1].Plain? && ps[1].line.text.Other?
    && (forall i :: 2 <= i < |ps| ==> ps[i].Managed? && Sound(ps[i]))
    && forall i, j :: 2 <= i < j < |ps| ==> Rank(ps[i].name) < Rank(ps[j].name)
  }

  lemma ShapedParses(ps: seq<Piece>)
    requires Shaped(ps)
    ensures Pieces(Flatten(ps)) == Some(ps) && Layout(ps) && SensorSection(ps) == Some(Section(1, |ps|))
  {
    hide Flatten, Pieces;
    FlattenPieces(ps);
    FirstIs(ps, 0, IsSensor, 0);
    FirstIs(ps, 1, IsSensor, |ps|);
    FirstIs(ps, 1, IsRoot, |ps|);
  }

  lemma FlattenOne(a: Piece)
    ensures Flatten([a]) == LinesOf(a)
  {
    FlattenLast([], a);
    assert [] + [a] == [a] && [] + LinesOf(a) == LinesOf(a);
  }

  lemma FlattenTwo(a: Piece, b: Piece)
    ensures Flatten([a, b]) == LinesOf(a) + LinesOf(b)
  {
    FlattenOne(a);
    FlattenLast([a], b);
    assert [a] + [b] == [a, b];
  }

  lemma FlattenThree(a: Piece, b: Piece, c: Piece)
    ensures Flatten([a, b, c]) == LinesOf(a) + LinesOf(b) + LinesOf(c)
  {
    hide Flatten;
    FlattenTwo(a, b);
    assert [a, b, c] == [a, b] + [c];
    FlattenLast([a, b], c);
  }

  lemma NoCarriage(lines: seq<Line>)
    requires forall i :: 0 <= i < |lines| ==> !lines[i].eol.CrLf?
    ensures Newline(lines) == Lf
  {}

  lemma PlainBody(name: Name)
    ensures ValidBody(BODY) && NewBlock(name, BODY, Lf, false) == Lines(name, false, Lf)
  {
    assert Inside(BODY, Lf, false) == [Line(Other(2, 0, true), Lf)];
  }

  lemma NotedBody(name: Name)
    ensures ValidBody([Separator(2)] + BODY)
        && NewBlock(name, [Separator(2)] + BODY, Lf, false) == Lines(name, true, Lf)
  {
    var body := [Separator(2)] + BODY;
    assert body == [Separator(2), Other(2, 0, true)];
    assert Inside(body, Lf, false) == [Line(Separator(2), Lf), Line(Other(2, 0, true), Lf)];
  }

  /** The aggregates go to the end of a file without a final line end. */
  lemma PutTotals()
    ensures Replace(Flatten(BARE), Aggregates, BODY, false) == Result.Ok(Flatten(TOTALS))
  {
    hide Flatten, Pieces, Layout, SensorSection, Newline, NewBlock, ValidBody;
    ShapedParses(BARE);
    FirstIs(BARE, 0, IsBlock(Aggregates), 2);
    FlattenTwo(KEY, Last(NoEol));
    FlattenThree(KEY, Last(Lf), Block(Aggregates, true, Lf));
    var all := Flatten(BARE);
    NoCarriage(all);
    NotedBody(Aggregates);
    PlainBody(Aggregates);
    assert [] + BODY == BODY;
    assert Terminated(all, Lf) == [KEY.line, Last(Lf).line];
    AbsentReplace(all, BARE, Aggregates, BODY, false);
    assert Insert(all, BARE, Aggregates, BODY, false).value == Terminated(all, Lf) + Lines(Aggregates, true, Lf);
    assert LinesOf(KEY) + LinesOf(Last(Lf)) == Terminated(all, Lf);
  }

  /** The overrides go in front of the aggregates. */
  lemma PutOverrides()
    ensures Replace(Flatten(TOTALS), PhaseOverrides, BODY, false) == Result.Ok(Flatten(BOTH))
  {
    hide Flatten, Pieces, Layout, SensorSection, Newline, NewBlock, ValidBody;
    ShapedParses(TOTALS);
    FirstIs(TOTALS, 0, IsBlock(PhaseOverrides), 3);
    FirstIs(TOTALS, 0, IsBlock(CalibratedVoltageGains), 3);
    FirstIs(TOTALS, 0, IsBlock(CalibratedOffsets), 3);
    FirstIs(TOTALS, 0, IsBlock(Aggregates), 2);
    FlattenThree(KEY, Last(Lf), Block(Aggregates, true, Lf));
    FlattenTwo(KEY, Last(Lf));
    FlattenThree(KEY, Last(Lf), Block(PhaseOverrides, false, Lf));
    FlattenLast([KEY, Last(Lf), Block(PhaseOverrides, false, Lf)], Block(Aggregates, true, Lf));
    FlattenOne(Block(Aggregates, true, Lf));
    NoCarriage(Flatten(TOTALS));
    PlainBody(PhaseOverrides);
    assert [] + BODY == BODY;
    assert TOTALS[..2] == [KEY, Last(Lf)] && TOTALS[2..] == [Block(Aggregates, true, Lf)];
    assert BOTH == [KEY, Last(Lf), Block(PhaseOverrides, false, Lf)] + [Block(Aggregates, true, Lf)];
    AbsentReplace(Flatten(TOTALS), TOTALS, PhaseOverrides, BODY, false);
    assert Later(TOTALS, 2) == Some(2);
  }

  lemma FlattenNothing()
    ensures Flatten([]) == []
  {}

  /** The note of the aggregates takes the line end of the overrides along, not the one that
      the file did not have. */
  lemma TakeTotals()
    ensures Replace(Flatten(BOTH), Aggregates, [], false) == Result.Ok(Flatten(CUT))
  {
    hide Flatten, Pieces, Layout, SensorSection, Newline;
    ShapedParses(BOTH);
    FirstIs(BOTH, 0, IsBlock(Aggregates), 3);
    FlattenThree(KEY, Last(Lf), Block(PhaseOverrides, false, Lf));
    FlattenThree(KEY, Last(Lf), Block(PhaseOverrides, false, NoEol));
    FlattenLast([KEY, Last(Lf), Block(PhaseOverrides, false, Lf)], Block(Aggregates, true, Lf));
    assert BOTH == [KEY, Last(Lf), Block(PhaseOverrides, false, Lf)] + [Block(Aggregates, true, Lf)];
    assert BOTH[..3] == [KEY, Last(Lf), Block(PhaseOverrides, false, Lf)] && BOTH[4..] == [];
    FlattenNothing();
    NoCarriage(Flatten(BOTH));
    ReplaceRemoves(Flatten(BOTH), BOTH, Aggregates, 3, Section(1, 4), false);
    assert Stripped(Flatten(BOTH[..3]), Lf) == Flatten(CUT);
    assert Flatten(CUT) + [] == Flatten(CUT);
  }

  lemma TakeOverrides()
    ensures Replace(Flatten(CUT), PhaseOverrides, [], false) == Result.Ok(Flatten(ENDED))
  {
    hide Flatten, Pieces, Layout, SensorSection, Newline;
    ShapedParses(CUT);
    FirstIs(CUT, 0, IsBlock(PhaseOverrides), 2);
    assert CUT[..2] == ENDED && CUT[3..] == [];
    FlattenNothing();
    ReplaceRemoves(Flatten(CUT), CUT, PhaseOverrides, 2, Section(1, 3), false);
    assert Flatten(ENDED) + [] == Flatten(ENDED);
  }

  lemma EditedThen(lines: seq<Line>, edits: seq<Edit>, e: Edit)
    ensures Edited(lines, []) == Result.Ok(lines)
    ensures Edited(lines, edits).Ok?
        ==> Edited(lines, edits + [e]) == Replace(Edited(lines, edits).value, e.name, e.body, e.margin)
  {
    hide Replace;
    assert (edits + [e])[..|edits|] == edits;
  }

  /** Two blocks put into a file without a final line end and taken out in the same order leave
      a file that has one: each single removal would have undone its own insertion. */
  lemma OtherLineEnd()
    ensures Document(Flatten(BARE)) && Unterminated(Flatten(BARE))
    ensures Edited(Flatten(BARE), [Edit(Aggregates, BODY, false), Edit(PhaseOverrides, BODY, false),
                                   Edit(Aggregates, [], false), Edit(PhaseOverrides, [], false)])
                                     == Result.Ok(Flatten(ENDED))
    ensures Flatten(ENDED) != Flatten(BARE)
  {
    hide Flatten, Replace;
    PutTotals();
    PutOverrides();
    TakeTotals();
    TakeOverrides();
    FlattenTwo(KEY, Last(NoEol));
    FlattenTwo(KEY, Last(Lf));
    assert Flatten(BARE)[1] != Flatten(ENDED)[1];
    var four := [Edit(Aggregates, BODY, false), Edit(PhaseOverrides, BODY, false), Edit(Aggregates, [], false),
      Edit(PhaseOverrides, [], false)];
    EditedThen(Flatten(BARE), [], four[0]);
    EditedThen(Flatten(BARE), four[..1], four[1]);
    EditedThen(Flatten(BARE), four[..2], four[2]);
    EditedThen(Flatten(BARE), four[..3], four[3]);
    assert four[..1] == [] + [four[0]] && four[..2] == four[..1] + [four[1]] && four[..3] == four[..2] + [four[2]]
      && four == four[..3] + [four[3]];
  }
}
