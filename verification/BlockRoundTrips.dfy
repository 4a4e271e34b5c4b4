/** The round trips of block replacement on whole documents. */
module BlockRoundTrips {
  import opened Common
  import opened ManagedBlocks
  import opened ConfigBlocks
  import opened BlockLaws

  lemma NewBlockSound(name: Name, body: seq<Text>, eol: Eol, margin: bool)
    requires ValidBody(body)
    ensures var lines := NewBlock(name, body, eol, margin);
            && Block(name, lines) && |lines| == |body| + 2
            && (lines[1].text.Separator? <==> body != [] && body[0].Separator?)
            && forall i :: 0 <= i < |lines| ==> lines[i].eol == eol
  {
    var lines := NewBlock(name, body, eol, margin);
    forall i | 0 < i < |lines| - 1
      ensures lines[i] == Line(Dedent(body[i - 1], margin), eol) && !lines[i].text.Marker? && !Root(lines[i].text)
    {
      assert body[i - 1] in body && Nested(body[i - 1]);
    }
  }

  // ----------------------------------------------------- giving the file a line end

  predicate SameShape(ps: seq<Piece>, qs: seq<Piece>) {
    && |ps| == |qs|
    && forall i :: 0 <= i < |ps| ==>
         && (ps[i].Plain? <==> qs[i].Plain?)
         && (ps[i].Plain? ==> ps[i].line.text == qs[i].line.text)
         && (ps[i].Managed? ==> ps[i].name == qs[i].name)
  }

  lemma FirstSame(ps: seq<Piece>, qs: seq<Piece>, start: nat, kind: Kind)
    requires SameShape(ps, qs) && start <= |ps|
    ensures First(ps, start, kind) == First(qs, start, kind)
  {
    forall i | 0 <= i < |ps| ensures Is(ps[i], kind) <==> Is(qs[i], kind) {}
    FirstIs(qs, start, kind, First(ps, start, kind));
  }

  lemma BoundsSame(ps: seq<Piece>, qs: seq<Piece>)
    requires SameShape(ps, qs)
    ensures SensorSection(ps) == SensorSection(qs) && |ps| == |qs|
  {
    hide First, Is;
    FirstSame(ps, qs, 0, IsSensor);
    var s := First(ps, 0, IsSensor);
    if s < |ps| {
      FirstSame(ps, qs, s + 1, IsSensor);
      FirstSame(ps, qs, s + 1, IsRoot);
    }
  }

  lemma BlockSame(ps: seq<Piece>, qs: seq<Piece>, name: Name)
    requires SameShape(ps, qs)
    ensures BlockAt(ps, name) == BlockAt(qs, name)
  {
    hide First;
    FirstSame(ps, qs, 0, IsBlock(name));
  }

  lemma LayoutSame(ps: seq<Piece>, qs: seq<Piece>)
    requires SameShape(ps, qs) && SensorSection(ps) == SensorSection(qs)
    ensures Layout(ps) <==> Layout(qs)
  {
    assert forall i :: 0 <= i < |ps| ==> (Placed(ps[i]) <==> Placed(qs[i]));
    hide SensorSection, Rank;
    assert Sorted(ps) <==> Sorted(qs);
  }

  lemma SectionSame(ps: seq<Piece>, qs: seq<Piece>)
    requires SameShape(ps, qs)
    ensures SensorSection(ps) == SensorSection(qs)
    ensures forall name :: BlockAt(ps, name) == BlockAt(qs, name)
    ensures Layout(ps) <==> Layout(qs)
  {
    hide *;
    BoundsSame(ps, qs);
    forall name ensures BlockAt(ps, name) == BlockAt(qs, name) { BlockSame(ps, qs, name); }
    LayoutSame(ps, qs);
  }

  lemma {:induction false} LaterSame(ps: seq<Piece>, qs: seq<Piece>, rank: nat)
    requires SameShape(ps, qs) && rank <= 5
    ensures Later(ps, rank) == Later(qs, rank)
    decreases 5 - rank
  {
    SectionSame(ps, qs);
    if rank < 5 { LaterSame(ps, qs, rank + 1); }
  }

  lemma {:induction false} EarlierSame(ps: seq<Piece>, qs: seq<Piece>, rank: nat)
    requires SameShape(ps, qs) && rank <= 5
    ensures Earlier(ps, rank) == Earlier(qs, rank)
  {
    SectionSame(ps, qs);
    if rank > 0 { EarlierSame(ps, qs, rank - 1); }
  }

  function Ended(p: Piece, eol: Eol): Piece
    requires LinesOf(p) != []
  {
    match p
    case Plain(line) => Plain(line.(eol := eol))
    case Managed(name, lines) => Managed(name, Terminated(lines, eol))
  }

  /** The pieces of a file whose last line gets a line end. */
  function TerminatedPieces(ps: seq<Piece>, eol: Eol): seq<Piece>
    requires ps != [] && LinesOf(ps[|ps| - 1]) != []
  {
    ps[..|ps| - 1] + [Ended(ps[|ps| - 1], eol)]
  }

  lemma TerminatedIs(ps: seq<Piece>, eol: Eol)
    requires ps != [] && LinesOf(ps[|ps| - 1]) != []
    ensures TerminatedPieces(ps, eol) == ps[..|ps| - 1] + [Ended(ps[|ps| - 1], eol)]
  {}

  lemma TerminatedLast(a: seq<Line>, b: seq<Line>, eol: Eol)
    requires b != []
    ensures a + Terminated(b, eol) == Terminated(a + b, eol) && a + b != []
  {}

  lemma TerminatedFlatten(ps: seq<Piece>, p: Piece, eol: Eol)
    requires LinesOf(p) != []
    ensures Flatten(ps + [p]) != [] && Flatten(ps + [Ended(p, eol)]) == Terminated(Flatten(ps + [p]), eol)
  {
    assert LinesOf(Ended(p, eol)) == Terminated(LinesOf(p), eol);
    hide Flatten, LinesOf, Terminated, Ended;
    FlattenLast(ps, p);
    FlattenLast(ps, Ended(p, eol));
    TerminatedLast(Flatten(ps), LinesOf(p), eol);
  }

  lemma EndedSound(p: Piece, eol: Eol)
    requires Sound(p)
    ensures LinesOf(p) != [] && Sound(Ended(p, eol)) && LinesOf(Ended(p, eol)) == Terminated(LinesOf(p), eol)
  {}

  lemma EndedShape(ps: seq<Piece>, eol: Eol)
    requires ps != [] && WellFormed(ps)
    ensures LinesOf(ps[|ps| - 1]) != [] && WellFormed(TerminatedPieces(ps, eol))
        && SameShape(ps, TerminatedPieces(ps, eol))
  {
    EndedSound(ps[|ps| - 1], eol);
    var qs := TerminatedPieces(ps, eol);
    assert forall i :: 0 <= i < |ps| - 1 ==> qs[i] == ps[i];
  }

  lemma TerminatedSound(ps: seq<Piece>, eol: Eol)
    requires ps != [] && WellFormed(ps)
    ensures LinesOf(ps[|ps| - 1]) != [] && Flatten(ps) != []
    ensures var qs := TerminatedPieces(ps, eol);
        WellFormed(qs) && SameShape(ps, qs) && Flatten(qs) == Terminated(Flatten(ps), eol)
  {
    hide *;
    EndedShape(ps, eol);
    var init, last := ps[..|ps| - 1], ps[|ps| - 1];
    TerminatedIs(ps, eol);
    TerminatedFlatten(init, last, eol);
    assert ps == init + [last];
  }

  // ------------------------------------------------------------- where a block lands

  /** The block would stand behind a last line without a line end. */
  predicate AtEnd(lines: seq<Line>, ps: seq<Piece>, position: nat) { position == |ps| && Unterminated(lines) }

  function Base(lines: seq<Line>, ps: seq<Piece>, position: nat): seq<Piece>
    requires ps != [] && LinesOf(ps[|ps| - 1]) != []
  {
    if AtEnd(lines, ps, position) then TerminatedPieces(ps, Newline(lines)) else ps
  }

  function Written(lines: seq<Line>, ps: seq<Piece>, position: nat, name: Name, body: seq<Text>,
                   margin: bool): seq<Line>
    requires ValidBody(body)
  {
    NewBlock(name, (if AtEnd(lines, ps, position) then [Separator(2)] else []) + body, Newline(lines), margin)
  }

  /** A document before a block is put into it. */
  predicate Ready(lines: seq<Line>, ps: seq<Piece>, name: Name, section: Section) {
    Pieces(lines) == Some(ps) && Layout(ps) && BlockAt(ps, name) == |ps| && SensorSection(ps) == Some(section)
  }

  lemma AtTheEnd(ps: seq<Piece>, position: nat, lines: seq<Line>)
    requires position == |ps|
    ensures ps[..position] == ps && Flatten(ps[position..]) == [] && lines + Flatten(ps[position..]) == lines
  {}

  lemma SomePieces(ps: seq<Piece>, section: Section)
    requires SensorSection(ps) == Some(section)
    ensures ps != []
  {}

  lemma WrittenSound(lines: seq<Line>, ps: seq<Piece>, position: nat, name: Name, body: seq<Text>, margin: bool)
    requires ValidBody(body)
    ensures Block(name, Written(lines, ps, position, name, body, margin))
  {
    assert Nested(Separator(2));
    NewBlockSound(name, (if AtEnd(lines, ps, position) then [Separator(2)] else []) + body, Newline(lines), margin);
  }

  lemma PositionSame(ps: seq<Piece>, qs: seq<Piece>, name: Name, section: Section)
    requires SameShape(ps, qs) && section.start <= |ps| && section.end <= |ps|
    ensures Position(ps, name, section) == Position(qs, name, section)
  {
    if Rank(name) < 4 {
      LaterSame(ps, qs, Rank(name) + 1);
      EarlierSame(ps, qs, Rank(name));
    }
  }

  lemma InsertLands(base: seq<Piece>, name: Name, section: Section, block: seq<Line>)
    requires WellFormed(base) && Layout(base) && BlockAt(base, name) == |base| && SensorSection(base) == Some(section)
        && Block(name, block)
    ensures var position := Position(base, name, section);
            var qs := InsertAt(base, position, Managed(name, block));
            && Pieces(Flatten(qs)) == Some(qs) && Layout(qs) && BlockAt(qs, name) == position
            && SensorSection(qs) == Some(Section(section.start, section.end + 1))
              && section.start <= position <= section.end
  {
    hide Position, SensorSection, Layout, BlockAt, WellFormed, Pieces, Block, Flatten, Separates, InsertAt;
    var position, p := Position(base, name, section), Managed(name, block);
    PositionFits(base, name, section);
    LayoutInsert(base, name, section, block);
    WellFormedInsert(base, position, p);
    FlattenPieces(InsertAt(base, position, p));
    BlockInsert(base, position, p, name);
    SectionInsert(base, position, p);
  }

  lemma InsertValue(lines: seq<Line>, ps: seq<Piece>, name: Name, body: seq<Text>, margin: bool, section: Section)
    requires SensorSection(ps) == Some(section) && Insert(lines, ps, name, body, margin).Ok? && Flatten(ps) == lines
    ensures var position := Position(ps, name, section);
            && ValidBody(body)
            && Insert(lines, ps, name, body, margin).value ==
               if AtEnd(lines, ps, position) then
                 Terminated(lines, Newline(lines)) + Written(lines, ps, position, name, body, margin)
               else Flatten(ps[..position]) + Written(lines, ps, position, name, body, margin) + Flatten(ps[position..])
  {
    assert [] + body == body;
  }

  lemma BaseLength(lines: seq<Line>, ps: seq<Piece>, position: nat)
    requires ps != [] && LinesOf(ps[|ps| - 1]) != []
    ensures |Base(lines, ps, position)| == |ps|
  {}

  lemma InsertParses(lines: seq<Line>, ps: seq<Piece>, name: Name, body: seq<Text>, margin: bool, section: Section)
    requires Ready(lines, ps, name, section) && Insert(lines, ps, name, body, margin).Ok?
    ensures ps != [] && LinesOf(ps[|ps| - 1]) != [] && ValidBody(body)
    ensures var position := Position(ps, name, section);
            var base, block := Base(lines, ps, position), Written(lines, ps, position, name, body, margin);
            var qs := InsertAt(base, position, Managed(name, block));
            && Insert(lines, ps, name, body, margin).value == Flatten(qs)
            && Pieces(Flatten(qs)) == Some(qs) && Layout(qs) && BlockAt(qs, name) == position
            && SensorSection(qs) == Some(Section(section.start, section.end + 1))
              && section.start <= position <= section.end
            && WellFormed(base) && Flatten(base)
              == (if AtEnd(lines, ps, position) then Terminated(lines, Newline(lines)) else lines)
  {
    hide Position, SensorSection, Layout, BlockAt, WellFormed, Pieces, Written, Insert, TerminatedPieces, Block,
      SameShape, Flatten, Terminated, Newline, InsertAt, Unterminated, ValidBody;
    PiecesFlatten(lines);
    SomePieces(ps, section);
    TerminatedSound(ps, Newline(lines));
    InsertValue(lines, ps, name, body, margin, section);
    var position := Position(ps, name, section);
    var base, block := Base(lines, ps, position), Written(lines, ps, position, name, body, margin);
    WrittenSound(lines, ps, position, name, body, margin);
    if AtEnd(lines, ps, position) {
      SectionSame(ps, base);
      PositionSame(ps, base, name, section);
    }
    BaseLength(lines, ps, position);
    InsertLands(base, name, section, block);
    FlattenInsert(base, position, Managed(name, block));
    if AtEnd(lines, ps, position) { AtTheEnd(base, position, Flatten(base) + block); }
  }

  // --------------------------------------------------------------- removing undoes

  /** Lines that end as the file does leave its line end as it is. */
  lemma NewlineInsert(a: seq<Line>, block: seq<Line>, b: seq<Line>)
    requires forall i :: 0 <= i < |block| ==> block[i].eol == Newline(a + b)
    ensures Newline(a + block + b) == Newline(a + b)
  {
    var all := a + block + b;
    if i :| 0 <= i < |a + b| && (a + b)[i].eol.CrLf? {
      assert all[if i < |a| then i else i + |block|] == (a + b)[i];
    }
    if i :| 0 <= i < |all| && all[i].eol.CrLf? {
      if i < |a| { assert (a + b)[i].eol.CrLf?; }
      else if i >= |a| + |block| { assert (a + b)[i - |block|].eol.CrLf?; }
      else { assert block[i - |a|].eol.CrLf?; }
    }
  }

  lemma NewlineTerminated(lines: seq<Line>)
    requires Unterminated(lines)
    ensures Newline(Terminated(lines, Newline(lines))) == Newline(lines)
  {
    var all := Terminated(lines, Newline(lines));
    if i :| 0 <= i < |lines| && lines[i].eol.CrLf? { assert all[i] == lines[i]; }
    if i :| 0 <= i < |all| && all[i].eol.CrLf? { assert i < |lines| - 1 ==> lines[i] == all[i]; }
  }

  lemma StripUndoes(lines: seq<Line>, eol: Eol)
    requires Document(lines) && Unterminated(lines) && eol != NoEol
    ensures Stripped(Terminated(lines, eol), eol) == lines
  {}

  lemma StripChanges(lines: seq<Line>, eol: Eol)
    requires eol != NoEol
    ensures Stripped(lines, eol) == lines <==> lines == [] || lines[|lines| - 1].eol != eol
  {}

  /** The body itself starts with the note that the helper uses, at the end of a file that had
      its final line end. */
  predicate Misled(lines: seq<Line>, ps: seq<Piece>, position: nat, body: seq<Text>) {
    && position == |ps| && body != [] && body[0].Separator?
    && lines != [] && lines[|lines| - 1].eol == Newline(lines)
  }

  lemma {:induction false} FlattenNone(ps: seq<Piece>)
    requires WellFormed(ps)
    ensures Flatten(ps) == [] <==> ps == []
  {
    if ps != [] { assert Sound(ps[|ps| - 1]); }
  }

  lemma WellFormedPart(ps: seq<Piece>, i: nat, j: nat)
    requires WellFormed(ps) && i <= j <= |ps|
    ensures WellFormed(ps[i..j])
  {}

  lemma InsertAtMeans(ps: seq<Piece>, pos: nat, p: Piece)
    requires pos <= |ps|
    ensures var qs := InsertAt(ps, pos, p);
            |qs| == |ps| + 1 && qs[pos] == p && qs[..pos] == ps[..pos] && qs[pos + 1..] == ps[pos..]
  {}

  lemma TailEmpty(ps: seq<Piece>, pos: nat)
    requires WellFormed(ps) && pos <= |ps|
    ensures Flatten(ps[pos..]) == [] <==> pos == |ps|
    ensures pos == |ps| ==> ps[..pos] == ps
    ensures Flatten(ps[..pos]) + Flatten(ps[pos..]) == Flatten(ps)
  {
    hide *;
    WellFormedPart(ps, pos, |ps|);
    assert ps[pos..|ps|] == ps[pos..];
    FlattenNone(ps[pos..]);
    assert ps[..pos] + ps[pos..] == ps;
    FlattenPlus(ps[..pos], ps[pos..]);
  }

  /** Removing a block in the pieces where it was just put. */
  lemma RemovedInserted(lines: seq<Line>, base: seq<Piece>, position: nat, name: Name, block: seq<Line>)
    requires WellFormed(base) && position <= |base| && Block(name, block)
    ensures InsertAt(base, position, Managed(name, block))[position] == Managed(name, block)
    ensures Removed(lines, InsertAt(base, position, Managed(name, block)), position)
            == if position == |base| && block[1].text.Separator? then Stripped(Flatten(base), Newline(lines))
              else Flatten(base)
  {
    hide Flatten, Stripped, Newline, WellFormed, InsertAt;
    InsertAtMeans(base, position, Managed(name, block));
    TailEmpty(base, position);
    if position == |base| && block[1].text.Separator? {
      assert Stripped(Flatten(base), Newline(lines)) + [] == Stripped(Flatten(base), Newline(lines));
    }
  }

  lemma ReplaceRemoves(d: seq<Line>, qs: seq<Piece>, name: Name, k: nat, section: Section, margin: bool)
    requires Pieces(d) == Some(qs) && Layout(qs) && BlockAt(qs, name) == k < |qs| && SensorSection(qs) == Some(section)
    requires section.start <= k < section.end && qs[k].Managed? && |qs[k].lines| >= 2
    ensures Replace(d, name, [], margin) == Result.Ok(Removed(d, qs, k))
  {
    hide Removed, Layout, Pieces;
  }

  lemma BlockLong(name: Name, block: seq<Line>)
    requires Block(name, block)
    ensures |block| >= 2
  {}

  lemma BaseNewline(lines: seq<Line>, ps: seq<Piece>, base: seq<Piece>, position: nat)
    requires Flatten(base) == if AtEnd(lines, ps, position) then Terminated(lines, Newline(lines)) else lines
    ensures Newline(Flatten(base)) == Newline(lines)
  {
    if AtEnd(lines, ps, position) { NewlineTerminated(lines); }
  }

  lemma InsertedNewline(lines: seq<Line>, ps: seq<Piece>, base: seq<Piece>, position: nat, name: Name, block: seq<Line>)
    requires Flatten(base) == (if AtEnd(lines, ps, position) then Terminated(lines, Newline(lines)) else lines)
    requires position <= |base| && forall i :: 0 <= i < |block| ==> block[i].eol == Newline(lines)
    ensures Newline(Flatten(InsertAt(base, position, Managed(name, block)))) == Newline(lines)
  {
    BaseNewline(lines, ps, base, position);
    FlattenInsert(base, position, Managed(name, block));
    NewlineInsert(Flatten(base[..position]), block, Flatten(base[position..]));
  }

  lemma RemovedEquals(lines: seq<Line>, ps: seq<Piece>, position: nat, body: seq<Text>)
    requires Document(lines) && body != []
    ensures AtEnd(lines, ps, position) ==>
              position == |ps| && Stripped(Terminated(lines, Newline(lines)), Newline(lines)) == lines
                && !Misled(lines, ps, position, body)
    ensures !AtEnd(lines, ps, position) && position == |ps| && body[0].Separator? ==>
              (Stripped(lines, Newline(lines)) == lines <==> !Misled(lines, ps, position, body))
    ensures !AtEnd(lines, ps, position) && !(position == |ps| && body[0].Separator?)
        ==> !Misled(lines, ps, position, body)
  {
    assert Newline(lines) != NoEol;
    hide Newline;
    if AtEnd(lines, ps, position) { StripUndoes(lines, Newline(lines)); } else { StripChanges(lines, Newline(lines)); }
  }

  lemma WrittenFirst(lines: seq<Line>, ps: seq<Piece>, position: nat, name: Name, body: seq<Text>, margin: bool)
    requires ValidBody(body) && body != []
    ensures var block := Written(lines, ps, position, name, body, margin);
            && Block(name, block) && (block[1].text.Separator? <==> AtEnd(lines, ps, position) || body[0].Separator?)
            && forall i :: 0 <= i < |block| ==> block[i].eol == Newline(lines)
  {
    assert Nested(Separator(2));
    NewBlockSound(name, (if AtEnd(lines, ps, position) then [Separator(2)] else []) + body, Newline(lines), margin);
  }

  /** Removing the block just inserted gives back the original document, the final line end or
      its absence included, exactly unless the body pretends that there was none. */
  lemma RemoveUndoesInsert(lines: seq<Line>, ps: seq<Piece>, name: Name, body: seq<Text>, margin: bool,
                           section: Section)
    requires Document(lines) && Ready(lines, ps, name, section) && body != []
        && Insert(lines, ps, name, body, margin).Ok?
    ensures var r := Replace(Insert(lines, ps, name, body, margin).value, name, [], margin);
            && r.Ok? && (r.value == lines <==> !Misled(lines, ps, Position(ps, name, section), body))
            && (Misled(lines, ps, Position(ps, name, section), body) ==> r.value == Stripped(lines, Newline(lines)))
  {
    hide Position, Layout, BlockAt, WellFormed, Pieces, Written, Insert, TerminatedPieces, Block, SameShape, Flatten,
      SensorSection, Newline, Base, Replace, Removed, Stripped, Terminated, Document, AtEnd;
    InsertParses(lines, ps, name, body, margin, section);
    var position := Position(ps, name, section);
    var base, block := Base(lines, ps, position), Written(lines, ps, position, name, body, margin);
    BaseLength(lines, ps, position);
    var qs, d := InsertAt(base, position, Managed(name, block)), Insert(lines, ps, name, body, margin).value;
    WrittenFirst(lines, ps, position, name, body, margin);
    InsertedNewline(lines, ps, base, position, name, block);
    RemovedInserted(d, base, position, name, block);
    InsertAtMeans(base, position, Managed(name, block));
    BlockLong(name, block);
    ReplaceRemoves(d, qs, name, position, Section(section.start, section.end + 1), margin);
    RemovedEquals(lines, ps, position, body);
  }

  // ------------------------------------------------------------- replacing in place

  function Without(ps: seq<Piece>, k: nat): seq<Piece>
    requires k < |ps|
  {
    ps[..k] + ps[k + 1..]
  }

  lemma ExchangeShape(ps: seq<Piece>, k: nat, name: Name, block: seq<Line>)
    requires WellFormed(ps) && k < |ps| && ps[k].Managed? && ps[k].name == name && Block(name, block)
    ensures WellFormed(ps[k := Managed(name, block)]) && SameShape(ps, ps[k := Managed(name, block)])
  {}

  lemma CutApart(ps: seq<Piece>, k: nat)
    requires k < |ps|
    ensures ps == ps[..k] + [ps[k]] + ps[k + 1..]
  {}

  lemma Split(ps: seq<Piece>, k: nat)
    requires k < |ps|
    ensures Flatten(ps) == Flatten(ps[..k]) + LinesOf(ps[k]) + Flatten(ps[k + 1..])
  {
    hide *;
    CutApart(ps, k);
    FlattenLast(ps[..k], ps[k]);
    FlattenPlus(ps[..k] + [ps[k]], ps[k + 1..]);
  }

  /** A block exchanged in place: the pieces keep their shape, and the new block is there. */
  lemma ExchangeParses(ps: seq<Piece>, k: nat, name: Name, block: seq<Line>)
    requires WellFormed(ps) && Layout(ps) && k < |ps| && ps[k].Managed? && ps[k].name == name && Block(name, block)
    ensures var qs := ps[k := Managed(name, block)];
            && Flatten(qs) == Flatten(ps[..k]) + block + Flatten(ps[k + 1..]) && Pieces(Flatten(qs)) == Some(qs)
              && Layout(qs)
            && SensorSection(qs) == SensorSection(ps) && BlockAt(qs, name) == BlockAt(ps, name)
            && qs[..k] == ps[..k] && qs[k + 1..] == ps[k + 1..]
  {
    var qs := ps[k := Managed(name, block)];
    ExchangeShape(ps, k, name, block);
    SectionSame(ps, qs);
    hide WellFormed, Layout, SensorSection, BlockAt, Flatten, Pieces, Block, SameShape;
    FlattenPieces(qs);
    Split(qs, k);
  }

  lemma FoundThere(ps: seq<Piece>, name: Name)
    requires BlockAt(ps, name) < |ps|
    ensures ps[BlockAt(ps, name)].Managed? && ps[BlockAt(ps, name)].name == name
  {}

  /** The new text of a document whose block is exchanged uses the same line end. */
  lemma ExchangeNewline(a: seq<Line>, was: seq<Line>, b: seq<Line>, block: seq<Line>)
    requires block != [] && forall i :: 0 <= i < |block| ==> block[i].eol == Newline(a + was + b)
    ensures Newline(a + block + b) == Newline(a + was + b)
  {
    var all, olds := a + block + b, a + was + b;
    assert all[|a|] == block[0];
    if i :| 0 <= i < |all| && all[i].eol.CrLf? {
      if i < |a| { assert olds[i].eol.CrLf?; }
      else if i >= |a| + |block| { assert olds[i - |block| + |was|].eol.CrLf?; }
      else { assert block[i - |a|].eol.CrLf?; }
    }
  }

  /** An existing block other than the aggregates: what a replacement computes. */
  predicate InPlace(lines: seq<Line>, ps: seq<Piece>, name: Name, k: nat, section: Section) {
    && Pieces(lines) == Some(ps) && Layout(ps) && SensorSection(ps) == Some(section)
    && BlockAt(ps, name) == k < |ps| && section.start <= k < section.end && !name.Aggregates?
  }

  lemma SoundBlock(ps: seq<Piece>, k: nat)
    requires WellFormed(ps) && k < |ps| && ps[k].Managed?
    ensures |ps[k].lines| >= 2
  {
    assert Sound(ps[k]);
  }

  lemma InPlaceValue(lines: seq<Line>, ps: seq<Piece>, name: Name, k: nat, section: Section, body: seq<Text>,
                     margin: bool)
    requires InPlace(lines, ps, name, k, section) && body != []
    ensures ps[k].Managed? && |ps[k].lines| >= 2
    ensures Replace(lines, name, body, margin)
         == if ValidBody(body) then
           Result.Ok(Flatten(ps[..k]) + NewBlock(name, body, Newline(lines), margin) + Flatten(ps[k + 1..]))
            else Refusal
  {
    hide Flatten, NewBlock, ValidBody, Layout, Newline, Insert, Place, Removed, BlockAt, SensorSection, Pieces,
      WellFormed;
    PiecesFlatten(lines);
    FoundThere(ps, name);
    SoundBlock(ps, k);
  }

  /** Putting a block in place twice is putting it once, with the last body. */
  lemma ExchangeTwice(lines: seq<Line>, ps: seq<Piece>, name: Name, k: nat, section: Section, first: seq<Text>,
                      second: seq<Text>, margin: bool)
    requires InPlace(lines, ps, name, k, section) && first != [] && second != []
        && Replace(lines, name, first, margin).Ok?
    ensures Replace(Replace(lines, name, first, margin).value, name, second, margin)
        == Replace(lines, name, second, margin)
  {
    PiecesFlatten(lines);
    InPlaceValue(lines, ps, name, k, section, first, margin);
    InPlaceValue(lines, ps, name, k, section, second, margin);
    FoundThere(ps, name);
    hide Replace, WellFormed, Layout, SensorSection, BlockAt, Flatten, Pieces, Block, NewBlock, Newline, ValidBody;
    var block := NewBlock(name, first, Newline(lines), margin);
    NewBlockSound(name, first, Newline(lines), margin);
    ExchangeParses(ps, k, name, block);
    var qs := ps[k := Managed(name, block)];
    InPlaceValue(Flatten(qs), qs, name, k, section, second, margin);
    Split(ps, k);
    BlockLong(name, block);
    ExchangeNewline(Flatten(ps[..k]), LinesOf(ps[k]), Flatten(ps[k + 1..]), block);
  }

  // --------------------------------------------------------------- putting twice

  lemma NewlineNever(lines: seq<Line>)
    ensures Newline(lines) != NoEol
  {}

  /** Behind a final line end a block is put as it is. */
  lemma PlainlyPut(lines: seq<Line>, ps: seq<Piece>, name: Name, body: seq<Text>, margin: bool, section: Section)
    requires Ready(lines, ps, name, section) && Insert(lines, ps, name, body, margin).Ok?
    requires Position(ps, name, section) == |ps| && lines != [] && lines[|lines| - 1].eol == Newline(lines)
    ensures var value := Insert(lines, ps, name, body, margin).value;
            |value| == |lines| + |body| + 2 && value[|value| - 1].eol == Newline(lines) != NoEol
  {
    NewlineNever(lines);
    hide Newline, NewBlock, Pieces, Layout, BlockAt, SensorSection, Position;
    PiecesFlatten(lines);
    InsertValue(lines, ps, name, body, margin, section);
    NewBlockSound(name, body, Newline(lines), margin);
    assert [] + body == body && ps[..|ps|] == ps && Flatten(ps[|ps|..]) == [];
  }

  lemma WrittenSize(lines: seq<Line>, ps: seq<Piece>, position: nat, name: Name, body: seq<Text>, margin: bool)
    requires ValidBody(body)
    ensures |Written(lines, ps, position, name, body, margin)|
            == |body| + 2 + if AtEnd(lines, ps, position) then 1 else 0
  {
    assert Nested(Separator(2));
    NewBlockSound(name, (if AtEnd(lines, ps, position) then [Separator(2)] else []) + body, Newline(lines), margin);
  }

  lemma PlacedParts(lines: seq<Line>, ps: seq<Piece>, position: nat)
    requires WellFormed(ps) && Flatten(ps) == lines && position <= |ps|
    ensures Flatten(ps[..position]) + Flatten(ps[position..]) == lines
    ensures position < |ps| ==> Flatten(ps[position..]) != []
    ensures Unterminated(lines) ==> |Terminated(lines, Newline(lines))| == |lines|
  {
    TailEmpty(ps, position);
  }

  /** A placed block adds its lines, and a note exactly at the end of a file without a final line
      end; elsewhere the end of the file stays as it was. */
  lemma PlacedSize(lines: seq<Line>, ps: seq<Piece>, name: Name, body: seq<Text>, margin: bool)
    requires Pieces(lines) == Some(ps) && Place(lines, name, body, margin).Ok?
    ensures var value := Place(lines, name, body, margin).value;
            && value != [] && (|value| == |lines| + |body| + 2 || |value| == |lines| + |body| + 3)
            && (Unterminated(lines) && |value| == |lines| + |body| + 2 ==> Unterminated(value))
            && (!Unterminated(lines) ==> |value| == |lines| + |body| + 2)
  {
    hide Newline, NewBlock, Pieces, Layout, BlockAt, SensorSection, Position, Terminated;
    var section := SensorSection(ps).value;
    var position := Position(ps, name, section);
    PiecesFlatten(lines);
    InsertValue(lines, ps, name, body, margin, section);
    PlacedParts(lines, ps, position);
    WrittenSize(lines, ps, position, name, body, margin);
  }

  lemma CutSize(lines: seq<Line>, eol: Eol)
    requires Document(lines) && lines != [] && lines[|lines| - 1].eol == eol && eol != NoEol
    ensures var cut := Stripped(lines, eol);
            (|cut| == |lines| && Unterminated(cut)) || (|cut| == |lines| - 1 && !Unterminated(cut))
  {}

  /** Taking a misleading aggregates block out leaves a document to which the next block goes
      differently. */
  lemma MisledDiffers(lines: seq<Line>, ps: seq<Piece>, name: Name, first: seq<Text>, second: seq<Text>, margin: bool,
                      section: Section)
    requires Document(lines) && Ready(lines, ps, name, section) && Misled(lines, ps, Position(ps, name, section), first)
    requires Insert(lines, ps, name, second, margin).Ok?
    ensures Place(Stripped(lines, Newline(lines)), name, second, margin) != Insert(lines, ps, name, second, margin)
  {
    var cut, eol := Stripped(lines, Newline(lines)), Newline(lines);
    var placed, put := Place(cut, name, second, margin), Insert(lines, ps, name, second, margin);
    PlainlyPut(lines, ps, name, second, margin, section);
    if placed.Ok? {
      var found := Pieces(cut).value;
      PlacedSize(cut, found, name, second, margin);
      CutSize(lines, eol);
    }
  }

  lemma InvalidRefused(lines: seq<Line>, name: Name, body: seq<Text>, margin: bool)
    requires !ValidBody(body)
    ensures Place(lines, name, body, margin).Refusal?
  {}

  /** Where the first body fits, only an invalid second one is refused. */
  lemma SecondFits(lines: seq<Line>, ps: seq<Piece>, name: Name, first: seq<Text>, second: seq<Text>, margin: bool)
    requires Insert(lines, ps, name, first, margin).Ok? && Insert(lines, ps, name, second, margin).Refusal?
    ensures !ValidBody(second)
  {
    hide Flatten, NewBlock, Terminated;
  }

  lemma AggregatesAgain(d: seq<Line>, qs: seq<Piece>, name: Name, k: nat, section: Section, body: seq<Text>,
                        margin: bool)
    requires Pieces(d) == Some(qs) && Layout(qs) && BlockAt(qs, name) == k < |qs| && SensorSection(qs) == Some(section)
    requires section.start <= k < section.end && qs[k].Managed? && |qs[k].lines| >= 2 && name.Aggregates? && body != []
    ensures Replace(d, name, body, margin) == Place(Removed(d, qs, k), name, body, margin)
  {
    hide Removed, Layout, Pieces, Place;
  }

  lemma PlaceReady(lines: seq<Line>, ps: seq<Piece>, name: Name, section: Section, body: seq<Text>, margin: bool)
    requires Ready(lines, ps, name, section)
    ensures Place(lines, name, body, margin) == Insert(lines, ps, name, body, margin)
  {
    hide Insert;
  }

  lemma AggregatesTwice(lines: seq<Line>, ps: seq<Piece>, name: Name, first: seq<Text>, second: seq<Text>,
                        margin: bool, section: Section)
    requires Document(lines) && Ready(lines, ps, name, section) && first != [] && second != []
    requires Insert(lines, ps, name, first, margin).Ok? && name.Aggregates?
    ensures
      Replace(Insert(lines, ps, name, first, margin).value, name, second, margin)
      == Insert(lines, ps, name, second, margin)
      <==>
      !Misled(lines, ps, Position(ps, name, section), first) || Insert(lines, ps, name, second, margin).Refusal?
  {
    hide Position, Layout, BlockAt, WellFormed, Pieces, Written, TerminatedPieces, Block, SameShape, Flatten, Insert,
      Replace, Place, SensorSection, Newline, Removed, Stripped, Terminated, Document, NewBlock, ValidBody, InsertAt,
      Base, Misled, AtEnd;
    InsertParses(lines, ps, name, first, margin, section);
    var position, d := Position(ps, name, section), Insert(lines, ps, name, first, margin).value;
    var base, block := Base(lines, ps, position), Written(lines, ps, position, name, first, margin);
    BaseLength(lines, ps, position);
    var qs := InsertAt(base, position, Managed(name, block));
    InsertAtMeans(base, position, Managed(name, block));
    WrittenFirst(lines, ps, position, name, first, margin);
    BlockLong(name, block);
    ReplaceRemoves(d, qs, name, position, Section(section.start, section.end + 1), margin);
    RemoveUndoesInsert(lines, ps, name, first, margin, section);
    AggregatesAgain(d, qs, name, position, Section(section.start, section.end + 1), second, margin);
    PlaceReady(lines, ps, name, section, second, margin);
    if Misled(lines, ps, position, first) {
      if Insert(lines, ps, name, second, margin).Ok? { MisledDiffers(lines, ps, name, first, second, margin, section); }
      else {
        SecondFits(lines, ps, name, first, second, margin);
        InvalidRefused(Stripped(lines, Newline(lines)), name, second, margin);
      }
    }
  }

  lemma InsertBefore(lines: seq<Line>, ps: seq<Piece>, name: Name, first: seq<Text>, second: seq<Text>, margin: bool,
                     section: Section)
    requires SensorSection(ps) == Some(section) && Insert(lines, ps, name, first, margin).Ok? && !name.Aggregates?
    ensures var position := Position(ps, name, section);
            !AtEnd(lines, ps, position)
            && Insert(lines, ps, name, second, margin) ==
               if ValidBody(second) then
                 Result.Ok(Flatten(ps[..position]) + NewBlock(name, second, Newline(lines), margin)
                   + Flatten(ps[position..]))
               else Refusal
  {
    hide Flatten, NewBlock, Newline;
  }

  lemma OtherTwice(lines: seq<Line>, ps: seq<Piece>, name: Name, first: seq<Text>, second: seq<Text>, margin: bool,
                   section: Section)
    requires Document(lines) && Ready(lines, ps, name, section) && first != [] && second != []
    requires Insert(lines, ps, name, first, margin).Ok? && !name.Aggregates?
    ensures Replace(Insert(lines, ps, name, first, margin).value, name, second, margin)
        == Insert(lines, ps, name, second, margin)
  {
    InsertParses(lines, ps, name, first, margin, section);
    var position, d := Position(ps, name, section), Insert(lines, ps, name, first, margin).value;
    var base, block := Base(lines, ps, position), Written(lines, ps, position, name, first, margin);
    BaseLength(lines, ps, position);
    var qs := InsertAt(base, position, Managed(name, block));
    hide Position, Layout, BlockAt, WellFormed, Pieces, Written, TerminatedPieces, Block, SameShape, Flatten,
      SensorSection, Newline, Removed, Stripped, Terminated, Document, NewBlock, ValidBody, InsertAt, Ready, Base;
    InsertAtMeans(base, position, Managed(name, block));
    WrittenFirst(lines, ps, position, name, first, margin);
    BlockLong(name, block);
    InsertedNewline(lines, ps, base, position, name, block);
    InPlaceValue(d, qs, name, position, Section(section.start, section.end + 1), second, margin);
    InsertBefore(lines, ps, name, first, second, margin, section);
  }

  /** A document without the block: what a first replacement does. */
  lemma InsertTwice(lines: seq<Line>, ps: seq<Piece>, name: Name, first: seq<Text>, second: seq<Text>, margin: bool,
                    section: Section)
    requires Document(lines) && Ready(lines, ps, name, section) && first != [] && second != []
    requires Insert(lines, ps, name, first, margin).Ok?
    ensures
      Replace(Insert(lines, ps, name, first, margin).value, name, second, margin)
      == Insert(lines, ps, name, second, margin)
      <==>
      !name.Aggregates?
      || !Misled(lines, ps, Position(ps, name, section), first)
      || Insert(lines, ps, name, second, margin).Refusal?
  {
    if name.Aggregates? { AggregatesTwice(lines, ps, name, first, second, margin, section); }
    else { OtherTwice(lines, ps, name, first, second, margin, section); }
  }

  lemma {:induction false} DocumentPart(lines: seq<Line>, n: nat)
    requires Document(lines) && n <= |lines|
    ensures Document(lines[..n]) && Document(lines[n..]) && (n < |lines| ==> !Unterminated(lines[..n]))
  {}

  lemma StrippedDocument(lines: seq<Line>, eol: Eol)
    requires Document(lines) && !Unterminated(lines)
    ensures Document(Stripped(lines, eol))
  {}

  lemma JoinedDocument(a: seq<Line>, b: seq<Line>)
    requires Document(a) && Document(b) && !Unterminated(a)
    ensures Document(a + b)
  {}

  lemma RemovedDocument(lines: seq<Line>, ps: seq<Piece>, k: nat)
    requires Document(lines) && Flatten(ps) == lines && k < |ps| && ps[k].Managed? && |ps[k].lines| >= 2
    ensures Document(Removed(lines, ps, k))
  {
    Split(ps, k);
    var head, tail := Flatten(ps[..k]), Flatten(ps[k + 1..]);
    assert lines[..|head|] == head;
    DocumentPart(lines, |head|);
    assert lines[|head| + |ps[k].lines|..] == tail;
    DocumentPart(lines, |head| + |ps[k].lines|);
    hide Flatten, Newline, Stripped, Document, Unterminated;
    StrippedDocument(head, Newline(lines));
    JoinedDocument(head, tail);
    if tail == [] && ps[k].lines[1].text.Separator? {
      assert Stripped(head, Newline(lines)) + tail == Stripped(head, Newline(lines));
    }
  }

  /** The block of an aggregates replacement is taken out and put in again. */
  lemma AggregatesFound(lines: seq<Line>, ps: seq<Piece>, name: Name, body: seq<Text>, margin: bool)
    requires Pieces(lines) == Some(ps) && BlockAt(ps, name) < |ps| && name.Aggregates? && body != []
    requires Replace(lines, name, body, margin).Ok?
    ensures var k := BlockAt(ps, name);
            && ps[k].Managed? && |ps[k].lines| >= 2
            && forall other: seq<Text> ::
              other != [] ==> Replace(lines, name, other, margin) == Place(Removed(lines, ps, k), name, other, margin)
  {
    PiecesFlatten(lines);
    FoundThere(ps, name);
    SoundBlock(ps, BlockAt(ps, name));
    hide Removed, Layout, Place, BlockAt, SensorSection, Insert, Pieces, WellFormed;
  }

  /** The document without the block. */
  function Cleared(lines: seq<Line>, name: Name): seq<Line>
    requires Pieces(lines).Some?
  {
    var ps := Pieces(lines).value;
    var k := BlockAt(ps, name);
    if k < |ps| && |ps[k].lines| >= 2 then Removed(lines, ps, k) else lines
  }

  /** An aggregates body that starts with the helper's own note goes behind a final line end. */
  predicate Noted(lines: seq<Line>, name: Name, body: seq<Text>) {
    && name.Aggregates? && Pieces(lines).Some? && SensorSection(Pieces(lines).value).Some?
    && Misled(lines, Pieces(lines).value,
      Position(Pieces(lines).value, name, SensorSection(Pieces(lines).value).value), body)
  }

  lemma AbsentReplace(lines: seq<Line>, ps: seq<Piece>, name: Name, body: seq<Text>, margin: bool)
    requires Pieces(lines) == Some(ps) && Layout(ps) && BlockAt(ps, name) == |ps| && body != []
    ensures Replace(lines, name, body, margin) == Insert(lines, ps, name, body, margin)
    ensures Insert(lines, ps, name, body, margin).Ok?
        ==> SensorSection(ps).Some? && Ready(lines, ps, name, SensorSection(ps).value)
  {
    hide Layout, Pieces;
  }

  lemma PlaceTwice(lines: seq<Line>, ps: seq<Piece>, name: Name, k: nat, first: seq<Text>, second: seq<Text>,
                   margin: bool)
    requires Document(lines) && Flatten(ps) == lines && k < |ps| && ps[k].Managed? && |ps[k].lines| >= 2
    requires name.Aggregates? && first != [] && second != []
    requires Place(Removed(lines, ps, k), name, first, margin).Ok?
    ensures
      Replace(Place(Removed(lines, ps, k), name, first, margin).value, name, second, margin)
      == Place(Removed(lines, ps, k), name, second, margin)
      <==>
      !Noted(Removed(lines, ps, k), name, first) || Place(Removed(lines, ps, k), name, second, margin).Refusal?
  {
    RemovedDocument(lines, ps, k);
    var rest := Removed(lines, ps, k);
    var found := Pieces(rest).value;
    var section := SensorSection(found).value;
    assert Ready(rest, found, name, section);
    hide Replace, Insert, Removed, Layout, BlockAt, SensorSection, Pieces, Document, Flatten, Position, Misled;
    PlaceReady(rest, found, name, section, first, margin);
    PlaceReady(rest, found, name, section, second, margin);
    InsertTwice(rest, found, name, first, second, margin, section);
  }

  /** Replacing twice is replacing once with the last body, exactly unless the first body starts
      with the helper's own end-of-file note and lands behind a final line end. */
  lemma ReplaceTwice(lines: seq<Line>, name: Name, first: seq<Text>, second: seq<Text>, margin: bool)
    requires Document(lines) && Replace(lines, name, first, margin).Ok? && first != [] && second != []
    ensures
      Replace(Replace(lines, name, first, margin).value, name, second, margin) == Replace(lines, name, second, margin)
      <==>
      !Noted(Cleared(lines, name), name, first) || Replace(lines, name, second, margin).Refusal?
  {
    hide Layout, WellFormed, Flatten, Document, Insert, Removed, Place, Position, Misled, Pieces, SensorSection,
      BlockAt;
    var ps := Pieces(lines).value;
    var k, section := BlockAt(ps, name), SensorSection(ps);
    PiecesFlatten(lines);
    if k == |ps| {
      AbsentReplace(lines, ps, name, first, margin);
      AbsentReplace(lines, ps, name, second, margin);
      InsertTwice(lines, ps, name, first, second, margin, section.value);
    } else if !name.Aggregates? {
      ExchangeTwice(lines, ps, name, k, section.value, first, second, margin);
    } else {
      AggregatesFound(lines, ps, name, first, margin);
      PlaceTwice(lines, ps, name, k, first, second, margin);
    }
  }
}
