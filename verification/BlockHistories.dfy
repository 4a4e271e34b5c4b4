/** Block replacement over whole histories of edits, and its limits. */
module BlockHistories {
  import opened Common
  import opened ManagedBlocks
  import opened ConfigBlocks
  import opened BlockLaws
  import opened BlockRoundTrips

  // ------------------------------------------------------------- removing undoes

  /** Where a new block would go. */
  function Target(lines: seq<Line>, name: Name): Option<nat> {
    var found := Pieces(lines);
    if found.None? || SensorSection(found.value).None? then None
    else Some(Position(found.value, name, SensorSection(found.value).value))
  }

  /** On every document where a new block can be inserted, removing it gives back the document,
      exactly unless the body starts with the helper's own end-of-file note and lands at the
      end of a file that had its final line end. */
  lemma RemoveUndoes(lines: seq<Line>, name: Name, body: seq<Text>, margin: bool)
    requires Document(lines) && body != [] && Replace(lines, name, body, margin).Ok?
    requires Pieces(lines).Some? && BlockAt(Pieces(lines).value, name) == |Pieces(lines).value|
    ensures Target(lines, name).Some?
    ensures var r := Replace(Replace(lines, name, body, margin).value, name, [], margin);
            r.Ok? && (r.value == lines <==> !Misled(lines, Pieces(lines).value, Target(lines, name).value, body))
  {
    var ps := Pieces(lines).value;
    AbsentReplace(lines, ps, name, body, margin);
    RemoveUndoesInsert(lines, ps, name, body, margin, SensorSection(ps).value);
  }

  // ------------------------------------------------------- what was put is found

  /** The block in the file is the body as written, behind the note that the helper adds at the
      end of a file without a final line end. */
  predicate Holds(lines: seq<Line>, name: Name, body: seq<Text>, margin: bool) {
    && Pieces(lines).Some? && Layout(Pieces(lines).value) && ValidBody(body)
    && var ps := Pieces(lines).value;
       && BlockAt(ps, name) < |ps|
       && (ps[BlockAt(ps, name)] == Managed(name, NewBlock(name, body, Newline(lines), margin))
           || (name.Aggregates? && Nested(Separator(2))
               && ps[BlockAt(ps, name)]
                 == Managed(name, NewBlock(name, [Separator(2)] + body, Newline(lines), margin))))
  }

  lemma HoldsIs(d: seq<Line>, qs: seq<Piece>, k: nat, name: Name, body: seq<Text>, margin: bool, note: bool)
    requires Pieces(d) == Some(qs) && Layout(qs) && ValidBody(body) && BlockAt(qs, name) == k < |qs|
        && (note ==> name.Aggregates?)
    requires Nested(Separator(2))
    requires qs[k] == Managed(name, NewBlock(name, (if note then [Separator(2)] else []) + body, Newline(d), margin))
    ensures Holds(d, name, body, margin)
  {
    assert [] + body == body;
    hide Pieces, Layout, ValidBody, BlockAt, NewBlock, Newline;
  }

  lemma AtEndAggregates(lines: seq<Line>, ps: seq<Piece>, name: Name, body: seq<Text>, margin: bool, section: Section)
    requires Ready(lines, ps, name, section) && Insert(lines, ps, name, body, margin).Ok?
    ensures AtEnd(lines, ps, Position(ps, name, section)) ==> name.Aggregates?
  {
    hide Pieces, Layout, BlockAt;
  }

  lemma InsertFound(lines: seq<Line>, ps: seq<Piece>, name: Name, body: seq<Text>, margin: bool, section: Section)
    requires Ready(lines, ps, name, section) && body != [] && Insert(lines, ps, name, body, margin).Ok?
    ensures Holds(Insert(lines, ps, name, body, margin).value, name, body, margin)
  {
    hide Position, Layout, BlockAt, WellFormed, Pieces, TerminatedPieces, Block, SameShape, Flatten, Insert,
      SensorSection, Newline, Terminated, NewBlock, ValidBody, InsertAt, Base, Holds, AtEnd, Document;
    InsertParses(lines, ps, name, body, margin, section);
    var position := Position(ps, name, section);
    var base, block := Base(lines, ps, position), Written(lines, ps, position, name, body, margin);
    BaseLength(lines, ps, position);
    WrittenFirst(lines, ps, position, name, body, margin);
    InsertAtMeans(base, position, Managed(name, block));
    InsertedNewline(lines, ps, base, position, name, block);
    AtEndAggregates(lines, ps, name, body, margin, section);
    HoldsIs(Flatten(InsertAt(base, position, Managed(name, block))), InsertAt(base, position, Managed(name, block)),
      position, name, body, margin, AtEnd(lines, ps, position));
  }

  lemma ExchangeFound(lines: seq<Line>, ps: seq<Piece>, name: Name, k: nat, section: Section, body: seq<Text>,
                      margin: bool)
    requires InPlace(lines, ps, name, k, section) && body != [] && Replace(lines, name, body, margin).Ok?
    ensures Holds(Replace(lines, name, body, margin).value, name, body, margin)
  {
    PiecesFlatten(lines);
    InPlaceValue(lines, ps, name, k, section, body, margin);
    FoundThere(ps, name);
    hide Replace, WellFormed, Layout, SensorSection, BlockAt, Flatten, Pieces, Block, NewBlock, Newline, ValidBody;
    var block := NewBlock(name, body, Newline(lines), margin);
    NewBlockSound(name, body, Newline(lines), margin);
    ExchangeParses(ps, k, name, block);
    Split(ps, k);
    BlockLong(name, block);
    ExchangeNewline(Flatten(ps[..k]), LinesOf(ps[k]), Flatten(ps[k + 1..]), block);
  }

  lemma PlaceFound(lines: seq<Line>, name: Name, body: seq<Text>, margin: bool)
    requires body != [] && Place(lines, name, body, margin).Ok?
    ensures Holds(Place(lines, name, body, margin).value, name, body, margin)
  {
    var ps := Pieces(lines).value;
    assert Ready(lines, ps, name, SensorSection(ps).value);
    hide Holds, Insert, Ready;
    PlaceReady(lines, ps, name, SensorSection(ps).value, body, margin);
    InsertFound(lines, ps, name, body, margin, SensorSection(ps).value);
  }

  /** Re-parsing finds exactly the body that was written, in a file that is laid out well. */
  lemma PutIsFound(lines: seq<Line>, name: Name, body: seq<Text>, margin: bool)
    requires body != [] && Replace(lines, name, body, margin).Ok?
    ensures Holds(Replace(lines, name, body, margin).value, name, body, margin)
  {
    var ps := Pieces(lines).value;
    var k, section := BlockAt(ps, name), SensorSection(ps);
    PiecesFlatten(lines);
    if k == |ps| {
      AbsentReplace(lines, ps, name, body, margin);
      InsertFound(lines, ps, name, body, margin, section.value);
    } else if !name.Aggregates? { ExchangeFound(lines, ps, name, k, section.value, body, margin); }
    else {
      AggregatesFound(lines, ps, name, body, margin);
      var rest := Removed(lines, ps, k);
      PlaceFound(rest, name, body, margin);
    }
  }

  // ---------------------------------------------------------- any sequence of edits

  /** The lines that belong to no block. */
  function Outside(ps: seq<Piece>): seq<Line> {
    if ps == [] then [] else Outside(ps[..|ps| - 1]) + (var p := ps[|ps| - 1]; if p.Plain? then [p.line] else [])
  }

  function Texts(lines: seq<Line>): (texts: seq<Text>)
    ensures |texts| == |lines| && forall i :: 0 <= i < |lines| ==> texts[i] == lines[i].text
  {
    if lines == [] then [] else Texts(lines[..|lines| - 1]) + [lines[|lines| - 1].text]
  }

  /** What a block says, line ends aside. */
  function Content(ps: seq<Piece>, name: Name): Option<seq<Text>> {
    var k := BlockAt(ps, name);
    if k < |ps| then Some(Texts(ps[k].lines)) else None
  }

  predicate Closed(lines: seq<Line>) { forall i :: 0 <= i < |lines| ==> !lines[i].eol.NoEol? }

  /** No block starts with the end-of-file note. */
  predicate Noteless(ps: seq<Piece>) {
    forall k :: 0 <= k < |ps| && ps[k].Managed? && |ps[k].lines| >= 2 ==> !ps[k].lines[1].text.Separator?
  }

  predicate Tidy(ps: seq<Piece>) { WellFormed(ps) && Layout(ps) && Noteless(ps) && Closed(Flatten(ps)) }

  /** A file with its final line end, laid out well, whose blocks hold no end-of-file note. */
  predicate Calm(lines: seq<Line>) { Pieces(lines).Some? && Tidy(Pieces(lines).value) && Closed(lines) }

  /** Everything but one block is the same. */
  predicate SameBut(ps: seq<Piece>, qs: seq<Piece>, name: Name) {
    Outside(qs) == Outside(ps) && forall other :: other != name ==> Content(qs, other) == Content(ps, other)
  }

  lemma {:induction false} OutsidePlus(a: seq<Piece>, b: seq<Piece>)
    ensures Outside(a + b) == Outside(a) + Outside(b)
  {
    if b == [] {
      assert a + b == a;
    } else {
      OutsidePlus(a, b[..|b| - 1]);
      assert (a + b)[..|a + b| - 1] == a + b[..|b| - 1];
    }
  }

  lemma OutsideNone(p: Piece)
    requires p.Managed?
    ensures Outside([p]) == []
  {
    assert [p][..0] == [];
  }

  lemma OutsideInsert(ps: seq<Piece>, pos: nat, p: Piece)
    requires pos <= |ps| && p.Managed?
    ensures Outside(InsertAt(ps, pos, p)) == Outside(ps)
  {
    hide Outside;
    OutsideNone(p);
    OutsidePlus(ps[..pos] + [p], ps[pos..]);
    OutsidePlus(ps[..pos], [p]);
    OutsidePlus(ps[..pos], ps[pos..]);
    assert ps[..pos] + ps[pos..] == ps;
    assert Outside(ps[..pos]) + [] == Outside(ps[..pos]);
  }

  lemma InsertedContent(ps: seq<Piece>, pos: nat, p: Piece)
    requires pos <= |ps| && p.Managed? && BlockAt(ps, p.name) == |ps|
    ensures SameBut(ps, InsertAt(ps, pos, p), p.name) && Content(ps, p.name).None?
    ensures Content(InsertAt(ps, pos, p), p.name) == Some(Texts(p.lines))
  {
    OutsideInsert(ps, pos, p);
    hide Outside, BlockAt, Texts;
    BlockInsert(ps, pos, p, p.name);
    forall other | other != p.name ensures Content(InsertAt(ps, pos, p), other) == Content(ps, other) {
      BlockInsert(ps, pos, p, other);
    }
  }

  lemma ClosedParts(a: seq<Line>, b: seq<Line>, c: seq<Line>)
    ensures Closed(a + b + c) <==> Closed(a) && Closed(b) && Closed(c)
    ensures Closed(a + c) <==> Closed(a) && Closed(c)
  {
    if Closed(a + b + c) {
      assert forall i :: 0 <= i < |a| ==> (a + b + c)[i] == a[i];
      assert forall i :: 0 <= i < |b| ==> (a + b + c)[|a| + i] == b[i];
      assert forall i :: 0 <= i < |c| ==> (a + b + c)[|a| + |b| + i] == c[i];
    }
    if Closed(a + c) {
      assert forall i :: 0 <= i < |a| ==> (a + c)[i] == a[i];
      assert forall i :: 0 <= i < |c| ==> (a + c)[|a| + i] == c[i];
    }
  }

  lemma CalmTidy(lines: seq<Line>)
    requires Calm(lines)
    ensures Flatten(Pieces(lines).value) == lines && !Unterminated(lines)
  {
    PiecesFlatten(lines);
  }

  lemma TidyCalm(ps: seq<Piece>)
    requires Tidy(ps)
    ensures Calm(Flatten(ps)) && Pieces(Flatten(ps)) == Some(ps)
  {
    FlattenPieces(ps);
  }

  lemma NotelessInsert(ps: seq<Piece>, pos: nat, name: Name, block: seq<Line>)
    requires Noteless(ps) && pos <= |ps| && |block| >= 2 && !block[1].text.Separator?
    ensures Noteless(InsertAt(ps, pos, Managed(name, block)))
  {
    var qs := InsertAt(ps, pos, Managed(name, block));
    assert forall j :: 0 <= j < pos ==> qs[j] == ps[j];
    assert forall j :: pos < j < |qs| ==> qs[j] == ps[j - 1];
  }

  /** A block comes in. */
  lemma TidyInsert(ps: seq<Piece>, name: Name, section: Section, block: seq<Line>)
    requires Tidy(ps) && SensorSection(ps) == Some(section) && BlockAt(ps, name) == |ps|
    requires Block(name, block) && |block| >= 2 && !block[1].text.Separator? && Closed(block)
    ensures var qs := InsertAt(ps, Position(ps, name, section), Managed(name, block));
            Tidy(qs) && SameBut(ps, qs, name) && Content(qs, name) == Some(Texts(block))
  {
    var position, p := Position(ps, name, section), Managed(name, block);
    assert Sound(p);
    NotelessInsert(ps, position, name, block);
    hide Layout, WellFormed, Flatten, Closed, Noteless, Block, SensorSection, BlockAt, Position, SameBut, Content,
      InsertAt;
    LayoutInsert(ps, name, section, block);
    WellFormedInsert(ps, position, p);
    InsertedContent(ps, position, p);
    FlattenInsert(ps, position, p);
    ClosedParts(Flatten(ps[..position]), block, Flatten(ps[position..]));
  }

  // ------------------------------------------------------------------ a block goes

  function Past(j: nat, k: nat): nat { if j < k then j else j + 1 }

  lemma WithoutMeans(ps: seq<Piece>, k: nat)
    requires k < |ps|
    ensures InsertAt(Without(ps, k), k, ps[k]) == ps
    ensures |Without(ps, k)| == |ps| - 1
    ensures forall j :: 0 <= j < |ps| - 1 ==> Without(ps, k)[j] == ps[Past(j, k)]
    ensures Flatten(Without(ps, k)) == Flatten(ps[..k]) + Flatten(ps[k + 1..])
  {
    hide Flatten;
    FlattenPlus(ps[..k], ps[k + 1..]);
  }

  lemma WithoutAbsent(ps: seq<Piece>, k: nat)
    requires WellFormed(ps) && k < |ps| && ps[k].Managed?
    ensures WellFormed(Without(ps, k)) && BlockAt(Without(ps, k), ps[k].name) == |ps| - 1
  {
    hide Flatten;
    WithoutMeans(ps, k);
    var qs := Without(ps, k);
    assert WellFormed(qs) by {
      hide Sound;
      assert forall i :: 0 <= i < |qs| ==> Sound(ps[Past(i, k)]);
    }
    forall j | 0 <= j < |qs| ensures !Is(qs[j], IsBlock(ps[k].name)) {}
  }

  lemma SectionGives(ps: seq<Piece>)
    requires SensorSection(ps).Some?
    ensures var s := First(ps, 0, IsSensor);
            && s < |ps| && First(ps, s + 1, IsSensor) == |ps|
            && SensorSection(ps).value == Section(s + 1, First(ps, s + 1, IsRoot))
  {
    hide First;
  }

  lemma SectionIs(ps: seq<Piece>, s: nat)
    requires First(ps, 0, IsSensor) == s < |ps| && First(ps, s + 1, IsSensor) == |ps|
    ensures SensorSection(ps) == Some(Section(s + 1, First(ps, s + 1, IsRoot)))
  {
    hide First;
  }

  lemma WithoutSection(ps: seq<Piece>, k: nat)
    requires k < |ps| && ps[k].Managed? && SensorSection(ps).Some?
    requires SensorSection(ps).value.start <= k < SensorSection(ps).value.end
    ensures SensorSection(Without(ps, k))
        == Some(Section(SensorSection(ps).value.start, SensorSection(ps).value.end - 1))
  {
    hide Flatten, Without, First, InsertAt, SensorSection;
    SectionGives(ps);
    var qs, s := Without(ps, k), First(ps, 0, IsSensor);
    WithoutMeans(ps, k);
    FirstInsert(qs, k, ps[k], 0, IsSensor);
    FirstInsert(qs, k, ps[k], s + 1, IsSensor);
    FirstInsert(qs, k, ps[k], s + 1, IsRoot);
    SectionIs(qs, s);
  }

  lemma WithoutSorted(ps: seq<Piece>, qs: seq<Piece>, k: nat, section: Section)
    requires Sorted(ps) && Within(ps, section) && k < |ps| && |qs| == |ps| - 1 && section.start <= k < section.end
    requires forall j :: 0 <= j < |qs| ==> qs[j] == ps[Past(j, k)]
    ensures Sorted(qs) && Within(qs, Section(section.start, section.end - 1))
  {
    hide Rank;
    forall i, j | 0 <= i < j < |qs| && Placed(qs[i]) && Placed(qs[j]) ensures Rank(qs[i].name) < Rank(qs[j].name) {
      assert Placed(ps[Past(i, k)]) && Placed(ps[Past(j, k)]);
    }
    forall j | 0 <= j < |qs| && Placed(qs[j]) ensures section.start <= j < section.end - 1 {
      assert Placed(ps[Past(j, k)]);
    }
  }

  lemma WithoutLayout(ps: seq<Piece>, k: nat)
    requires Layout(ps) && k < |ps| && ps[k].Managed? && SensorSection(ps).Some?
    requires SensorSection(ps).value.start <= k < SensorSection(ps).value.end
    ensures Layout(Without(ps, k))
  {
    hide SensorSection, Rank, Flatten, Without, Placed, InsertAt;
    WithoutSection(ps, k);
    WithoutMeans(ps, k);
    WithoutSorted(ps, Without(ps, k), k, SensorSection(ps).value);
  }

  lemma TidyWithout(ps: seq<Piece>, k: nat)
    requires Tidy(ps) && k < |ps| && ps[k].Managed? && SensorSection(ps).Some?
    requires SensorSection(ps).value.start <= k < SensorSection(ps).value.end
    ensures Tidy(Without(ps, k)) && SameBut(ps, Without(ps, k), ps[k].name) && Content(Without(ps, k), ps[k].name).None?
  {
    var qs := Without(ps, k);
    assert Noteless(qs);
    hide Layout, WellFormed, Flatten, Closed, Noteless, SensorSection, BlockAt, Content, InsertAt, Without, Outside;
    WithoutMeans(ps, k);
    WithoutAbsent(ps, k);
    WithoutLayout(ps, k);
    InsertedContent(qs, k, ps[k]);
    Split(ps, k);
    ClosedParts(Flatten(ps[..k]), LinesOf(ps[k]), Flatten(ps[k + 1..]));
  }

  // ---------------------------------------------------------- a block is exchanged

  lemma ExchangeOutside(ps: seq<Piece>, k: nat, p: Piece)
    requires k < |ps| && ps[k].Managed? && p.Managed?
    ensures Outside(ps[k := p]) == Outside(ps)
  {
    hide Outside, Flatten;
    WithoutMeans(ps, k);
    assert ps[k := p] == InsertAt(Without(ps, k), k, p);
    hide InsertAt, Without;
    OutsideInsert(Without(ps, k), k, p);
    OutsideInsert(Without(ps, k), k, ps[k]);
  }

  lemma ExchangeContent(ps: seq<Piece>, k: nat, name: Name, block: seq<Line>)
    requires WellFormed(ps) && k < |ps| && ps[k].Managed? && ps[k].name == name && Block(name, block)
    requires BlockAt(ps, name) == k
    ensures var qs := ps[k := Managed(name, block)]; SameBut(ps, qs, name) && Content(qs, name) == Some(Texts(block))
  {
    hide BlockAt, Outside, Texts, WellFormed, Block, SameShape, Layout, SensorSection;
    var qs := ps[k := Managed(name, block)];
    ExchangeShape(ps, k, name, block);
    SectionSame(ps, qs);
    ExchangeOutside(ps, k, Managed(name, block));
    forall other | other != name ensures Content(qs, other) == Content(ps, other) {
      if BlockAt(ps, other) < |ps| { FoundThere(ps, other); }
    }
  }

  lemma TidyExchange(ps: seq<Piece>, k: nat, name: Name, block: seq<Line>)
    requires Tidy(ps) && k < |ps| && ps[k].Managed? && ps[k].name == name && BlockAt(ps, name) == k
    requires Block(name, block) && |block| >= 2 && !block[1].text.Separator? && Closed(block)
    ensures var qs := ps[k := Managed(name, block)];
            && Tidy(qs) && SameBut(ps, qs, name) && Content(qs, name) == Some(Texts(block))
            && Flatten(qs) == Flatten(ps[..k]) + block + Flatten(ps[k + 1..])
  {
    var qs := ps[k := Managed(name, block)];
    assert Noteless(qs);
    hide Layout, WellFormed, Flatten, Closed, Noteless, SensorSection, BlockAt, Content, Outside, SameBut, Block,
      Pieces;
    ExchangeShape(ps, k, name, block);
    ExchangeParses(ps, k, name, block);
    ExchangeContent(ps, k, name, block);
    Split(ps, k);
    ClosedParts(Flatten(ps[..k]), LinesOf(ps[k]), Flatten(ps[k + 1..]));
    ClosedParts(Flatten(ps[..k]), block, Flatten(ps[k + 1..]));
  }

  // ------------------------------------------------------------------- one edit

  /** What the new block says. */
  function Says(name: Name, body: seq<Text>, margin: bool): Option<seq<Text>>
    requires ValidBody(body)
  {
    if body == [] then None else Some(Texts(NewBlock(name, body, Lf, margin)))
  }

  /** An edit keeps the file calm, sets its block, and leaves everything else. */
  predicate Sets(before: seq<Line>, after: seq<Line>, name: Name, body: seq<Text>, margin: bool) {
    && Pieces(before).Some? && Calm(after) && ValidBody(body)
    && SameBut(Pieces(before).value, Pieces(after).value, name)
    && Content(Pieces(after).value, name) == Says(name, body, margin)
  }

  lemma NewBlockSays(name: Name, body: seq<Text>, eol: Eol, margin: bool)
    requires ValidBody(body) && body != [] && !body[0].Separator? && !eol.NoEol?
    ensures var block := NewBlock(name, body, eol, margin);
            && Block(name, block) && |block| >= 2 && !block[1].text.Separator? && Closed(block)
            && Some(Texts(block)) == Says(name, body, margin)
  {
    NewBlockSound(name, body, eol, margin);
    assert Texts(NewBlock(name, body, eol, margin)) == Texts(NewBlock(name, body, Lf, margin));
  }

  lemma InsertCalm(lines: seq<Line>, ps: seq<Piece>, name: Name, body: seq<Text>, margin: bool, section: Section)
    requires Calm(lines) && Pieces(lines) == Some(ps) && SensorSection(ps) == Some(section)
        && Insert(lines, ps, name, body, margin).Ok?
    ensures ValidBody(body)
    ensures var position := Position(ps, name, section);
            Insert(lines, ps, name, body, margin).value
            == Flatten(ps[..position]) + NewBlock(name, body, Newline(lines), margin) + Flatten(ps[position..])
  {
    assert [] + body == body;
    hide Tidy, Calm, Pieces, SensorSection, Position, Flatten, Newline, NewBlock, ValidBody, Insert;
    CalmTidy(lines);
    InsertValue(lines, ps, name, body, margin, section);
  }

  lemma InsertSets(lines: seq<Line>, ps: seq<Piece>, name: Name, body: seq<Text>, margin: bool, section: Section)
    requires Calm(lines) && Ready(lines, ps, name, section) && body != [] && !body[0].Separator?
    requires Insert(lines, ps, name, body, margin).Ok?
    ensures Sets(lines, Insert(lines, ps, name, body, margin).value, name, body, margin)
  {
    assert Newline(lines) != NoEol;
    hide Position, Layout, BlockAt, Pieces, Insert, Flatten, SensorSection, Newline, SameBut, WellFormed, NewBlock,
      Closed, Noteless, Block, Content, Says, Tidy, ValidBody, InsertAt;
    var position, block := Position(ps, name, section), NewBlock(name, body, Newline(lines), margin);
    InsertCalm(lines, ps, name, body, margin, section);
    NewBlockSays(name, body, Newline(lines), margin);
    TidyInsert(ps, name, section, block);
    var qs := InsertAt(ps, position, Managed(name, block));
    TidyCalm(qs);
    FlattenInsert(ps, position, Managed(name, block));
  }

  lemma RemovalValue(lines: seq<Line>, ps: seq<Piece>, k: nat)
    requires WellFormed(ps) && Noteless(ps) && k < |ps| && ps[k].Managed?
    ensures |ps[k].lines| >= 2 && Removed(lines, ps, k) == Flatten(Without(ps, k))
  {
    SoundBlock(ps, k);
    hide Flatten, WellFormed;
    WithoutMeans(ps, k);
  }

  lemma RemovalSets(lines: seq<Line>, ps: seq<Piece>, k: nat, margin: bool)
    requires Calm(lines) && Pieces(lines) == Some(ps) && k < |ps| && ps[k].Managed? && |ps[k].lines| >= 2
        && SensorSection(ps).Some?
    requires SensorSection(ps).value.start <= k < SensorSection(ps).value.end
    ensures Sets(lines, Removed(lines, ps, k), ps[k].name, [], margin)
  {
    hide Pieces, Removed, Layout, SensorSection, Flatten, Without, SameBut, Content, Closed, Noteless, WellFormed;
    RemovalValue(lines, ps, k);
    TidyWithout(ps, k);
    hide Tidy;
    TidyCalm(Without(ps, k));
  }

  /** The first of two edits of one block leaves no trace. */
  lemma SetsTwice(a: seq<Line>, b: seq<Line>, c: seq<Line>, name: Name, first: seq<Text>, second: seq<Text>,
                  margin: bool)
    requires Sets(a, b, name, first, margin) && Sets(b, c, name, second, margin)
    ensures Sets(a, c, name, second, margin)
  {
    hide Pieces, Calm, Outside, Content, Says, ValidBody;
  }

  lemma PlaceSets(lines: seq<Line>, name: Name, body: seq<Text>, margin: bool)
    requires Calm(lines) && body != [] && !body[0].Separator? && Place(lines, name, body, margin).Ok?
    ensures Sets(lines, Place(lines, name, body, margin).value, name, body, margin)
  {
    var ps := Pieces(lines).value;
    assert Ready(lines, ps, name, SensorSection(ps).value);
    hide Sets, Calm, Insert, Ready, SensorSection;
    PlaceReady(lines, ps, name, SensorSection(ps).value, body, margin);
    InsertSets(lines, ps, name, body, margin, SensorSection(ps).value);
  }

  lemma ExchangeSets(lines: seq<Line>, ps: seq<Piece>, name: Name, k: nat, section: Section, body: seq<Text>,
                     margin: bool)
    requires Calm(lines) && InPlace(lines, ps, name, k, section) && body != [] && !body[0].Separator?
    requires Replace(lines, name, body, margin).Ok?
    ensures Sets(lines, Replace(lines, name, body, margin).value, name, body, margin)
  {
    assert Newline(lines) != NoEol;
    hide Replace, Layout, SensorSection, BlockAt, Flatten, Pieces, NewBlock, Newline, SameBut, Content, Says, Tidy,
      Closed, Block, ValidBody;
    InPlaceValue(lines, ps, name, k, section, body, margin);
    FoundThere(ps, name);
    NewBlockSays(name, body, Newline(lines), margin);
    var block := NewBlock(name, body, Newline(lines), margin);
    TidyExchange(ps, k, name, block);
    TidyCalm(ps[k := Managed(name, block)]);
  }

  lemma NothingSets(lines: seq<Line>, ps: seq<Piece>, name: Name, margin: bool)
    requires Calm(lines) && Pieces(lines) == Some(ps) && BlockAt(ps, name) == |ps|
    ensures Sets(lines, lines, name, [], margin)
  {}

  /** What one successful replacement does to a calm file. */
  lemma ReplaceSets(lines: seq<Line>, name: Name, body: seq<Text>, margin: bool)
    requires Calm(lines) && (body != [] ==> !body[0].Separator?) && Replace(lines, name, body, margin).Ok?
    ensures Sets(lines, Replace(lines, name, body, margin).value, name, body, margin)
  {
    var ps := Pieces(lines).value;
    var k, section := BlockAt(ps, name), SensorSection(ps);
    if k == |ps| {
      if body != [] {
        AbsentReplace(lines, ps, name, body, margin);
        InsertSets(lines, ps, name, body, margin, section.value);
      } else { NothingSets(lines, ps, name, margin); }
    } else {
      FoundThere(ps, name);
      PiecesFlatten(lines);
      SoundBlock(ps, k);
      if body == [] || name.Aggregates? { RemovalSets(lines, ps, k, margin); }
      if body != [] && name.Aggregates? {
        AggregatesFound(lines, ps, name, body, margin);
        var rest := Removed(lines, ps, k);
        PlaceSets(rest, name, body, margin);
        SetsTwice(lines, rest, Place(rest, name, body, margin).value, name, [], body, margin);
      } else if body != [] { ExchangeSets(lines, ps, name, k, section.value, body, margin); }
    }
  }

  // ------------------------------------------------------------------ many edits

  datatype Edit = Edit(name: Name, body: seq<Text>, margin: bool)

  function Edited(lines: seq<Line>, edits: seq<Edit>): Result<seq<Line>> {
    if edits == [] then Result.Ok(lines)
    else
      var last, before := edits[|edits| - 1], Edited(lines, edits[..|edits| - 1]);
      if before.Refusal? then Refusal else Replace(before.value, last.name, last.body, last.margin)
  }

  /** The last edit of a block. */
  function Latest(edits: seq<Edit>, name: Name): Option<Edit> {
    if edits == [] then None
    else if edits[|edits| - 1].name == name then Some(edits[|edits| - 1])
    else Latest(edits[..|edits| - 1], name)
  }

  predicate Plainly(edits: seq<Edit>) {
    forall e :: e in edits && e.body != [] ==> !e.body[0].Separator?
  }

  /** What a block says after some edits: the last body, or what it said before. */
  predicate Tells(ps: seq<Piece>, qs: seq<Piece>, edits: seq<Edit>, name: Name) {
    match Latest(edits, name)
    case None => Content(qs, name) == Content(ps, name)
    case Some(e) => ValidBody(e.body) && Content(qs, name) == Says(name, e.body, e.margin)
  }

  lemma EditedNone(lines: seq<Line>)
    requires Calm(lines)
    ensures Edited(lines, []) == Result.Ok(lines) && Pieces(lines).Some? && Layout(Pieces(lines).value)
    ensures forall name :: Tells(Pieces(lines).value, Pieces(lines).value, [], name)
  {}

  lemma EditedLast(lines: seq<Line>, edits: seq<Edit>)
    requires edits != [] && Plainly(edits) && Edited(lines, edits).Ok?
    ensures var init, last := edits[..|edits| - 1], edits[|edits| - 1];
            && Plainly(init) && (last.body != [] ==> !last.body[0].Separator?) && Edited(lines, init).Ok?
            && Edited(lines, edits) == Replace(Edited(lines, init).value, last.name, last.body, last.margin)
  {
    hide Replace;
  }

  lemma CalmLaidOut(lines: seq<Line>)
    requires Calm(lines)
    ensures Pieces(lines).Some? && Layout(Pieces(lines).value)
  {}

  lemma SameOutside(before: seq<Line>, after: seq<Line>, e: Edit)
    requires Sets(before, after, e.name, e.body, e.margin)
    ensures Pieces(before).Some? && Pieces(after).Some?
        && Outside(Pieces(after).value) == Outside(Pieces(before).value) && Calm(after)
  {
    hide Pieces, Outside, Content, Says;
  }

  lemma LastTells(lines: seq<Line>, before: seq<Line>, after: seq<Line>, init: seq<Edit>, last: Edit)
    requires Pieces(lines).Some? && Pieces(before).Some? && Sets(before, after, last.name, last.body, last.margin)
    requires forall name :: Tells(Pieces(lines).value, Pieces(before).value, init, name)
    ensures forall name :: Tells(Pieces(lines).value, Pieces(after).value, init + [last], name)
  {
    assert (init + [last])[..|init|] == init;
    hide Pieces, Calm, Content, Says, ValidBody;
    forall name ensures Tells(Pieces(lines).value, Pieces(after).value, init + [last], name) {
      assert Tells(Pieces(lines).value, Pieces(before).value, init, name);
    }
  }

  /** Over any sequence of successful replacements on a file with its final line end, the file
      stays laid out well, the text outside the blocks is the original text, and every block
      says what it was last told. */
  lemma {:induction false} EditsKeep(lines: seq<Line>, edits: seq<Edit>)
    requires Calm(lines) && Plainly(edits) && Edited(lines, edits).Ok?
    ensures var after := Edited(lines, edits).value;
            && Calm(after) && Layout(Pieces(after).value)
            && Outside(Pieces(after).value) == Outside(Pieces(lines).value)
            && forall name :: Tells(Pieces(lines).value, Pieces(after).value, edits, name)
  {
    hide *;
    if edits == [] {
      EditedNone(lines);
    } else {
      var init, last := edits[..|edits| - 1], edits[|edits| - 1];
      EditedLast(lines, edits);
      EditsKeep(lines, init);
      var before := Edited(lines, init).value;
      ReplaceSets(before, last.name, last.body, last.margin);
      var after := Edited(lines, edits).value;
      SameOutside(before, after, last);
      CalmLaidOut(after);
      CalmLaidOut(lines);
      LastTells(lines, before, after, init, last);
      assert edits == init + [last];
    }
  }

  // ------------------------------------------------------------- the end-of-file note

  lemma NewlineSome(lines: seq<Line>)
    ensures Newline(lines) != NoEol
  {}

  lemma NothingBehind(a: seq<Line>, b: seq<Line>)
    ensures b == [] ==> a + b == a
  {}

  lemma TailNone(ps: seq<Piece>, k: nat)
    requires WellFormed(ps) && k <= |ps|
    ensures Flatten(ps[k..]) == [] <==> k == |ps|
  {
    hide Flatten, WellFormed;
    WellFormedPart(ps, k, |ps|);
    assert ps[k..|ps|] == ps[k..];
    FlattenNone(ps[k..]);
  }

  /** A removal takes nothing but the block, exactly unless the block starts with the note, ends
      the file, and stands behind a line that ends as the file's lines do. */
  lemma RemovalExact(lines: seq<Line>, ps: seq<Piece>, k: nat)
    requires Pieces(lines) == Some(ps) && k < |ps| && ps[k].Managed?
    ensures |ps[k].lines| >= 2
    ensures var head := Flatten(ps[..k]);
            Removed(lines, ps, k) == Flatten(Without(ps, k)) <==>
              !(k == |ps| - 1 && ps[k].lines[1].text.Separator? && head != [] && head[|head| - 1].eol == Newline(lines))
  {
    NewlineSome(lines);
    hide Flatten, WellFormed, Stripped, Newline, Pieces, Without;
    PiecesFlatten(lines);
    SoundBlock(ps, k);
    WithoutMeans(ps, k);
    TailNone(ps, k + 1);
    StripChanges(Flatten(ps[..k]), Newline(lines));
    NothingBehind(Flatten(ps[..k]), Flatten(ps[k + 1..]));
    NothingBehind(Stripped(Flatten(ps[..k]), Newline(lines)), Flatten(ps[k + 1..]));
  }
}
