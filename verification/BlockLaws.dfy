/** Laws of block replacement: putting and removing are inverse, what is put is found again,
    and everything outside the blocks stays. */
module BlockLaws {
  import opened Common
  import opened ManagedBlocks
  import opened ConfigBlocks

  // ------------------------------------------------------ one more piece in a row

  function InsertAt(ps: seq<Piece>, pos: nat, p: Piece): seq<Piece>
    requires pos <= |ps|
  {
    ps[..pos] + [p] + ps[pos..]
  }

  lemma FirstIs(ps: seq<Piece>, start: nat, kind: Kind, i: nat)
    requires start <= i <= |ps| && (i < |ps| ==> Is(ps[i], kind)) && forall j :: start <= j < i ==> !Is(ps[j], kind)
    ensures First(ps, start, kind) == i
  {}

  /** Looking up, with a piece of another kind put in between. */
  lemma FirstInsert(ps: seq<Piece>, pos: nat, p: Piece, start: nat, kind: Kind)
    requires start <= pos <= |ps| && !Is(p, kind)
    ensures First(InsertAt(ps, pos, p), start, kind)
            == First(ps, start, kind) + if First(ps, start, kind) < pos then 0 else 1
  {
    var qs, i := InsertAt(ps, pos, p), First(ps, start, kind);
    assert forall j :: 0 <= j < pos ==> qs[j] == ps[j];
    assert forall j :: pos < j < |qs| ==> qs[j] == ps[j - 1];
    FirstIs(qs, start, kind, i + if i < pos then 0 else 1);
  }

  /** Helper blocks are no root keys: the section just grows. */
  lemma SectionInsert(ps: seq<Piece>, pos: nat, p: Piece)
    requires p.Managed? && SensorSection(ps).Some?
    requires SensorSection(ps).value.start <= pos <= SensorSection(ps).value.end
    ensures SensorSection(InsertAt(ps, pos, p))
        == Some(Section(SensorSection(ps).value.start, SensorSection(ps).value.end + 1))
  {
    var s := First(ps, 0, IsSensor);
    FirstInsert(ps, pos, p, 0, IsSensor);
    FirstInsert(ps, pos, p, s + 1, IsSensor);
    FirstInsert(ps, pos, p, s + 1, IsRoot);
  }

  lemma BlockInsert(ps: seq<Piece>, pos: nat, p: Piece, name: Name)
    requires pos <= |ps| && p.Managed? && (p.name == name ==> BlockAt(ps, name) == |ps|)
    ensures BlockAt(InsertAt(ps, pos, p), name)
         == if p.name == name then pos else BlockAt(ps, name) + if BlockAt(ps, name) < pos then 0 else 1
  {
    var qs := InsertAt(ps, pos, p);
    if p.name == name {
      assert forall j :: 0 <= j < pos ==> qs[j] == ps[j];
      FirstIs(qs, 0, IsBlock(name), pos);
    } else { FirstInsert(ps, pos, p, 0, IsBlock(name)); }
  }

  lemma WellFormedInsert(ps: seq<Piece>, pos: nat, p: Piece)
    requires WellFormed(ps) && pos <= |ps| && p.Managed? && Sound(p) && BlockAt(ps, p.name) == |ps|
    ensures WellFormed(InsertAt(ps, pos, p))
  {
    var qs := InsertAt(ps, pos, p);
    assert forall j :: 0 <= j < pos ==> qs[j] == ps[j];
    assert forall j :: pos < j < |qs| ==> qs[j] == ps[j - 1];
    assert forall j :: 0 <= j < |ps| && ps[j].Managed? && ps[j].name == p.name ==> Is(ps[j], IsBlock(p.name));
  }

  lemma FlattenInsert(ps: seq<Piece>, pos: nat, p: Piece)
    requires pos <= |ps|
    ensures Flatten(InsertAt(ps, pos, p)) == Flatten(ps[..pos]) + LinesOf(p) + Flatten(ps[pos..])
    ensures Flatten(ps) == Flatten(ps[..pos]) + Flatten(ps[pos..])
    ensures InsertAt(ps, pos, p)[..pos] == ps[..pos] && InsertAt(ps, pos, p)[pos + 1..] == ps[pos..]
  {
    hide Flatten;
    FlattenLast(ps[..pos], p);
    FlattenPlus(ps[..pos] + [p], ps[pos..]);
    FlattenPlus(ps[..pos], ps[pos..]);
    assert ps[..pos] + ps[pos..] == ps;
  }

  // ------------------------------------------------------------ the right position

  lemma {:induction false} LaterMeans(ps: seq<Piece>, rank: nat) returns (r: nat)
    ensures Later(ps, rank).None? ==> forall q :: rank <= q < 5 ==> BlockAt(ps, Named(q)) == |ps|
    ensures Later(ps, rank).Some? ==>
              && rank <= r < 5 && Later(ps, rank).value == BlockAt(ps, Named(r)) < |ps|
              && forall q :: rank <= q < r ==> BlockAt(ps, Named(q)) == |ps|
    decreases 5 - rank
  {
    r := rank;
    if rank < 5 && BlockAt(ps, Named(rank)) == |ps| { r := LaterMeans(ps, rank + 1); }
  }

  lemma {:induction false} EarlierMeans(ps: seq<Piece>, rank: nat) returns (r: nat)
    requires rank <= 5
    ensures Earlier(ps, rank).None? ==> forall q :: 0 <= q < rank ==> BlockAt(ps, Named(q)) == |ps|
    ensures Earlier(ps, rank).Some? ==>
              && 0 <= r < rank && Earlier(ps, rank).value == BlockAt(ps, Named(r)) < |ps|
              && forall q :: r < q < rank ==> BlockAt(ps, Named(q)) == |ps|
  {
    r := if rank > 0 then rank - 1 else 0;
    if rank > 0 && BlockAt(ps, Named(rank - 1)) == |ps| { r := EarlierMeans(ps, rank - 1); }
  }

  lemma Present(ps: seq<Piece>, k: nat)
    requires k < |ps| && ps[k].Managed?
    ensures BlockAt(ps, ps[k].name) < |ps| && Named(Rank(ps[k].name)) == ps[k].name
  {
    assert Is(ps[k], IsBlock(ps[k].name));
  }

  /** `pos` separates the blocks below a rank from those above it. */
  predicate Separates(ps: seq<Piece>, rank: nat, pos: nat) {
    forall k :: 0 <= k < |ps| && Placed(ps[k]) ==> (k < pos <==> Rank(ps[k].name) < rank) && Rank(ps[k].name) != rank
  }

  lemma BeforeLater(ps: seq<Piece>, rank: nat, r: nat)
    requires Sorted(ps) && rank < r < 5 && BlockAt(ps, Named(r)) < |ps|
    requires forall q :: rank <= q < r ==> BlockAt(ps, Named(q)) == |ps|
    ensures Separates(ps, rank, BlockAt(ps, Named(r)))
  {
    var pos := BlockAt(ps, Named(r));
    assert Placed(ps[pos]) && Rank(ps[pos].name) == r;
    forall k | 0 <= k < |ps| && Placed(ps[k]) ensures (k < pos <==> Rank(ps[k].name) < rank)
      && Rank(ps[k].name) != rank {
      Present(ps, k);
      assert !(rank <= Rank(ps[k].name) < r);
    }
  }

  lemma BehindEarlier(ps: seq<Piece>, rank: nat, r: nat)
    requires Sorted(ps) && r < rank < 5 && BlockAt(ps, Named(r)) < |ps|
    requires forall q :: r < q < 5 ==> BlockAt(ps, Named(q)) == |ps|
    ensures Separates(ps, rank, BlockAt(ps, Named(r)) + 1)
  {
    var pos := BlockAt(ps, Named(r));
    assert Placed(ps[pos]) && Rank(ps[pos].name) == r;
    forall k | 0 <= k < |ps| && Placed(ps[k]) ensures (k < pos + 1 <==> Rank(ps[k].name) < rank)
      && Rank(ps[k].name) != rank {
      Present(ps, k);
      assert Rank(ps[k].name) <= r;
    }
  }

  lemma NonePlaced(ps: seq<Piece>)
    requires forall q :: 0 <= q < 5 ==> BlockAt(ps, Named(q)) == |ps|
    ensures forall k :: 0 <= k < |ps| ==> !Placed(ps[k])
  {
    forall k | 0 <= k < |ps| ensures !Placed(ps[k]) {
      if ps[k].Managed? { Present(ps, k); }
    }
  }

  lemma BehindAll(ps: seq<Piece>, section: Section)
    requires Within(ps, section) && BlockAt(ps, Aggregates) == |ps|
    ensures Separates(ps, 4, section.end)
  {
    forall k | 0 <= k < |ps| && Placed(ps[k]) ensures k < section.end && Rank(ps[k].name) < 4 { Present(ps, k); }
  }

  /** `pos` is a place in the section that keeps the canonical order. */
  predicate Suits(ps: seq<Piece>, name: Name, section: Section, pos: nat) {
    section.start <= pos <= section.end && (!name.StatusOverrides? ==> Separates(ps, Rank(name), pos))
  }

  lemma RankedPlaced(r: nat)
    requires r < 5
    ensures !Named(r).StatusOverrides?
  {}

  lemma InSection(ps: seq<Piece>, section: Section, name: Name)
    requires Within(ps, section) && BlockAt(ps, name) < |ps| && !name.StatusOverrides?
    ensures section.start <= BlockAt(ps, name) < section.end
  {
    assert Placed(ps[BlockAt(ps, name)]);
  }

  lemma LaterSuits(ps: seq<Piece>, name: Name, section: Section)
    requires Sorted(ps) && Within(ps, section) && Rank(name) < 4 && BlockAt(ps, name) == |ps|
        && Later(ps, Rank(name) + 1).Some?
    ensures Suits(ps, name, section, Later(ps, Rank(name) + 1).value)
  {
    assert Named(Rank(name)) == name;
    hide Separates, BlockAt, Rank, Named;
    var r := LaterMeans(ps, Rank(name) + 1);
    BeforeLater(ps, Rank(name), r);
    RankedPlaced(r);
    InSection(ps, section, Named(r));
  }

  lemma EarlierSuits(ps: seq<Piece>, name: Name, section: Section)
    requires Sorted(ps) && Within(ps, section) && Rank(name) < 4 && BlockAt(ps, name) == |ps|
    requires Later(ps, Rank(name) + 1).None?
    ensures Earlier(ps, Rank(name)).Some? ==> Suits(ps, name, section, Earlier(ps, Rank(name)).value + 1)
    ensures Earlier(ps, Rank(name)).None? ==> forall k :: 0 <= k < |ps| ==> !Placed(ps[k])
  {
    assert Named(Rank(name)) == name;
    hide Separates, BlockAt, Rank, Named;
    var l := LaterMeans(ps, Rank(name) + 1);
    var r := EarlierMeans(ps, Rank(name));
    if Earlier(ps, Rank(name)).Some? {
      BehindEarlier(ps, Rank(name), r);
      RankedPlaced(r);
      InSection(ps, section, Named(r));
    } else { NonePlaced(ps); }
  }

  lemma NothingPlaced(ps: seq<Piece>, rank: nat, pos: nat)
    requires forall k :: 0 <= k < |ps| ==> !Placed(ps[k])
    ensures Separates(ps, rank, pos)
  {}

  /** The insertion position lies in the section and keeps the canonical order. */
  lemma PositionFits(ps: seq<Piece>, name: Name, section: Section)
    requires Layout(ps) && SensorSection(ps) == Some(section) && BlockAt(ps, name) == |ps|
    ensures Suits(ps, name, section, Position(ps, name, section))
  {
    hide SensorSection, Separates, BlockAt;
    if Rank(name) >= 4 {
      if name.Aggregates? { BehindAll(ps, section); }
    } else if Later(ps, Rank(name) + 1).Some? { LaterSuits(ps, name, section); }
    else {
      EarlierSuits(ps, name, section);
      if Earlier(ps, Rank(name)).None? { NothingPlaced(ps, Rank(name), section.start); }
    }
  }

  lemma InsertSorted(ps: seq<Piece>, pos: nat, p: Piece, section: Section)
    requires Sorted(ps) && Within(ps, section) && section.start <= pos <= section.end && pos <= |ps| && p.Managed?
    requires !p.name.StatusOverrides? ==> Separates(ps, Rank(p.name), pos)
    ensures Sorted(InsertAt(ps, pos, p)) && Within(InsertAt(ps, pos, p), Section(section.start, section.end + 1))
  {
    hide Rank;
    var qs := InsertAt(ps, pos, p);
    assert forall j :: 0 <= j < pos ==> qs[j] == ps[j];
    assert forall j :: pos < j < |qs| ==> qs[j] == ps[j - 1];
    forall i, j | 0 <= i < j < |qs| && Placed(qs[i]) && Placed(qs[j]) ensures Rank(qs[i].name) < Rank(qs[j].name) {
      if i == pos { assert Placed(ps[j - 1]); }
      else if j == pos { assert Placed(ps[i]); }
      else { assert Placed(ps[if i < pos then i else i - 1]) && Placed(ps[if j < pos then j else j - 1]); }
    }
  }

  lemma LayoutInsert(ps: seq<Piece>, name: Name, section: Section, lines: seq<Line>)
    requires Layout(ps) && SensorSection(ps) == Some(section) && BlockAt(ps, name) == |ps|
    ensures Layout(InsertAt(ps, Position(ps, name, section), Managed(name, lines)))
  {
    var position, p := Position(ps, name, section), Managed(name, lines);
    PositionFits(ps, name, section);
    SectionInsert(ps, position, p);
    hide SensorSection, Position, BlockAt, InsertAt;
    InsertSorted(ps, position, p, section);
  }
}
