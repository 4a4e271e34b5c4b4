/** Any number of substitutions rewritten in one file (`_apply_changes`): the splices together
    are the rewritten rows, and the file reads back with the requested values. */
module SubstitutionEdits {
  import opened Common
  import opened Scalars
  import opened ScalarRoundTrips
  import opened DocumentRows
  import opened Substitutions
  import opened Splicing

  datatype Change = Change(key: string, value: string)

  /** The table describes the rows. */
  predicate Describes(table: Table, rows: seq<Row>) {
    forall key :: key in table ==>
      && table[key].row < |rows| && Fits(rows[table[key].row].body, table[key])
        && table[key].scalar.start < table[key].scalar.end
      && KeyOf(rows[table[key].row].body) == Key(key, table[key].column)
  }

  predicate DistinctKeys(changes: seq<Change>) {
    forall i, j :: 0 <= i < j < |changes| ==> changes[i].key != changes[j].key
  }

  predicate Known(table: Table, changes: seq<Change>) {
    && (forall i ::
      0 <= i < |changes| ==> changes[i].key in table && Writable(KindOf(changes[i].key), changes[i].value))
    && DistinctKeys(changes)
  }

  function EditOf(rows: seq<Row>, table: Table, c: Change): Edit
    requires Describes(table, rows) && c.key in table
  {
    var f := table[c.key];
    var at := Offset(rows, f.row) + f.column;
    Edit(at + f.scalar.start, at + f.scalar.end, TokenFor(rows[f.row].body, f, c.key, c.value))
  }

  function Edits(rows: seq<Row>, table: Table, changes: seq<Change>): (edits: seq<Edit>)
    requires Describes(table, rows) && forall c :: c in changes ==> c.key in table
    ensures |edits| == |changes| && forall i :: 0 <= i < |edits| ==> edits[i] == EditOf(rows, table, changes[i])
  {
    if changes == [] then [] else [EditOf(rows, table, changes[0])] + Edits(rows, table, changes[1..])
  }

  lemma ReadDescribes(rows: seq<Row>, known: set<string>)
    requires Read(rows, known).Ok?
    ensures Describes(Read(rows, known).value, rows)
  {
    hide Read, KeyOf, Lead, Valid;
    forall key | key in Read(rows, known).value
      ensures var f := Read(rows, known).value[key];
              && f.row < |rows| && Fits(rows[f.row].body, f) && f.scalar.start < f.scalar.end
                && KeyOf(rows[f.row].body) == Key(key, f.column)
    {
      SitsFits(rows, known, key);
    }
  }

  // ------------------------------------------------------------- tokens in the text

  lemma OffsetOrder(rows: seq<Row>, i: nat, j: nat)
    requires i < j <= |rows|
    ensures Offset(rows, i) + |rows[i].body| <= Offset(rows, j) <= |Text(rows)|
  {
    TextPlus(rows[..i], rows[i..j]);
    TextPlus(rows[..j], rows[j..]);
    assert rows[..j] == rows[..i] + rows[i..j] && rows == rows[..j] + rows[j..];
    assert rows[i..j][0] == rows[i];
  }

  lemma EditInside(rows: seq<Row>, table: Table, c: Change)
    requires Describes(table, rows) && c.key in table
    ensures Within(EditOf(rows, table, c), |Text(rows)|)
    ensures var k := table[c.key].row;
            Offset(rows, k) <= EditOf(rows, table, c).start
              && EditOf(rows, table, c).end <= Offset(rows, k) + |rows[k].body|
  {
    hide KeyOf, Text, Offset, TokenFor;
    OffsetOrder(rows, table[c.key].row, |rows|);
  }

  lemma RowApart(rows: seq<Row>, table: Table, c: Change, d: Change)
    requires Describes(table, rows) && c.key in table && d.key in table && c.key != d.key
    ensures table[c.key].row != table[d.key].row
    ensures table[c.key].row < table[d.key].row <==> EditOf(rows, table, c).end <= EditOf(rows, table, d).start
    ensures Apart(EditOf(rows, table, c), EditOf(rows, table, d))
  {
    hide Text, Offset, TokenFor, KeyOf;
    var i, j := table[c.key].row, table[d.key].row;
    assert KeyOf(rows[i].body).name == c.key && KeyOf(rows[j].body).name == d.key;
    EditInside(rows, table, c);
    EditInside(rows, table, d);
    if i < j { OffsetOrder(rows, i, j); } else { OffsetOrder(rows, j, i); }
  }

  lemma EditsSeparate(rows: seq<Row>, table: Table, changes: seq<Change>)
    requires Describes(table, rows) && Known(table, changes)
    ensures Separate(Edits(rows, table, changes), |Text(rows)|)
  {
    hide Describes, Writable, EditOf, Text;
    var edits := Edits(rows, table, changes);
    forall i | 0 <= i < |edits| ensures Within(edits[i], |Text(rows)|) { EditInside(rows, table, changes[i]); }
    forall i, j | 0 <= i < j < |edits| ensures Apart(edits[i], edits[j]) {
      RowApart(rows, table, changes[i], changes[j]);
    }
  }

  // --------------------------------------------------------- the changes in file order

  function PlaceChange(rows: seq<Row>, table: Table, c: Change, sorted: seq<Change>): seq<Change>
    requires Describes(table, rows) && c.key in table && forall d :: d in sorted ==> d.key in table
  {
    if sorted == [] || EditOf(rows, table, c).start <= EditOf(rows, table, sorted[0]).start then [c] + sorted
    else [sorted[0]] + PlaceChange(rows, table, c, sorted[1..])
  }

  /** Changes and their edits are placed alike. */
  lemma PlaceSteps(rows: seq<Row>, table: Table, c: Change, sorted: seq<Change>)
    requires Describes(table, rows) && c.key in table && forall d :: d in sorted ==> d.key in table
    ensures var edits, e := Edits(rows, table, sorted), EditOf(rows, table, c);
            if sorted == [] || e.start <= EditOf(rows, table, sorted[0]).start then
              PlaceChange(rows, table, c, sorted) == [c] + sorted && Place(e, edits) == [e] + edits
            else
              && PlaceChange(rows, table, c, sorted) == [sorted[0]] + PlaceChange(rows, table, c, sorted[1..])
              && Place(e, edits) == [EditOf(rows, table, sorted[0])] + Place(e, Edits(rows, table, sorted[1..]))
  {
    hide Describes, EditOf;
  }

  lemma EditsFront(rows: seq<Row>, table: Table, c: Change, rest: seq<Change>)
    requires Describes(table, rows) && c.key in table && forall d :: d in rest ==> d.key in table
    ensures multiset([c] + rest) == multiset{c} + multiset(rest) && (forall d :: d in [c] + rest ==> d.key in table)
    ensures Edits(rows, table, [c] + rest) == [EditOf(rows, table, c)] + Edits(rows, table, rest)
  {
    hide Describes, EditOf;
    assert ([c] + rest)[1..] == rest;
  }

  lemma {:induction false} PlaceEdits(rows: seq<Row>, table: Table, c: Change, sorted: seq<Change>)
    requires Describes(table, rows) && c.key in table && forall d :: d in sorted ==> d.key in table
    ensures var placed := PlaceChange(rows, table, c, sorted);
            && multiset(placed) == multiset(sorted) + multiset{c} && (forall d :: d in placed ==> d.key in table)
            && Edits(rows, table, placed) == Place(EditOf(rows, table, c), Edits(rows, table, sorted))
  {
    hide *;
    PlaceSteps(rows, table, c, sorted);
    if sorted == [] || EditOf(rows, table, c).start <= EditOf(rows, table, sorted[0]).start {
      EditsFront(rows, table, c, sorted);
    } else {
      var first, rest := sorted[0], sorted[1..];
      PlaceEdits(rows, table, c, rest);
      EditsFront(rows, table, first, rest);
      EditsFront(rows, table, first, PlaceChange(rows, table, c, rest));
      assert sorted == [first] + rest;
    }
  }

  /** The changes that belong to the sorted edits. */
  lemma {:induction false} OrderChanges(rows: seq<Row>, table: Table, changes: seq<Change>) returns (order: seq<Change>)
    requires Describes(table, rows) && forall c :: c in changes ==> c.key in table
    ensures multiset(order) == multiset(changes) && forall c :: c in order ==> c.key in table
    ensures Edits(rows, table, order) == Sorted(Edits(rows, table, changes))
  {
    hide Describes, EditOf;
    if changes == [] {
      order := [];
    } else {
      var rest := OrderChanges(rows, table, changes[1..]);
      assert changes == [changes[0]] + changes[1..];
      PlaceEdits(rows, table, changes[0], rest);
      order := PlaceChange(rows, table, changes[0], rest);
      assert Edits(rows, table, changes)[1..] == Edits(rows, table, changes[1..]);
    }
  }

  // ------------------------------------------------------------- all rows rewritten

  /** Changes of different rows, in file order. */
  predicate Rising(table: Table, order: seq<Change>) {
    && (forall i :: 0 <= i < |order| ==> order[i].key in table)
    && forall i, j ::
      0 <= i < j < |order| ==> order[i].key != order[j].key && table[order[i].key].row < table[order[j].key].row
  }

  function RewriteAll(rows: seq<Row>, table: Table, order: seq<Change>): (after: seq<Row>)
    requires Describes(table, rows) && Rising(table, order)
    ensures |after| == |rows| && forall i ::
        0 <= i < |rows| && (order != [] ==> i < table[order[0].key].row) ==> after[i] == rows[i]
  {
    if order == [] then rows
    else
      var c, rest := order[0], RewriteAll(rows, table, order[1..]);
      Rewrite(rest, table[c.key], c.key, c.value)
  }

  lemma FirstRewritten(rows: seq<Row>, table: Table, order: seq<Change>)
    requires Describes(table, rows) && Rising(table, order) && order != []
    ensures Rising(table, order[1..])
    ensures var rest, k := RewriteAll(rows, table, order[1..]), table[order[0].key].row;
            rest[k] == rows[k] && rest[..k] == rows[..k] && Offset(rest, k) == Offset(rows, k)
            && RewriteAll(rows, table, order) == Rewrite(rest, table[order[0].key], order[0].key, order[0].value)
  {
    hide KeyOf, Text, TokenFor;
  }

  lemma RewriteNone(rows: seq<Row>, table: Table)
    requires Describes(table, rows)
    ensures RewriteAll(rows, table, []) == rows
  {}

  lemma AscendingRest(edits: seq<Edit>, from: nat, n: nat)
    requires Ascending(edits, from, n) && edits != []
    ensures Ascending(edits[1..], edits[0].end, n)
  {}

  lemma FromInside(edits: seq<Edit>, from: nat, n: nat)
    requires Ascending(edits, from, n)
    ensures from <= n
  {}

  lemma RewrittenFirst(rows: seq<Row>, table: Table, order: seq<Change>)
    requires Describes(table, rows) && Rising(table, order) && order != []
    ensures Rising(table, order[1..])
    ensures var text, e := Text(RewriteAll(rows, table, order[1..])), EditOf(rows, table, order[0]);
            e.start <= e.end <= |text| && Text(RewriteAll(rows, table, order)) == Spliced(text, e)
  {
    hide Text, Offset, KeyOf, TokenFor;
    var c := order[0];
    FirstRewritten(rows, table, order);
    var rest, f := RewriteAll(rows, table, order[1..]), table[c.key];
    hide RewriteAll, Rising;
    SplicedRow(rest, f.row, f.column + f.scalar.start, f.column + f.scalar.end,
      TokenFor(rows[f.row].body, f, c.key, c.value));
  }

  /** The rewritten rows make up the simultaneous replacement. */
  lemma {:induction false} RewrittenText(rows: seq<Row>, table: Table, order: seq<Change>, from: nat)
    requires Describes(table, rows) && Rising(table, order) && Ascending(Edits(rows, table, order), from, |Text(rows)|)
    ensures from <= |Text(rows)|
    ensures Text(RewriteAll(rows, table, order))
        == Text(rows)[..from] + Woven(Text(rows), Edits(rows, table, order), from)
  {
    hide Text, KeyOf, TokenFor, EditOf, Describes, RewriteAll;
    FromInside(Edits(rows, table, order), from, |Text(rows)|);
    if order == [] {
      RewriteNone(rows, table);
      assert Text(rows) == Text(rows)[..from] + Text(rows)[from..];
    } else {
      var edits := Edits(rows, table, order);
      assert edits[1..] == Edits(rows, table, order[1..]) && edits[0] == EditOf(rows, table, order[0]);
      AscendingRest(edits, from, |Text(rows)|);
      hide Edits, Woven, Ascending;
      RewrittenFirst(rows, table, order);
      RewrittenText(rows, table, order[1..], edits[0].end);
      WovenLeft(Text(rows), edits, from, Text(RewriteAll(rows, table, order[1..])));
    }
  }

  // ------------------------------------------------------------------ reading it back

  predicate AllSound(rows: seq<Row>, table: Table, order: seq<Change>)
    requires Describes(table, rows)
  {
    forall c :: c in order ==>
      && c.key in table && Writable(KindOf(c.key), c.value) && Valid(c.key, c.value)
      && Sound(rows[table[c.key].row].body, table[c.key], c.key, c.value)
  }

  /** The table after the changes. */
  function RenewAll(rows: seq<Row>, table: Table, order: seq<Change>): (renewed: Table)
    requires Describes(table, rows) && forall c :: c in order ==> c.key in table
    ensures renewed.Keys == table.Keys
  {
    if order == [] then table
    else
      var c, f := order[0], table[order[0].key];
      RenewAll(rows, table, order[1..])[c.key := Renewed(f, rows[f.row].body, c.key, c.value)]
  }

  lemma {:induction false} RenewedElse(rows: seq<Row>, table: Table, order: seq<Change>, key: string)
    requires Describes(table, rows) && (forall c :: c in order ==> c.key in table) && key in table
    requires forall c :: c in order ==> c.key != key
    ensures RenewAll(rows, table, order)[key] == table[key]
  {
    hide Describes, Renewed;
    if order != [] { RenewedElse(rows, table, order[1..], key); }
  }

  lemma {:induction false} RenewedAt(rows: seq<Row>, table: Table, order: seq<Change>, i: nat)
    requires Describes(table, rows) && (forall c :: c in order ==> c.key in table) && i < |order|
    requires forall i, j :: 0 <= i < j < |order| ==> order[i].key != order[j].key
    ensures var f := RenewAll(rows, table, order)[order[i].key];
            f.scalar.value == order[i].value && f.row == table[order[i].key].row
              && f.column == table[order[i].key].column
  {
    hide Describes, TokenFor;
    if i > 0 {
      RenewedAt(rows, table, order[1..], i - 1);
      assert order[1..][i - 1] == order[i] && order[i].key != order[0].key;
    }
  }

  lemma {:induction false} RewrittenReads(rows: seq<Row>, known: set<string>, table: Table, order: seq<Change>)
    requires Read(rows, known) == Result.Ok(table) && "substitutions" !in known
    requires Describes(table, rows) && Rising(table, order) && AllSound(rows, table, order)
    ensures Read(RewriteAll(rows, table, order), known) == Result.Ok(RenewAll(rows, table, order))
  {
    hide Read, Describes, Sound, Valid, Writable, KindOf, Renewed, Rewrite, KeyOf;
    if order != [] {
      var c, f := order[0], table[order[0].key];
      FirstRewritten(rows, table, order);
      RewrittenReads(rows, known, table, order[1..]);
      var rest, renewed := RewriteAll(rows, table, order[1..]), RenewAll(rows, table, order[1..]);
      assert forall d :: d in order[1..] ==> d.key != c.key;
      RenewedElse(rows, table, order[1..], c.key);
      hide RewriteAll, AllSound, Rising;
      RewriteReads(rest, known, c.key, c.value);
    }
  }

  lemma CharUnbroken(c: char, ascii: bool)
    requires !Break(c)
    ensures Unbroken(Escape(c, ascii))
  {}

  lemma {:induction false} EscapeUnbroken(s: string, ascii: bool)
    requires Unbroken(s)
    ensures Unbroken(Encode(s, ascii))
  {
    if s != "" {
      EscapeUnbroken(s[1..], ascii);
      hide Encode;
      CharUnbroken(s[0], ascii);
    }
  }

  lemma {:induction false} DoubleUnbroken(s: string)
    requires Unbroken(s)
    ensures Unbroken(Double(s))
  {
    if s != "" { DoubleUnbroken(s[1..]); }
  }

  lemma AroundUnbroken(quote: string, s: string)
    requires Unbroken(s) && (quote == "'" || quote == "\"")
    ensures Unbroken(quote + s + quote)
  {}

  lemma RenderUnbroken(kind: Kind, value: string, was: string)
    requires Unbroken(value)
    ensures Unbroken(Render(kind, value, was))
  {
    hide Encode, Double, PlainName, Unbroken;
    DoubleUnbroken(value);
    EscapeUnbroken(value, true);
    EscapeUnbroken(value, false);
    AroundUnbroken("'", Double(value));
    AroundUnbroken("'", value);
    AroundUnbroken("\"", Encode(value, true));
    AroundUnbroken("\"", Encode(value, false));
  }

  lemma TokenNonempty(body: string, f: Found, name: string, value: string)
    requires Fits(body, f) && Writable(KindOf(name), value)
    ensures TokenFor(body, f, name, value) != ""
  {
    TokenStart(KindOf(name), value, Was(body, f));
  }

  lemma {:induction false} RowUnbroken(rows: seq<Row>, k: nat)
    requires Proper(rows) && k < |rows|
    ensures Unbroken(rows[k].body)
  {
    if k > 0 { RowUnbroken(rows[1..], k - 1); }
  }

  lemma PatchProper(rest: seq<Row>, rows: seq<Row>, table: Table, c: Change)
    requires Proper(rest) && Describes(table, rows) && c.key in table && Unbroken(c.value)
        && Writable(KindOf(c.key), c.value)
    requires |rest| == |rows| && rest[table[c.key].row] == rows[table[c.key].row]
    ensures Proper(Rewrite(rest, table[c.key], c.key, c.value))
  {
    hide Proper, KeyOf, KindOf, Render, Writable;
    var f := table[c.key];
    var body := rest[f.row].body;
    RenderUnbroken(KindOf(c.key), c.value, Was(body, f));
    TokenNonempty(body, f, c.key, c.value);
    RowUnbroken(rest, f.row);
    ProperBody(rest, f.row, Patched(body, f, TokenFor(body, f, c.key, c.value)));
  }

  lemma {:induction false} RewrittenProper(rows: seq<Row>, table: Table, order: seq<Change>)
    requires Proper(rows) && Describes(table, rows) && Rising(table, order)
    requires forall c :: c in order ==> Unbroken(c.value) && Writable(KindOf(c.key), c.value)
    ensures Proper(RewriteAll(rows, table, order))
  {
    hide Describes, Unbroken, KeyOf, Writable, KindOf, Proper;
    if order != [] {
      var c := order[0];
      RewrittenProper(rows, table, order[1..]);
      FirstRewritten(rows, table, order);
      hide RewriteAll, Rising;
      PatchProper(RewriteAll(rows, table, order[1..]), rows, table, c);
    }
  }

  // ---------------------------------------------------------------- many changes at once

  predicate Replaced(was: Found, now: Found, value: string) {
    now.row == was.row && now.column == was.column && now.scalar.value == value
  }

  /** The file reads as before but for the requested values, which are where the old ones were. */
  predicate Tells(rows: seq<Row>, after: seq<Row>, known: set<string>, changes: seq<Change>) {
    && Read(rows, known).Ok? && Read(after, known).Ok? && |after| == |rows|
    && var was, now := Read(rows, known).value, Read(after, known).value;
       && now.Keys == was.Keys
       && (forall i ::
         0 <= i < |changes| ==>
           changes[i].key in was && Replaced(was[changes[i].key], now[changes[i].key], changes[i].value))
       && forall key :: key in was && (forall c :: c in changes ==> c.key != key) ==> now[key] == was[key]
  }

  lemma {:induction false} AtMostOnce(changes: seq<Change>, c: Change)
    requires DistinctKeys(changes)
    ensures multiset(changes)[c] <= 1
  {
    if changes != [] {
      var rest := changes[1..];
      AtMostOnce(rest, c);
      assert changes == [changes[0]] + rest;
      forall j | 0 <= j < |rest| ensures rest[j].key != changes[0].key { assert changes[j + 1] == rest[j]; }
    }
  }

  /** A permutation of changes with different keys has different keys. */
  lemma DistinctOrder(changes: seq<Change>, order: seq<Change>)
    requires DistinctKeys(changes) && multiset(order) == multiset(changes)
    ensures DistinctKeys(order)
  {
    forall i, j | 0 <= i < j < |order| ensures order[i].key != order[j].key {
      var c, d := order[i], order[j];
      if c == d {
        assert order == order[..j] + [order[j]] + order[j + 1..] && order[..j][i] == c;
        assert multiset(order) == multiset(order[..j]) + multiset{d} + multiset(order[j + 1..]);
        AtMostOnce(changes, c);
        assert false;
      } else {
        assert c in multiset(order) && d in multiset(order);
        var p :| 0 <= p < |changes| && changes[p] == c;
        var q :| 0 <= q < |changes| && changes[q] == d;
        assert p < q || q < p;
      }
    }
  }

  lemma OrderTells(rows: seq<Row>, after: seq<Row>, known: set<string>, table: Table, changes: seq<Change>,
                   order: seq<Change>)
    requires Read(rows, known) == Result.Ok(table) && Describes(table, rows)
        && (forall c :: c in order ==> c.key in table)
    requires DistinctKeys(order) && multiset(order) == multiset(changes) && |after| == |rows|
    requires Read(after, known) == Result.Ok(RenewAll(rows, table, order))
    ensures Tells(rows, after, known, changes)
  {
    hide Read, Describes;
    forall i | 0 <= i < |changes|
      ensures changes[i].key in table
      ensures Replaced(table[changes[i].key], RenewAll(rows, table, order)[changes[i].key], changes[i].value)
    {
      assert changes[i] in multiset(order);
      var j :| 0 <= j < |order| && order[j] == changes[i];
      RenewedAt(rows, table, order, j);
    }
    forall key | key in table && (forall c :: c in changes ==> c.key != key)
      ensures RenewAll(rows, table, order)[key] == table[key] {
      forall c | c in order ensures c.key != key { assert c in multiset(changes); }
      RenewedElse(rows, table, order, key);
    }
  }

  /** The row of a change ends up patched. */
  lemma {:induction false} RewrittenAt(rows: seq<Row>, table: Table, order: seq<Change>, i: nat)
    requires Describes(table, rows) && Rising(table, order) && i < |order|
    ensures var f := table[order[i].key];
            && f.row < |rows| && Fits(rows[f.row].body, f)
            && RewriteAll(rows, table, order)[f.row].body
               == Patched(rows[f.row].body, f, TokenFor(rows[f.row].body, f, order[i].key, order[i].value))
  {
    hide KeyOf, Render, Patched;
    FirstRewritten(rows, table, order);
    if i > 0 {
      assert order[1..][i - 1] == order[i] && table[order[0].key].row < table[order[i].key].row;
      RewrittenAt(rows, table, order[1..], i - 1);
    }
  }

  /** The row says of the key what the table says. */
  predicate Says(body: string, key: string, f: Found) {
    && KeyOf(body) == Key(key, f.column) && Fits(body, f) && Parse(Rest(body)) == Result.Ok(f.scalar)
    && Lead(Rest(body)) == f.scalar.start
  }

  lemma ReadSaid(rows: seq<Row>, known: set<string>, key: string)
    requires Read(rows, known).Ok? && key in Read(rows, known).value
    ensures var f := Read(rows, known).value[key]; f.row < |rows| && Says(rows[f.row].body, key, f)
    ensures Valid(key, Read(rows, known).value[key].scalar.value)
  {
    hide Read, KeyOf, Lead, Valid, Parse;
    SitsFits(rows, known, key);
    ReadValid(rows, known, key);
  }

  lemma RestIs(body: string, f: Found)
    requires KeyOf(body).Key? && KeyOf(body).column == f.column
    ensures Rest(body) == body[f.column..]
  {}

  /** A change that is read back in its place and with its value was sound. */
  lemma ChangeSound(rows: seq<Row>, known: set<string>, table: Table, order: seq<Change>, i: nat)
    requires Describes(table, rows) && Rising(table, order) && i < |order|
        && Writable(KindOf(order[i].key), order[i].value)
    requires table[order[i].key].row < |rows|
        && Says(rows[table[order[i].key].row].body, order[i].key, table[order[i].key])
    requires var key, after := order[i].key, Read(RewriteAll(rows, table, order), known);
             after.Ok? && key in after.value && Replaced(table[key], after.value[key], order[i].value)
    ensures var c := order[i];
            var f := table[c.key];
            f.row < |rows| && Fits(rows[f.row].body, f) && Valid(c.key, c.value)
              && Sound(rows[f.row].body, f, c.key, c.value)
  {
    hide Read, KeyOf, Lead, Valid, Parse, Sound, Writable, KindOf, TokenFor, Patched, Rest, RewriteAll, Describes;
    var c, after := order[i], RewriteAll(rows, table, order);
    ReadSaid(after, known, c.key);
    RewrittenAt(rows, table, order, i);
    RestIs(rows[table[c.key].row].body, table[c.key]);
    PatchedTells(rows[table[c.key].row].body, table[c.key], c.key, c.value);
  }

  lemma TellsSound(rows: seq<Row>, known: set<string>, table: Table, changes: seq<Change>, order: seq<Change>)
    requires Describes(table, rows) && Rising(table, order) && Known(table, changes)
        && multiset(order) == multiset(changes)
    requires forall c :: c in changes ==> c.key in table && Says(rows[table[c.key].row].body, c.key, table[c.key])
    requires var after := Read(RewriteAll(rows, table, order), known);
             after.Ok? && forall c ::
               c in changes ==> c.key in after.value && Replaced(table[c.key], after.value[c.key], c.value)
    ensures AllSound(rows, table, changes)
  {
    hide Read, Sound, Valid, Writable, KindOf, RewriteAll, Rising, Says, Replaced, KeyOf;
    forall c | c in changes
      ensures c.key in table && Writable(KindOf(c.key), c.value) && Valid(c.key, c.value)
      ensures table[c.key].row < |rows| && Fits(rows[table[c.key].row].body, table[c.key])
      ensures Sound(rows[table[c.key].row].body, table[c.key], c.key, c.value)
    {
      assert c in multiset(order);
      var i :| 0 <= i < |order| && order[i] == c;
      ChangeSound(rows, known, table, order, i);
    }
  }

  lemma RisingBuilds(table: Table, order: seq<Change>)
    requires (forall c :: c in order ==> c.key in table) && DistinctKeys(order)
    requires forall i, j :: 0 <= i < j < |order| ==> table[order[i].key].row < table[order[j].key].row
    ensures Rising(table, order)
  {}

  lemma {:induction false} AscendingPair(edits: seq<Edit>, from: nat, n: nat, i: nat, j: nat)
    requires Ascending(edits, from, n) && i < j < |edits|
    ensures edits[i].end <= edits[j].start && from <= edits[i].start
  {
    if i > 0 { AscendingPair(edits[1..], edits[0].end, n, i - 1, j - 1); }
    else if j > 1 { AscendingPair(edits[1..], edits[0].end, n, 0, j - 1); }
  }

  lemma PairRises(rows: seq<Row>, table: Table, order: seq<Change>, i: nat, j: nat)
    requires Describes(table, rows) && (forall c :: c in order ==> c.key in table) && DistinctKeys(order)
        && i < j < |order|
    requires Ascending(Edits(rows, table, order), 0, |Text(rows)|)
    ensures table[order[i].key].row < table[order[j].key].row
  {
    hide Describes, EditOf, Text, Ascending;
    AscendingPair(Edits(rows, table, order), 0, |Text(rows)|, i, j);
    RowApart(rows, table, order[i], order[j]);
  }

  lemma KnownKeys(table: Table, changes: seq<Change>)
    requires Known(table, changes)
    ensures DistinctKeys(changes) && (forall i :: 0 <= i < |changes| ==> changes[i].key in table)
        && forall c :: c in changes ==> c.key in table
  {
    hide Writable, KindOf;
  }

  /** Sorted by position, the changes are sorted by row. */
  lemma OrderRises(rows: seq<Row>, table: Table, changes: seq<Change>, order: seq<Change>)
    requires Describes(table, rows) && Known(table, changes) && multiset(order) == multiset(changes)
    requires (forall c :: c in order ==> c.key in table) && Ascending(Edits(rows, table, order), 0, |Text(rows)|)
    ensures Rising(table, order)
  {
    hide *;
    KnownKeys(table, changes);
    DistinctOrder(changes, order);
    forall i, j | 0 <= i < j < |order| ensures table[order[i].key].row < table[order[j].key].row {
      PairRises(rows, table, order, i, j);
    }
    RisingBuilds(table, order);
  }

  lemma OrderWritable(table: Table, changes: seq<Change>, order: seq<Change>)
    requires Known(table, changes) && multiset(order) == multiset(changes) && forall c ::
        c in changes ==> Unbroken(c.value)
    ensures forall c :: c in order ==> Unbroken(c.value) && Writable(KindOf(c.key), c.value)
  {
    hide Unbroken, Writable, KindOf;
    forall c | c in order ensures c in changes { assert c in multiset(order); }
  }

  /** The new file, split into rows, is the rewritten rows. */
  lemma SplicedRows(content: string, table: Table, changes: seq<Change>, result: string) returns (order: seq<Change>)
    requires Describes(table, Rows(content)) && Known(table, changes) && forall c :: c in changes ==> Unbroken(c.value)
    requires var edits := Edits(Rows(content), table, changes);
             Ascending(Sorted(edits), 0, |content|) && result == Woven(content, Sorted(edits), 0)
    ensures var rows := Rows(content);
            && Rising(table, order) && multiset(order) == multiset(changes) && DistinctKeys(order)
            && (forall c :: c in order ==> c.key in table) && Rows(result) == RewriteAll(rows, table, order)
  {
    var rows := Rows(content);
    hide *;
    RowsText(content);
    KnownKeys(table, changes);
    order := OrderChanges(rows, table, changes);
    OrderRises(rows, table, changes, order);
    OrderWritable(table, changes, order);
    RewrittenText(rows, table, order, 0);
    RewrittenProper(rows, table, order);
    TextRows(RewriteAll(rows, table, order));
    assert result == content[..0] + result;
    DistinctOrder(changes, order);
  }

  lemma TellsParts(rows: seq<Row>, after: seq<Row>, known: set<string>, changes: seq<Change>)
    requires Tells(rows, after, known, changes)
    ensures Read(rows, known).Ok? && Read(after, known).Ok?
    ensures var was, now := Read(rows, known).value, Read(after, known).value;
            forall c :: c in changes ==> c.key in was && c.key in now && Replaced(was[c.key], now[c.key], c.value)
  {
    hide Read, Replaced;
  }

  lemma OrderSound(rows: seq<Row>, table: Table, changes: seq<Change>, order: seq<Change>)
    requires Describes(table, rows) && AllSound(rows, table, changes) && multiset(order) == multiset(changes)
    ensures AllSound(rows, table, order)
  {
    hide Describes, Writable, KindOf, Valid, Sound;
    forall c | c in order ensures c in changes { assert c in multiset(order); }
  }

  lemma SplicedTells(content: string, known: set<string>, changes: seq<Change>, result: string)
    requires Read(Rows(content), known).Ok? && "substitutions" !in known
        && Known(Read(Rows(content), known).value, changes)
    requires Describes(Read(Rows(content), known).value, Rows(content))
    requires forall c :: c in changes ==> Unbroken(c.value)
    requires var edits := Edits(Rows(content), Read(Rows(content), known).value, changes);
             Ascending(Sorted(edits), 0, |content|) && result == Woven(content, Sorted(edits), 0)
    ensures Tells(Rows(content), Rows(result), known, changes)
            <==> AllSound(Rows(content), Read(Rows(content), known).value, changes)
  {
    var rows := Rows(content);
    var table := Read(rows, known).value;
    hide *;
    var order := SplicedRows(content, table, changes, result);
    if AllSound(rows, table, changes) {
      OrderSound(rows, table, changes, order);
      RewrittenReads(rows, known, table, order);
      OrderTells(rows, Rows(result), known, table, changes, order);
    }
    if Tells(rows, Rows(result), known, changes) {
      TellsParts(rows, Rows(result), known, changes);
      KnownKeys(table, changes);
      forall c | c in changes ensures Says(rows[table[c.key].row].body, c.key, table[c.key]) {
        ReadSaid(rows, known, c.key);
      }
      TellsSound(rows, known, table, changes, order);
    }
  }
}
