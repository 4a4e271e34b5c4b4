/** Changing substitutions in a file, whether it holds them already or not (`_apply_changes`):
    the new file reads as the old one with exactly the requested values, under a condition on
    the old file. */
module SubstitutionChanges {
  import opened Common
  import opened Scalars
  import opened ScalarRoundTrips
  import opened DocumentRows
  import opened Substitutions
  import opened SubstitutionEdits
  import opened SubstitutionInserts
  import Inserts = SubstitutionInserts
  import opened Splicing

  // ------------------------------------------------------------- rows and their ends

  lemma {:induction false} ProperFront(rows: seq<Row>, k: nat)
    requires Proper(rows) && k <= |rows|
    ensures Proper(rows[..k])
  {
    if k > 0 {
      ProperFront(rows[1..], k - 1);
      assert rows[..k][1..] == rows[1..][..k - 1] && rows[..k][0] == rows[0];
      TextPlus(rows[1..][..k - 1], rows[k..]);
      assert rows[1..] == rows[1..][..k - 1] + rows[k..];
    }
  }

  lemma {:induction false} ProperBack(rows: seq<Row>, k: nat)
    requires Proper(rows) && k <= |rows|
    ensures Proper(rows[k..])
  {
    if k == 0 { assert rows[0..] == rows; }
    else {
      ProperBack(rows[1..], k - 1);
      assert rows[1..][k - 1..] == rows[k..];
    }
  }

  lemma {:induction false} ProperRow(rows: seq<Row>, k: nat)
    requires Proper(rows) && k < |rows|
    ensures Unbroken(rows[k].body) && Whole(rows[k]) != "" && (rows[k].eol != "" ==> Break(rows[k].eol[0]))
    ensures |rows[k].eol| > 1 ==> rows[k].eol == "\r\n"
  {
    if k > 0 { ProperRow(rows[1..], k - 1); }
  }

  lemma TextFirst(rows: seq<Row>)
    requires Proper(rows) && rows != []
    ensures Text(rows) != "" && Text(rows)[0] == Whole(rows[0])[0]
  {
    ProperRow(rows, 0);
  }

  /** Rows that end well may be followed by others. */
  lemma {:induction false} ProperJoin(a: seq<Row>, b: seq<Row>)
    requires Proper(a) && Proper(b) && (a != [] ==> RowFits(a[|a| - 1], Text(b)))
    ensures Proper(a + b)
  {
    if a == [] { assert a + b == b; }
    else {
      assert (a + b)[1..] == a[1..] + b && (a + b)[0] == a[0];
      ProperJoin(a[1..], b);
      TextPlus(a[1..], b);
      if a[1..] == [] { assert Text(a[1..]) == "" && a[1..] + b == b; } else { TextFirst(a[1..]); }
    }
  }

  predicate LineEnd(newline: string) { newline == "\n" || newline == "\r\n" }

  lemma EndedRow(row: Row, rest: string)
    requires Unbroken(row.body)
    requires LineEnd(row.eol)
        || (|row.eol| == 1 && Break(row.eol[0]) && (row.eol == "\r" ==> rest == "" || rest[0] != '\n'))
    ensures RowFits(row, rest)
  {}

  lemma NoRows()
    ensures Proper([])
  {}

  lemma OneRow(row: Row)
    requires RowFits(row, "")
    ensures Proper([row])
  {
    assert [row][1..] == [] && Text([]) == "";
  }

  lemma NewUnbroken(margin: nat, c: Change, quote: string)
    requires Addable(c) && Unbroken(c.value)
    ensures Unbroken(NewBody(margin, c, quote))
  {
    hide Render, MissingKind, Writable;
    RenderUnbroken(MissingKind(c.key), c.value, quote);
    assert forall i :: 0 <= i < |c.key| ==> Word(c.key[i]);
  }

  lemma {:induction false} NewProper(adds: seq<Change>, margin: nat, newline: string, quote: string)
    requires LineEnd(newline) && forall c :: c in adds ==> Addable(c) && Unbroken(c.value)
    ensures Proper(NewRows(adds, margin, newline, quote))
  {
    hide Addable, NewBody, Unbroken, Proper, RowFits;
    if adds == [] { NoRows(); }
    else {
      var init, c := adds[..|adds| - 1], adds[|adds| - 1];
      var row := Row(NewBody(margin, c, quote), newline);
      NewProper(init, margin, newline, quote);
      NewUnbroken(margin, c, quote);
      EndedRow(row, "");
      OneRow(row);
      if init != [] {
        var last := NewRows(init, margin, newline, quote)[|init| - 1];
        assert init[|init| - 1] in adds;
        NewUnbroken(margin, init[|init| - 1], quote);
        EndedRow(last, Text([row]));
      }
      ProperJoin(NewRows(init, margin, newline, quote), [row]);
    }
  }

  lemma PlainFront(rows: seq<Row>, newline: string, rest: string)
    requires Proper(rows) && rows != [] && EndsPlainly(rows[|rows| - 1].eol) && (rest == "" || rest[0] != '\n')
    ensures Front(rows, newline) == rows && RowFits(rows[|rows| - 1], rest)
  {
    ProperRow(rows, |rows| - 1);
    hide Proper, RowFits, Unbroken;
    EndedRow(rows[|rows| - 1], rest);
  }

  lemma BareIs(rows: seq<Row>, newline: string)
    requires rows != [] && rows[|rows| - 1].eol == ""
    ensures Front(rows, newline) == rows[..|rows| - 1] + [rows[|rows| - 1].(eol := newline)]
  {
    assert Front(rows, newline) == rows[..|rows| - 1] + [rows[|rows| - 1].(eol := newline)];
  }

  /** The rows before the last one end well whatever line end the last one gets. */
  lemma FrontFits(rows: seq<Row>, n: nat, rest: string, row: Row)
    requires Proper(rows) && n == |rows| - 1 && rows[n].eol == "" && row.body == rows[n].body && rest == Text([row])
    ensures n > 0 ==> RowFits(rows[n - 1], rest)
  {
    if n > 0 {
      ProperBack(rows, n - 1);
      var two := rows[n - 1..];
      assert two[0] == rows[n - 1] && two[1..] == [rows[n]];
      ProperRow(rows, n);
      assert [row][1..] == [] && [rows[n]][1..] == [] && Text([]) == "";
      assert rest[0] == row.body[0];
    }
  }

  lemma BareFront(rows: seq<Row>, newline: string, rest: string)
    requires Proper(rows) && LineEnd(newline) && rows != [] && rows[|rows| - 1].eol == ""
    ensures Proper(Front(rows, newline)) && RowFits(Front(rows, newline)[|rows| - 1], rest)
  {
    hide *;
    var n := |rows|;
    var row := rows[n - 1].(eol := newline);
    BareIs(rows, newline);
    ProperRow(rows, n - 1);
    ProperFront(rows, n - 1);
    EndedRow(row, rest);
    EndedRow(row, "");
    OneRow(row);
    FrontFits(rows, n - 1, Text([row]), row);
    ProperJoin(rows[..n - 1], [row]);
  }

  lemma NothingBroken()
    ensures Unbroken("")
  {}

  lemma OddFront(rows: seq<Row>, newline: string, rest: string)
    requires Proper(rows) && LineEnd(newline) && rows != []
    requires rows[|rows| - 1].eol != "" && !EndsPlainly(rows[|rows| - 1].eol)
    ensures Proper(Front(rows, newline)) && |Front(rows, newline)| == |rows| + 1
        && RowFits(Front(rows, newline)[|rows|], rest)
  {
    var last, row := rows[|rows| - 1], Row("", newline);
    ProperRow(rows, |rows| - 1);
    NothingBroken();
    assert Text([row]) == newline by { assert [row][1..] == [] && Text([]) == ""; }
    hide Proper, RowFits, Unbroken, Text;
    EndedRow(row, rest);
    EndedRow(row, "");
    OneRow(row);
    EndedRow(last, Text([row]));
    ProperJoin(rows, [row]);
  }

  lemma FrontProper(rows: seq<Row>, newline: string, rest: string)
    requires Proper(rows) && LineEnd(newline) && (rest == "" || rest[0] != '\n')
    ensures Proper(Front(rows, newline))
        && (rows != [] ==> RowFits(Front(rows, newline)[|Front(rows, newline)| - 1], rest))
  {
    hide Proper, RowFits;
    if rows == [] {}
    else if EndsPlainly(rows[|rows| - 1].eol) { PlainFront(rows, newline, rest); }
    else if rows[|rows| - 1].eol == "" { BareFront(rows, newline, rest); }
    else { OddFront(rows, newline, rest); }
  }

  lemma NewFirst(margin: nat, c: Change, quote: string)
    requires margin > 0
    ensures NewBody(margin, c, quote) != "" && NewBody(margin, c, quote)[0] == ' '
  {}

  lemma NewsProper(back: seq<Row>, margin: nat, adds: seq<Change>, newline: string, quote: string)
    requires Proper(back) && margin > 0 && LineEnd(newline) && adds != [] && forall c ::
        c in adds ==> Addable(c) && Unbroken(c.value)
    ensures var news := NewRows(adds, margin, newline, quote) + back;
            Proper(news) && Text(news) != "" && Text(news)[0] == ' '
  {
    hide Addable, Unbroken, Proper, RowFits, NewBody, Text;
    var news, last := NewRows(adds, margin, newline, quote), adds[|adds| - 1];
    assert news[|news| - 1] == Row(NewBody(margin, last, quote), newline)
      && news[0] == Row(NewBody(margin, adds[0], quote), newline);
    NewProper(adds, margin, newline, quote);
    NewUnbroken(margin, last, quote);
    EndedRow(news[|news| - 1], Text(back));
    ProperJoin(news, back);
    TextFirst(news + back);
    NewFirst(margin, adds[0], quote);
  }

  lemma InsertedIs(rows: seq<Row>, block: Block, adds: seq<Change>, newline: string, quote: string)
    requires 0 < block.end <= |rows|
    ensures Inserted(rows, block, adds, newline, quote)
         == Front(rows[..block.end], newline) + (NewRows(adds, block.margin, newline, quote) + rows[block.end..])
  {
    hide Front, NewRows;
  }

  /** The old rows with the new ones among them are the rows of a file. */
  lemma InsertedProper(rows: seq<Row>, block: Block, adds: seq<Change>, newline: string, quote: string)
    requires Proper(rows) && 0 < block.end <= |rows| && block.margin > 0 && LineEnd(newline) && adds != []
    requires forall c :: c in adds ==> Addable(c) && Unbroken(c.value)
    ensures Proper(Inserted(rows, block, adds, newline, quote))
  {
    hide *;
    InsertedIs(rows, block, adds, newline, quote);
    var front, news, back := Front(rows[..block.end], newline), NewRows(adds, block.margin, newline, quote),
      rows[block.end..];
    ProperFront(rows, block.end);
    ProperBack(rows, block.end);
    NewsProper(back, block.margin, adds, newline, quote);
    FrontProper(rows[..block.end], newline, Text(news + back));
    ProperJoin(front, news + back);
  }

  // -------------------------------------------------------------------- the new text

  /** What goes in front of the new rows. */
  function Prefix(rows: seq<Row>, newline: string): string {
    if rows == [] || EndsPlainly(rows[|rows| - 1].eol) then "" else newline
  }

  lemma LastText(rows: seq<Row>, row: Row)
    ensures Text(rows + [row]) == Text(rows) + Whole(row)
  {
    TextPlus(rows, [row]);
    assert [row][1..] == [] && Text([]) == "";
  }

  lemma FrontText(rows: seq<Row>, newline: string)
    ensures Text(Front(rows, newline)) == Text(rows) + Prefix(rows, newline)
  {
    var n := |rows|;
    if n > 0 && !EndsPlainly(rows[n - 1].eol) {
      if rows[n - 1].eol == "" {
        var row := rows[n - 1].(eol := newline);
        LastText(rows[..n - 1], rows[n - 1]);
        LastText(rows[..n - 1], row);
        assert rows[..n - 1] + [rows[n - 1]] == rows && rows[..n - 1] + [row] == rows[n - 1 := row];
        assert Whole(row) == Whole(rows[n - 1]) + newline;
      } else {
        LastText(rows, Row("", newline));
      }
    }
  }

  /** Where the text of the new rows goes. */
  function InsertedAtText(content: string, at: nat, text: string): string
    requires at <= |content|
  {
    content[..at] + text + content[at..]
  }

  lemma InsertedText(rows: seq<Row>, block: Block, adds: seq<Change>, newline: string, quote: string)
    requires block.end <= |rows|
    ensures Offset(rows, block.end) <= |Text(rows)|
    ensures Text(Inserted(rows, block, adds, newline, quote))
         == InsertedAtText(Text(rows), Offset(rows, block.end),
                           Prefix(rows[..block.end], newline) + Text(NewRows(adds, block.margin, newline, quote)))
  {
    hide Text, Front, NewRows, Prefix;
    var head, tail, news := rows[..block.end], rows[block.end..], NewRows(adds, block.margin, newline, quote);
    assert rows == head + tail;
    TextPlus(head, tail);
    TextPlus(Front(head, newline) + news, tail);
    TextPlus(Front(head, newline), news);
    FrontText(head, newline);
    assert Text(rows)[..|Text(head)|] == Text(head) && Text(rows)[|Text(head)|..] == Text(tail);
  }

  lemma LastOf(row: Row)
    requires Unbroken(row.body) && Whole(row) != "" && (row.eol != "" ==> Break(row.eol[0]))
    ensures Whole(row)[|Whole(row)| - 1] in "\r\n" <==> EndsPlainly(row.eol)
  {
    var whole := Whole(row);
    if row.eol == "" { assert whole == row.body && !Break(row.body[|row.body| - 1]); }
    else { assert whole[|whole| - 1] == row.eol[|row.eol| - 1]; }
  }

  lemma LastOfThree(a: string, b: string, c: string)
    requires b != ""
    ensures (a + b + c)[|a + b| - 1] == b[|b| - 1]
  {}

  /** The last character in front of the new rows tells how their last line ends. */
  lemma LastCharacter(rows: seq<Row>, end: nat)
    requires Proper(rows) && 0 < end <= |rows|
    ensures 0 < Offset(rows, end) <= |Text(rows)|
    ensures Text(rows)[Offset(rows, end) - 1] in "\r\n" <==> EndsPlainly(rows[end - 1].eol)
  {
    hide Text, Proper, Whole, EndsPlainly, Unbroken;
    ProperRow(rows, end - 1);
    LastOf(rows[end - 1]);
    RowInText(rows, end - 1);
    LastText(rows[..end - 1], rows[end - 1]);
    assert rows[..end - 1] + [rows[end - 1]] == rows[..end];
    LastOfThree(Text(rows[..end - 1]), Whole(rows[end - 1]), Text(rows[end..]));
  }

  // --------------------------------------------- splicing in, with the insertion last

  lemma {:induction false} PlaceLast(e: Edit, sorted: seq<Edit>, last: Edit)
    requires e.start <= last.start
    ensures Splicing.Place(e, sorted + [last]) == Splicing.Place(e, sorted) + [last]
  {
    if sorted == [] || e.start <= sorted[0].start {
      assert [e] + (sorted + [last]) == [e] + sorted + [last];
    } else {
      assert (sorted + [last])[1..] == sorted[1..] + [last];
      PlaceLast(e, sorted[1..], last);
    }
  }

  lemma {:induction false} SortedLast(edits: seq<Edit>, last: Edit)
    requires forall e :: e in edits ==> e.start <= last.start
    ensures Sorted(edits + [last]) == Sorted(edits) + [last]
  {
    if edits == [] {
      assert edits + [last] == [last] && [last][1..] == [];
    } else {
      assert (edits + [last])[1..] == edits[1..] + [last];
      SortedLast(edits[1..], last);
      PlaceLast(edits[0], Sorted(edits[1..]), last);
    }
  }

  lemma AscendingInside(edits: seq<Edit>, from: nat, n: nat)
    requires Ascending(edits, from, n) && edits != []
    ensures from <= edits[0].start <= edits[0].end <= n && Ascending(edits[1..], edits[0].end, n)
  {}

  /** An insertion behind all edits may as well be there already. */
  lemma {:induction false} WovenInsert(content: string, edits: seq<Edit>, from: nat, at: nat, text: string)
    requires at <= |content| && Ascending(edits, from, at) && Ascending(edits + [Edit(at, at, text)], from, |content|)
    ensures Ascending(edits, from, |InsertedAtText(content, at, text)|)
    ensures Woven(content, edits + [Edit(at, at, text)], from) == Woven(InsertedAtText(content, at, text), edits, from)
  {
    var ins, after := Edit(at, at, text), InsertedAtText(content, at, text);
    if edits == [] {
      assert (edits + [ins])[1..] == [] && edits + [ins] == [ins];
      assert Woven(content, [ins], from) == content[from..at] + text + content[at..];
      assert after[from..] == content[from..at] + text + content[at..];
    } else {
      var e := edits[0];
      assert (edits + [ins])[1..] == edits[1..] + [ins] && (edits + [ins])[0] == e;
      AscendingInside(edits, from, at);
      WovenInsert(content, edits[1..], e.end, at, text);
      assert after[from..e.start] == content[from..e.start];
    }
  }

  lemma {:induction false} AscendingWider(edits: seq<Edit>, from: nat, n: nat, m: nat, last: Edit)
    requires Ascending(edits, from, n) && n <= last.start && Within(last, m)
    ensures Ascending(edits + [last], from, m)
  {
    if edits == [] {
      assert edits + [last] == [last] && [last][1..] == [];
    } else {
      assert (edits + [last])[1..] == edits[1..] + [last] && (edits + [last])[0] == edits[0];
      Below(edits[1..], edits[0].end, n);
      AscendingWider(edits[1..], edits[0].end, n, m, last);
    }
  }

  // ---------------------------------------------------- the tokens, and the insertion

  lemma EditStarts(rows: seq<Row>, table: Table, c: Change)
    requires Describes(table, rows) && c.key in table
    ensures var e, k := EditOf(rows, table, c), table[c.key].row;
            e.start < e.end && Offset(rows, k) < e.start && e.end <= Offset(rows, k) + |rows[k].body|
  {
    EditInside(rows, table, c);
    var lead, token := KeyGives(rows[table[c.key].row].body);
    hide KeyOf, Text, Offset, TokenFor;
  }

  /** The insertion touches no token. */
  lemma InsertApart(rows: seq<Row>, table: Table, c: Change, end: nat, text: string)
    requires Describes(table, rows) && c.key in table && end <= |rows|
    ensures Apart(EditOf(rows, table, c), Edit(Offset(rows, end), Offset(rows, end), text))
    ensures table[c.key].row < end ==> EditOf(rows, table, c).end <= Offset(rows, end)
  {
    EditStarts(rows, table, c);
    hide KeyOf, Text, Offset, EditOf;
    var k := table[c.key].row;
    if k < end { OffsetOrder(rows, k, end); } else if end < k { OffsetOrder(rows, end, k); }
  }

  lemma SeparatePlus(edits: seq<Edit>, last: Edit, n: nat)
    requires Separate(edits, n) && Splicing.Within(last, n) && forall i :: 0 <= i < |edits| ==> Apart(edits[i], last)
    ensures Separate(edits + [last], n)
  {
    hide Apart, Splicing.Within;
    var all := edits + [last];
    forall i | 0 <= i < |all| ensures Splicing.Within(all[i], n) {}
    forall i, j | 0 <= i < j < |all| ensures Apart(all[i], all[j]) {}
  }

  lemma OffsetInside(rows: seq<Row>, end: nat)
    requires end <= |rows|
    ensures Offset(rows, end) <= |Text(rows)|
  {
    assert rows == rows[..end] + rows[end..];
    TextPlus(rows[..end], rows[end..]);
  }

  lemma InsertSeparate(rows: seq<Row>, table: Table, changes: seq<Change>, end: nat, text: string)
    requires Describes(table, rows) && Known(table, changes) && end <= |rows|
    ensures Offset(rows, end) <= |Text(rows)|
    ensures Separate(Edits(rows, table, changes) + [Edit(Offset(rows, end), Offset(rows, end), text)], |Text(rows)|)
  {
    hide Describes, Writable, EditOf, Text, Apart, Separate, KindOf, Offset;
    var ins, edits := Edit(Offset(rows, end), Offset(rows, end), text), Edits(rows, table, changes);
    OffsetInside(rows, end);
    EditsSeparate(rows, table, changes);
    forall i | 0 <= i < |edits| ensures Apart(edits[i], ins) { InsertApart(rows, table, changes[i], end, text); }
    SeparatePlus(edits, ins, |Text(rows)|);
  }

  /** Known substitutions lie in front of the insertion. */
  lemma TableInside(rows: seq<Row>, known: set<string>, key: string, block: Block)
    requires Read(rows, known).Ok? && key in Read(rows, known).value && Owns(rows) && BlockOf(rows) == Some(block)
    ensures Read(rows, known).value[key].row < block.end
  {
    hide Head, FirstHead, SectionEnd, TopEnd, ChildIndent, Collect, Readable, Skipped, Rest, KeyOf, Indexed, Read,
      Parse, Valid;
    var from, n, child := ReadSits(rows, known, key);
    TopBehind(rows, from);
  }

  lemma BlockTop(rows: seq<Row>, block: Block)
    requires Owns(rows) && BlockOf(rows) == Some(block)
    ensures block.end == TopEnd(rows, Head(rows, 0) + 1)
  {
    hide Head, FirstHead, TopEnd, ChildIndent;
  }

  lemma OwnsBlock(rows: seq<Row>, block: Block)
    requires Owns(rows) && BlockOf(rows) == Some(block)
    ensures Head(rows, 0) < |rows| && 0 < block.end <= |rows| && block.margin > 0
    ensures SectionEnd(rows, Head(rows, 0) + 1) <= block.end == TopEnd(rows, Head(rows, 0) + 1)
  {
    hide *;
    BlockInside(rows, block);
    BlockTop(rows, block);
    TopBehind(rows, Head(rows, 0) + 1);
  }

  /** Rows in front of the insertion are where they were, and so are their tokens. */
  predicate Before(table: Table, end: nat) { forall key :: key in table ==> table[key].row < end }

  predicate Alike(rows: seq<Row>, after: seq<Row>, end: nat) {
    && end <= |rows| && end <= |after|
    && forall i :: 0 <= i < end ==> after[i].body == rows[i].body && (i < end - 1 ==> after[i] == rows[i])
  }

  lemma AlikeDescribes(rows: seq<Row>, after: seq<Row>, end: nat, table: Table)
    requires Describes(table, rows) && Before(table, end) && Alike(rows, after, end)
    ensures Describes(table, after)
  {
    hide KeyOf, Fits;
  }

  lemma AlikeEdit(rows: seq<Row>, after: seq<Row>, end: nat, table: Table, now: Table, c: Change)
    requires Describes(table, rows) && Before(table, end) && Alike(rows, after, end) && c.key in table
    requires Describes(now, after) && c.key in now && now[c.key] == table[c.key]
    ensures EditOf(after, now, c) == EditOf(rows, table, c)
  {
    hide KeyOf, Text, TokenFor;
    var k := table[c.key].row;
    assert after[..k] == rows[..k];
  }

  lemma AlikeEdits(rows: seq<Row>, after: seq<Row>, end: nat, table: Table, now: Table, changes: seq<Change>)
    requires Describes(table, rows) && Before(table, end) && Alike(rows, after, end)
    requires Describes(now, after) && forall c ::
        c in changes ==> c.key in table && c.key in now && now[c.key] == table[c.key]
    ensures Edits(after, now, changes) == Edits(rows, table, changes)
  {
    hide Describes, EditOf, Before, Alike;
    forall i | 0 <= i < |changes| ensures Edits(after, now, changes)[i] == Edits(rows, table, changes)[i] {
      assert changes[i] in changes;
      AlikeEdit(rows, after, end, table, now, changes[i]);
    }
  }

  lemma SeparateFront(edits: seq<Edit>, last: Edit, n: nat, at: nat)
    requires Separate(edits + [last], n) && forall i :: 0 <= i < |edits| ==> edits[i].end <= at
    ensures Separate(edits, at)
  {
    forall i | 0 <= i < |edits| ensures Splicing.Within(edits[i], at) { assert (edits + [last])[i] == edits[i]; }
    forall i, j | 0 <= i < j < |edits| ensures Apart(edits[i], edits[j]) {
      assert (edits + [last])[i] == edits[i] && (edits + [last])[j] == edits[j];
    }
  }

  /** Splicing everything into the old text is splicing the tokens into the text with the rows
      already inserted. */
  lemma SplicedInserted(rows: seq<Row>, table: Table, changes: seq<Change>, end: nat, text: string)
    requires Describes(table, rows) && Known(table, changes) && end <= |rows| && Before(table, end)
    requires var edits := Edits(rows, table, changes) + [Edit(Offset(rows, end), Offset(rows, end), text)];
             Ascending(Sorted(edits), 0, |Text(rows)|)
    ensures Offset(rows, end) <= |Text(rows)|
    ensures var edits, at := Edits(rows, table, changes), Offset(rows, end);
            var after := InsertedAtText(Text(rows), at, text);
            && Ascending(Sorted(edits), 0, |after|)
            && Woven(Text(rows), Sorted(edits + [Edit(at, at, text)]), 0) == Woven(after, Sorted(edits), 0)
  {
    var edits, at := Edits(rows, table, changes), Offset(rows, end);
    InsertSeparate(rows, table, changes, end, text);
    forall i | 0 <= i < |edits| ensures edits[i].end <= at && edits[i].start <= at {
      InsertApart(rows, table, changes[i], end, text);
      EditStarts(rows, table, changes[i]);
    }
    hide Describes, Known, EditOf, Text, Before, Sorted, Ascending, Woven;
    SeparateFront(edits, Edit(at, at, text), |Text(rows)|, at);
    SortedKeeps(edits, at);
    SortedLast(edits, Edit(at, at, text));
    WovenInsert(Text(rows), Sorted(edits), 0, at, text);
  }

  // ------------------------------------------------------ what the new file says

  /** A new substitution is in its row and has its value. */
  predicate Stands(f: Found, row: nat, value: string) { f.row == row && f.scalar.value == value }

  /** The file reads as before but for the requested values: known ones where they were, new ones
      in the new rows. */
  ghost predicate TellsAll(rows: seq<Row>, after: seq<Row>, known: set<string>, present: seq<Change>,
                           adds: seq<Change>, place: nat) {
    && Read(rows, known).Ok? && Read(after, known).Ok?
    && var was, now := Read(rows, known).value, Read(after, known).value;
       && (forall key :: key in now <==> key in was || exists j :: 0 <= j < |adds| && adds[j].key == key)
       && (forall c :: c in present ==> c.key in was && c.key in now && Replaced(was[c.key], now[c.key], c.value))
       && (forall j :: 0 <= j < |adds| ==> adds[j].key in now && Stands(now[adds[j].key], place + j, adds[j].value))
       && forall key :: key in was && key in now && (forall c :: c in present ==> c.key != key) ==> now[key] == was[key]
  }

  /** Sound changes of known rows, and new rows that land in the section with their values. */
  predicate Works(rows: seq<Row>, table: Table, present: seq<Change>, adds: seq<Change>, quote: string)
    requires Describes(table, rows) && (adds != [] ==> Head(rows, 0) < |rows|)
  {
    AllSound(rows, table, present)
      && (adds != [] ==> Lands(rows) && forall j :: 0 <= j < |adds| ==> AddSound(adds[j], quote))
  }

  lemma {:induction false} RewriteElse(rows: seq<Row>, table: Table, order: seq<Change>, i: nat)
    requires Describes(table, rows) && Rising(table, order) && i < |rows| && forall c ::
        c in order ==> table[c.key].row != i
    ensures RewriteAll(rows, table, order)[i] == rows[i]
  {
    hide KeyOf, Render, Patched;
    if order != [] {
      FirstRewritten(rows, table, order);
      assert order[0] in order;
      RewriteElse(rows, table, order[1..], i);
    }
  }

  /** A new row that is read with its value was sound. */
  lemma AddTold(after: seq<Row>, known: set<string>, c: Change, margin: nat, quote: string, row: nat)
    requires Addable(c) && row < |after| && after[row].body == NewBody(margin, c, quote)
    requires Read(after, known).Ok? && c.key in Read(after, known).value
        && Stands(Read(after, known).value[c.key], row, c.value)
    ensures AddSound(c, quote)
  {
    hide Read, KeyOf, Parse, Valid, Lead, Rest, NewBody, NewToken, Spoiled, Skipped, Writable;
    ReadSaid(after, known, c.key);
    NewBodyReads(margin, c, quote);
    NewValueReads(margin, c, quote);
  }

  lemma TablesSay(rows: seq<Row>, known: set<string>, after: seq<Row>, end: nat, changes: seq<Change>)
    requires Read(rows, known).Ok? && Before(Read(rows, known).value, end) && Alike(rows, after, end)
    requires forall c :: c in changes ==> c.key in Read(rows, known).value
    ensures forall c :: c in changes ==>
              var f := Read(rows, known).value[c.key]; f.row < |after| && Says(after[f.row].body, c.key, f)
  {
    hide Read, Says, KeyOf;
    forall c | c in changes
      ensures var f := Read(rows, known).value[c.key]; f.row < |after| && Says(after[f.row].body, c.key, f)
    {
      ReadSaid(rows, known, c.key);
    }
  }

  // ------------------------------------------------------------ when it says all that

  lemma AlikeSound(rows: seq<Row>, after: seq<Row>, end: nat, table: Table, now: Table, changes: seq<Change>)
    requires Describes(table, rows) && Before(table, end) && Alike(rows, after, end) && Describes(now, after)
    requires forall c :: c in changes ==> c.key in table && c.key in now && now[c.key] == table[c.key]
    ensures AllSound(after, now, changes) <==> AllSound(rows, table, changes)
  {
    hide KeyOf, Sound, Valid, Writable, KindOf;
  }

  lemma {:induction false} RewriteSame(rows: seq<Row>, table: Table, now: Table, order: seq<Change>)
    requires Describes(table, rows) && Describes(now, rows) && Rising(table, order) && Rising(now, order)
    requires forall c :: c in order ==> now[c.key] == table[c.key]
    ensures RewriteAll(rows, now, order) == RewriteAll(rows, table, order)
  {
    hide Describes, Rewrite;
    if order != [] {
      FirstRewritten(rows, table, order);
      FirstRewritten(rows, now, order);
      assert order[0] in order;
      RewriteSame(rows, table, now, order[1..]);
    }
  }

  lemma RisingSame(table: Table, now: Table, order: seq<Change>)
    requires Rising(table, order) && forall c ::
        c in order ==> c.key in now && c.key in table && now[c.key] == table[c.key]
    ensures Rising(now, order)
  {
    forall i | 0 <= i < |order| ensures order[i].key in now && now[order[i].key] == table[order[i].key] {
      assert order[i] in order;
    }
  }

  /** The old document, the new rows among its own, and the tokens rewritten on top. */
  ghost predicate Written(rows: seq<Row>, known: set<string>, present: seq<Change>, adds: seq<Change>, quote: string,
                          newline: string, block: Block, order: seq<Change>, after: seq<Row>)
  {
    && Read(rows, known).Ok? && "substitutions" !in known && Owns(rows) && BlockOf(rows) == Some(block) && adds != []
    && var table := Read(rows, known).value;
       && Known(table, present) && Adding(table, adds, known) && Before(table, block.end) && Describes(table, rows)
       && var base := Inserted(rows, block, adds, newline, quote);
          && Describes(table, base) && Alike(rows, base, block.end) && Rising(table, order)
          && multiset(order) == multiset(present) && DistinctKeys(order) && after == RewriteAll(base, table, order)
  }

  lemma Permuted(order: seq<Change>, present: seq<Change>)
    requires multiset(order) == multiset(present)
    ensures forall c :: c in order <==> c in present
  {
    forall c ensures c in order <==> c in present { assert c in multiset(order) <==> c in multiset(present); }
  }

  lemma TellsMeans(rows: seq<Row>, after: seq<Row>, known: set<string>, present: seq<Change>, adds: seq<Change>,
                   place: nat)
    requires TellsAll(rows, after, known, present, adds, place)
    ensures Read(rows, known).Ok? && Read(after, known).Ok?
    ensures var was, now := Read(rows, known).value, Read(after, known).value;
            && (forall c :: c in present ==> c.key in was && c.key in now && Replaced(was[c.key], now[c.key], c.value))
            && (forall j ::
              0 <= j < |adds| ==> adds[j].key in now && Stands(now[adds[j].key], place + j, adds[j].value))
  {
    hide Read, Replaced, Stands;
  }

  lemma AddedKeys(table: Table, adds: seq<Change>, known: set<string>, present: seq<Change>)
    requires Adding(table, adds, known) && Known(table, present)
    ensures forall c :: c in present ==> c.key in table && forall j :: 0 <= j < |adds| ==> adds[j].key != c.key
    ensures forall j :: 0 <= j < |adds| ==> Addable(adds[j]) && adds[j].key !in table
  {
    hide Addable, Writable, KindOf;
  }

  lemma WrittenParts(rows: seq<Row>, known: set<string>, present: seq<Change>, adds: seq<Change>, quote: string,
                     newline: string, block: Block, order: seq<Change>, after: seq<Row>)
    requires Written(rows, known, present, adds, quote, newline, block, order, after)
    ensures Read(rows, known).Ok? && "substitutions" !in known && Owns(rows) && BlockOf(rows) == Some(block)
        && adds != []
    ensures var table, base := Read(rows, known).value, Inserted(rows, block, adds, newline, quote);
            && Known(table, present) && Adding(table, adds, known) && Before(table, block.end) && Describes(table, rows)
            && Describes(table, base) && Alike(rows, base, block.end) && Rising(table, order)
            && multiset(order) == multiset(present) && DistinctKeys(order) && after == RewriteAll(base, table, order)
    ensures 0 < block.end <= |rows| && block.margin > 0 && Head(rows, 0) < |rows|
    ensures SectionEnd(rows, Head(rows, 0) + 1) <= block.end == TopEnd(rows, Head(rows, 0) + 1)
  {
    OwnsBlock(rows, block);
  }

  lemma TellsPresent(rows: seq<Row>, known: set<string>, present: seq<Change>, adds: seq<Change>, quote: string,
                     newline: string, block: Block, order: seq<Change>, after: seq<Row>)
    requires Written(rows, known, present, adds, quote, newline, block, order, after)
    requires TellsAll(rows, after, known, present, adds, Inserts.Place(rows, block, newline))
    ensures AllSound(rows, Read(rows, known).value, present)
  {
    hide *;
    WrittenParts(rows, known, present, adds, quote, newline, block, order, after);
    var table, base := Read(rows, known).value, Inserted(rows, block, adds, newline, quote);
    TellsMeans(rows, after, known, present, adds, Inserts.Place(rows, block, newline));
    AddedKeys(table, adds, known, present);
    TablesSay(rows, known, base, block.end, present);
    TellsSound(base, known, table, present, order);
    AlikeSound(rows, base, block.end, table, table, present);
  }

  lemma MissingKey(table: Table, adds: seq<Change>, known: set<string>, now: Table)
    requires Adding(table, adds, known) && adds != []
    ensures adds[0].key in now ==> now.Keys != table.Keys
  {
    hide Addable;
  }

  lemma UnreadKeys(rows: seq<Row>, known: set<string>, table: Table, base: seq<Row>, end: nat, present: seq<Change>,
                   order: seq<Change>)
    requires Read(base, known) == Result.Ok(table) && "substitutions" !in known && Describes(table, rows)
        && Before(table, end)
    requires Alike(rows, base, end) && Describes(table, base) && Known(table, present) && AllSound(rows, table, present)
    requires Rising(table, order) && multiset(order) == multiset(present)
    ensures Read(RewriteAll(base, table, order), known).Ok?
        && Read(RewriteAll(base, table, order), known).value.Keys == table.Keys
  {
    hide *;
    KnownKeys(table, present);
    AlikeSound(rows, base, end, table, table, present);
    OrderSound(base, table, present, order);
    RewrittenReads(base, known, table, order);
  }

  lemma LandsWhere(rows: seq<Row>, end: nat)
    requires Head(rows, 0) < |rows| && end == TopEnd(rows, Head(rows, 0) + 1)
    ensures Lands(rows) <==> end == SectionEnd(rows, Head(rows, 0) + 1)
  {
    hide Head, TopEnd, SectionEnd, Heads, KeyOf, Lead, TopLine;
  }

  lemma AddsAddable(table: Table, adds: seq<Change>, known: set<string>)
    requires Adding(table, adds, known)
    ensures forall j :: 0 <= j < |adds| ==> Addable(adds[j])
  {
    hide Addable;
  }

  lemma PlaceNear(rows: seq<Row>, block: Block, newline: string)
    requires block.end <= |rows|
    ensures block.end <= Inserts.Place(rows, block, newline) <= block.end + 1
  {}

  /** Inserted rows that land elsewhere are not. */
  lemma InsertedUnread(rows: seq<Row>, known: set<string>, adds: seq<Change>, quote: string, newline: string,
                       block: Block)
    requires Read(rows, known).Ok? && Owns(rows) && BlockOf(rows) == Some(block)
    requires Head(rows, 0) < |rows| && !Lands(rows)
    requires Adding(Read(rows, known).value, adds, known)
    ensures block.end <= |rows|
    ensures Read(Inserted(rows, block, adds, newline, quote), known) == Read(rows, known)
  {
    hide *;
    OwnsBlock(rows, block);
    LandsWhere(rows, block.end);
    AddsAddable(Read(rows, known).value, adds, known);
    PlaceNear(rows, block, newline);
    InsertedGrows(rows, block, adds, newline, quote);
    OutsideReads(rows, Inserted(rows, block, adds, newline, quote), block.end,
                 Inserts.Place(rows, block, newline) + |adds| - block.end, block.margin, known);
  }

  /** Rows that land elsewhere are not read, so that the new keys are missing. */
  lemma TellsLands(rows: seq<Row>, known: set<string>, present: seq<Change>, adds: seq<Change>, quote: string,
                   newline: string, block: Block, order: seq<Change>, after: seq<Row>)
    requires Written(rows, known, present, adds, quote, newline, block, order, after)
    requires TellsAll(rows, after, known, present, adds, Inserts.Place(rows, block, newline))
    ensures Head(rows, 0) < |rows| && Lands(rows)
  {
    hide *;
    WrittenParts(rows, known, present, adds, quote, newline, block, order, after);
    var table, base := Read(rows, known).value, Inserted(rows, block, adds, newline, quote);
    TellsMeans(rows, after, known, present, adds, Inserts.Place(rows, block, newline));
    TellsPresent(rows, known, present, adds, quote, newline, block, order, after);
    MissingKey(table, adds, known, Read(after, known).value);
    if !Lands(rows) {
      InsertedUnread(rows, known, adds, quote, newline, block);
      UnreadKeys(rows, known, table, base, block.end, present, order);
    }
  }

  lemma InsertedPlace(rows: seq<Row>, block: Block, adds: seq<Change>, newline: string, quote: string, j: nat)
    requires block.end <= |rows| && j < |adds|
    ensures var after, place := Inserted(rows, block, adds, newline, quote), Inserts.Place(rows, block, newline);
            block.end <= place && place + j < |after| && after[place + j].body == NewBody(block.margin, adds[j], quote)
  {
    hide Inserted, NewBody;
    InsertedAt(rows, block, adds, newline, quote);
  }

  /** Inserted rows that land in the section are read. */
  lemma InsertedReads(rows: seq<Row>, known: set<string>, adds: seq<Change>, quote: string, newline: string,
                      block: Block)
    requires Read(rows, known).Ok? && Owns(rows) && Lands(rows) && BlockOf(rows) == Some(block)
    requires adds != [] && Adding(Read(rows, known).value, adds, known) && forall j ::
        0 <= j < |adds| ==> AddSound(adds[j], quote)
    ensures block.end <= |rows|
    ensures Read(Inserted(rows, block, adds, newline, quote), known)
         == Result.Ok(Extended(Read(rows, known).value, adds, |adds|, block.margin, quote,
           Inserts.Place(rows, block, newline)))
  {
    hide *;
    var base := Inserted(rows, block, adds, newline, quote);
    BlockInside(rows, block);
    AddsAddable(Read(rows, known).value, adds, known);
    PlaceNear(rows, block, newline);
    InsertedAt(rows, block, adds, newline, quote);
    InsertedGrows(rows, block, adds, newline, quote);
    var place := Inserts.Place(rows, block, newline);
    InsideReads(rows, base, block, place + |adds| - block.end, adds, place, quote, known);
  }

  lemma BehindKept(rows: seq<Row>, table: Table, order: seq<Change>, end: nat, i: nat)
    requires Describes(table, rows) && Rising(table, order) && Before(table, end) && end <= i < |rows|
    ensures RewriteAll(rows, table, order)[i] == rows[i]
  {
    hide Describes, RewriteAll;
    forall c | c in order ensures c.key in table && table[c.key].row != i {
      var j :| 0 <= j < |order| && order[j] == c;
    }
    RewriteElse(rows, table, order, i);
  }

  /** The rewriting leaves a new row as it was inserted. */
  lemma AddKept(rows: seq<Row>, known: set<string>, present: seq<Change>, adds: seq<Change>, quote: string,
                newline: string, block: Block, order: seq<Change>, after: seq<Row>, j: nat)
    requires Written(rows, known, present, adds, quote, newline, block, order, after) && j < |adds|
        && block.end <= |rows|
    ensures var row := Inserts.Place(rows, block, newline) + j;
            row < |after| && after[row].body == NewBody(block.margin, adds[j], quote)
  {
    hide *;
    WrittenParts(rows, known, present, adds, quote, newline, block, order, after);
    var table, base := Read(rows, known).value, Inserted(rows, block, adds, newline, quote);
    InsertedPlace(rows, block, adds, newline, quote, j);
    BehindKept(base, table, order, block.end, Inserts.Place(rows, block, newline) + j);
  }

  lemma TellsAdd(rows: seq<Row>, after: seq<Row>, known: set<string>, present: seq<Change>, adds: seq<Change>,
                 place: nat, j: nat)
    requires TellsAll(rows, after, known, present, adds, place) && j < |adds|
    ensures Read(after, known).Ok? && adds[j].key in Read(after, known).value
    ensures Stands(Read(after, known).value[adds[j].key], place + j, adds[j].value)
  {
    hide Read, Replaced, Stands;
  }

  lemma WrittenAdd(rows: seq<Row>, known: set<string>, present: seq<Change>, adds: seq<Change>, quote: string,
                   newline: string, block: Block, order: seq<Change>, after: seq<Row>, j: nat)
    requires Written(rows, known, present, adds, quote, newline, block, order, after) && j < |adds|
    ensures Addable(adds[j]) && block.end <= |rows|
  {
    hide *;
    WrittenParts(rows, known, present, adds, quote, newline, block, order, after);
    AddsAddable(Read(rows, known).value, adds, known);
  }

  lemma TellsAdds(rows: seq<Row>, known: set<string>, present: seq<Change>, adds: seq<Change>, quote: string,
                  newline: string, block: Block, order: seq<Change>, after: seq<Row>, j: nat)
    requires Written(rows, known, present, adds, quote, newline, block, order, after) && j < |adds|
    requires TellsAll(rows, after, known, present, adds, Inserts.Place(rows, block, newline))
    ensures AddSound(adds[j], quote)
  {
    hide *;
    WrittenAdd(rows, known, present, adds, quote, newline, block, order, after, j);
    AddKept(rows, known, present, adds, quote, newline, block, order, after, j);
    TellsAdd(rows, after, known, present, adds, Inserts.Place(rows, block, newline), j);
    AddTold(after, known, adds[j], block.margin, quote, Inserts.Place(rows, block, newline) + j);
  }

  lemma ExtendedKeeps(table: Table, adds: seq<Change>, present: seq<Change>, margin: nat, quote: string, place: nat)
    requires forall c :: c in present ==> c.key in table && forall j :: 0 <= j < |adds| ==> adds[j].key != c.key
    ensures var now := Extended(table, adds, |adds|, margin, quote, place);
            forall c :: c in present ==> c.key in now && now[c.key] == table[c.key]
  {
    hide Extended;
    forall c | c in present
      ensures var now := Extended(table, adds, |adds|, margin, quote, place); c.key in now && now[c.key] == table[c.key]
    {
      ExtendedElse(table, adds, |adds|, margin, quote, place, c.key);
    }
  }

  lemma WorksReads(rows: seq<Row>, known: set<string>, present: seq<Change>, adds: seq<Change>, quote: string,
                   newline: string, block: Block, order: seq<Change>, after: seq<Row>)
    requires Written(rows, known, present, adds, quote, newline, block, order, after) && block.end <= |rows|
    requires Head(rows, 0) < |rows| && Lands(rows) && forall j :: 0 <= j < |adds| ==> AddSound(adds[j], quote)
    ensures var now := Extended(Read(rows, known).value, adds, |adds|, block.margin, quote,
        Inserts.Place(rows, block, newline));
            Read(Inserted(rows, block, adds, newline, quote), known) == Result.Ok(now)
            && forall c :: c in present ==> c.key in now && now[c.key] == Read(rows, known).value[c.key]
  {
    hide *;
    WrittenParts(rows, known, present, adds, quote, newline, block, order, after);
    AddedKeys(Read(rows, known).value, adds, known, present);
    InsertedReads(rows, known, adds, quote, newline, block);
    ExtendedKeeps(Read(rows, known).value, adds, present, block.margin, quote, Inserts.Place(rows, block, newline));
  }

  lemma RewriteCount(rows: seq<Row>, table: Table, order: seq<Change>)
    requires Describes(table, rows) && Rising(table, order)
    ensures |RewriteAll(rows, table, order)| == |rows|
  {}

  /** The tokens of a read base, rewritten: it tells the changes of what it holds. */
  lemma BaseTells(rows: seq<Row>, base: seq<Row>, known: set<string>, table: Table, now: Table, present: seq<Change>,
                  end: nat, order: seq<Change>)
    requires Read(base, known) == Result.Ok(now) && "substitutions" !in known && Known(table, present)
    requires Describes(table, rows) && Describes(table, base) && Before(table, end) && Alike(rows, base, end)
    requires Rising(table, order) && multiset(order) == multiset(present) && DistinctKeys(order)
    requires forall c :: c in present ==> c.key in table && c.key in now && now[c.key] == table[c.key]
    requires AllSound(rows, table, present)
    ensures Tells(base, RewriteAll(base, table, order), known, present)
  {
    hide *;
    ReadDescribes(base, known);
    AlikeSound(rows, base, end, table, now, present);
    Permuted(order, present);
    OrderSound(base, now, present, order);
    RisingSame(table, now, order);
    RewriteSame(base, table, now, order);
    RewrittenReads(base, known, now, order);
    RewriteCount(base, table, order);
    OrderTells(base, RewriteAll(base, table, order), known, now, present, order);
  }

  /** The extended document, rewritten, tells all. */
  lemma ExtendedTells(rows: seq<Row>, base: seq<Row>, after: seq<Row>, known: set<string>, present: seq<Change>,
                      adds: seq<Change>, margin: nat, quote: string, place: nat)
    requires Read(rows, known).Ok? && Tells(base, after, known, present)
    requires Known(Read(rows, known).value, present) && Adding(Read(rows, known).value, adds, known)
    requires Read(base, known) == Result.Ok(Extended(Read(rows, known).value, adds, |adds|, margin, quote, place))
    ensures TellsAll(rows, after, known, present, adds, place)
  {
    hide Read, Extended, Addable, Writable, KindOf, NewToken;
    var was, mid, now := Read(rows, known).value, Read(base, known).value, Read(after, known).value;
    AddedKeys(was, adds, known, present);
    ExtendedKeeps(was, adds, present, margin, quote, place);
    forall c | c in present ensures c.key in was && c.key in now && Replaced(was[c.key], now[c.key], c.value) {
      var i :| 0 <= i < |present| && present[i] == c;
    }
    forall j | 0 <= j < |adds| ensures adds[j].key in now && Stands(now[adds[j].key], place + j, adds[j].value) {
      ExtendedAt(was, adds, |adds|, margin, quote, place, j);
    }
    forall key ensures key in now <==> key in was || exists j :: 0 <= j < |adds| && adds[j].key == key {
      if j :| 0 <= j < |adds| && adds[j].key == key { ExtendedAt(was, adds, |adds|, margin, quote, place, j); }
      else { ExtendedElse(was, adds, |adds|, margin, quote, place, key); }
    }
    forall key | key in was && key in now && (forall c :: c in present ==> c.key != key) ensures now[key] == was[key] {
      ExtendedElse(was, adds, |adds|, margin, quote, place, key);
    }
  }

  lemma WorksTells(rows: seq<Row>, known: set<string>, present: seq<Change>, adds: seq<Change>, quote: string,
                   newline: string, block: Block, order: seq<Change>, after: seq<Row>)
    requires Written(rows, known, present, adds, quote, newline, block, order, after)
    requires AllSound(rows, Read(rows, known).value, present) && Head(rows, 0) < |rows| && Lands(rows)
    requires forall j :: 0 <= j < |adds| ==> AddSound(adds[j], quote)
    ensures TellsAll(rows, after, known, present, adds, Inserts.Place(rows, block, newline))
  {
    hide *;
    WrittenParts(rows, known, present, adds, quote, newline, block, order, after);
    WorksReads(rows, known, present, adds, quote, newline, block, order, after);
    var table, base, place := Read(rows, known).value, Inserted(rows, block, adds, newline, quote),
      Inserts.Place(rows, block, newline);
    KnownKeys(table, present);
    BaseTells(rows, base, known, table, Read(base, known).value, present, block.end, order);
    ExtendedTells(rows, base, after, known, present, adds, block.margin, quote, place);
  }

  lemma InsertTells(rows: seq<Row>, known: set<string>, present: seq<Change>, adds: seq<Change>, quote: string,
                    newline: string, block: Block, order: seq<Change>, after: seq<Row>)
    requires Written(rows, known, present, adds, quote, newline, block, order, after)
    ensures Describes(Read(rows, known).value, rows) && Head(rows, 0) < |rows|
    ensures TellsAll(rows, after, known, present, adds, Inserts.Place(rows, block, newline))
            <==> Works(rows, Read(rows, known).value, present, adds, quote)
  {
    hide Written, TellsAll, AllSound, Describes, Read, Lands, AddSound, Head;
    WrittenParts(rows, known, present, adds, quote, newline, block, order, after);
    if TellsAll(rows, after, known, present, adds, Inserts.Place(rows, block, newline)) {
      TellsPresent(rows, known, present, adds, quote, newline, block, order, after);
      TellsLands(rows, known, present, adds, quote, newline, block, order, after);
      forall j | 0 <= j < |adds| ensures AddSound(adds[j], quote) {
        TellsAdds(rows, known, present, adds, quote, newline, block, order, after, j);
      }
    }
    if Works(rows, Read(rows, known).value, present, adds, quote) {
      WorksTells(rows, known, present, adds, quote, newline, block, order, after);
    }
  }

  // --------------------------------------------------------------------- the method

  /** Changes of substitutions that the file holds, and of those that it does not. */
  function Present(table: Table, changes: seq<Change>): (present: seq<Change>)
    ensures forall c :: c in present <==> c in changes && c.key in table
  {
    if changes == [] then []
    else
      var c := changes[|changes| - 1];
      Present(table, changes[..|changes| - 1]) + if c.key in table then [c] else []
  }

  function Missing(table: Table, changes: seq<Change>): (missing: seq<Change>)
    ensures forall c :: c in missing <==> c in changes && c.key !in table
  {
    if changes == [] then []
    else
      var c := changes[|changes| - 1];
      Missing(table, changes[..|changes| - 1]) + if c.key !in table then [c] else []
  }

  /** What the callers propose: one change for each key, in values that the file can spell. */
  predicate Proposed(table: Table, known: set<string>, changes: seq<Change>) {
    && DistinctKeys(changes)
    && forall c ::
      c in changes ==> if c.key in table then Writable(KindOf(c.key), c.value) else c.key in known && Addable(c)
  }

  lemma FilterStep(table: Table, changes: seq<Change>)
    requires changes != []
    ensures var init, c := changes[..|changes| - 1], changes[|changes| - 1];
            && Present(table, changes) == Present(table, init) + (if c.key in table then [c] else [])
            && Missing(table, changes) == Missing(table, init) + (if c.key !in table then [c] else [])
  {}

  lemma {:induction false} FilterDistinct(table: Table, changes: seq<Change>)
    requires DistinctKeys(changes)
    ensures DistinctKeys(Present(table, changes)) && DistinctKeys(Missing(table, changes))
  {
    if changes != [] {
      var init, c := changes[..|changes| - 1], changes[|changes| - 1];
      FilterDistinct(table, init);
      forall d | d in init ensures d.key != c.key {
        var i :| 0 <= i < |init| && init[i] == d;
        assert changes[i] == d;
      }
      hide Present, Missing;
      FilterStep(table, changes);
    }
  }

  lemma ProposedParts(table: Table, known: set<string>, changes: seq<Change>)
    requires Proposed(table, known, changes)
    ensures Known(table, Present(table, changes)) && Adding(table, Missing(table, changes), known)
  {
    hide Writable, KindOf, Addable;
    FilterDistinct(table, changes);
    var present, missing := Present(table, changes), Missing(table, changes);
    forall i | 0 <= i < |present| ensures present[i].key in table
      && Writable(KindOf(present[i].key), present[i].value) {
      assert present[i] in present;
    }
    forall j | 0 <= j < |missing| ensures Addable(missing[j]) && missing[j].key in known && missing[j].key !in table {
      assert missing[j] in missing;
    }
  }

  /** The file's own kind of line end. */
  function Newline(rows: seq<Row>): (newline: string)
    ensures LineEnd(newline)
  {
    if exists i :: 0 <= i < |rows| && rows[i].eol == "\r\n" then "\r\n" else "\n"
  }

  function NewPlace(rows: seq<Row>): nat {
    var block := BlockOf(rows);
    if block.None? then 0 else Inserts.Place(rows, block.value, Newline(rows))
  }

  /** The insertion that the missing substitutions ask for. */
  function Insertion(rows: seq<Row>, adds: seq<Change>, quote: string): seq<Edit> {
    var block := BlockOf(rows);
    if adds == [] || block.None? then []
    else
      var at, newline := Offset(rows, block.value.end), Newline(rows);
      [Edit(at, at, Prefix(rows[..block.value.end], newline) + Text(NewRows(adds, block.value.margin, newline, quote)))]
  }

  lemma EditsPlus(rows: seq<Row>, table: Table, changes: seq<Change>, edits: seq<Edit>)
    requires Describes(table, rows) && forall c :: c in changes ==> c.key in table
    requires |edits| == |changes| && forall i :: 0 <= i < |edits| ==> edits[i] == EditOf(rows, table, changes[i])
    ensures edits == Edits(rows, table, changes)
  {
    hide Describes, EditOf;
  }

  lemma AllSeparate(rows: seq<Row>, table: Table, changes: seq<Change>, adds: seq<Change>, quote: string)
    requires Describes(table, rows) && Known(table, changes)
    ensures Separate(Edits(rows, table, changes) + Insertion(rows, adds, quote), |Text(rows)|)
  {
    hide Describes, Known, Edits, Separate, Text, Offset, BlockOf, NewRows, Prefix, Newline;
    KnownKeys(table, changes);
    var block, edits := BlockOf(rows), Edits(rows, table, changes);
    EditsSeparate(rows, table, changes);
    if adds == [] || block.None? { assert edits + [] == edits; }
    else { InsertSeparate(rows, table, changes, block.value.end, Insertion(rows, adds, quote)[0].text); }
  }

  lemma TellsNoAdds(rows: seq<Row>, after: seq<Row>, known: set<string>, present: seq<Change>, place: nat)
    requires |after| == |rows|
    ensures TellsAll(rows, after, known, present, [], place) <==> Tells(rows, after, known, present)
  {
    hide Read, Replaced;
    if Tells(rows, after, known, present) {
      var was, now := Read(rows, known).value, Read(after, known).value;
      forall c | c in present ensures c.key in was && c.key in now && Replaced(was[c.key], now[c.key], c.value) {
        var i :| 0 <= i < |present| && present[i] == c;
      }
    }
    if TellsAll(rows, after, known, present, [], place) {
      var was, now := Read(rows, known).value, Read(after, known).value;
      forall i | 0 <= i < |present|
        ensures present[i].key in was && Replaced(was[present[i].key], now[present[i].key], present[i].value)
      {
        assert present[i] in present;
      }
    }
  }

  lemma WorksNoAdds(rows: seq<Row>, table: Table, present: seq<Change>, quote: string)
    requires Describes(table, rows)
    ensures Works(rows, table, present, [], quote) <==> AllSound(rows, table, present)
  {
    hide Describes, AllSound;
  }

  /** Without missing substitutions. */
  lemma PresentTells(content: string, known: set<string>, present: seq<Change>, result: string, quote: string)
    requires Read(Rows(content), known).Ok? && "substitutions" !in known
        && Known(Read(Rows(content), known).value, present)
    requires Describes(Read(Rows(content), known).value, Rows(content)) && forall c ::
        c in present ==> Unbroken(c.value)
    requires var edits := Edits(Rows(content), Read(Rows(content), known).value, present);
             Ascending(Sorted(edits), 0, |content|) && result == Woven(content, Sorted(edits), 0)
    ensures TellsAll(Rows(content), Rows(result), known, present, [], NewPlace(Rows(content)))
            <==> Works(Rows(content), Read(Rows(content), known).value, present, [], quote)
  {
    var rows := Rows(content);
    var table := Read(rows, known).value;
    hide *;
    SplicedTells(content, known, present, result);
    var order := SplicedRows(content, table, present, result);
    TellsNoAdds(rows, Rows(result), known, present, NewPlace(rows));
    WorksNoAdds(rows, table, present, quote);
  }

  lemma InsertionIs(rows: seq<Row>, adds: seq<Change>, quote: string, block: Block)
    requires BlockOf(rows) == Some(block) && adds != []
    ensures block.end <= |rows| && Offset(rows, block.end) <= |Text(rows)|
    ensures var at, text := Offset(rows, block.end), Prefix(rows[..block.end], Newline(rows))
                                                     + Text(NewRows(adds, block.margin, Newline(rows), quote));
            && Insertion(rows, adds, quote) == [Edit(at, at, text)]
            && InsertedAtText(Text(rows), at, text) == Text(Inserted(rows, block, adds, Newline(rows), quote))
    ensures NewPlace(rows) == Inserts.Place(rows, block, Newline(rows))
  {
    hide Text, BlockOf, NewRows, Prefix, Newline, Inserted;
    InsertedText(rows, block, adds, Newline(rows), quote);
  }

  lemma TableBefore(rows: seq<Row>, known: set<string>, block: Block)
    requires Read(rows, known).Ok? && Owns(rows) && BlockOf(rows) == Some(block)
    ensures Before(Read(rows, known).value, block.end)
  {
    hide Read, Owns, BlockOf;
    forall key | key in Read(rows, known).value ensures Read(rows, known).value[key].row < block.end {
      TableInside(rows, known, key, block);
    }
  }

  lemma AlikeInserted(rows: seq<Row>, block: Block, adds: seq<Change>, newline: string, quote: string)
    requires block.end <= |rows|
    ensures Alike(rows, Inserted(rows, block, adds, newline, quote), block.end)
  {
    hide Inserted, NewBody;
    InsertedAt(rows, block, adds, newline, quote);
  }

  lemma WrittenBuilds(rows: seq<Row>, known: set<string>, present: seq<Change>, adds: seq<Change>, quote: string,
                      newline: string, block: Block, order: seq<Change>, after: seq<Row>)
    requires Read(rows, known).Ok? && "substitutions" !in known && Owns(rows) && BlockOf(rows) == Some(block)
        && adds != []
    requires var table, base := Read(rows, known).value, Inserted(rows, block, adds, newline, quote);
             && Known(table, present) && Adding(table, adds, known) && Before(table, block.end)
               && Describes(table, rows)
             && Describes(table, base) && Alike(rows, base, block.end) && Rising(table, order)
             && multiset(order) == multiset(present) && DistinctKeys(order) && after == RewriteAll(base, table, order)
    ensures Written(rows, known, present, adds, quote, newline, block, order, after)
  {
    hide Read, Owns, BlockOf, Known, Adding, Before, Describes, Alike, Rising, DistinctKeys, RewriteAll, Inserted;
  }

  lemma OwnBlock(rows: seq<Row>) returns (block: Block)
    requires Owns(rows)
    ensures BlockOf(rows) == Some(block)
  {
    hide BlockOf, Head, FirstHead;
    block := BlockOf(rows).value;
  }

  lemma AddsUnbroken(adds: seq<Change>)
    requires (forall j :: 0 <= j < |adds| ==> Addable(adds[j])) && forall c :: c in adds ==> Unbroken(c.value)
    ensures forall c :: c in adds ==> Addable(c) && Unbroken(c.value)
  {
    hide Addable, Unbroken;
  }

  /** With missing substitutions. */
  lemma AllTells(content: string, known: set<string>, present: seq<Change>, adds: seq<Change>, quote: string,
                 result: string)
    requires Read(Rows(content), known).Ok? && "substitutions" !in known
        && Known(Read(Rows(content), known).value, present)
    requires Adding(Read(Rows(content), known).value, adds, known) && adds != [] && Owns(Rows(content))
    requires Describes(Read(Rows(content), known).value, Rows(content))
    requires forall c :: c in present || c in adds ==> Unbroken(c.value)
    requires var edits := Edits(Rows(content), Read(Rows(content), known).value, present)
        + Insertion(Rows(content), adds, quote);
             Ascending(Sorted(edits), 0, |content|) && result == Woven(content, Sorted(edits), 0)
    ensures Head(Rows(content), 0) < |Rows(content)|
    ensures TellsAll(Rows(content), Rows(result), known, present, adds, NewPlace(Rows(content)))
            <==> Works(Rows(content), Read(Rows(content), known).value, present, adds, quote)
  {
    var rows := Rows(content);
    var table := Read(rows, known).value;
    hide *;
    var block := OwnBlock(rows);
    var newline := Newline(rows);
    var base := Inserted(rows, block, adds, newline, quote);
    RowsText(content);
    OwnsBlock(rows, block);
    InsertionIs(rows, adds, quote, block);
    TableBefore(rows, known, block);
    AlikeInserted(rows, block, adds, newline, quote);
    AlikeDescribes(rows, base, block.end, table);
    KnownKeys(table, present);
    SplicedInserted(rows, table, present, block.end, Insertion(rows, adds, quote)[0].text);
    AlikeEdits(rows, base, block.end, table, table, present);
    AddsAddable(table, adds, known);
    AddsUnbroken(adds);
    InsertedProper(rows, block, adds, newline, quote);
    TextRows(base);
    var order := SplicedRows(Text(base), table, present, result);
    WrittenBuilds(rows, known, present, adds, quote, newline, block, order, Rows(result));
    InsertTells(rows, known, present, adds, quote, newline, block, order, Rows(result));
  }

  /** Without line breaks in the values, and with the header the reader finds. */
  ghost predicate Plain(rows: seq<Row>, changes: seq<Change>, adds: seq<Change>) {
    (forall c :: c in changes ==> Unbroken(c.value)) && (adds == [] || Owns(rows))
  }

  lemma PlainParts(rows: seq<Row>, changes: seq<Change>, adds: seq<Change>)
    requires Plain(rows, changes, adds)
    ensures forall c :: c in changes ==> Unbroken(c.value)
    ensures adds != [] ==> Owns(rows)
  {
    hide Unbroken, Owns;
  }

  lemma NothingMore(edits: seq<Edit>)
    ensures edits + [] == edits
  {}

  lemma NoInsertion(rows: seq<Row>, quote: string)
    ensures Insertion(rows, [], quote) == []
  {
    hide BlockOf;
  }

  lemma ChangesTell(content: string, known: set<string>, changes: seq<Change>, quote: string, result: string)
    requires Read(Rows(content), known).Ok? && "substitutions" !in known
        && Proposed(Read(Rows(content), known).value, known, changes)
    requires Describes(Read(Rows(content), known).value, Rows(content))
    requires var rows, table := Rows(content), Read(Rows(content), known).value;
             var edits := Edits(rows, table, Present(table, changes)) + Insertion(rows, Missing(table, changes), quote);
             Ascending(Sorted(edits), 0, |content|) && result == Woven(content, Sorted(edits), 0)
    requires Plain(Rows(content), changes, Missing(Read(Rows(content), known).value, changes))
    ensures var rows, table := Rows(content), Read(Rows(content), known).value;
            var present, adds := Present(table, changes), Missing(table, changes);
            && (adds != [] ==> Head(rows, 0) < |rows|)
            && (TellsAll(rows, Rows(result), known, present, adds, NewPlace(rows))
              <==> Works(rows, table, present, adds, quote))
  {
    var rows, table := Rows(content), Read(Rows(content), known).value;
    var present, adds := Present(table, changes), Missing(table, changes);
    PlainParts(rows, changes, adds);
    hide *;
    ProposedParts(table, known, changes);
    if adds == [] {
      NoInsertion(rows, quote);
      NothingMore(Edits(rows, table, present));
      PresentTells(content, known, present, result, quote);
    } else { AllTells(content, known, present, adds, quote, result); }
  }

  lemma NothingChanged(table: Table)
    ensures Present(table, []) == [] && Missing(table, []) == []
  {}

  /** The tokens to be exchanged, and the changes for which there is none. */
  method Divide(rows: seq<Row>, table: Table, changes: seq<Change>) returns (edits: seq<Edit>, adds: seq<Change>)
    requires Describes(table, rows)
    ensures adds == Missing(table, changes) && (forall c :: c in Present(table, changes) ==> c.key in table)
    ensures edits == Edits(rows, table, Present(table, changes))
  {
    hide *;
    var present: seq<Change>, i := [], 0;
    edits, adds := [], [];
    NothingChanged(table);
    while i < |changes|
      invariant 0 <= i <= |changes| && present == Present(table, changes[..i]) && adds == Missing(table, changes[..i])
      invariant |edits| == |present|
      invariant forall j :: 0 <= j < |edits| ==> present[j].key in table && edits[j] == EditOf(rows, table, present[j])
    {
      FilterStep(table, changes[..i + 1]);
      assert changes[..i + 1][..i] == changes[..i];
      var c := changes[i];
      if c.key in table { present, edits := present + [c], edits + [EditOf(rows, table, c)]; }
      else { adds := adds + [c]; }
      i := i + 1;
    }
    assert changes[..i] == changes;
    EditsPlus(rows, table, present, edits);
  }

  lemma BlockBehind(rows: seq<Row>, block: Block)
    requires BlockOf(rows) == Some(block)
    ensures 0 < block.end <= |rows|
  {
    hide FirstHead, TopEnd, ChildIndent;
  }

  lemma PrefixIs(rows: seq<Row>, end: nat, newline: string)
    requires 0 < end <= |rows|
    ensures Prefix(rows[..end], newline) == if EndsPlainly(rows[end - 1].eol) then "" else newline
  {}

  /** The new rows as an edit; a line break goes in front unless the text before ends with one. */
  method Insert(content: string, rows: seq<Row>, block: Block, adds: seq<Change>,
                quote: string) returns (insertion: Edit)
    requires rows == Rows(content) && BlockOf(rows) == Some(block) && adds != []
    ensures Insertion(rows, adds, quote) == [insertion]
  {
    hide *;
    RowsText(content);
    InsertionIs(rows, adds, quote, block);
    BlockBehind(rows, block);
    LastCharacter(rows, block.end);
    PrefixIs(rows, block.end, Newline(rows));
    var at, newline := Offset(rows, block.end), Newline(rows);
    var prefix := if at == 0 || content[at - 1] in "\r\n" then "" else newline;
    insertion := Edit(at, at, prefix + Text(NewRows(adds, block.margin, newline, quote)));
  }

  /** Known values are exchanged in their places, missing ones go into new rows in front of the
      next root key; all of it is spliced in from right to left. Without exactly one line that
      heads the section the missing ones are refused.
      If no value holds a line break, and the line that heads the section is the one the reader
      finds, then the new file reads as the old one but for exactly the requested values if and
      only if each value comes back by itself and the new rows land in the section. */
  method ApplyChanges(content: string, known: set<string>, changes: seq<Change>,
                      quote: string) returns (result: Result<string>)
    requires Read(Rows(content), known).Ok? && "substitutions" !in known
    requires Proposed(Read(Rows(content), known).value, known, changes)
    ensures var rows, table := Rows(content), Read(Rows(content), known).value;
            && Describes(table, rows) && (forall c :: c in Present(table, changes) ==> c.key in table)
            && (result.Refusal? <==> Missing(table, changes) != [] && BlockOf(rows).None?)
            && var edits := Edits(rows, table, Present(table, changes))
              + Insertion(rows, Missing(table, changes), quote);
               result.Ok? ==> Ascending(Sorted(edits), 0, |content|) && result.value == Woven(content, Sorted(edits), 0)
    ensures var rows, table := Rows(content), Read(Rows(content), known).value;
            var present, adds := Present(table, changes), Missing(table, changes);
            result.Ok? && Plain(rows, changes, adds) ==>
              && (adds != [] ==> Head(rows, 0) < |rows|)
              && (TellsAll(rows, Rows(result.value), known, present, adds, NewPlace(rows))
                <==> Works(rows, table, present, adds, quote))
  {
    var rows := Rows(content);
    var table := Read(rows, known).value;
    ReadDescribes(rows, known);
    hide *;
    RowsText(content);
    ProposedParts(table, known, changes);
    var edits, adds := Divide(rows, table, changes);
    AllSeparate(rows, table, Present(table, changes), adds, quote);
    if adds != [] {
      var block := BlockOf(rows);
      if block.None? { return Refusal; }
      var insertion := Insert(content, rows, block.value, adds, quote);
      edits := edits + [insertion];
    } else {
      NoInsertion(rows, quote);
      NothingMore(edits);
    }
    var spliced := Splice(content, edits);
    if Plain(rows, changes, adds) { ChangesTell(content, known, changes, quote, spliced); }
    result := Result.Ok(spliced);
  }
}
