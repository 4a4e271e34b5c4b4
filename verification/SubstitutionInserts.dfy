/** Substitutions that the file does not hold yet: where their rows go, and when they are read
    there (`_apply_changes`, `_substitution_block`, `_render_missing`). */
module SubstitutionInserts {
  import opened Common
  import opened Scalars
  import opened ScalarRoundTrips
  import opened DocumentRows
  import opened Substitutions
  import opened SubstitutionEdits
  import opened Splicing

  // ---------------------------------------------------------- where the new rows go

  /** `_SUBSTITUTIONS_RE`. */
  predicate HeadLine(body: string) { |body| >= 14 && body[..14] == "substitutions:" && Skipped(body[14..]) }

  /** `_TOP_LEVEL_RE`, on a row that is neither blank nor a comment. */
  predicate TopLine(body: string) { !Skipped(body) && 0 < Run(body) < |body| && body[Run(body)] == ':' }

  function FirstHead(rows: seq<Row>, from: nat): (i: nat)
    requires from <= |rows|
    ensures from <= i <= |rows|
    decreases |rows| - from
  {
    if from == |rows| || HeadLine(rows[from].body) then from else FirstHead(rows, from + 1)
  }

  function TopEnd(rows: seq<Row>, from: nat): (i: nat)
    requires from <= |rows|
    ensures from <= i <= |rows|
    decreases |rows| - from
  {
    if from == |rows| || TopLine(rows[from].body) then from else TopEnd(rows, from + 1)
  }

  /** The row in front of which the new ones go, and their indentation. */
  datatype Block = Block(end: nat, margin: nat)

  lemma {:induction false} ChildPositive(rows: seq<Row>, from: nat, to: nat)
    requires from <= to <= |rows|
    ensures ChildIndent(rows, from, to).Some? ==> ChildIndent(rows, from, to).value > 0
    decreases |rows| - from
  {
    hide Skipped, Lead;
    if from < to { ChildPositive(rows, from + 1, to); }
  }

  function BlockOf(rows: seq<Row>): (block: Option<Block>)
    ensures block.Some? ==> 0 < block.value.end <= |rows| && block.value.margin > 0
  {
    var start := FirstHead(rows, 0);
    if start == |rows| || FirstHead(rows, start + 1) < |rows| then None
    else
      var end := TopEnd(rows, start + 1);
      ChildPositive(rows, start + 1, end);
      var child := ChildIndent(rows, start + 1, end);
      Some(Block(end, if child.Some? then child.value else 2))
  }

  // ------------------------------------------------------------------- the new rows

  /** `_render_missing` knows no flags. */
  function MissingKind(key: string): Kind { if KindOf(key).Flag? then Title else KindOf(key) }

  function Spaces(n: nat): (s: string)
    ensures |s| == n && forall i :: 0 <= i < n ==> s[i] == ' '
  {
    if n == 0 then "" else " " + Spaces(n - 1)
  }

  function NewToken(c: Change, quote: string): string { Render(MissingKind(c.key), c.value, quote) }

  function NewBody(margin: nat, c: Change, quote: string): string {
    Spaces(margin) + c.key + ": " + NewToken(c, quote)
  }

  function NewRows(adds: seq<Change>, margin: nat, newline: string, quote: string): (rows: seq<Row>)
    ensures |rows| == |adds| && forall j :: 0 <= j < |adds| ==> rows[j] == Row(NewBody(margin, adds[j], quote), newline)
  {
    if adds == [] then []
    else NewRows(adds[..|adds| - 1], margin, newline, quote) + [Row(NewBody(margin, adds[|adds| - 1], quote), newline)]
  }

  predicate EndsPlainly(eol: string) { eol != "" && eol[|eol| - 1] in "\r\n" }

  /** The rows in front of the new ones, the last of them with a line end. */
  function Front(rows: seq<Row>, newline: string): (front: seq<Row>)
    ensures |rows| <= |front| <= |rows| + 1
    ensures forall i :: 0 <= i < |rows| ==> front[i].body == rows[i].body && (i < |rows| - 1 ==> front[i] == rows[i])
    ensures |front| > |rows| ==> front[|rows|].body == ""
  {
    var n := |rows|;
    if n == 0 || EndsPlainly(rows[n - 1].eol) then rows
    else if rows[n - 1].eol == "" then rows[n - 1 := rows[n - 1].(eol := newline)]
    else rows + [Row("", newline)]
  }

  function Inserted(rows: seq<Row>, block: Block, adds: seq<Change>, newline: string, quote: string): seq<Row>
    requires block.end <= |rows|
  {
    Front(rows[..block.end], newline) + NewRows(adds, block.margin, newline, quote) + rows[block.end..]
  }

  /** The index of the first new row. */
  function Place(rows: seq<Row>, block: Block, newline: string): (place: nat)
    requires block.end <= |rows|
    ensures block.end <= place <= block.end + 1
  {
    |Front(rows[..block.end], newline)|
  }

  /** A key of the helper, as it may stand in a new row. */
  predicate Plainly(key: string) { key != "" && forall i :: 0 <= i < |key| ==> Word(key[i]) }

  predicate Addable(c: Change) { Plainly(c.key) && c.key != "substitutions" && Writable(MissingKind(c.key), c.value) }

  /** The new value comes back: its setting is valid and no final space of a plain text is lost. */
  predicate AddSound(c: Change, quote: string) {
    Valid(c.key, c.value) && !Spoiled(MissingKind(c.key), c.value, quote, "")
  }

  function NewFound(margin: nat, c: Change, quote: string, row: nat): Found {
    Found(row, margin + |c.key| + 1, Scalar(c.value, 1, 1 + |NewToken(c, quote)|))
  }

  lemma WordFirst(key: string)
    requires Plainly(key)
    ensures !White(key[0]) && key[0] != '#' && key[0] != ' ' && key[0] !in "'\"<" && forall i ::
        0 <= i < |key| ==> !Control(key[i])
  {}

  lemma NewKeyToken(key: string, rest: string)
    requires Plainly(key) && rest != "" && rest[0] == ':'
    ensures KeyToken(key + rest) == Some((|key|, Some(key))) && Pad((key + rest)[|key|..]) == 0
  {
    WordFirst(key);
    var s := key + rest;
    forall i | 0 <= i < |key| ensures Word(s[i]) { assert s[i] == key[i]; }
    assert s[|key|] == ':' && s[0] == key[0];
    RunIs(s, |key|);
    assert s[..|key|] == key && s[|key|..] == rest;
    assert |s| >= 2 ==> s[..2][0] == s[0];
  }

  lemma NewSlices(spaces: string, key: string, token: string)
    ensures var body, n, m := spaces + key + ": " + token, |spaces|, |key|;
            && body[n..] == key + (": " + token) && body[n + m..] == ": " + token && body[n + m + 1..] == " " + token
            && (forall i :: 0 <= i < n ==> body[i] == spaces[i]) && |body| >= n + m + 2
            && (m > 0 ==> body[n] == key[0])
  {
    var body := spaces + key + ": " + token;
    assert body == spaces + (key + (": " + token));
    assert body == (spaces + key) + (": " + token);
    assert body == (spaces + key + ":") + (" " + token);
  }

  lemma KeyParts(margin: nat, key: string, token: string)
    requires Plainly(key)
    ensures Parts(Spaces(margin) + key + ": " + token, margin, |key|, margin + |key|, key)
  {
    var body := Spaces(margin) + key + ": " + token;
    hide KeyToken, Pad, Control, Lead, Plainly, Spaces;
    WordFirst(key);
    NewSlices(Spaces(margin), key, token);
    LeadIs(body, margin);
    NewKeyToken(key, ": " + token);
    assert (key + (": " + token))[|key|..] == ": " + token;
    assert body[margin + |key|..][0] == ':' && body[margin + |key|..][1] == ' ';
  }

  /** A new row holds its key at the margin. */
  lemma NewBodyReads(margin: nat, c: Change, quote: string)
    requires Plainly(c.key)
    ensures var body := NewBody(margin, c, quote);
            && KeyOf(body) == Key(c.key, margin + |c.key| + 1) && Lead(body) == margin && !Skipped(body)
            && Rest(body) == " " + NewToken(c, quote)
  {
    var body := NewBody(margin, c, quote);
    hide KeyOf, KeyToken, NewToken, Plainly, Spaces, Pad, Control, Skipped, Lead;
    KeyParts(margin, c.key, NewToken(c, quote));
    KeyBuild(body, margin, |c.key|, margin + |c.key|, c.key);
    KeyedRow(body);
    NewSlices(Spaces(margin), c.key, NewToken(c, quote));
  }

  lemma NewValueReads(margin: nat, c: Change, quote: string)
    requires Addable(c)
    ensures var token := NewToken(c, quote);
            && token != "" && token[0] != ' '
            && (Parse(" " + token) == Result.Ok(Scalar(c.value, 1, 1 + |token|))
              <==> !Spoiled(MissingKind(c.key), c.value, quote, ""))
            && (Parse(" " + token).Ok? && Parse(" " + token).value.value == c.value
                ==> !Spoiled(MissingKind(c.key), c.value, quote, ""))
  {
    var token, kind := NewToken(c, quote), MissingKind(c.key);
    hide FirstToken, Spoiled, Render, Writable, MissingKind;
    TokenStart(kind, c.value, quote);
    TokenReads(kind, c.value, quote, "");
    TokenTells(kind, c.value, quote, "");
    assert token + "" == token;
    LeadIs(" " + token, 1);
    assert (" " + token)[1..] == token;
  }

  // --------------------------------------------------------------- a grown document

  /** What a row between the old ones may be: blank, or keyed at the margin. */
  predicate Extra(body: string, margin: nat) {
    && margin > 0 && !KeyOf(body).BadKey?
    && if Skipped(body) then !KeyOf(body).Key? else Lead(body) == margin
  }

  /** The rows of a document, with `d` more in front of row `end`. */
  predicate Grown(rows: seq<Row>, after: seq<Row>, end: nat, d: nat, margin: nat) {
    && end <= |rows| && |after| == |rows| + d
    && (forall i :: 0 <= i < end ==> after[i].body == rows[i].body)
    && (forall i :: end <= i < end + d ==> Extra(after[i].body, margin))
    && forall i :: end <= i < |rows| ==> after[i + d].body == rows[i].body
  }

  lemma BlankExtra(margin: nat)
    requires margin > 0
    ensures Extra("", margin)
  {
    assert KeyToken("") == None;
  }

  lemma NewExtra(margin: nat, c: Change, quote: string)
    requires Addable(c) && margin > 0
    ensures Extra(NewBody(margin, c, quote), margin)
  {
    NewBodyReads(margin, c, quote);
  }

  /** Old rows, a blank one perhaps, new rows, old rows. */
  lemma InsertedAt(rows: seq<Row>, block: Block, adds: seq<Change>, newline: string, quote: string)
    requires block.end <= |rows|
    ensures var after, place := Inserted(rows, block, adds, newline, quote), Place(rows, block, newline);
            var d := place + |adds| - block.end;
            && |after| == |rows| + d
            && (forall i ::
              0 <= i < block.end ==> after[i].body == rows[i].body && (i < block.end - 1 ==> after[i] == rows[i]))
            && (place > block.end ==> after[block.end].body == "")
            && (forall j :: 0 <= j < |adds| ==> after[place + j].body == NewBody(block.margin, adds[j], quote))
            && forall i :: block.end <= i < |rows| ==> after[i + d].body == rows[i].body
  {
    hide Front, NewRows, NewBody;
    var head := rows[..block.end];
    var front := Front(head, newline);
    forall i | 0 <= i < block.end ensures front[i].body == rows[i].body && (i < block.end - 1 ==> front[i] == rows[i]) {
      assert head[i] == rows[i];
    }
  }

  lemma InsertedGrows(rows: seq<Row>, block: Block, adds: seq<Change>, newline: string, quote: string)
    requires block.end <= |rows| && block.margin > 0 && forall j :: 0 <= j < |adds| ==> Addable(adds[j])
    ensures var after, place := Inserted(rows, block, adds, newline, quote), Place(rows, block, newline);
            Grown(rows, after, block.end, place + |adds| - block.end, block.margin)
  {
    hide Addable, Extra, Inserted, NewBody, Place;
    var after, place := Inserted(rows, block, adds, newline, quote), Place(rows, block, newline);
    var d := place + |adds| - block.end;
    InsertedAt(rows, block, adds, newline, quote);
    forall i | block.end <= i < block.end + d ensures Extra(after[i].body, block.margin) {
      if i < place { BlankExtra(block.margin); }
      else {
        NewExtra(block.margin, adds[i - place], quote);
        assert after[place + (i - place)].body == NewBody(block.margin, adds[i - place], quote);
      }
    }
  }

  // ---------------------------------------------------- reading a grown document

  lemma ExtraHeads(body: string, margin: nat)
    requires Extra(body, margin)
    ensures !Heads(body) && (Skipped(body) || Lead(body) > 0)
  {
    hide KeyOf, Skipped;
  }

  lemma {:induction false} HeadShift(rows: seq<Row>, after: seq<Row>, end: nat, d: nat, margin: nat, from: nat)
    requires Grown(rows, after, end, d, margin) && end <= from <= |rows|
    ensures Head(after, from + d) == Head(rows, from) + d
    decreases |rows| - from
  {
    hide Heads, Extra;
    if from < |rows| { HeadShift(rows, after, end, d, margin, from + 1); }
  }

  lemma {:induction false} HeadExtra(rows: seq<Row>, after: seq<Row>, end: nat, d: nat, margin: nat, i: nat)
    requires Grown(rows, after, end, d, margin) && end <= i <= end + d
    ensures Head(after, i) == Head(rows, end) + d
    decreases |after| - i
  {
    hide Heads, Extra;
    if i == end + d { HeadShift(rows, after, end, d, margin, end); }
    else {
      ExtraHeads(after[i].body, margin);
      HeadExtra(rows, after, end, d, margin, i + 1);
    }
  }

  /** Before the new rows a search ends where it did, behind them as much later. */
  function Shift(i: nat, end: nat, d: nat): nat { if i < end then i else i + d }

  lemma {:induction false} HeadGrown(rows: seq<Row>, after: seq<Row>, end: nat, d: nat, margin: nat, from: nat)
    requires Grown(rows, after, end, d, margin) && from <= end
    ensures Head(after, from) == Shift(Head(rows, from), end, d)
    decreases |rows| - from
  {
    hide Heads, Extra;
    if from == end { HeadExtra(rows, after, end, d, margin, end); }
    else { HeadGrown(rows, after, end, d, margin, from + 1); }
  }

  lemma {:induction false} EndShift(rows: seq<Row>, after: seq<Row>, end: nat, d: nat, margin: nat, from: nat)
    requires Grown(rows, after, end, d, margin) && end <= from <= |rows|
    ensures SectionEnd(after, from + d) == SectionEnd(rows, from) + d
    decreases |rows| - from
  {
    hide Skipped, Lead, Extra;
    if from < |rows| { EndShift(rows, after, end, d, margin, from + 1); }
  }

  lemma {:induction false} EndExtra(rows: seq<Row>, after: seq<Row>, end: nat, d: nat, margin: nat, i: nat)
    requires Grown(rows, after, end, d, margin) && end <= i <= end + d
    ensures SectionEnd(after, i) == SectionEnd(rows, end) + d
    decreases |after| - i
  {
    hide Skipped, Lead, Extra;
    if i == end + d { EndShift(rows, after, end, d, margin, end); }
    else {
      ExtraHeads(after[i].body, margin);
      EndExtra(rows, after, end, d, margin, i + 1);
    }
  }

  lemma {:induction false} EndGrown(rows: seq<Row>, after: seq<Row>, end: nat, d: nat, margin: nat, from: nat)
    requires Grown(rows, after, end, d, margin) && from <= end
    ensures SectionEnd(after, from) == Shift(SectionEnd(rows, from), end, d)
    decreases |rows| - from
  {
    hide Skipped, Lead, Extra;
    if from == end { EndExtra(rows, after, end, d, margin, end); }
    else { EndGrown(rows, after, end, d, margin, from + 1); }
  }

  lemma {:induction false} ChildSame(rows: seq<Row>, after: seq<Row>, end: nat, d: nat, margin: nat, from: nat, to: nat)
    requires Grown(rows, after, end, d, margin) && from <= to <= end
    ensures ChildIndent(after, from, to) == ChildIndent(rows, from, to)
    decreases |rows| - from
  {
    hide Skipped, Lead, Extra;
    if from < to { ChildSame(rows, after, end, d, margin, from + 1, to); }
  }

  function Least(a: Option<nat>, margin: nat): Option<nat> { if a.Some? && a.value < margin then a else Some(margin) }

  lemma {:induction false} ChildExtra(rows: seq<Row>, after: seq<Row>, end: nat, d: nat, margin: nat, i: nat)
    requires Grown(rows, after, end, d, margin) && end <= i < end + d && !Skipped(after[end + d - 1].body)
    ensures ChildIndent(after, i, end + d) == Some(margin)
    decreases |after| - i
  {
    hide Skipped, Lead, KeyOf;
    assert Extra(after[i].body, margin);
    if i < end + d - 1 { ChildExtra(rows, after, end, d, margin, i + 1); }
    else { assert ChildIndent(after, i + 1, end + d) == None; }
  }

  lemma {:induction false} ChildGrown(rows: seq<Row>, after: seq<Row>, end: nat, d: nat, margin: nat, from: nat)
    requires Grown(rows, after, end, d, margin) && from <= end && d > 0 && !Skipped(after[end + d - 1].body)
    ensures ChildIndent(after, from, end + d) == Least(ChildIndent(rows, from, end), margin)
    decreases |rows| - from
  {
    hide Skipped, Lead, Extra;
    if from == end { ChildExtra(rows, after, end, d, margin, end); }
    else { ChildGrown(rows, after, end, d, margin, from + 1); }
  }

  lemma {:induction false} CollectSame(rows: seq<Row>, after: seq<Row>, end: nat, d: nat, margin: nat, from: nat,
                                       n: nat, child: Option<nat>, known: set<string>)
    requires Grown(rows, after, end, d, margin) && from <= n <= end
    ensures Collect(after, from, n, child, known) == Collect(rows, from, n, child, known)
    decreases n
  {
    hide Collected, Extra;
    if n > from { CollectSame(rows, after, end, d, margin, from, n - 1, child, known); }
  }

  lemma ReadableGrown(rows: seq<Row>, after: seq<Row>, end: nat, d: nat, margin: nat)
    requires Grown(rows, after, end, d, margin) && Readable(rows)
    ensures Readable(after)
  {
    hide KeyOf, Skipped, Lead;
    forall i | 0 <= i < |after| ensures !KeyOf(after[i].body).BadKey? {
      if end <= i < end + d { assert Extra(after[i].body, margin); }
      else if i >= end + d { assert after[i - d + d].body == rows[i - d].body; }
    }
  }

  // ------------------------------------------------- which rows the section ends with

  lemma TopAtMargin(body: string)
    requires TopLine(body)
    ensures Lead(body) == 0 && !Skipped(body)
  {
    assert Word(body[0]);
  }

  lemma {:induction false} TopBehind(rows: seq<Row>, from: nat)
    requires from <= |rows|
    ensures SectionEnd(rows, from) <= TopEnd(rows, from)
    decreases |rows| - from
  {
    hide Skipped;
    if from < |rows| {
      TopBehind(rows, from + 1);
      if TopLine(rows[from].body) { TopAtMargin(rows[from].body); }
    }
  }

  /** The writer finds the section header that the reader finds. */
  predicate Owns(rows: seq<Row>) {
    Head(rows, 0) < |rows| && FirstHead(rows, 0) == Head(rows, 0) && BlockOf(rows).Some?
  }

  /** The new rows end up in the section: the row behind it, if any, looks like a plain key. */
  predicate Lands(rows: seq<Row>)
    requires Head(rows, 0) < |rows|
  {
    TopEnd(rows, Head(rows, 0) + 1) == SectionEnd(rows, Head(rows, 0) + 1)
  }

  lemma HeadRead(rows: seq<Row>, known: set<string>) returns (head: nat, end: nat, child: Option<nat>)
    requires Read(rows, known).Ok? && Head(rows, 0) < |rows|
    ensures head == Head(rows, 0) && end == SectionEnd(rows, head + 1) && child == ChildIndent(rows, head + 1, end)
    ensures Readable(rows) && Head(rows, head + 1) == |rows| && KeyOf(rows[head].body).Key?
        && Skipped(Rest(rows[head].body))
    ensures Read(rows, known) == Collect(rows, head + 1, end, child, known)
  {
    hide Head, SectionEnd, ChildIndent, Collect, Readable, Skipped, Rest, KeyOf;
    head := Head(rows, 0);
    end := SectionEnd(rows, head + 1);
    child := ChildIndent(rows, head + 1, end);
  }

  lemma GrownFront(rows: seq<Row>, after: seq<Row>, end: nat, d: nat, margin: nat, i: nat)
    requires Grown(rows, after, end, d, margin) && i < end
    ensures i < |rows| && i < |after| && after[i].body == rows[i].body
  {}

  lemma GrownEnds(rows: seq<Row>, after: seq<Row>, end: nat, d: nat, margin: nat)
    requires Grown(rows, after, end, d, margin)
    ensures end <= |rows| && |after| == |rows| + d
  {}

  lemma ShiftBefore(i: nat, end: nat, d: nat)
    ensures Shift(i, end, d) == if i < end then i else i + d
  {}

  /** What the reader sees of the header after rows were inserted behind it. */
  lemma HeaderKept(rows: seq<Row>, after: seq<Row>, end: nat, d: nat, margin: nat, head: nat)
    requires Grown(rows, after, end, d, margin) && head < end && head == Head(rows, 0) && Head(rows, head + 1) == |rows|
    requires Readable(rows) && KeyOf(rows[head].body).Key? && Skipped(Rest(rows[head].body))
    ensures Readable(after) && Head(after, 0) == head && Head(after, head + 1) == |after|
    ensures head < |after| && KeyOf(after[head].body).Key? && Skipped(Rest(after[head].body))
  {
    hide *;
    GrownEnds(rows, after, end, d, margin);
    GrownFront(rows, after, end, d, margin, head);
    ReadableGrown(rows, after, end, d, margin);
    HeadGrown(rows, after, end, d, margin, 0);
    HeadGrown(rows, after, end, d, margin, head + 1);
    ShiftBefore(head, end, d);
    ShiftBefore(|rows|, end, d);
  }

  /** Rows behind the section are not read. */
  lemma OutsideReads(rows: seq<Row>, after: seq<Row>, end: nat, d: nat, margin: nat, known: set<string>)
    requires Read(rows, known).Ok? && Head(rows, 0) < |rows| && Grown(rows, after, end, d, margin)
    requires SectionEnd(rows, Head(rows, 0) + 1) < end
    ensures Read(after, known) == Read(rows, known)
  {
    hide *;
    var head, last, child := HeadRead(rows, known);
    GrownEnds(rows, after, end, d, margin);
    HeaderKept(rows, after, end, d, margin, head);
    EndGrown(rows, after, end, d, margin, head + 1);
    ShiftBefore(last, end, d);
    ChildSame(rows, after, end, d, margin, head + 1, last);
    CollectSame(rows, after, end, d, margin, head + 1, last, child, known);
    ReadBuilds(after, known, head + 1, last, child);
  }

  lemma {:induction false} CollectBare(rows: seq<Row>, from: nat, n: nat, margin: nat, known: set<string>)
    requires from <= n <= |rows| && margin > 0
    requires forall i :: from <= i < n ==> Skipped(rows[i].body) || Lead(rows[i].body) == 0
    ensures Collect(rows, from, n, Some(margin), known) == Result.Ok(map[])
        && Collect(rows, from, n, None, known) == Result.Ok(map[])
    decreases n
  {
    hide Skipped, Lead, KeyOf, Parse, Valid, Rest;
    if n > from {
      CollectBare(rows, from, n - 1, margin, known);
      var body := rows[n - 1].body;
      if KeyOf(body).Key? { KeyedRow(body); }
    }
  }

  lemma {:induction false} NoChild(rows: seq<Row>, from: nat, to: nat)
    requires from <= to <= |rows| && ChildIndent(rows, from, to).None?
    ensures forall i :: from <= i < to ==> Skipped(rows[i].body) || Lead(rows[i].body) == 0
    decreases |rows| - from
  {
    hide Skipped, Lead;
    if from < to { NoChild(rows, from + 1, to); }
  }

  /** At the margin of the new rows the reader finds the old ones, or none at all. */
  lemma CollectMargin(rows: seq<Row>, from: nat, n: nat, margin: nat, known: set<string>)
    requires from <= n <= |rows| && margin > 0
    requires var child := ChildIndent(rows, from, n); child.Some? ==> child.value == margin
    ensures Collect(rows, from, n, Some(margin), known) == Collect(rows, from, n, ChildIndent(rows, from, n), known)
  {
    hide Collect, Skipped, Lead, ChildIndent;
    if ChildIndent(rows, from, n).None? {
      NoChild(rows, from, n);
      CollectBare(rows, from, n, margin, known);
    }
  }

  // ------------------------------------------------------------ reading the new rows

  predicate Adding(table: Table, adds: seq<Change>, known: set<string>) {
    && (forall j :: 0 <= j < |adds| ==> Addable(adds[j]) && adds[j].key in known && adds[j].key !in table)
    && DistinctKeys(adds)
  }

  /** The table with the first `n` new rows. */
  function Extended(table: Table, adds: seq<Change>, n: nat, margin: nat, quote: string, place: nat): Table
    requires n <= |adds|
  {
    if n == 0 then table
    else
      Extended(table, adds, n - 1, margin, quote,
        place)[adds[n - 1].key := NewFound(margin, adds[n - 1], quote, place + n - 1)]
  }

  lemma {:induction false} ExtendedElse(table: Table, adds: seq<Change>, n: nat, margin: nat, quote: string,
                                        place: nat, key: string)
    requires n <= |adds| && forall j :: 0 <= j < n ==> adds[j].key != key
    ensures var t := Extended(table, adds, n, margin, quote, place);
            (key in t <==> key in table) && (key in table ==> t[key] == table[key])
  {
    if n > 0 { ExtendedElse(table, adds, n - 1, margin, quote, place, key); }
  }

  lemma {:induction false} ExtendedAt(table: Table, adds: seq<Change>, n: nat, margin: nat, quote: string, place: nat,
                                      j: nat)
    requires j < n <= |adds| && DistinctKeys(adds)
    ensures var t := Extended(table, adds, n, margin, quote, place);
            adds[j].key in t && t[adds[j].key] == NewFound(margin, adds[j], quote, place + j)
  {
    hide NewFound;
    if j < n - 1 { ExtendedAt(table, adds, n - 1, margin, quote, place, j); }
  }

  /** One new row, collected. */
  lemma NewCollected(table: Table, c: Change, margin: nat, quote: string, row: nat, known: set<string>)
    requires Addable(c) && AddSound(c, quote) && c.key in known && c.key !in table
    ensures Collected(table, NewBody(margin, c, quote), row, Some(margin), known)
         == Result.Ok(table[c.key := NewFound(margin, c, quote, row)])
  {
    hide KeyOf, Parse, Valid, Lead, Rest, NewBody, NewToken, Spoiled, Skipped;
    NewBodyReads(margin, c, quote);
    NewValueReads(margin, c, quote);
    assert c.key != "<<" by { WordFirst(c.key); }
  }

  lemma {:induction false} CollectNew(after: seq<Row>, from: nat, place: nat, adds: seq<Change>, n: nat, margin: nat,
                                      quote: string, known: set<string>, table: Table)
    requires from <= place && place + |adds| <= |after| && n <= |adds| && Adding(table, adds, known)
    requires Collect(after, from, place, Some(margin), known) == Result.Ok(table)
    requires forall j ::
        0 <= j < |adds| ==> AddSound(adds[j], quote) && after[place + j].body == NewBody(margin, adds[j], quote)
    ensures Collect(after, from, place + n, Some(margin), known)
        == Result.Ok(Extended(table, adds, n, margin, quote, place))
  {
    hide Collected, NewBody, AddSound, Addable, NewFound;
    if n > 0 {
      CollectNew(after, from, place, adds, n - 1, margin, quote, known, table);
      var t := Extended(table, adds, n - 1, margin, quote, place);
      ExtendedElse(table, adds, n - 1, margin, quote, place, adds[n - 1].key);
      NewCollected(t, adds[n - 1], margin, quote, place + n - 1, known);
      assert after[place + (n - 1)].body == NewBody(margin, adds[n - 1], quote);
    }
  }

  lemma BlankCollected(table: Table, i: nat, margin: nat, known: set<string>)
    ensures Collected(table, "", i, Some(margin), known) == Result.Ok(table)
  {
    assert KeyToken("") == None;
  }

  /** Rows up to the new ones: a blank one may lie between. */
  lemma CollectPlace(rows: seq<Row>, after: seq<Row>, end: nat, d: nat, margin: nat, from: nat, place: nat,
                     known: set<string>)
    requires Grown(rows, after, end, d, margin) && from <= end <= place <= end + 1 && place <= end + d
    requires place > end ==> after[end].body == ""
    ensures Collect(after, from, place, Some(margin), known) == Collect(rows, from, end, Some(margin), known)
  {
    hide Extra, Collected;
    CollectSame(rows, after, end, d, margin, from, end, Some(margin), known);
    if place > end && Collect(after, from, end, Some(margin), known).Ok? {
      BlankCollected(Collect(after, from, end, Some(margin), known).value, end, margin, known);
    }
  }

  lemma LeastIs(child: Option<nat>, margin: nat)
    requires child.Some? ==> child.value == margin
    ensures Least(child, margin) == Some(margin)
  {}

  lemma BlockInside(rows: seq<Row>, block: Block)
    requires Owns(rows) && BlockOf(rows) == Some(block)
    ensures Head(rows, 0) < |rows| && 0 < block.end <= |rows| && block.margin > 0
  {
    hide BlockOf;
  }

  lemma BlockIs(rows: seq<Row>, block: Block)
    requires Owns(rows) && Lands(rows) && BlockOf(rows) == Some(block)
    ensures var head := Head(rows, 0);
            && head < block.end == SectionEnd(rows, head + 1) && block.margin > 0
            && var child := ChildIndent(rows, head + 1, block.end); child.Some? ==> child.value == block.margin
  {
    hide Head, FirstHead, SectionEnd, TopEnd, ChildIndent;
  }

  lemma LastNew(after: seq<Row>, place: nat, adds: seq<Change>, margin: nat, quote: string, known: set<string>,
                table: Table)
    requires adds != [] && place + |adds| <= |after| && Adding(table, adds, known)
    requires forall j :: 0 <= j < |adds| ==> after[place + j].body == NewBody(margin, adds[j], quote)
    ensures !Skipped(after[place + |adds| - 1].body)
  {
    hide NewBody, Skipped, KeyOf, Lead, Rest, NewToken;
    var j := |adds| - 1;
    NewBodyReads(margin, adds[j], quote);
    assert after[place + j].body == NewBody(margin, adds[j], quote);
  }

  /** Rows at the end of the section are read, each with its value. */
  lemma InsideReads(rows: seq<Row>, after: seq<Row>, block: Block, d: nat, adds: seq<Change>, place: nat,
                    quote: string, known: set<string>)
    requires Read(rows, known).Ok? && Owns(rows) && Lands(rows) && BlockOf(rows) == Some(block)
    requires Grown(rows, after, block.end, d, block.margin) && block.end <= place <= block.end + 1
        && place + |adds| == block.end + d
    requires (place > block.end ==> after[block.end].body == "") && adds != []
        && Adding(Read(rows, known).value, adds, known)
    requires forall j ::
        0 <= j < |adds| ==> AddSound(adds[j], quote) && after[place + j].body == NewBody(block.margin, adds[j], quote)
    ensures Read(after, known) == Result.Ok(Extended(Read(rows, known).value, adds, |adds|, block.margin, quote, place))
  {
    hide *;
    BlockInside(rows, block);
    BlockIs(rows, block);
    var head, end, child := HeadRead(rows, known);
    HeaderKept(rows, after, end, d, block.margin, head);
    EndGrown(rows, after, end, d, block.margin, head + 1);
    ShiftBefore(end, end, d);
    LastNew(after, place, adds, block.margin, quote, known, Read(rows, known).value);
    ChildGrown(rows, after, end, d, block.margin, head + 1);
    LeastIs(child, block.margin);
    CollectMargin(rows, head + 1, end, block.margin, known);
    CollectPlace(rows, after, end, d, block.margin, head + 1, place, known);
    CollectNew(after, head + 1, place, adds, |adds|, block.margin, quote, known, Read(rows, known).value);
    ReadBuilds(after, known, head + 1, end + d, Some(block.margin));
  }

  // ------------------------------------------------------------------- where it fails

  /** A section in front of a root key that is written in quotes. */
  const QUOTED := [
    Row("substitutions:", "\n"), Row("  ct1_name: a", "\n"), Row("\"esphome\":", "\n"), Row("  name: x", "\n")
  ]

  lemma PlainKeyRow(key: string)
    requires Plainly(key)
    ensures KeyOf(key + ":") == Key(key, |key| + 1) && Lead(key + ":") == 0
  {
    var body := key + ":";
    assert key != "" && body[0] == key[0] && body[0..] == body;
    hide KeyOf, KeyToken, Pad, Control, Plainly, Lead;
    WordFirst(key);
    LeadIs(body, 0);
    NewKeyToken(key, ":");
    KeyBuild(body, 0, |key|, |key|, key);
  }

  lemma HeaderRow()
    ensures Heads("substitutions:") && HeadLine("substitutions:")
  {
    var body, key := "substitutions:", "substitutions";
    hide KeyOf, Lead;
    assert body == key + ":" && body[14..] == "" && body[..14] == body;
    PlainKeyRow(key);
  }

  lemma PlainRow(body: string, margin: nat)
    requires margin < |body| && (forall i :: 0 <= i < margin ==> body[i] == ' ')
    requires !White(body[margin]) && body[margin] != '#' && !Word(body[0])
    ensures Lead(body) == margin && !Skipped(body) && !TopLine(body) && !HeadLine(body)
  {
    LeadIs(body, margin);
    InkIs(body, margin);
    assert "substitutions:"[0] == 's' && Word('s');
  }

  /** How the searches treat one row. */
  lemma OneStep(rows: seq<Row>, i: nat)
    requires i < |rows|
    ensures Head(rows, i) == (if Heads(rows[i].body) then i else Head(rows, i + 1))
    ensures FirstHead(rows, i) == (if HeadLine(rows[i].body) then i else FirstHead(rows, i + 1))
    ensures TopEnd(rows, i) == (if TopLine(rows[i].body) then i else TopEnd(rows, i + 1))
    ensures SectionEnd(rows, i)
         == (if !Skipped(rows[i].body) && Lead(rows[i].body) == 0 then i else SectionEnd(rows, i + 1))
  {
    hide Heads, HeadLine, TopLine, Skipped, Lead;
  }

  lemma OneChild(rows: seq<Row>, i: nat, to: nat)
    requires i < to <= |rows|
    ensures var rest, n := ChildIndent(rows, i + 1, to), Lead(rows[i].body);
            ChildIndent(rows, i, to) ==
            if Skipped(rows[i].body) || n == 0 then rest else if rest.Some? && rest.value < n then rest else Some(n)
  {
    hide Skipped, Lead;
  }

  lemma SearchEnds(rows: seq<Row>)
    ensures FirstHead(rows, |rows|) == TopEnd(rows, |rows|) == |rows| && ChildIndent(rows, |rows|, |rows|) == None
  {}

  lemma MissedBuilds(rows: seq<Row>)
    requires |rows| == 4 && Head(rows, 0) == FirstHead(rows, 0) == 0 && FirstHead(rows, 1) == 4
    requires TopEnd(rows, 1) == 4 && SectionEnd(rows, 1) == 2 && ChildIndent(rows, 1, 4) == Some(2)
    ensures Owns(rows) && !Lands(rows) && BlockOf(rows) == Some(Block(4, 2))
  {
    hide Head, FirstHead, TopEnd, SectionEnd, ChildIndent, Heads;
  }

  /** A header, a row of its section, a root key of another kind, a row under that. */
  lemma OtherKeyMissed(rows: seq<Row>)
    requires |rows| == 4 && Heads(rows[0].body) && HeadLine(rows[0].body)
    requires forall i :: 1 <= i < 4 ==> !Skipped(rows[i].body) && !TopLine(rows[i].body) && !HeadLine(rows[i].body)
    requires Lead(rows[1].body) == Lead(rows[3].body) == 2 && Lead(rows[2].body) == 0
    ensures Owns(rows) && !Lands(rows) && BlockOf(rows) == Some(Block(4, 2)) && SectionEnd(rows, 1) == 2
  {
    hide *;
    OneStep(rows, 0);
    OneStep(rows, 1);
    OneStep(rows, 2);
    OneStep(rows, 3);
    SearchEnds(rows);
    OneChild(rows, 3, 4);
    OneChild(rows, 2, 4);
    OneChild(rows, 1, 4);
    MissedBuilds(rows);
  }

  /** In this file the new rows end up behind the section, under the quoted key. */
  lemma QuotedKeyMissed()
    ensures Owns(QUOTED) && !Lands(QUOTED) && BlockOf(QUOTED) == Some(Block(4, 2)) && SectionEnd(QUOTED, 1) == 2
  {
    hide Heads, HeadLine, TopLine, Skipped, Lead, Owns, Lands, BlockOf, SectionEnd, Head;
    HeaderRow();
    PlainRow(QUOTED[1].body, 2);
    PlainRow(QUOTED[2].body, 0);
    PlainRow(QUOTED[3].body, 2);
    OtherKeyMissed(QUOTED);
  }
}
