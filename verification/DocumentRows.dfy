/** A configuration as rows of text, and what the parser sees of a row. */
module DocumentRows {
  import opened Common
  import opened Scalars

  datatype Row = Row(body: string, eol: string)

  function Whole(row: Row): string { row.body + row.eol }

  function Text(rows: seq<Row>): string {
    if rows == [] then "" else Whole(rows[0]) + Text(rows[1..])
  }

  // -------------------------------------------------------- splitting at line breaks

  function BodyLength(s: string): (n: nat)
    ensures n <= |s| && (forall i :: 0 <= i < n ==> !Break(s[i])) && (n < |s| ==> Break(s[n]))
  {
    if s == "" || Break(s[0]) then 0 else 1 + BodyLength(s[1..])
  }

  /** The length of the line break at a position. */
  function BreakLength(s: string, n: nat): (m: nat)
    requires n <= |s|
    ensures n + m <= |s| && (n < |s| ==> m > 0)
  {
    if n == |s| then 0
    else if s[n] == '\r' && n + 1 < |s| && s[n + 1] == '\n' then 2
    else 1
  }

  /** `splitlines(keepends=True)` with `_line_body`. */
  function Rows(content: string): seq<Row>
    decreases |content|
  {
    if content == "" then []
    else
      var n := BodyLength(content);
      var m := BreakLength(content, n);
      [Row(content[..n], content[n..n + m])] + Rows(content[n + m..])
  }

  predicate Unbroken(s: string) { forall i :: 0 <= i < |s| ==> !Break(s[i]) }

  /** A row that ends where the rest of the text says that a line ends. */
  predicate RowFits(row: Row, rest: string) {
    && Unbroken(row.body)
    && match |row.eol| {
         case 0 => row.body != "" && rest == ""
         case 1 => Break(row.eol[0]) && (row.eol[0] == '\r' ==> rest == "" || rest[0] != '\n')
         case _ => row.eol == "\r\n"
       }
  }

  predicate Proper(rows: seq<Row>) {
    if rows == [] then true else RowFits(rows[0], Text(rows[1..])) && Proper(rows[1..])
  }

  lemma FirstRow(content: string, n: nat, m: nat)
    requires content != "" && n == BodyLength(content) && m == BreakLength(content, n)
    ensures RowFits(Row(content[..n], content[n..n + m]), content[n + m..])
  {
    var eol := content[n..n + m];
    if m == 2 { assert eol[0] == '\r' && eol[1] == '\n'; }
  }

  /** Splitting loses nothing. */
  lemma {:induction false} RowsText(content: string)
    ensures Text(Rows(content)) == content && Proper(Rows(content))
    decreases |content|
  {
    if content != "" {
      var n := BodyLength(content);
      var m := BreakLength(content, n);
      RowsText(content[n + m..]);
      var rows := Rows(content);
      assert rows[1..] == Rows(content[n + m..]);
      assert content == content[..n] + content[n..n + m] + content[n + m..];
      FirstRow(content, n, m);
    }
  }

  lemma {:induction false} BodyLengthIs(body: string, rest: string)
    requires Unbroken(body) && (rest != "" ==> Break(rest[0]))
    ensures BodyLength(body + rest) == |body|
  {
    if body == "" {
      assert body + rest == rest;
    } else {
      assert (body + rest)[1..] == body[1..] + rest;
      BodyLengthIs(body[1..], rest);
    }
  }

  lemma RowSplits(row: Row, rest: string)
    requires RowFits(row, rest)
    ensures var content := Whole(row) + rest;
            content != "" && Rows(content) == [row] + Rows(rest)
  {
    var content, n := Whole(row) + rest, |row.body|;
    assert content == row.body + (row.eol + rest);
    BodyLengthIs(row.body, row.eol + rest);
    assert BreakLength(content, n) == |row.eol| by {
      if |row.eol| == 1 && rest != "" { assert content[n + 1] == rest[0]; }
      if |row.eol| >= 2 { assert content[n] == '\r' && content[n + 1] == '\n'; }
    }
    assert content[..n] == row.body && content[n..n + |row.eol|] == row.eol && content[n + |row.eol|..] == rest;
  }

  /** Splitting invents nothing: rows that end as lines do are found again. */
  lemma {:induction false} TextRows(rows: seq<Row>)
    requires Proper(rows)
    ensures Rows(Text(rows)) == rows
  {
    if rows != [] {
      TextRows(rows[1..]);
      RowSplits(rows[0], Text(rows[1..]));
    }
  }

  lemma {:induction false} TextStart(rows: seq<Row>, k: nat, body: string)
    requires Proper(rows) && k < |rows| && Unbroken(body) && body != ""
    ensures var was, now := Text(rows), Text(rows[k := rows[k].(body := body)]);
            was != "" && now != "" && (now[0] == was[0] || !Break(now[0]))
  {
    var after := rows[k := rows[k].(body := body)];
    if k > 0 { assert after[0] == rows[0] && Whole(rows[0]) != ""; }
  }

  /** Another body in a row, with neither a line break nor nothing in it. */
  lemma {:induction false} ProperBody(rows: seq<Row>, k: nat, body: string)
    requires Proper(rows) && k < |rows| && Unbroken(body) && body != ""
    ensures Proper(rows[k := rows[k].(body := body)])
  {
    var after := rows[k := rows[k].(body := body)];
    if k > 0 {
      ProperBody(rows[1..], k - 1, body);
      assert after[1..] == rows[1..][k - 1 := rows[k].(body := body)];
      TextStart(rows[1..], k - 1, body);
    } else { assert after[1..] == rows[1..]; }
  }

  lemma {:induction false} TextPlus(a: seq<Row>, b: seq<Row>)
    ensures Text(a + b) == Text(a) + Text(b)
  {
    if a == [] {
      assert a + b == b;
    } else {
      assert (a + b)[1..] == a[1..] + b;
      TextPlus(a[1..], b);
    }
  }

  /** The offset of a row in the text. */
  function Offset(rows: seq<Row>, k: nat): nat
    requires k <= |rows|
  {
    |Text(rows[..k])|
  }

  lemma RowInText(rows: seq<Row>, k: nat)
    requires k < |rows|
    ensures Text(rows) == Text(rows[..k]) + Whole(rows[k]) + Text(rows[k + 1..])
    ensures Offset(rows, k) == |Text(rows[..k])|
  {
    assert rows == rows[..k] + [rows[k]] + rows[k + 1..];
    TextPlus(rows[..k] + [rows[k]], rows[k + 1..]);
    TextPlus(rows[..k], [rows[k]]);
    assert [rows[k]][1..] == [] && Text([rows[k]]) == Whole(rows[k]);
  }

  lemma SplicedInside(head: string, body: string, eol: string, tail: string, from: nat, to: nat, token: string)
    requires from <= to <= |body|
    ensures var text := head + (body + eol) + tail;
            text[..|head| + from] + token + text[|head| + to..]
              == head + (body[..from] + token + body[to..] + eol) + tail
  {
    var text := head + (body + eol) + tail;
    assert text[..|head| + from] == head + body[..from];
    assert text[|head| + to..] == body[to..] + eol + tail;
  }

  /** A span of a body, exchanged in the whole text. */
  lemma SplicedRow(rows: seq<Row>, k: nat, from: nat, to: nat, token: string)
    requires k < |rows| && from <= to <= |rows[k].body|
    ensures var text, at := Text(rows), Offset(rows, k);
            var body := rows[k].body[..from] + token + rows[k].body[to..];
            && at + to <= |text|
            && text[..at + from] + token + text[at + to..] == Text(rows[k := rows[k].(body := body)])
  {
    hide Text, Offset;
    var row, head, tail := rows[k], Text(rows[..k]), Text(rows[k + 1..]);
    var body := row.body[..from] + token + row.body[to..];
    var after := rows[k := row.(body := body)];
    RowInText(rows, k);
    RowInText(after, k);
    assert after[..k] == rows[..k] && after[k + 1..] == rows[k + 1..];
    SplicedInside(head, row.body, row.eol, tail, from, to, token);
  }

  // ----------------------------------------------------------------- one row's shape

  /** The length of leading white space. */
  function Ink(s: string): (n: nat)
    ensures n <= |s| && (n < |s| ==> !White(s[n]))
  {
    if s == "" || !White(s[0]) then 0 else 1 + Ink(s[1..])
  }

  /** Blank, or a comment. */
  predicate Skipped(s: string) { Ink(s) == |s| || s[Ink(s)] == '#' }

  predicate Control(c: char) { c < ' ' || 0x7F <= c as int <= 0x9F }

  predicate Word(c: char) { 'a' <= c <= 'z' || 'A' <= c <= 'Z' || '0' <= c <= '9' || c == '_' || c == '-' }

  function Run(s: string): (n: nat)
    ensures n <= |s| && (forall i :: 0 <= i < n ==> Word(s[i])) && (n < |s| ==> !Word(s[n]))
  {
    if s == "" || !Word(s[0]) then 0 else 1 + Run(s[1..])
  }

  function Pad(s: string): (n: nat)
    ensures n <= |s| && (forall i :: 0 <= i < n ==> s[i] == ' ' || s[i] == '\t')
        && (n < |s| ==> s[n] != ' ' && s[n] != '\t')
  {
    if s == "" || (s[0] != ' ' && s[0] != '\t') then 0 else 1 + Pad(s[1..])
  }

  /** The key token at the start of a text: how long it is, and the key unless its escapes are
      wrong. */
  function KeyToken(s: string): (found: Option<(nat, Option<string>)>)
    ensures found.Some? ==> 0 < found.value.0 <= |s|
  {
    if s == "" then None
    else if s[0] == '\'' then
      var end := SingleEnd(s, 1);
      if end.None? then None
      else
        SingleEndCloses(s, 1);
        Some((end.value, Some(Undouble(s[1..end.value - 1]))))
    else if s[0] == '"' then
      var end := DoubleEnd(s, 1, false);
      if end.None? then None
      else
        DoubleEndCloses(s, 1);
        Some((end.value, Decode(s[1..end.value - 1])))
    else if |s| >= 2 && s[..2] == "<<" then Some((2, Some("<<")))
    else if Run(s) > 0 then Some((Run(s), Some(s[..Run(s)])))
    else None
  }

  /** What a row says before its value: no key, a key that is refused, or a key and the column
      behind its colon. */
  datatype Key = NoKey | BadKey | Key(name: string, column: nat)

  function KeyOf(body: string): (key: Key)
    ensures key.Key? ==> key.column <= |body|
  {
    var lead := Lead(body);
    var found := KeyToken(body[lead..]);
    if found.None? then NoKey
    else
      var colon := lead + found.value.0 + Pad(body[lead + found.value.0..]);
      if colon == |body| || body[colon] != ':' then NoKey
      else if colon + 1 < |body| && body[colon + 1] != ' ' && body[colon + 1] != '\t' then NoKey
      else if found.value.1.None? || exists i ::
        0 <= i < |found.value.1.value| && Control(found.value.1.value[i]) then BadKey
      else Key(found.value.1.value, colon + 1)
  }

  // -------------------------------------------- what a value has no influence on

  lemma {:induction false} LeadIs(s: string, n: nat)
    requires n <= |s| && (forall i :: 0 <= i < n ==> s[i] == ' ') && (n < |s| ==> s[n] != ' ')
    ensures Lead(s) == n
  {}

  lemma {:induction false} RunIs(s: string, n: nat)
    requires n <= |s| && (forall i :: 0 <= i < n ==> Word(s[i])) && (n < |s| ==> !Word(s[n]))
    ensures Run(s) == n
  {}

  lemma {:induction false} PadIs(s: string, n: nat)
    requires n <= |s| && (forall i :: 0 <= i < n ==> s[i] == ' ' || s[i] == '\t')
        && (n < |s| ==> s[n] != ' ' && s[n] != '\t')
    ensures Pad(s) == n
  {}

  lemma {:induction false} InkIs(s: string, n: nat)
    requires n < |s| && (forall i :: 0 <= i < n ==> White(s[i])) && !White(s[n])
    ensures Ink(s) == n
  {
    if n > 0 { InkIs(s[1..], n - 1); }
  }

  lemma KeyTokenSame(s: string, t: string, m: nat)
    requires m <= |s| && m <= |t| && s[..m] == t[..m] && KeyToken(s).Some? && KeyToken(s).value.0 < m
    ensures KeyToken(t) == KeyToken(s)
  {
    var n := KeyToken(s).value.0;
    forall i | 0 <= i <= n ensures s[i] == t[i] { assert s[..m][i] == t[..m][i]; }
    if s[0] == '\'' {
      SingleEndCloses(s, 1);
      assert s[1..n - 1] == t[1..n - 1];
      SingleEndFound(t, 1, n - 1);
    } else if s[0] == '"' {
      DoubleEndCloses(s, 1);
      assert s[1..n - 1] == t[1..n - 1];
      DoubleEndFound(t, 1, n - 1);
    } else if |s| >= 2 && s[..2] == "<<" { assert t[..2] == "<<"; }
    else {
      RunIs(t, n);
      assert s[..n] == t[..n];
      assert |t| >= 2 ==> t[0] != '<';
    }
  }

  lemma KeyTokenStart(s: string)
    requires KeyToken(s).Some?
    ensures s != "" && !White(s[0]) && s[0] != '#'
  {}

  /** The row is neither blank nor a comment. */
  lemma KeyedRow(body: string)
    requires KeyOf(body).Key?
    ensures !Skipped(body)
  {
    var lead := Lead(body);
    var rest := body[lead..];
    KeyTokenStart(rest);
    hide KeyOf, KeyToken;
    assert rest[0] == body[lead];
    InkIs(body, lead);
  }

  /** The parts of a row before its value: indentation, key token, padding, colon. */
  predicate Parts(body: string, lead: nat, token: nat, colon: nat, name: string) {
    && lead + token <= colon < |body| && body[colon] == ':'
      && (colon + 1 < |body| ==> body[colon + 1] == ' ' || body[colon + 1] == '\t')
    && Lead(body) == lead && KeyToken(body[lead..]) == Some((token, Some(name)))
      && Pad(body[lead + token..]) == colon - (lead + token)
    && forall i :: 0 <= i < |name| ==> !Control(name[i])
  }

  lemma KeyGives(body: string) returns (lead: nat, token: nat)
    requires KeyOf(body).Key?
    ensures KeyOf(body).column > 0 && Parts(body, lead, token, KeyOf(body).column - 1, KeyOf(body).name)
  {
    lead, token := Lead(body), KeyToken(body[Lead(body)..]).value.0;
    hide Lead, KeyToken, Pad, Control;
  }

  lemma KeyBuild(body: string, lead: nat, token: nat, colon: nat, name: string)
    requires Parts(body, lead, token, colon, name)
    ensures KeyOf(body) == Key(name, colon + 1)
  {
    hide Lead, KeyToken, Pad, Control;
  }

  lemma SamePrefix(body: string, after: string, n: nat, from: nat)
    requires from <= n < |body| && n < |after| && body[..n + 1] == after[..n + 1]
    ensures body[from..][..n - from] == after[from..][..n - from] && forall i :: 0 <= i <= n ==> body[i] == after[i]
  {
    forall i | 0 <= i <= n ensures body[i] == after[i] { assert body[..n + 1][i] == after[..n + 1][i]; }
  }

  lemma PadSame(body: string, after: string, from: nat, colon: nat)
    requires from <= colon < |body| && colon < |after| && Pad(body[from..]) == colon - from && body[colon] == ':'
    requires forall i :: 0 <= i <= colon ==> body[i] == after[i]
    ensures Pad(after[from..]) == colon - from
  {
    var s, t := body[from..], after[from..];
    forall i | 0 <= i < colon - from ensures t[i] == ' ' || t[i] == '\t' { assert t[i] == s[i]; }
    PadIs(t, colon - from);
  }

  /** A body that is the same up to the space behind the colon has the same key. */
  lemma SameKey(body: string, after: string)
    requires KeyOf(body).Key?
    requires var n := KeyOf(body).column; n < |body| && n < |after| && body[..n + 1] == after[..n + 1] && body[n] == ' '
    ensures KeyOf(after) == KeyOf(body) && Lead(after) == Lead(body) && !Skipped(after) && !Skipped(body)
  {
    hide KeyOf, KeyToken, Control, Skipped;
    var lead, token := KeyGives(body);
    var n := KeyOf(body).column;
    SamePrefix(body, after, n, lead);
    LeadIs(after, lead);
    KeyTokenSame(body[lead..], after[lead..], n - lead);
    PadSame(body, after, lead + token, n - 1);
    KeyBuild(after, lead, token, n - 1, KeyOf(body).name);
    KeyedRow(body);
    KeyedRow(after);
  }
}
