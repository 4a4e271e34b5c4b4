/** The substitutions of a configuration: which rows hold them, and that a rewritten value is
    read back from the rewritten file (`_substitutions`, `_apply_changes`). */
module Substitutions {
  import opened Common
  import opened Scalars
  import opened ScalarRoundTrips
  import opened DocumentRows

  // ------------------------------------------------------------------- finding rows

  predicate Heads(body: string) { Lead(body) == 0 && KeyOf(body).Key? && KeyOf(body).name == "substitutions" }

  function Head(rows: seq<Row>, from: nat): (i: nat)
    requires from <= |rows|
    ensures from <= i <= |rows| && (i < |rows| ==> Heads(rows[i].body))
    decreases |rows| - from
  {
    if from == |rows| || Heads(rows[from].body) then from else Head(rows, from + 1)
  }

  /** The first row behind the section: neither blank nor a comment, and at the margin. */
  function SectionEnd(rows: seq<Row>, from: nat): (i: nat)
    requires from <= |rows|
    ensures from <= i <= |rows|
    decreases |rows| - from
  {
    if from == |rows| || (!Skipped(rows[from].body) && Lead(rows[from].body) == 0) then from
      else SectionEnd(rows, from + 1)
  }

  /** The least indentation in a section. */
  function ChildIndent(rows: seq<Row>, from: nat, to: nat): Option<nat>
    requires from <= to <= |rows|
    decreases |rows| - from
  {
    if from == to then None
    else
      var rest, n := ChildIndent(rows, from + 1, to), Lead(rows[from].body);
      if Skipped(rows[from].body) || n == 0 then rest else if rest.Some? && rest.value < n then rest else Some(n)
  }

  /** A substitution: its row, the column behind its colon, and its value from there on. */
  datatype Found = Found(row: nat, column: nat, scalar: Scalar)

  type Table = map<string, Found>

  predicate Setting(key: string) { key in ["friendly_name", "update_time", "electric_freq", "csemh_config_contract"] }

  /** `_validate_meter_setting`. */
  predicate Valid(key: string, value: string) {
    Setting(key) ==>
      && 0 < |value| <= 64 && (forall i :: 0 <= i < |value| ==> !Control(value[i]))
      && (key == "update_time" ==> value in ["1s", "2s", "5s", "10s", "30s", "60s"])
      && (key == "electric_freq" ==> value in ["50Hz", "60Hz"])
      && (key == "csemh_config_contract" ==> value == "2")
  }

  function Rest(body: string): string
    requires KeyOf(body).Key?
  {
    body[KeyOf(body).column..]
  }

  /** One row of the section; `known` are the keys that the helper may change. */
  function Collected(table: Table, body: string, i: nat, child: Option<nat>, known: set<string>): Result<Table> {
    var key := KeyOf(body);
    if !key.Key? || child != Some(Lead(body)) then Result.Ok(table)
    else if key.name == "<<" then Refusal
    else if key.name !in known then Result.Ok(table)
    else if key.name in table then Refusal
    else
      var scalar := Parse(Rest(body));
      if scalar.Refusal? || !Valid(key.name, scalar.value.value) then Refusal
      else Result.Ok(table[key.name := Found(i, key.column, scalar.value)])
  }

  function Collect(rows: seq<Row>, from: nat, n: nat, child: Option<nat>, known: set<string>): Result<Table>
    requires from <= n <= |rows|
    decreases n
  {
    if n == from then Result.Ok(map[])
    else
      var table := Collect(rows, from, n - 1, child, known);
      if table.Refusal? then Refusal else Collected(table.value, rows[n - 1].body, n - 1, child, known)
  }

  predicate Readable(rows: seq<Row>) { forall i :: 0 <= i < |rows| ==> !KeyOf(rows[i].body).BadKey? }

  function Read(rows: seq<Row>, known: set<string>): Result<Table> {
    var head := Head(rows, 0);
    if !Readable(rows) then Refusal
    else if head == |rows| then Result.Ok(map[])
    else if Head(rows, head + 1) < |rows| || !Skipped(Rest(rows[head].body)) then Refusal
    else
      var end := SectionEnd(rows, head + 1);
      Collect(rows, head + 1, end, ChildIndent(rows, head + 1, end), known)
  }

  // ------------------------------------------------- rows that look alike but for a value

  predicate Alike(a: string, b: string) { KeyOf(a) == KeyOf(b) && Lead(a) == Lead(b) && Skipped(a) == Skipped(b) }

  /** One row has another value. */
  predicate Changed(rows: seq<Row>, after: seq<Row>, k: nat) {
    && |after| == |rows| && k < |rows| && Alike(rows[k].body, after[k].body)
    && forall i :: 0 <= i < |rows| && i != k ==> after[i] == rows[i]
  }

  lemma {:induction false} HeadSame(rows: seq<Row>, after: seq<Row>, k: nat, from: nat)
    requires Changed(rows, after, k) && from <= |rows|
    ensures Head(after, from) == Head(rows, from)
    decreases |rows| - from
  {
    hide KeyOf, Lead, Skipped;
    if from < |rows| { HeadSame(rows, after, k, from + 1); }
  }

  lemma {:induction false} SectionEndSame(rows: seq<Row>, after: seq<Row>, k: nat, from: nat)
    requires Changed(rows, after, k) && from <= |rows|
    ensures SectionEnd(after, from) == SectionEnd(rows, from)
    decreases |rows| - from
  {
    hide KeyOf, Lead, Skipped;
    if from < |rows| { SectionEndSame(rows, after, k, from + 1); }
  }

  lemma {:induction false} ChildIndentSame(rows: seq<Row>, after: seq<Row>, k: nat, from: nat, to: nat)
    requires Changed(rows, after, k) && from <= to <= |rows|
    ensures ChildIndent(after, from, to) == ChildIndent(rows, from, to)
    decreases |rows| - from
  {
    hide KeyOf, Lead, Skipped;
    if from < to { ChildIndentSame(rows, after, k, from + 1, to); }
  }

  /** A row of the section that holds a key. */
  predicate Holds(body: string, child: Option<nat>, name: string) {
    KeyOf(body).Key? && KeyOf(body).name == name && child == Some(Lead(body))
  }

  /** What the table says of one key is in the rows. */
  predicate Sits(rows: seq<Row>, from: nat, n: nat, child: Option<nat>, known: set<string>, name: string, f: Found)
    requires n <= |rows|
  {
    && name in known && from <= f.row < n && Holds(rows[f.row].body, child, name)
      && f.column == KeyOf(rows[f.row].body).column
    && Parse(Rest(rows[f.row].body)) == Result.Ok(f.scalar) && Valid(name, f.scalar.value)
  }

  /** Every known key is found where it is, and nowhere else. */
  predicate Indexed(rows: seq<Row>, from: nat, n: nat, child: Option<nat>, known: set<string>, table: Table)
    requires n <= |rows|
  {
    && (forall name :: name in table ==> Sits(rows, from, n, child, known, name, table[name]))
    && forall i, name ::
      from <= i < n && name in known && Holds(rows[i].body, child, name) ==> name in table && table[name].row == i
  }

  lemma SitsLonger(rows: seq<Row>, from: nat, n: nat, child: Option<nat>, known: set<string>, name: string, f: Found)
    requires n < |rows| && Sits(rows, from, n, child, known, name, f)
    ensures Sits(rows, from, n + 1, child, known, name, f)
  {}

  lemma CollectedMeans(rows: seq<Row>, from: nat, n: nat, child: Option<nat>, known: set<string>, table: Table)
    requires from <= n < |rows| && Indexed(rows, from, n, child, known, table)
    requires Collected(table, rows[n].body, n, child, known).Ok?
    ensures Indexed(rows, from, n + 1, child, known, Collected(table, rows[n].body, n, child, known).value)
  {
    hide KeyOf, Parse, Valid, Lead, Rest;
    var after := Collected(table, rows[n].body, n, child, known).value;
    forall name | name in after ensures Sits(rows, from, n + 1, child, known, name, after[name]) {
      if name in table && after[name] == table[name] { SitsLonger(rows, from, n, child, known, name, table[name]); }
    }
    hide Sits;
    forall i, name | from <= i < n + 1 && name in known && Holds(rows[i].body, child, name) ensures name in after
      && after[name].row == i {
      if i < n { assert name in table && table[name].row == i; }
    }
  }

  lemma {:induction false} CollectMeans(rows: seq<Row>, from: nat, n: nat, child: Option<nat>, known: set<string>)
    requires from <= n <= |rows| && Collect(rows, from, n, child, known).Ok?
    ensures Indexed(rows, from, n, child, known, Collect(rows, from, n, child, known).value)
    decreases n
  {
    if n > from {
      CollectMeans(rows, from, n - 1, child, known);
      hide Collected, Indexed;
      CollectedMeans(rows, from, n - 1, child, known, Collect(rows, from, n - 1, child, known).value);
    }
  }

  // --------------------------------------------------------------- one changed value

  lemma ReadSits(rows: seq<Row>, known: set<string>, name: string) returns (from: nat, n: nat, child: Option<nat>)
    requires Read(rows, known).Ok? && name in Read(rows, known).value
    ensures var head := Head(rows, 0);
            && head < |rows| && Readable(rows) && Head(rows, head + 1) == |rows| && Skipped(Rest(rows[head].body))
              && from == head + 1
            && n == SectionEnd(rows, from) && child == ChildIndent(rows, from, n)
            && Collect(rows, from, n, child, known) == Read(rows, known)
    ensures Indexed(rows, from, n, child, known, Read(rows, known).value)
    ensures Sits(rows, from, n, child, known, name, Read(rows, known).value[name])
  {
    hide Head, SectionEnd, ChildIndent, Collect, Readable, Skipped, Rest, KeyOf, Sits;
    var head := Head(rows, 0);
    from := head + 1;
    n := SectionEnd(rows, from);
    child := ChildIndent(rows, from, n);
    CollectMeans(rows, from, n, child, known);
  }

  lemma CollectedChanged(table: Table, body: string, i: nat, child: Option<nat>, known: set<string>, name: string,
                         was: Found, f: Found)
    requires name in table && table[name] == was && Collected(table, body, i, child, known).Ok?
    requires name in known
    ensures var t := Collected(table, body, i, child, known).value;
            name in t && t[name] == was && Collected(table[name := f], body, i, child, known) == Result.Ok(t[name := f])
  {
    hide KeyOf, Parse, Valid, Lead, Rest;
    var t := Collected(table, body, i, child, known).value;
    if t != table {
      var key := KeyOf(body);
      var g := Found(i, key.column, Parse(Rest(body)).value);
      assert t == table[key.name := g] && table[name := f][key.name := g] == t[name := f];
    }
  }

  lemma CollectedHere(table: Table, body: string, after: string, k: nat, child: Option<nat>, known: set<string>,
                      name: string, s: Scalar)
    requires Alike(body, after) && Holds(body, child, name) && name in known && Parse(Rest(after)) == Result.Ok(s)
        && Valid(name, s.value)
    requires Collected(table, body, k, child, known).Ok?
    ensures var t := Collected(table, body, k, child, known).value;
            && name in t && Collected(table, after, k, child, known)
              == Result.Ok(t[name := Found(k, KeyOf(body).column, s)])
  {
    hide KeyOf, Parse, Valid, Lead, Skipped;
    var key := KeyOf(body);
    var was, f := Found(k, key.column, Parse(Rest(body)).value), Found(k, key.column, s);
    assert table[name := was][name := f] == table[name := f];
  }

  /** Collecting rows of which one has another value. */
  lemma {:induction false} CollectChanged(rows: seq<Row>, after: seq<Row>, k: nat, from: nat, n: nat,
                                          child: Option<nat>, known: set<string>, name: string, s: Scalar)
    requires Changed(rows, after, k) && from <= k && from <= n <= |rows| && Collect(rows, from, n, child, known).Ok?
    requires name in known && Holds(rows[k].body, child, name) && Parse(Rest(after[k].body)) == Result.Ok(s)
        && Valid(name, s.value)
    ensures Collect(after, from, n, child, known)
         == if k < n then Result.Ok(Collect(rows, from, n, child,
           known).value[name := Found(k, KeyOf(rows[k].body).column, s)])
            else Collect(rows, from, n, child, known)
    ensures k < n ==> name in Collect(rows, from, n, child, known).value
    decreases n
  {
    hide KeyOf, Parse, Valid, Lead, Rest, Collected, Alike;
    if n > from {
      CollectChanged(rows, after, k, from, n - 1, child, known, name, s);
      var table := Collect(rows, from, n - 1, child, known).value;
      if n - 1 == k { CollectedHere(table, rows[k].body, after[k].body, k, child, known, name, s); }
      else if n - 1 > k {
        CollectedChanged(table, rows[n - 1].body, n - 1, child, known, name, table[name],
          Found(k, KeyOf(rows[k].body).column, s));
      }
    }
  }

  lemma SitsHolds(rows: seq<Row>, from: nat, n: nat, child: Option<nat>, known: set<string>, name: string, f: Found)
    requires n <= |rows| && Sits(rows, from, n, child, known, name, f)
    ensures name in known && from <= f.row < n && Holds(rows[f.row].body, child, name)
        && f.column == KeyOf(rows[f.row].body).column
  {}

  lemma ReadBuilds(rows: seq<Row>, known: set<string>, from: nat, n: nat, child: Option<nat>)
    requires Readable(rows) && from > 0 && Head(rows, 0) == from - 1 < |rows| && Head(rows, from) == |rows|
    requires KeyOf(rows[from - 1].body).Key? && Skipped(Rest(rows[from - 1].body))
    requires n == SectionEnd(rows, from) && child == ChildIndent(rows, from, n)
    ensures Read(rows, known) == Collect(rows, from, n, child, known)
  {
    hide KeyOf, Collect, Head, SectionEnd, ChildIndent, Readable, Skipped, Rest;
  }

  lemma HeadOther(rows: seq<Row>, after: seq<Row>, k: nat, head: nat, known: set<string>, name: string)
    requires Changed(rows, after, k) && head < |rows| && Heads(rows[head].body)
    requires name in known && "substitutions" !in known && KeyOf(rows[k].body).Key? && KeyOf(rows[k].body).name == name
    ensures |after| == |rows| && after[head] == rows[head] && KeyOf(rows[head].body).Key?
  {
    hide KeyOf, Lead;
  }

  lemma ReadableSame(rows: seq<Row>, after: seq<Row>, k: nat)
    requires Changed(rows, after, k) && Readable(rows)
    ensures Readable(after)
  {
    hide KeyOf, Lead, Skipped;
  }

  /** Reading rows of which one substitution has another value. */
  lemma ReadChanged(rows: seq<Row>, after: seq<Row>, known: set<string>, name: string, s: Scalar)
    requires Read(rows, known).Ok? && name in Read(rows, known).value && "substitutions" !in known
    requires Changed(rows, after, Read(rows, known).value[name].row)
    requires var k := Read(rows, known).value[name].row;
             KeyOf(after[k].body).Key? && Parse(Rest(after[k].body)) == Result.Ok(s) && Valid(name, s.value)
    ensures var table := Read(rows, known).value;
            Read(after, known) == Result.Ok(table[name := Found(table[name].row, table[name].column, s)])
  {
    hide KeyOf, Parse, Valid, Lead, Rest, Collect, Head, SectionEnd, ChildIndent, Readable, Skipped, Indexed, Changed,
      Read;
    var table := Read(rows, known).value;
    var k := table[name].row;
    var from, n, child := ReadSits(rows, known, name);
    HeadOther(rows, after, k, from - 1, known, name);
    ReadableSame(rows, after, k);
    HeadSame(rows, after, k, 0);
    HeadSame(rows, after, k, from);
    SectionEndSame(rows, after, k, from);
    ChildIndentSame(rows, after, k, from, n);
    SitsHolds(rows, from, n, child, known, name, table[name]);
    CollectChanged(rows, after, k, from, n, child, known, name, s);
    ReadBuilds(after, known, from, n, child);
  }

  // -------------------------------------------------------------- one rewritten value

  /** `_is_gain_key` and its neighbours. */
  function KindOf(key: string): Kind {
    if (|key| >= 14 && key[..14] == "current_cal_ct") || key == "voltage_cal1" || key == "voltage_cal2" then Gain
    else if key == "offset_calibration" || key == "gain_calibration" then Flag
    else if key == "electric_freq" then Frequency
    else Title
  }

  predicate Fits(body: string, f: Found) {
    f.scalar.start <= f.scalar.end && f.column + f.scalar.end <= |body|
  }

  function Was(body: string, f: Found): string
    requires Fits(body, f)
  {
    body[f.column + f.scalar.start..f.column + f.scalar.end]
  }

  function Patched(body: string, f: Found, token: string): string
    requires Fits(body, f)
  {
    body[..f.column + f.scalar.start] + token + body[f.column + f.scalar.end..]
  }

  /** What the file will spell for a value. */
  function TokenFor(body: string, f: Found, name: string, value: string): string
    requires Fits(body, f)
  {
    Render(KindOf(name), value, Was(body, f))
  }

  function Rewrite(rows: seq<Row>, f: Found, name: string, value: string): seq<Row>
    requires f.row < |rows| && Fits(rows[f.row].body, f)
  {
    rows[f.row := rows[f.row].(body := Patched(rows[f.row].body, f, TokenFor(rows[f.row].body, f, name, value)))]
  }

  function Renewed(f: Found, body: string, name: string, value: string): Found
    requires Fits(body, f)
  {
    f.(scalar := Scalar(value, f.scalar.start, f.scalar.start + |TokenFor(body, f, name, value)|))
  }

  /** The value comes back: a space stands behind the colon, and nothing spoils a plain text. */
  predicate Sound(body: string, f: Found, name: string, value: string)
    requires Fits(body, f)
  {
    f.scalar.start > 0 && !Spoiled(KindOf(name), value, Was(body, f), body[f.column + f.scalar.end..])
  }

  lemma SitsFits(rows: seq<Row>, known: set<string>, name: string)
    requires Read(rows, known).Ok? && name in Read(rows, known).value
    ensures var f := Read(rows, known).value[name];
            && name in known && f.row < |rows| && Fits(rows[f.row].body, f)
            && KeyOf(rows[f.row].body) == Key(name, f.column) && Parse(Rest(rows[f.row].body)) == Result.Ok(f.scalar)
            && Lead(Rest(rows[f.row].body)) == f.scalar.start
  {
    hide Read, KeyOf, Lead, Valid, Indexed;
    var from, n, child := ReadSits(rows, known, name);
  }

  lemma ReadValid(rows: seq<Row>, known: set<string>, name: string)
    requires Read(rows, known).Ok? && name in Read(rows, known).value
    ensures Valid(name, Read(rows, known).value[name].scalar.value)
  {
    hide Read, KeyOf, Lead, Valid, Indexed;
    var from, n, child := ReadSits(rows, known, name);
  }

  /** The rest of a patched row is the rewritten rest. */
  lemma PatchedRest(body: string, f: Found, token: string)
    requires Fits(body, f)
    ensures var raw, after := body[f.column..], Patched(body, f, token);
            && f.column <= |after| && after[f.column..] == Rewritten(raw, f.scalar, token)
            && raw[f.scalar.start..f.scalar.end] == Was(body, f)
              && raw[f.scalar.end..] == body[f.column + f.scalar.end..]
  {}

  /** With a space behind the colon the row keeps its key. */
  lemma PatchedAlike(body: string, f: Found, token: string)
    requires KeyOf(body).Key? && KeyOf(body).column == f.column && Fits(body, f)
    requires Lead(Rest(body)) == f.scalar.start > 0 && token != ""
    ensures Alike(body, Patched(body, f, token)) && KeyOf(Patched(body, f, token)).Key?
  {
    var after := Patched(body, f, token);
    assert Rest(body)[0] == body[f.column];
    hide KeyOf, Lead, Skipped, Rest;
    assert body[..f.column + 1] == after[..f.column + 1];
    SameKey(body, after);
  }

  /** Without one the colon is no colon any more. */
  lemma PatchedGlued(body: string, f: Found, token: string)
    requires Fits(body, f) && f.scalar.start == 0 && token != "" && token[0] !in " \t"
    requires KeyOf(Patched(body, f, token)).Key?
    ensures KeyOf(Patched(body, f, token)).column != f.column
  {
    var after := Patched(body, f, token);
    hide KeyOf;
    var lead, length := KeyGives(after);
    assert after[f.column] == token[0];
  }

  lemma TokenMeans(body: string, f: Found, name: string, value: string)
    requires KeyOf(body).Key? && KeyOf(body).column == f.column && Fits(body, f)
        && Parse(Rest(body)) == Result.Ok(f.scalar)
    requires Writable(KindOf(name), value)
    ensures var token := TokenFor(body, f, name, value);
            && token != "" && token[0] !in " \t"
            && (f.scalar.start > 0 ==>
                  (Parse(Rewritten(Rest(body), f.scalar, token)) == Result.Ok(Renewed(f, body, name, value).scalar)
                   <==> Sound(body, f, name, value)))
  {
    hide KeyOf, Parse, Spoiled, Rewritten, Render, Writable;
    PatchedRest(body, f, TokenFor(body, f, name, value));
    ReadBack(Rest(body), f.scalar, KindOf(name), value);
    TokenStart(KindOf(name), value, Was(body, f));
  }

  lemma RewriteChanged(rows: seq<Row>, f: Found, name: string, value: string)
    requires f.row < |rows| && Fits(rows[f.row].body, f)
    requires Alike(rows[f.row].body, Patched(rows[f.row].body, f, TokenFor(rows[f.row].body, f, name, value)))
    ensures Changed(rows, Rewrite(rows, f, name, value), f.row)
  {
    hide KeyOf, Lead, Skipped, Render;
  }

  lemma ReadKnown(rows: seq<Row>, known: set<string>, name: string, f: Found)
    requires Read(rows, known).Ok? && name in Read(rows, known).value && Read(rows, known).value[name] == f
    ensures f.row < |rows| && KeyOf(rows[f.row].body).Key? && KeyOf(rows[f.row].body).column == f.column
    ensures Parse(Rest(rows[f.row].body)) == Result.Ok(f.scalar)
  {
    hide Read, Parse;
    SitsFits(rows, known, name);
  }

  lemma RestPatched(body: string, f: Found, token: string)
    requires KeyOf(body).Key? && KeyOf(body).column == f.column && Fits(body, f) && Alike(body, Patched(body, f, token))
    ensures Rest(Patched(body, f, token)) == Rewritten(Rest(body), f.scalar, token)
  {
    hide KeyOf, Lead, Skipped;
    PatchedRest(body, f, token);
  }

  lemma RewrittenRow(rows: seq<Row>, f: Found, name: string, value: string)
    requires f.row < |rows| && Fits(rows[f.row].body, f)
    ensures var after, body := Rewrite(rows, f, name, value), rows[f.row].body;
            && |after| == |rows| && after[f.row].body == Patched(body, f, TokenFor(body, f, name, value))
            && Renewed(f, body, name, value).row == f.row && Renewed(f, body, name, value).column == f.column
            && Renewed(f, body, name, value).scalar.value == value
            && (Sound(body, f, name, value) ==> f.scalar.start > 0)
  {
    hide Render;
  }

  /** One substitution, rewritten: the file then reads as before but for the new value in its
      place, exactly if a space stands behind the colon and nothing spoils a plain text. */
  lemma RewriteReads(rows: seq<Row>, known: set<string>, name: string, value: string)
    requires Read(rows, known).Ok? && name in Read(rows, known).value && "substitutions" !in known
    requires Writable(KindOf(name), value) && Valid(name, value)
    ensures var table := Read(rows, known).value;
            var f := table[name];
            && f.row < |rows| && Fits(rows[f.row].body, f)
            && (Sound(rows[f.row].body, f, name, value) <==>
                Read(Rewrite(rows, f, name, value), known)
                == Result.Ok(table[name := Renewed(f, rows[f.row].body, name, value)]))
  {
    hide Read, KeyOf, Parse, Valid, Lead, Render, Spoiled, Writable, KindOf, Patched, Rest, Sound, TokenFor, Renewed,
      Changed, Rewrite, Alike, Fits;
    var table := Read(rows, known).value;
    var f := table[name];
    SitsFits(rows, known, name);
    var body := rows[f.row].body;
    var token, renewed := TokenFor(body, f, name, value), Renewed(f, body, name, value);
    TokenMeans(body, f, name, value);
    var after := Rewrite(rows, f, name, value);
    RewrittenRow(rows, f, name, value);
    if f.scalar.start == 0 {
      if Read(after, known) == Result.Ok(table[name := renewed]) {
        ReadKnown(after, known, name, renewed);
        PatchedGlued(body, f, token);
        assert false;
      }
    } else {
      PatchedAlike(body, f, token);
      RewriteChanged(rows, f, name, value);
      PatchedRest(body, f, token);
      RestPatched(body, f, token);
      if Sound(body, f, name, value) { ReadChanged(rows, after, known, name, renewed.scalar); }
      else if Read(after, known) == Result.Ok(table[name := renewed]) {
        ReadKnown(after, known, name, renewed);
        assert false;
      }
    }
  }

  lemma RestSlices(body: string, f: Found)
    requires KeyOf(body).Key? && KeyOf(body).column == f.column && Fits(body, f)
    ensures Rest(body)[f.scalar.start..f.scalar.end] == Was(body, f)
        && Rest(body)[f.scalar.end..] == body[f.column + f.scalar.end..]
  {
    hide KeyOf;
  }

  /** A patched row that still reads as its key, in its place and with the new value, was
      rewritten soundly. */
  lemma PatchedTells(body: string, f: Found, name: string, value: string)
    requires KeyOf(body).Key? && KeyOf(body).column == f.column && Fits(body, f)
        && Parse(Rest(body)) == Result.Ok(f.scalar)
    requires Lead(Rest(body)) == f.scalar.start && Writable(KindOf(name), value)
    requires var after := Patched(body, f, TokenFor(body, f, name, value));
             KeyOf(after).Key? && KeyOf(after).column == f.column && Parse(Rest(after)).Ok?
               && Parse(Rest(after)).value.value == value
    ensures Sound(body, f, name, value)
  {
    hide KeyOf, Parse, Spoiled, Rewritten, Render, Writable, Lead, Patched, Rest, KindOf;
    var token := TokenFor(body, f, name, value);
    PatchedRest(body, f, token);
    TokenStart(KindOf(name), value, Was(body, f));
    if f.scalar.start == 0 { PatchedGlued(body, f, token); }
    else {
      PatchedAlike(body, f, token);
      RestPatched(body, f, token);
      RestSlices(body, f);
      ValueTells(Rest(body), f.scalar, KindOf(name), value);
    }
  }
}
