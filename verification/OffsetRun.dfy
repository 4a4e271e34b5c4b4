/** Parsing the log of one offset calibration run (`_parse_offset_operation`), on lines
    reduced to what the parser asks of them. */
module OffsetRun {
  import opened Common

  datatype Phase = A | B | C

  datatype Row = Row(phase: Phase, first: int, second: int)

  /** What the text behind the instance tag says, when it is exactly a result. */
  datatype Report = Nothing | Saved | SaveFailed | Completed | SavedAndCompleted | RolledBack | RollbackFailed

  datatype Category = Selected | Other

  /** A log line of the operation window. `ends` says that it ends with a result text,
      `mentions` that it contains the completion text, `readback` that it reports a failed
      readback, `rowLike` that it looks like a table row. */
  datatype Line = Line(
    tag: Option<nat>, button: Option<nat>, spi: bool, header: bool, columns: bool, row: Option<Row>, rowLike: bool,
    report: Report, ends: bool, mentions: bool, readback: bool, category: Option<Category>)

  predicate Final(line: Line) {
    line.report.Completed? || line.report.SavedAndCompleted? || line.report.RolledBack? || line.report.RollbackFailed?
  }

  predicate SaveSuccess(line: Line) { line.report.Saved? || line.report.SavedAndCompleted? }

  /** Lines that only the operation itself may write. */
  predicate Evidence(line: Line) {
    line.header || line.columns || line.row.Some? || line.ends || line.readback
  }

  predicate Signed16(v: int) { -32768 <= v <= 32767 }

  predicate InRange(row: Row) { Signed16(row.first) && Signed16(row.second) }

  /** The kinds of lines that the parser looks up. */
  datatype Kind = Button(name: nat) | AnyButton | Spi | Header | Columns | Finals | JustSaved | Successes | Failures
    | Readbacks | Mentions
                | Rows(phase: Phase)

  predicate Is(line: Line, kind: Kind) {
    match kind
    case Button(name) => line.button == Some(name)
    case AnyButton => line.button.Some?
    case Spi => line.spi
    case Header => line.header
    case Columns => line.columns
    case Finals => Final(line)
    case JustSaved => line.report.Saved?
    case Successes => SaveSuccess(line)
    case Failures => line.report.SaveFailed?
    case Readbacks => line.readback
    case Mentions => line.mentions
    case Rows(phase) => line.row.Some? && line.row.value.phase == phase
  }

  /** `i` is the only line of its kind from `start` on. */
  predicate Only(lines: seq<Line>, start: nat, kind: Kind, i: int) {
    start <= i < |lines| && Is(lines[i], kind) && forall j :: start <= j < |lines| && Is(lines[j], kind) ==> j == i
  }

  predicate Absent(lines: seq<Line>, start: nat, kind: Kind) {
    forall j :: start <= j < |lines| ==> !Is(lines[j], kind)
  }

  /** Where the parts of a run stand. */
  datatype Places = Places(button: nat, header: nat, columns: nat, a: nat, b: nat, c: nat, save: nat, end: nat)

  predicate Ordered(p: Places) {
    p.button < p.header < p.columns < p.a < p.b < p.c < p.save <= p.end
  }

  /** Behind the button nothing comes from another instance or category. */
  predicate Clean(lines: seq<Line>, button: nat, target: nat) {
    forall j :: button < j < |lines| ==>
      && (lines[j].tag == None || lines[j].tag == Some(target))
      && (lines[j].category.Some? ==> lines[j].tag == Some(target) && lines[j].category == Some(Selected))
      && (Evidence(lines[j]) ==> lines[j].tag == Some(target))
  }

  predicate Quiet(lines: seq<Line>, start: nat, end: nat) {
    forall j :: start <= j < end && j < |lines| ==> !Evidence(lines[j])
  }

  /** Behind the header, what looks like a row is a row, and every value fits 16 bits. */
  predicate Tabular(lines: seq<Line>, header: nat) {
    forall j :: header <= j < |lines| ==>
      && (lines[j].row.Some? ==> InRange(lines[j].row.value))
      && (lines[j].rowLike ==> lines[j].row.Some?)
  }

  /** One button starts the operation, and nothing around it belongs to another one. */
  predicate Begun(lines: seq<Line>, name: nat, target: nat, button: nat) {
    && Only(lines, 0, Button(name), button) && Only(lines, 0, AnyButton, button) && Absent(lines, 0, Spi)
    && Quiet(lines, 0, button) && Clean(lines, button, target)
  }

  predicate Headed(lines: seq<Line>, button: nat, header: nat) {
    Only(lines, button + 1, Header, header) && Quiet(lines, button + 1, header)
  }

  predicate Listed(lines: seq<Line>, header: nat, p: Places) {
    && Only(lines, header, Columns, p.columns)
    && Only(lines, header, Rows(A), p.a) && Only(lines, header, Rows(B), p.b) && Only(lines, header, Rows(C), p.c)
    && Tabular(lines, header)
  }

  predicate Stored(lines: seq<Line>, header: nat, save: nat) {
    Only(lines, header, Successes, save) && Absent(lines, header, Failures) && Absent(lines, header, Readbacks)
  }

  /** The end of a run: a completed save that was read back, or, where that is allowed, the
      plain save of stock firmware. */
  predicate Ended(lines: seq<Line>, header: nat, end: nat, verified: bool) {
    if verified then
      Only(lines, header, Finals, end) && (lines[end].report.Completed? || lines[end].report.SavedAndCompleted?)
    else
      Absent(lines, header, Finals) && Absent(lines, header, Mentions) && Only(lines, header, JustSaved, end)
  }

  /** The grammar of a run: one button, then header, columns, rows A, B and C, save and end,
      strictly in this order, each of them once, and nothing that contradicts them. */
  predicate Run(lines: seq<Line>, name: nat, target: nat, p: Places, verified: bool) {
    && Ordered(p)
    && Begun(lines, name, target, p.button) && Headed(lines, p.button, p.header) && Listed(lines, p.header, p)
    && Stored(lines, p.header, p.save) && Ended(lines, p.header, p.end, verified)
  }

  /** A run that may be accepted. */
  ghost predicate Runs(lines: seq<Line>, name: nat, target: nat, allowUnverified: bool) {
    exists p, verified :: Run(lines, name, target, p, verified) && (verified || allowUnverified)
  }

  datatype Table = Table(a: Row, b: Row, c: Row, verified: bool)

  predicate Tables(lines: seq<Line>, p: Places, table: Table) {
    && p.a < |lines| && p.b < |lines| && p.c < |lines|
    && lines[p.a].row == Some(table.a) && lines[p.b].row == Some(table.b) && lines[p.c].row == Some(table.c)
  }

  // ------------------------------------------------------------------ the parser

  datatype Found = Missing | Once(place: nat) | Repeated

  method Find(lines: seq<Line>, start: nat, kind: Kind) returns (found: Found)
    ensures found.Missing? <==> Absent(lines, start, kind)
    ensures found.Once? ==> Only(lines, start, kind, found.place)
    ensures !found.Once? ==> forall i :: !Only(lines, start, kind, i)
  {
    found := Missing;
    var i := start;
    while i < |lines|
      invariant start <= i && (i <= |lines| || i == start)
      invariant found.Missing? ==> forall j :: start <= j < i && j < |lines| ==> !Is(lines[j], kind)
      invariant found.Once? ==> start <= found.place < i && found.place < |lines| && Is(lines[found.place], kind)
                                && forall j :: start <= j < i && Is(lines[j], kind) ==> j == found.place
      invariant found.Repeated?
          ==> exists j, k :: start <= j < k < i && k < |lines| && Is(lines[j], kind) && Is(lines[k], kind)
    {
      if Is(lines[i], kind) { found := if found.Missing? then Once(i) else Repeated; }
      i := i + 1;
    }
    if found.Repeated? {
      var j, k :| start <= j < k < |lines| && Is(lines[j], kind) && Is(lines[k], kind);
      assert forall i :: Only(lines, start, kind, i) ==> i == j && i == k;
    }
    if found.Once? { assert Is(lines[found.place], kind); }
  }

  lemma OnlyOne(lines: seq<Line>, start: nat, kind: Kind, i: int, j: int)
    requires Only(lines, start, kind, i) && Only(lines, start, kind, j)
    ensures i == j
  {}

  method IsQuiet(lines: seq<Line>, start: nat, end: nat) returns (quiet: bool)
    requires end <= |lines|
    ensures quiet == Quiet(lines, start, end)
  {
    var i := start;
    while i < end
      invariant start <= i && Quiet(lines, start, i)
    {
      if Evidence(lines[i]) { return false; }
      i := i + 1;
    }
    quiet := true;
  }

  method IsClean(lines: seq<Line>, button: nat, target: nat) returns (clean: bool)
    ensures clean == Clean(lines, button, target)
  {
    var i := button + 1;
    while i < |lines|
      invariant button < i && (i <= |lines| || i == button + 1)
          && Clean(lines[..if i <= |lines| then i else |lines|], button, target)
    {
      var line := lines[i];
      if line.tag.Some? && line.tag != Some(target) { return false; }
      if line.category.Some? && (line.tag != Some(target) || line.category != Some(Selected)) { return false; }
      if Evidence(line) && line.tag != Some(target) { return false; }
      i := i + 1;
    }
    assert lines[..|lines|] == lines;
    clean := true;
  }

  method IsTabular(lines: seq<Line>, header: nat) returns (tabular: bool)
    ensures tabular == Tabular(lines, header)
  {
    var i := header;
    while i < |lines|
      invariant header <= i && forall j :: header <= j < i && j < |lines| ==>
        (lines[j].row.Some? ==> InRange(lines[j].row.value)) && (lines[j].rowLike ==> lines[j].row.Some?)
    {
      if lines[i].row.Some? && !InRange(lines[i].row.value) { return false; }
      if lines[i].row.None? && lines[i].rowLike { return false; }
      i := i + 1;
    }
    tabular := true;
  }

  method FindButton(lines: seq<Line>, name: nat, target: nat) returns (button: Option<nat>)
    ensures button.Some? ==> Begun(lines, name, target, button.value)
    ensures button.None? ==> forall i: nat :: !Begun(lines, name, target, i)
  {
    var named := Find(lines, 0, Button(name));
    var any := Find(lines, 0, AnyButton);
    var spi := Find(lines, 0, Spi);
    if !named.Once? || !any.Once? || !spi.Missing? { return None; }
    assert named.place == any.place by { assert Is(lines[named.place], AnyButton); }
    var quiet := IsQuiet(lines, 0, named.place);
    var clean := IsClean(lines, named.place, target);
    if quiet && clean { return Some(named.place); }
    forall i: nat | Begun(lines, name, target, i) ensures false { OnlyOne(lines, 0, Button(name), i, named.place); }
    button := None;
  }

  method FindHeader(lines: seq<Line>, button: nat) returns (header: Option<nat>)
    requires button < |lines|
    ensures header.Some? ==> Headed(lines, button, header.value)
    ensures header.None? ==> forall i: nat :: !Headed(lines, button, i)
  {
    var found := Find(lines, button + 1, Header);
    if !found.Once? { return None; }
    var quiet := IsQuiet(lines, button + 1, found.place);
    if quiet { return Some(found.place); }
    forall i: nat | Headed(lines, button, i) ensures false { OnlyOne(lines, button + 1, Header, i, found.place); }
    header := None;
  }

  method FindTable(lines: seq<Line>, button: nat, header: nat) returns (places: Option<Places>)
    ensures places.Some? ==>
        Listed(lines, header, places.value) && places.value.button == button && places.value.header == header
    ensures places.None? ==> forall p :: !Listed(lines, header, p)
  {
    var columns := Find(lines, header, Columns);
    var a := Find(lines, header, Rows(A));
    var b := Find(lines, header, Rows(B));
    var c := Find(lines, header, Rows(C));
    var tabular := IsTabular(lines, header);
    if !columns.Once? || !a.Once? || !b.Once? || !c.Once? || !tabular { return None; }
    places := Some(Places(button, header, columns.place, a.place, b.place, c.place, 0, 0));
  }

  method FindSave(lines: seq<Line>, header: nat) returns (save: Option<nat>)
    ensures save.Some? ==> Stored(lines, header, save.value)
    ensures save.None? ==> forall i: nat :: !Stored(lines, header, i)
  {
    var successes := Find(lines, header, Successes);
    var failures := Find(lines, header, Failures);
    var readbacks := Find(lines, header, Readbacks);
    if !successes.Once? || !failures.Missing? || !readbacks.Missing? { return None; }
    save := Some(successes.place);
  }

  method FindEnd(lines: seq<Line>, header: nat, allowUnverified: bool) returns (end: Option<nat>, verified: bool)
    ensures end.Some? ==> Ended(lines, header, end.value, verified) && (verified || allowUnverified)
    ensures end.None? ==> forall i: nat, v :: Ended(lines, header, i, v) ==> !v && !allowUnverified
  {
    var finals := Find(lines, header, Finals);
    if finals.Once? {
      var report := lines[finals.place].report;
      if report.Completed? || report.SavedAndCompleted? { return Some(finals.place), true; }
      assert Is(lines[finals.place], Finals);
      forall i: nat, v | Ended(lines, header, i, v) ensures v && i == finals.place {
        if v { OnlyOne(lines, header, Finals, i, finals.place); }
      }
      return None, true;
    }
    if finals.Repeated? || !allowUnverified { return None, false; }
    var mentions := Find(lines, header, Mentions);
    var saved := Find(lines, header, JustSaved);
    if mentions.Missing? && saved.Once? { return Some(saved.place), false; }
    end, verified := None, false;
  }

  lemma EndUnique(lines: seq<Line>, header: nat, i: nat, verified: bool, j: nat, done: bool)
    requires Ended(lines, header, i, verified) && Ended(lines, header, j, done)
    ensures i == j && verified == done
  {
    assert verified ==> Is(lines[i], Finals);
    assert done ==> Is(lines[j], Finals);
  }

  /** The parts of a run are where they are found first. */
  lemma PlacesUnique(lines: seq<Line>, name: nat, target: nat, p: Places, verified: bool, q: Places, done: bool)
    requires Begun(lines, name, target, p.button) && Headed(lines, p.button, p.header) && Listed(lines, p.header, p)
    requires Stored(lines, p.header, p.save) && Ended(lines, p.header, p.end, verified)
    requires Run(lines, name, target, q, done)
    ensures p == q && verified == done
  {
    OnlyOne(lines, 0, Button(name), p.button, q.button);
    OnlyOne(lines, p.button + 1, Header, p.header, q.header);
    OnlyOne(lines, p.header, Columns, p.columns, q.columns);
    OnlyOne(lines, p.header, Rows(A), p.a, q.a);
    OnlyOne(lines, p.header, Rows(B), p.b, q.b);
    OnlyOne(lines, p.header, Rows(C), p.c, q.c);
    OnlyOne(lines, p.header, Successes, p.save, q.save);
    EndUnique(lines, p.header, p.end, verified, q.end, done);
  }

  lemma BegunInside(lines: seq<Line>, name: nat, target: nat, button: nat)
    requires Begun(lines, name, target, button)
    ensures button < |lines|
  {}

  lemma BeginsAt(lines: seq<Line>, name: nat, target: nat, button: nat)
    requires Begun(lines, name, target, button)
    ensures forall i: nat :: Begun(lines, name, target, i) ==> i == button
  {
    forall i: nat | Begun(lines, name, target, i) ensures i == button { OnlyOne(lines, 0, Button(name), i, button); }
  }

  lemma HeadsAt(lines: seq<Line>, button: nat, header: nat)
    requires Headed(lines, button, header)
    ensures forall i: nat :: Headed(lines, button, i) ==> i == header
  {
    forall i: nat | Headed(lines, button, i) ensures i == header { OnlyOne(lines, button + 1, Header, i, header); }
  }

  lemma ListedAlike(lines: seq<Line>, header: nat, p: Places, q: Places)
    requires Listed(lines, header, p) && q == p.(save := q.save, end := q.end)
    ensures Listed(lines, header, q)
  {}

  method Locate(lines: seq<Line>, name: nat, target: nat, allowUnverified: bool) returns (found: Option<Places>,
                verified: bool)
    ensures found.Some? ==> Run(lines, name, target, found.value, verified) && (verified || allowUnverified)
    ensures found.None? ==> forall p, v :: Run(lines, name, target, p, v) ==> !v && !allowUnverified
  {
    hide Begun, Headed, Listed, Stored, Ended, Ordered;
    found, verified := None, false;
    var button := FindButton(lines, name, target);
    if button.None? { return; }
    BegunInside(lines, name, target, button.value);
    var header := FindHeader(lines, button.value);
    if header.None? { BeginsAt(lines, name, target, button.value); return; }
    BeginsAt(lines, name, target, button.value);
    HeadsAt(lines, button.value, header.value);
    var places := FindTable(lines, button.value, header.value);
    if places.None? { return; }
    var save := FindSave(lines, header.value);
    if save.None? { return; }
    var end, done := FindEnd(lines, header.value, allowUnverified);
    if end.None? { return; }
    var p := places.value.(save := save.value, end := end.value);
    assert Listed(lines, header.value, p) by { ListedAlike(lines, header.value, places.value, p); }
    if Ordered(p) { return Some(p), done; }
    forall q, v | Run(lines, name, target, q, v) ensures q == p { PlacesUnique(lines, name, target, p, done, q, v); }
  }

  lemma RowsThere(lines: seq<Line>, name: nat, target: nat, p: Places, verified: bool)
    requires Run(lines, name, target, p, verified)
    ensures p.a < |lines| && p.b < |lines| && p.c < |lines|
    ensures lines[p.a].row.Some? && lines[p.b].row.Some? && lines[p.c].row.Some?
  {
    assert Is(lines[p.a], Rows(A)) && Is(lines[p.b], Rows(B)) && Is(lines[p.c], Rows(C));
  }

  /** Accepts exactly the runs of the grammar, and returns their table. */
  method Parse(lines: seq<Line>, name: nat, target: nat, allowUnverified: bool) returns (result: Result<Table>)
    ensures result.Ok? <==> Runs(lines, name, target, allowUnverified)
    ensures result.Ok? ==> exists p ::
        Run(lines, name, target, p, result.value.verified) && Tables(lines, p, result.value)
  {
    hide Run;
    var found, verified := Locate(lines, name, target, allowUnverified);
    if found.None? { return Refusal; }
    var p := found.value;
    RowsThere(lines, name, target, p, verified);
    result := Result.Ok(Table(lines[p.a].row.value, lines[p.b].row.value, lines[p.c].row.value, verified));
    assert Tables(lines, p, result.value);
  }

  /** The table of a run is determined by its lines. */
  lemma TableUnique(lines: seq<Line>, name: nat, target: nat, p: Places, table: Table, q: Places, other: Table)
    requires Run(lines, name, target, p, table.verified) && Tables(lines, p, table)
    requires Run(lines, name, target, q, other.verified) && Tables(lines, q, other)
    ensures table == other
  {
    PlacesUnique(lines, name, target, p, table.verified, q, other.verified);
  }

  // -------------------------------------------------------- what firmware emits

  const BLANK := Line(None, None, false, false, false, None, false, Nothing, false, false, false, None)

  /** A line that says nothing about any calibration. */
  predicate Neutral(line: Line, target: nat) {
    (line.tag == None || line.tag == Some(target)) && line.(tag := None) == BLANK
  }

  /** The firmware's own lines at the given places, everything else neutral. */
  predicate Emitted(lines: seq<Line>, name: nat, target: nat, p: Places, table: Table) {
    var tagged := BLANK.(tag := Some(target));
    && Ordered(p) && p.end < |lines|
    && lines[p.button] == BLANK.(button := Some(name))
    && lines[p.header] == tagged.(header := true, category := Some(Selected))
    && lines[p.columns] == tagged.(columns := true, category := Some(Selected))
    && lines[p.a] == tagged.(row := Some(table.a), rowLike := true) && table.a.phase == A && InRange(table.a)
    && lines[p.b] == tagged.(row := Some(table.b), rowLike := true) && table.b.phase == B && InRange(table.b)
    && lines[p.c] == tagged.(row := Some(table.c), rowLike := true) && table.c.phase == C && InRange(table.c)
    && (if p.save < p.end then
          && lines[p.save] == tagged.(report := Saved, ends := true, category := Some(Selected))
          && lines[p.end] == tagged.(report := Completed, ends := true, mentions := true, category := Some(Selected))
          && table.verified
        else if table.verified then
          lines[p.end] == tagged.(report := SavedAndCompleted, ends := true, mentions := true,
            category := Some(Selected))
        else lines[p.end] == tagged.(report := Saved, ends := true, category := Some(Selected)))
    && forall i ::
      0 <= i < |lines| && i !in {p.button, p.header, p.columns, p.a, p.b, p.c, p.save, p.end} ==>
        Neutral(lines[i], target)
  }

  lemma EmittedBegun(lines: seq<Line>, name: nat, target: nat, p: Places, table: Table)
    requires Emitted(lines, name, target, p, table)
    ensures Begun(lines, name, target, p.button)
  {}

  lemma EmittedHeaded(lines: seq<Line>, name: nat, target: nat, p: Places, table: Table)
    requires Emitted(lines, name, target, p, table)
    ensures Headed(lines, p.button, p.header)
  {}

  lemma EmittedListed(lines: seq<Line>, name: nat, target: nat, p: Places, table: Table)
    requires Emitted(lines, name, target, p, table)
    ensures Listed(lines, p.header, p)
  {}

  lemma EmittedStored(lines: seq<Line>, name: nat, target: nat, p: Places, table: Table)
    requires Emitted(lines, name, target, p, table)
    ensures Stored(lines, p.header, p.save)
  {}

  lemma EmittedEnded(lines: seq<Line>, name: nat, target: nat, p: Places, table: Table)
    requires Emitted(lines, name, target, p, table)
    ensures Ended(lines, p.header, p.end, table.verified)
  {}

  /** What firmware emits is a run, whatever neutral lines are interleaved, so it parses back
      to its own table. */
  lemma EmissionRuns(lines: seq<Line>, name: nat, target: nat, p: Places, table: Table)
    requires Emitted(lines, name, target, p, table)
    ensures Run(lines, name, target, p, table.verified) && Tables(lines, p, table)
  {
    EmittedBegun(lines, name, target, p, table);
    EmittedHeaded(lines, name, target, p, table);
    EmittedListed(lines, name, target, p, table);
    EmittedStored(lines, name, target, p, table);
    EmittedEnded(lines, name, target, p, table);
    hide Begun, Headed, Listed, Stored, Ended;
  }

  /** A line that has no place behind the button of a run. */
  predicate Foreign(line: Line, target: nat, verified: bool) {
    || (line.tag.Some? && line.tag != Some(target))
    || line.category == Some(Other)
    || line.button.Some?
    || line.spi
    || (verified && Final(line) && line.ends)
  }

  function Moved(at: nat, i: nat): nat { if at < i then at else at + 1 }

  lemma Anchored(lines: seq<Line>, name: nat, target: nat, p: Places, verified: bool)
    requires Run(lines, name, target, p, verified)
    ensures p.button < p.header < |lines| && p.header < p.end < |lines|
    ensures Is(lines[p.button], Button(name)) && Is(lines[p.header], Header) && (verified ==> Is(lines[p.end], Finals))
  {}

  /** With the anchors of a run in place, the intruder contradicts one of its parts. */
  lemma NoAnchor(more: seq<Line>, name: nat, target: nat, button: nat, header: nat, end: nat, verified: bool, i: nat,
                 x: Line, q: Places, v: bool)
    requires button < i < |more| && more[i] == x && Foreign(x, target, verified)
    requires button < header < |more| && Is(more[button], Button(name)) && Is(more[header], Header)
    requires verified ==> header < end < |more| && end != i && Is(more[end], Finals)
    ensures !Run(more, name, target, q, v)
  {
    assert x.button.Some? ==> Is(x, AnyButton);
    assert x.spi ==> Is(x, Spi);
    assert Final(x) ==> Is(x, Finals);
    assert x.ends ==> Evidence(x);
  }

  lemma NoRun(lines: seq<Line>, name: nat, target: nat, p: Places, verified: bool, i: nat, x: Line, q: Places, v: bool)
    requires Run(lines, name, target, p, verified) && p.button < i <= |lines| && Foreign(x, target, verified)
    ensures !Run(lines[..i] + [x] + lines[i..], name, target, q, v)
  {
    var more := lines[..i] + [x] + lines[i..];
    assert more[i] == x && more[p.button] == lines[p.button] && more[Moved(p.header, i)] == lines[p.header];
    assert verified ==> more[Moved(p.end, i)] == lines[p.end];
    hide Run, Begun, Headed, Listed, Stored, Ended, Clean, Only, Quiet, Foreign;
    Anchored(lines, name, target, p, verified);
    NoAnchor(more, name, target, p.button, Moved(p.header, i), if verified then Moved(p.end, i)
      else 0, verified, i, x, q, v);
  }

  /** Such a line, wherever it is added behind the button, spoils the run. */
  lemma IntrusionRefused(lines: seq<Line>, name: nat, target: nat, p: Places, verified: bool, i: nat, x: Line,
                         allowUnverified: bool)
    requires Run(lines, name, target, p, verified) && p.button < i <= |lines| && Foreign(x, target, verified)
    ensures !Runs(lines[..i] + [x] + lines[i..], name, target, allowUnverified)
  {
    var more := lines[..i] + [x] + lines[i..];
    forall q, v ensures !Run(more, name, target, q, v) { NoRun(lines, name, target, p, verified, i, x, q, v); }
  }
}
