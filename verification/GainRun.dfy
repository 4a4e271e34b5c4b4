/** Parsing the log of one gain calibration run (`parse_gain_run`), on lines reduced to what
    the parser asks of them, and what `immediate_apply_acceptable` may be trusted for. */
module GainRun {
  import opened Common

  datatype Phase = A | B | C

  /** A table row; `finite` says that its four measured values are finite numbers. */
  datatype Row = Row(phase: Phase, finite: bool, voltageGain: nat, currentGain: nat)

  datatype Report = Nothing | Saved | SaveFailed | Completed | SavedAndCompleted | RolledBack | RollbackFailed

  /** A log line of the operation. `named` says that it contains the button name, `ends` that
      it ends with a result text, `mentions` that it speaks of a mismatch, `mismatch` that it
      names the phase, `next` that it announces the next gain run. */
  datatype Line = Line(
    tag: Option<nat>, named: bool, header: bool, row: Option<Row>, report: Report, ends: bool,
    mentions: bool, mismatch: Option<Phase>, disabled: bool, next: bool)

  predicate Evidence(line: Line) { line.header || line.row.Some? || line.ends || line.mentions }

  predicate Terminal(line: Line, target: nat) { line.tag == Some(target) && line.ends }

  // ------------------------------------------------------- what an acceptable run is

  datatype Kind = Headers | Rows(phase: Phase) | SaveReports | Successes | Finals | Completions | Mismatches

  predicate Is(line: Line, kind: Kind) {
    match kind
    case Headers => line.header
    case Rows(phase) => line.row.Some? && line.row.value.phase == phase
    case SaveReports => line.report.Saved? || line.report.SavedAndCompleted? || line.report.SaveFailed?
    case Successes => line.report.Saved? || line.report.SavedAndCompleted?
    case Finals => line.report.Completed? || line.report.SavedAndCompleted? || line.report.RolledBack?
      || line.report.RollbackFailed?
    case Completions => line.report.Completed? || line.report.SavedAndCompleted?
    case Mismatches => line.mismatch.Some?
  }

  /** How many lines of a kind there are from `start` to `end`. */
  function Count(lines: seq<Line>, start: nat, end: nat, kind: Kind): nat
    requires start <= end <= |lines|
  {
    if start == end then 0 else Count(lines, start, end - 1, kind) + if Is(lines[end - 1], kind) then 1 else 0
  }

  lemma {:induction false} CountNone(lines: seq<Line>, start: nat, end: nat, kind: Kind)
    requires start <= end <= |lines|
    ensures Count(lines, start, end, kind) == 0 <==> forall i :: start <= i < end ==> !Is(lines[i], kind)
  {
    if start < end { CountNone(lines, start, end - 1, kind); }
  }

  /** `i` is the only line of its kind from `start` to `end`. */
  predicate Single(lines: seq<Line>, start: nat, end: nat, kind: Kind, i: nat)
    requires start <= end <= |lines|
  {
    start <= i < end && Is(lines[i], kind) && forall j :: start <= j < end && Is(lines[j], kind) ==> j == i
  }

  /** A count of one is one line and no other. */
  lemma {:induction false} CountOne(lines: seq<Line>, start: nat, end: nat, kind: Kind)
    requires start <= end <= |lines|
    ensures Count(lines, start, end, kind) == 1 <==> exists i :: Single(lines, start, end, kind, i)
  {
    if start < end {
      var last := end - 1;
      CountOne(lines, start, last, kind);
      CountNone(lines, start, last, kind);
      if Is(lines[last], kind) {
        if Count(lines, start, last, kind) == 0 { assert Single(lines, start, end, kind, last); }
        forall i | Single(lines, start, end, kind, i) ensures Count(lines, start, last, kind) == 0 { assert i == last; }
      } else {
        forall i: nat ensures Single(lines, start, end, kind, i) <==> Single(lines, start, last, kind, i) {}
      }
    }
  }

  predicate Seen(lines: seq<Line>, target: nat, button: nat, n: nat) {
    exists k :: button < k < n && k < |lines| && Terminal(lines[k], target)
  }

  /** The window of the operation: from the first line that names the button to the end, or
      to the announcement of the next run after a terminal; nothing foreign in between. */
  predicate Window(lines: seq<Line>, target: nat, button: nat, end: nat) {
    && button < end <= |lines|
    && lines[button].named && (forall j :: 0 <= j < button ==> !lines[j].named)
    && (forall j :: button < j < end ==>
          && (lines[j].tag == None || lines[j].tag == Some(target))
          && (Evidence(lines[j]) ==> lines[j].tag == Some(target))
          && (lines[j].next ==> !Seen(lines, target, button, j)))
    && (end < |lines| ==> lines[end].next && Seen(lines, target, button, end))
  }

  predicate Headed(lines: seq<Line>, target: nat, button: nat, end: nat, header: nat) {
    && button < header < end <= |lines| && lines[header].header && lines[header].tag == Some(target)
    && (forall j :: button < j < end && lines[j].header ==> j == header)
    && forall j :: button < j < header ==> !Evidence(lines[j])
  }

  /** Rows come first, each phase at most once, with finite values. */
  predicate Tabular(lines: seq<Line>, header: nat, n: nat)
    requires n <= |lines|
  {
    forall j :: header <= j < n && lines[j].row.Some? ==>
      && lines[j].row.value.finite
      && (forall k :: header <= k < j ==> lines[k].report.Nothing?)
      && (forall k :: header <= k < j && lines[k].row.Some? ==> lines[k].row.value.phase != lines[j].row.value.phase)
  }

  /** Rows for A, B and C before any result; one save report, and it says success; at most one
      final report, and it says completed; no mismatch, and no notice that calibration is off. */
  predicate Acceptable(lines: seq<Line>, target: nat, button: nat, end: nat, header: nat) {
    && Window(lines, target, button, end) && Headed(lines, target, button, end, header)
    && Tabular(lines, header, end)
    && (forall phase :: exists j :: header <= j < end && Is(lines[j], Rows(phase)))
    && Count(lines, header, end, SaveReports) == 1 && Count(lines, header, end, Successes) == 1
    && Count(lines, header, end, Finals) <= 1
      && Count(lines, header, end, Finals) == Count(lines, header, end, Completions)
    && Count(lines, header, end, Mismatches) == 0
    && forall j :: button <= j < end ==> !lines[j].disabled
  }

  // ------------------------------------------------------------------ the parser

  datatype GainRun = GainRun(rows: map<Phase, Row>, flashSaved: bool, mismatches: seq<Phase>, disabled: bool)

  predicate ImmediateApplyAcceptable(run: GainRun) {
    run.flashSaved && run.mismatches == [] && !run.disabled
  }

  /** What the scan saw before line `i`. */
  predicate Scanned(lines: seq<Line>, target: nat, button: nat, i: nat) {
    && button < i <= |lines| && lines[button].named && (forall j :: 0 <= j < button ==> !lines[j].named)
    && forall j :: button < j < i ==> lines[j].next ==> !Seen(lines, target, button, j)
  }

  lemma SameButton(lines: seq<Line>, target: nat, button: nat, i: nat, b: nat, end: nat)
    requires Scanned(lines, target, button, i) && Window(lines, target, b, end)
    ensures b == button && (end >= i)
  {
    assert b == button by { assert !(b < button) && !(button < b); }
  }

  lemma NoWindow(lines: seq<Line>, target: nat, button: nat, i: nat, b: nat, end: nat)
    requires Scanned(lines, target, button, i) && i < |lines| && !(Seen(lines, target, button, i) && lines[i].next)
    requires (lines[i].tag.Some? && lines[i].tag != Some(target))
        || (Evidence(lines[i]) && lines[i].tag != Some(target))
    ensures !Window(lines, target, b, end)
  {
    if Window(lines, target, b, end) {
      SameButton(lines, target, button, i, b, end);
      assert false;
    }
  }

  lemma OneWindow(lines: seq<Line>, target: nat, button: nat, i: nat, b: nat, end: nat)
    requires Scanned(lines, target, button, i) && Window(lines, target, b, end)
    requires i < |lines| ==> Seen(lines, target, button, i) && lines[i].next
    ensures (b, end) == (button, i)
  {
    SameButton(lines, target, button, i, b, end);
  }

  method FindWindow(lines: seq<Line>, target: nat) returns (window: Option<(nat, nat)>)
    ensures window.Some? ==> Window(lines, target, window.value.0, window.value.1)
    ensures window.None? ==> forall button: nat, end: nat :: !Window(lines, target, button, end)
    ensures window.Some? ==> forall button: nat, end: nat ::
        Window(lines, target, button, end) ==> (button, end) == window.value
  {
    var button := 0;
    while button < |lines| && !lines[button].named
      invariant button <= |lines| && forall j :: 0 <= j < button ==> !lines[j].named
    {
      button := button + 1;
    }
    if button == |lines| { return None; }
    var seen, i := false, button + 1;
    while i < |lines| && !(seen && lines[i].next)
      invariant button < i <= |lines| && seen == Seen(lines, target, button, i)
      invariant forall j :: button < j < i ==>
          && (lines[j].tag == None || lines[j].tag == Some(target))
          && (Evidence(lines[j]) ==> lines[j].tag == Some(target))
          && (lines[j].next ==> !Seen(lines, target, button, j))
    {
      var line := lines[i];
      if (line.tag.Some? && line.tag != Some(target)) || (Evidence(line) && line.tag != Some(target)) {
        forall b: nat, end: nat ensures !Window(lines, target, b, end) { NoWindow(lines, target, button, i, b, end); }
        return None;
      }
      if Terminal(line, target) { seen := true; assert Terminal(lines[i], target); }
      i := i + 1;
    }
    forall b: nat, end: nat | Window(lines, target, b, end) ensures (b, end) == (button, i) {
      OneWindow(lines, target, button, i, b, end);
    }
    window := Some((button, i));
  }

  method FindHeader(lines: seq<Line>, target: nat, button: nat, end: nat) returns (header: Option<nat>)
    requires button < end <= |lines|
    ensures header.Some? ==> Headed(lines, target, button, end, header.value)
    ensures header.None? ==> forall h: nat :: !Headed(lines, target, button, end, h)
  {
    var h := button + 1;
    while h < end && !lines[h].header
      invariant button < h <= end && forall j :: button < j < h ==> !lines[j].header
    {
      h := h + 1;
    }
    if h == end { return None; }
    var i := h + 1;
    while i < end && !lines[i].header
      invariant h < i <= end && forall j :: h < j < i ==> !lines[j].header
    {
      i := i + 1;
    }
    if i < end || lines[h].tag != Some(target) { return None; }
    var k := button + 1;
    while k < h && !Evidence(lines[k])
      invariant button < k <= h && forall j :: button < j < k ==> !Evidence(lines[j])
    {
      k := k + 1;
    }
    header := if k == h then Some(h) else None;
  }

  /** What the scan behind the header collects. */
  datatype Tally = Tally(rows: map<Phase, Row>, saves: seq<bool>, finals: seq<Report>, mismatches: seq<Phase>,
    seen: bool)

  /** One more line; `None` for a row that comes too late, twice, or without finite values. */
  function Add(t: Tally, line: Line): Option<Tally> {
    if line.row.Some? && (t.seen || line.row.value.phase in t.rows || !line.row.value.finite) then None
    else
      Some(Tally(
        if line.row.Some? then t.rows[line.row.value.phase := line.row.value] else t.rows,
        t.saves + (if Is(line, SaveReports) then [!line.report.SaveFailed?] else []),
        t.finals + (if Is(line, Finals) then [if line.report.SavedAndCompleted? then Completed else line.report]
          else []),
        t.mismatches + (if line.mismatch.Some? then [line.mismatch.value] else []),
        t.seen || !line.report.Nothing?))
  }

  function Fold(lines: seq<Line>, header: nat, n: nat): Option<Tally>
    requires header <= n <= |lines|
  {
    if header == n then Some(Tally(map[], [], [], [], false))
    else
      var before := Fold(lines, header, n - 1);
      if before.None? then None else Add(before.value, lines[n - 1])
  }

  function Trues(saves: seq<bool>): nat {
    if saves == [] then 0 else Trues(saves[..|saves| - 1]) + if saves[|saves| - 1] then 1 else 0
  }

  function Completes(finals: seq<Report>): nat {
    if finals == [] then 0 else Completes(finals[..|finals| - 1]) + if finals[|finals| - 1].Completed? then 1 else 0
  }

  lemma AddRows(t: Tally, line: Line)
    ensures Add(t, line).None?
        <==> line.row.Some? && (t.seen || line.row.value.phase in t.rows || !line.row.value.finite)
    ensures Add(t, line).Some? ==>
              var u := Add(t, line).value;
              u.seen == (t.seen || !line.report.Nothing?)
              && u.rows == if line.row.Some? then t.rows[line.row.value.phase := line.row.value] else t.rows
  {}

  /** The scan refuses exactly the tables that break the rules. */
  lemma {:induction false} FoldRows(lines: seq<Line>, header: nat, n: nat)
    requires header <= n <= |lines|
    ensures Fold(lines, header, n).Some? <==> Tabular(lines, header, n)
    ensures Fold(lines, header, n).Some? ==>
              var t := Fold(lines, header, n).value;
              && (t.seen <==> exists k :: header <= k < n && !lines[k].report.Nothing?)
              && (forall phase :: phase in t.rows <==> exists j :: header <= j < n && Is(lines[j], Rows(phase)))
              && (forall j :: header <= j < n && lines[j].row.Some? ==>
                    lines[j].row.value.phase in t.rows && t.rows[lines[j].row.value.phase] == lines[j].row.value)
  {
    hide Add;
    if header < n {
      FoldRows(lines, header, n - 1);
      var before, line := Fold(lines, header, n - 1), lines[n - 1];
      if before.Some? { AddRows(before.value, line); }
      assert Tabular(lines, header, n) ==> Tabular(lines, header, n - 1);
      if before.Some? && line.row.Some? {
        var phase := line.row.value.phase;
        assert Is(line, Rows(phase));
        assert phase in before.value.rows ==> exists j :: header <= j < n - 1 && Is(lines[j], Rows(phase));
      }
    }
  }

  lemma TruesPlus(saves: seq<bool>, saved: bool)
    ensures Trues(saves + [saved]) == Trues(saves) + if saved then 1 else 0
  {
    assert (saves + [saved])[..|saves|] == saves;
  }

  lemma CompletesPlus(finals: seq<Report>, report: Report)
    ensures Completes(finals + [report]) == Completes(finals) + if report.Completed? then 1 else 0
  {
    assert (finals + [report])[..|finals|] == finals;
  }

  function One(line: Line, kind: Kind): nat { if Is(line, kind) then 1 else 0 }

  lemma AddCounts(t: Tally, line: Line)
    requires Add(t, line).Some?
    ensures var u := Add(t, line).value;
            && |u.saves| == |t.saves| + One(line, SaveReports)
              && Trues(u.saves) == Trues(t.saves) + One(line, Successes)
            && |u.finals| == |t.finals| + One(line, Finals)
              && Completes(u.finals) == Completes(t.finals) + One(line, Completions)
            && |u.mismatches| == |t.mismatches| + One(line, Mismatches)
  {
    hide Trues, Completes;
    TruesPlus(t.saves, !line.report.SaveFailed?);
    CompletesPlus(t.finals, if line.report.SavedAndCompleted? then Completed else line.report);
    assert t.saves + [] == t.saves && t.finals + [] == t.finals;
  }

  lemma CountPlus(lines: seq<Line>, start: nat, end: nat, kind: Kind)
    requires start < end <= |lines|
    ensures Count(lines, start, end, kind) == Count(lines, start, end - 1, kind) + One(lines[end - 1], kind)
  {}

  lemma FoldPlus(lines: seq<Line>, header: nat, n: nat)
    requires header < n <= |lines| && Fold(lines, header, n).Some?
    ensures Fold(lines, header, n - 1).Some?
        && Fold(lines, header, n) == Add(Fold(lines, header, n - 1).value, lines[n - 1])
  {
    hide Add;
  }

  /** The collected reports count the lines of their kinds. */
  lemma {:induction false} FoldCounts(lines: seq<Line>, header: nat, n: nat)
    requires header <= n <= |lines| && Fold(lines, header, n).Some?
    ensures var t := Fold(lines, header, n).value;
            && |t.saves| == Count(lines, header, n, SaveReports) && Trues(t.saves) == Count(lines, header, n, Successes)
            && |t.finals| == Count(lines, header, n, Finals)
              && Completes(t.finals) == Count(lines, header, n, Completions)
            && |t.mismatches| == Count(lines, header, n, Mismatches)
  {
    if header < n {
      hide *;
      FoldPlus(lines, header, n);
      FoldCounts(lines, header, n - 1);
      AddCounts(Fold(lines, header, n - 1).value, lines[n - 1]);
      CountPlus(lines, header, n, SaveReports);
      CountPlus(lines, header, n, Successes);
      CountPlus(lines, header, n, Finals);
      CountPlus(lines, header, n, Completions);
      CountPlus(lines, header, n, Mismatches);
    }
  }

  /** The verdict over what was collected: `None` is refused, otherwise whether it was saved. */
  function Settled(t: Tally): Option<bool> {
    if t.rows.Keys != {A, B, C} || |t.finals| > 1 || t.finals == [RollbackFailed] then None
    else if t.finals == [RolledBack] then
      if t.saves == [true] then None else if t.saves == [] || t.saves == [false] then Some(false) else None
    else if t.finals == [Completed] && t.saves != [true] then None
    else if |t.saves| != 1 then None
    else Some(t.saves[0])
  }

  lemma SettledWell(t: Tally)
    requires forall i ::
        0 <= i < |t.finals| ==> t.finals[i].Completed? || t.finals[i].RolledBack? || t.finals[i].RollbackFailed?
    ensures Settled(t) == Some(true) <==>
              t.rows.Keys == {A, B, C} && |t.saves| == 1 && Trues(t.saves) == 1
              && |t.finals| <= 1 && |t.finals| == Completes(t.finals)
  {
    if |t.saves| == 1 { assert t.saves == [t.saves[0]] && t.saves[..0] == []; }
    if |t.finals| == 1 { assert t.finals == [t.finals[0]] && t.finals[..0] == []; }
  }

  lemma {:induction false} FinalsKnown(lines: seq<Line>, header: nat, n: nat)
    requires header <= n <= |lines| && Fold(lines, header, n).Some?
    ensures var finals := Fold(lines, header, n).value.finals;
            forall i :: 0 <= i < |finals| ==> finals[i].Completed? || finals[i].RolledBack? || finals[i].RollbackFailed?
  {
    if header < n { FinalsKnown(lines, header, n - 1); }
  }

  lemma {:induction false} Refused(lines: seq<Line>, header: nat, n: nat, end: nat)
    requires header <= n <= end <= |lines| && Fold(lines, header, n).None?
    ensures Fold(lines, header, end).None?
  {
    if n < end { Refused(lines, header, n, end - 1); }
  }

  method Scan(lines: seq<Line>, header: nat, end: nat) returns (tally: Option<Tally>)
    requires header <= end <= |lines|
    ensures tally == Fold(lines, header, end)
  {
    var t, i := Tally(map[], [], [], [], false), header;
    while i < end
      invariant header <= i <= end && Fold(lines, header, i) == Some(t)
    {
      var next := Add(t, lines[i]);
      if next.None? {
        Refused(lines, header, i + 1, end);
        return None;
      }
      t, i := next.value, i + 1;
    }
    tally := Some(t);
  }

  method IsDisabled(lines: seq<Line>, button: nat, end: nat) returns (disabled: bool)
    requires button <= end <= |lines|
    ensures disabled <==> exists j :: button <= j < end && lines[j].disabled
  {
    var i := button;
    while i < end && !lines[i].disabled
      invariant button <= i <= end && forall j :: button <= j < i ==> !lines[j].disabled
    {
      i := i + 1;
    }
    disabled := i < end;
  }

  lemma HeaderUnique(lines: seq<Line>, target: nat, button: nat, end: nat, header: nat)
    requires Headed(lines, target, button, end, header)
    ensures forall h: nat :: Headed(lines, target, button, end, h) ==> h == header
  {}

  lemma AllPhases(rows: map<Phase, Row>)
    ensures rows.Keys == {A, B, C} <==> forall phase :: phase in rows
  {
    if A in rows && B in rows && C in rows {
      forall phase: Phase ensures phase in rows && phase in {A, B, C} { assert phase == A || phase == B || phase == C; }
      assert rows.Keys == {A, B, C};
    }
  }

  lemma Judged(lines: seq<Line>, target: nat, button: nat, end: nat, header: nat, t: Tally, disabled: bool)
    requires Window(lines, target, button, end) && Headed(lines, target, button, end, header)
    requires Fold(lines, header, end) == Some(t) && (disabled <==> exists j :: button <= j < end && lines[j].disabled)
    ensures Settled(t) == Some(true) && t.mismatches == [] && !disabled
        <==> Acceptable(lines, target, button, end, header)
  {
    FoldRows(lines, header, end);
    FoldCounts(lines, header, end);
    FinalsKnown(lines, header, end);
    SettledWell(t);
    AllPhases(t.rows);
  }

  /** A parsed run may be applied at once exactly if the log holds an acceptable run; its
      rows are then the rows of the log. */
  method Parse(lines: seq<Line>, target: nat) returns (result: Result<GainRun>)
    ensures result.Ok? && ImmediateApplyAcceptable(result.value)
            <==> exists button, end, header :: Acceptable(lines, target, button, end, header)
    ensures result.Ok? ==> forall button: nat, end: nat, header: nat ::
              Window(lines, target, button, end) && Headed(lines, target, button, end, header) ==>
                forall j :: header <= j < end && lines[j].row.Some? ==>
                  lines[j].row.value.phase in result.value.rows
                    && result.value.rows[lines[j].row.value.phase] == lines[j].row.value
  {
    var window := FindWindow(lines, target);
    if window.None? { return Refusal; }
    var button, end := window.value.0, window.value.1;
    var header := FindHeader(lines, target, button, end);
    if header.None? { return Refusal; }
    HeaderUnique(lines, target, button, end, header.value);
    var tally := Scan(lines, header.value, end);
    FoldRows(lines, header.value, end);
    if tally.None? { return Refusal; }
    var t, saved := tally.value, Settled(tally.value);
    var disabled := IsDisabled(lines, button, end);
    Judged(lines, target, button, end, header.value, t, disabled);
    if saved.None? { return Refusal; }
    result := Result.Ok(GainRun(t.rows, saved.value, t.mismatches, disabled));
  }
}
