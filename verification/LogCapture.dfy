/** Reconstructing the lines logged since a button press from successive windows of the ring
    (`_prepared_offset_action`, `_new_log_lines`). */
module LogCapture {
  import opened Common
  import opened LogRing

  const MAX_LINES := 4096
  const MAX_BYTES := 512 * 1024

  // --------------------------------------------------------------- one poll

  /** The end of `previous` and the beginning of `current` share `count` lines. */
  predicate Overlaps(previous: seq<Line>, current: seq<Line>, count: int) {
    && 1 <= count <= |previous| && count <= |current|
    && previous[|previous| - count..] == current[..count]
  }

  /** All overlaps of at most `n` lines, the shortest first. */
  function Counts(previous: seq<Line>, current: seq<Line>, n: nat): seq<int> {
    if n == 0 then []
    else Counts(previous, current, n - 1) + (if Overlaps(previous, current, n) then [n] else [])
  }

  lemma {:induction false} CountsMean(previous: seq<Line>, current: seq<Line>, n: nat)
    ensures forall count :: count in Counts(previous, current, n) <==> count <= n && Overlaps(previous, current, count)
  {
    if n > 0 { CountsMean(previous, current, n - 1); }
  }

  function Shorter(a: seq<Line>, b: seq<Line>): nat { if |a| <= |b| then |a| else |b| }

  /** What one poll adds; `None` when continuity was lost. */
  function Added(previous: seq<Line>, current: seq<Line>): Option<seq<Line>> {
    if previous <= current then Some(current[|previous|..])
    else
      var counts := Counts(previous, current, Shorter(previous, current));
      if |counts| == 1 then
        CountsMean(previous, current, Shorter(previous, current));
        assert counts[0] in counts;
        Some(current[counts[0]..])
      else None
  }

  lemma CountsPlus(previous: seq<Line>, current: seq<Line>, n: nat)
    requires 1 <= n <= Shorter(previous, current)
    ensures n <= |previous| && n <= |current|
    ensures Counts(previous, current, n) ==
            Counts(previous, current, n - 1) + if previous[|previous| - n..] == current[..n] then [n] else []
  {}

  lemma AddedCases(previous: seq<Line>, current: seq<Line>)
    ensures Counts(previous, current, 0) == []
        && Shorter(previous, current) == if |previous| <= |current| then |previous| else |current|
    ensures previous <= current ==> Added(previous, current) == Some(current[|previous|..])
    ensures var counts := Counts(previous, current, Shorter(previous, current));
            !(previous <= current) ==>
              if |counts| == 1 then 0 <= counts[0] <= |current|
                && Added(previous, current) == Some(current[counts[0]..])
              else Added(previous, current) == None
  {
    var counts := Counts(previous, current, Shorter(previous, current));
    CountsMean(previous, current, Shorter(previous, current));
    if |counts| == 1 { assert counts[0] in counts; }
  }

  method Additions(previous: seq<Line>, current: seq<Line>) returns (added: Option<seq<Line>>)
    ensures added == Added(previous, current)
  {
    hide *;
    AddedCases(previous, current);
    if previous <= current { return Some(current[|previous|..]); }
    var overlaps, count := [], 1;
    while count <= |previous| && count <= |current|
      invariant 1 <= count <= Shorter(previous, current) + 1
      invariant overlaps == Counts(previous, current, count - 1)
    {
      CountsPlus(previous, current, count);
      if previous[|previous| - count..] == current[..count] { overlaps := overlaps + [count]; }
      count := count + 1;
    }
    if |overlaps| != 1 { return None; }
    added := Some(current[overlaps[0]..]);
  }

  lemma {:induction false} NoOverlap(previous: seq<Line>, current: seq<Line>, n: nat)
    requires forall other :: other <= n ==> !Overlaps(previous, current, other)
    ensures Counts(previous, current, n) == []
  {
    if n > 0 { NoOverlap(previous, current, n - 1); }
  }

  /** An overlap decides the poll exactly if it is the only one. */
  lemma {:induction false} OnlyOverlap(previous: seq<Line>, current: seq<Line>, n: nat, count: int)
    requires Overlaps(previous, current, count) && count <= n
    requires forall other :: Overlaps(previous, current, other) ==> other == count
    ensures Counts(previous, current, n) == [count]
  {
    if count == n { NoOverlap(previous, current, n - 1); } else { OnlyOverlap(previous, current, n - 1, count); }
  }

  /** The lines of the history from `lo` to `hi` are what the ring showed. */
  datatype Span = Span(lo: nat, hi: nat)

  predicate Within(history: seq<Line>, s: Span) { s.lo <= s.hi <= |history| }

  function Shown(history: seq<Line>, s: Span): seq<Line>
    requires Within(history, s)
  {
    history[s.lo..s.hi]
  }

  predicate Distinct(history: seq<Line>) {
    forall i, j :: 0 <= i < j < |history| ==> history[i] != history[j]
  }

  lemma Sliced(history: seq<Line>, a: nat, b: nat, c: nat, d: nat)
    requires a <= c <= d <= b <= |history|
    ensures history[a..b][c - a..d - a] == history[c..d]
  {
    var part := history[a..b];
    assert |part[c - a..d - a]| == |history[c..d]|;
    forall i | 0 <= i < d - c ensures part[c - a..d - a][i] == history[c..d][i] {
      assert part[c - a + i] == history[c + i];
    }
  }

  lemma TrueOverlap(history: seq<Line>, before: Span, after: Span)
    requires Within(history, before) && Within(history, after)
    requires before.lo <= after.lo < before.hi <= after.hi
    ensures Overlaps(Shown(history, before), Shown(history, after), before.hi - after.lo)
    ensures Shown(history, after)[before.hi - after.lo..] == history[before.hi..after.hi]
  {
    Sliced(history, before.lo, before.hi, after.lo, before.hi);
    Sliced(history, after.lo, after.hi, after.lo, before.hi);
    Sliced(history, after.lo, after.hi, before.hi, after.hi);
  }

  /** Without repeated lines an overlap can only be the true one. */
  lemma DistinctOverlap(history: seq<Line>, before: Span, after: Span, count: int)
    requires Distinct(history) && Within(history, before) && Within(history, after)
    requires Overlaps(Shown(history, before), Shown(history, after), count)
    ensures count == before.hi - after.lo
  {
    var previous, current := Shown(history, before), Shown(history, after);
    assert current[..count][0] == previous[|previous| - count..][0];
    assert previous[|previous| - count..][0] == history[before.hi - count];
  }

  lemma PollStill(history: seq<Line>, before: Span, after: Span)
    requires Within(history, before) && Within(history, after) && before.lo == after.lo && before.hi <= after.hi
    ensures Added(Shown(history, before), Shown(history, after)) == Some(history[before.hi..after.hi])
  {
    var previous, current := Shown(history, before), Shown(history, after);
    assert |previous| <= |current|;
    forall i | 0 <= i < |previous| ensures previous[i] == current[i] {}
    assert previous == current[..|previous|];
    assert current[|previous|..] == history[before.hi..after.hi];
  }

  lemma NoPrefix(history: seq<Line>, before: Span, after: Span)
    requires Distinct(history) && Within(history, before) && Within(history, after) && before.lo < before.hi
        && before.lo < after.lo
    ensures !(Shown(history, before) <= Shown(history, after))
  {
    var previous, current := Shown(history, before), Shown(history, after);
    assert previous[0] == history[before.lo];
    if |current| > 0 { assert current[0] == history[after.lo]; }
  }

  lemma OverlapShort(previous: seq<Line>, current: seq<Line>, count: int)
    requires Overlaps(previous, current, count)
    ensures count <= Shorter(previous, current)
  {}

  lemma OverlapPositive(previous: seq<Line>, current: seq<Line>, count: int)
    ensures Overlaps(previous, current, count) ==> count > 0
  {}

  lemma PollMoved(history: seq<Line>, before: Span, after: Span)
    requires Distinct(history) && Within(history, before) && Within(history, after)
    requires before.lo < before.hi && before.lo < after.lo && before.hi <= after.hi
    ensures Added(Shown(history, before), Shown(history, after))
         == if after.lo < before.hi then Some(history[before.hi..after.hi]) else None
  {
    NoPrefix(history, before, after);
    var previous, current := Shown(history, before), Shown(history, after);
    hide Shown, Distinct, Overlaps, Counts;
    forall count | Overlaps(previous, current, count) ensures count == before.hi - after.lo {
      DistinctOverlap(history, before, after, count);
    }
    var n := Shorter(previous, current);
    if after.lo < before.hi {
      TrueOverlap(history, before, after);
      OverlapShort(previous, current, before.hi - after.lo);
      OnlyOverlap(previous, current, n, before.hi - after.lo);
    } else {
      forall other | other <= n ensures !Overlaps(previous, current, other) {
        OverlapPositive(previous, current, other);
      }
      NoOverlap(previous, current, n);
    }
  }

  /** Without repeated lines a poll is exact as long as one old line is still shown, and
      refused as soon as none is. */
  lemma PollExact(history: seq<Line>, before: Span, after: Span)
    requires Distinct(history) && Within(history, before) && Within(history, after)
    requires before.lo < before.hi && before.lo <= after.lo && before.hi <= after.hi
    ensures Added(Shown(history, before), Shown(history, after))
         == if after.lo < before.hi then Some(history[before.hi..after.hi]) else None
  {
    if after.lo == before.lo { PollStill(history, before, after); } else { PollMoved(history, before, after); }
  }

  ghost predicate LoneOverlap(previous: seq<Line>, current: seq<Line>) {
    exists count :: Overlaps(previous, current, count)
                    && forall other :: Overlaps(previous, current, other) ==> other == count
  }

  /** A poll adds something, be it nothing new, exactly if the old window is at the front of
      the new one or overlaps it in one way only. */
  lemma AddedSome(previous: seq<Line>, current: seq<Line>)
    ensures Added(previous, current).Some? <==> previous <= current || LoneOverlap(previous, current)
  {
    hide Overlaps;
    var n := Shorter(previous, current);
    var counts := Counts(previous, current, n);
    CountsMean(previous, current, n);
    if LoneOverlap(previous, current) {
      var count :| Overlaps(previous, current, count)
                   && forall other :: Overlaps(previous, current, other) ==> other == count;
      OverlapShort(previous, current, count);
      OnlyOverlap(previous, current, n, count);
    }
    if |counts| == 1 {
      assert counts[0] in counts;
      forall other | Overlaps(previous, current, other) ensures other == counts[0] {
        OverlapShort(previous, current, other);
        assert other in counts;
      }
    }
  }

  lemma PollWrongNear(history: seq<Line>, before: Span, after: Span)
    requires Within(history, before) && Within(history, after)
    requires before.lo <= after.lo < before.hi <= after.hi
    ensures var added := Added(Shown(history, before), Shown(history, after));
            added.Some? && added.value != history[before.hi..after.hi]
            <==> before.lo < after.lo && Shown(history, before) <= Shown(history, after)
  {
    var previous, current := Shown(history, before), Shown(history, after);
    TrueOverlap(history, before, after);
    if previous <= current {
      assert |current[|previous|..]| == (after.hi - after.lo) - (before.hi - before.lo);
      assert before.lo == after.lo ==> current[|previous|..] == history[before.hi..after.hi];
    } else {
      var counts := Counts(previous, current, Shorter(previous, current));
      CountsMean(previous, current, Shorter(previous, current));
      assert before.hi - after.lo in counts;
      assert |counts| == 1 ==> counts[0] == before.hi - after.lo;
    }
  }

  /** Once every old line is evicted, whatever a poll adds is too short. */
  lemma PollWrongFar(history: seq<Line>, before: Span, after: Span)
    requires Within(history, before) && Within(history, after)
    requires before.lo < before.hi <= after.lo
    ensures before.hi <= after.hi
    ensures var added := Added(Shown(history, before), Shown(history, after));
            added.Some? ==> |added.value| < |history[before.hi..after.hi]|
  {
    var previous, current := Shown(history, before), Shown(history, after);
    assert |previous| > 0 && |current| <= |history[before.hi..after.hi]|;
    var counts := Counts(previous, current, Shorter(previous, current));
    CountsMean(previous, current, Shorter(previous, current));
    if !(previous <= current) && |counts| == 1 { assert counts[0] in counts; }
  }

  /** From an empty window the poll takes whatever is shown: it is exact exactly if the ring
      has dropped nothing since. */
  lemma EmptyStart(history: seq<Line>, n: nat, after: Span)
    requires Within(history, after) && n <= after.lo
    ensures Added([], Shown(history, after)) == Some(history[n..after.hi]) <==> after.lo == n
  {
    assert Shown(history, after)[0..] == Shown(history, after);
    assert |history[n..after.hi]| == after.hi - n;
  }

  /** With repeated lines a poll may still be refused. It adds wrong lines exactly in these
      cases: it started from nothing and a line was dropped unseen; the ring moved on and shows
      the old window at its front again; or every old line was evicted, and the new window
      looks like a continuation of the old one. */
  lemma PollWrong(history: seq<Line>, before: Span, after: Span)
    requires Within(history, before) && Within(history, after)
    requires before.lo <= after.lo && before.hi <= after.hi
    ensures var previous, current := Shown(history, before), Shown(history, after);
            var added := Added(previous, current);
            added.Some? && added.value != history[before.hi..after.hi]
            <==> if before.lo == before.hi then before.hi < after.lo
                 else if after.lo < before.hi then before.lo < after.lo && previous <= current
                 else previous <= current || LoneOverlap(previous, current)
  {
    var previous, current := Shown(history, before), Shown(history, after);
    hide Added, LoneOverlap, Overlaps;
    AddedSome(previous, current);
    if before.lo == before.hi {
      assert previous == [];
      EmptyStart(history, before.hi, after);
    }
    else if after.lo < before.hi { PollWrongNear(history, before, after); }
    else { PollWrongFar(history, before, after); }
  }

  /** Two lines in a ring of two: the first and third are evicted, the second comes again, and
      only the last of three new lines is added. */
  lemma EvictedLinesLost(a: Line, b: Line, c: Line, d: Line)
    requires a != b
    ensures var history := [a, b, c, b, d];
            && Added(Shown(history, Span(0, 2)), Shown(history, Span(3, 5))) == Some([d])
            && history[2..5] == [c, b, d]
  {
    var history := [a, b, c, b, d];
    var previous, current := Shown(history, Span(0, 2)), Shown(history, Span(3, 5));
    assert previous == [a, b] && current == [b, d] && previous[0] != current[0];
    assert previous[1..] == [b] == current[..1];
    assert Overlaps(previous, current, 1) && !Overlaps(previous, current, 2) by {
      assert previous[0..] == previous && current[..2] == current && previous[0] != current[0];
    }
    OnlyOverlap(previous, current, 2, 1);
    assert current[1..] == [d];
  }

  /** Four equal lines in a ring of three: the fourth is never seen. */
  lemma RepeatedLineLost(line: Line)
    ensures var history := [line, line, line, line];
            && Shown(history, Span(0, 3)) == Shown(history, Span(1, 4))
            && Added(Shown(history, Span(0, 3)), Shown(history, Span(1, 4))) == Some([])
            && history[3..4] == [line]
  {
    var history := [line, line, line, line];
    assert Shown(history, Span(0, 3)) == [line, line, line] == Shown(history, Span(1, 4));
  }

  // ---------------------------------------------------------- the polling loop

  function Before(start: seq<Line>, windows: seq<seq<Line>>): seq<Line> {
    if windows == [] then start else windows[|windows| - 1]
  }

  /** What all polls add, one after the other; `None` once continuity was lost. */
  function Joined(start: seq<Line>, windows: seq<seq<Line>>): Option<seq<Line>> {
    if windows == [] then Some([])
    else
      var init := windows[..|windows| - 1];
      var joined, added := Joined(start, init), Added(Before(start, init), windows[|windows| - 1]);
      if joined.Some? && added.Some? then Some(joined.value + added.value) else None
  }

  predicate Small(lines: seq<Line>) { |lines| <= MAX_LINES && Total(lines) <= MAX_BYTES }

  lemma {:induction false} SmallPrefix(a: seq<Line>, b: seq<Line>)
    requires a <= b
    ensures Small(b) ==> Small(a)
    ensures Total(a) <= Total(b)
  {
    if a == b {
    } else {
      var init := b[..|b| - 1];
      assert b == init + [b[|b| - 1]];
      TotalPlus(init, b[|b| - 1]);
      SmallPrefix(a, init);
    }
  }

  /** The lines of one poll are taken in one by one, until the limits are reached. */
  method Take(captured: seq<Line>, size: nat, added: seq<Line>) returns (taken: Option<seq<Line>>, total: nat)
    requires size == Total(captured) && Small(captured)
    ensures taken == if Small(captured + added) then Some(captured + added) else None
    ensures taken.Some? ==> total == Total(captured + added)
  {
    var all, j := captured, 0;
    total := size;
    while j < |added|
      invariant 0 <= j <= |added| && all == captured + added[..j]
      invariant total == Total(all) && Small(all)
    {
      TotalPlus(all, added[j]);
      total := total + Bytes(added[j]);
      if |all| >= MAX_LINES || total > MAX_BYTES {
        assert all + [added[j]] <= captured + added;
        SmallPrefix(all + [added[j]], captured + added);
        return None, total;
      }
      all, j := all + [added[j]], j + 1;
    }
    assert added[..j] == added;
    taken := Some(all);
  }

  lemma NothingSmall()
    ensures Small([]) && Total([]) == 0
  {}

  lemma JoinedStep(start: seq<Line>, windows: seq<seq<Line>>, i: nat)
    requires i < |windows|
    ensures Before(start, windows[..i + 1]) == windows[i]
    ensures var joined, added := Joined(start, windows[..i]), Added(Before(start, windows[..i]), windows[i]);
            Joined(start, windows[..i + 1]) == if joined.Some? && added.Some? then Some(joined.value + added.value)
              else None
  {
    assert windows[..i + 1][..i] == windows[..i];
  }

  /** Later polls only add. */
  lemma {:induction false} JoinedPrefix(start: seq<Line>, windows: seq<seq<Line>>, n: nat)
    requires n <= |windows|
    ensures Joined(start, windows).Some? ==>
              Joined(start, windows[..n]).Some? && Joined(start, windows[..n]).value <= Joined(start, windows).value
    ensures Joined(start, windows).Some? && !Small(Joined(start, windows[..n]).value)
        ==> !Small(Joined(start, windows).value)
  {
    if n < |windows| {
      JoinedPrefix(start, windows[..|windows| - 1], n);
      assert windows[..|windows| - 1][..n] == windows[..n];
    } else { assert windows[..n] == windows; }
    if Joined(start, windows).Some? { SmallPrefix(Joined(start, windows[..n]).value, Joined(start, windows).value); }
  }

  /** The capture loop over the windows that the polls return. */
  method Capture(start: seq<Line>, windows: seq<seq<Line>>) returns (result: Result<seq<Line>>)
    ensures var joined := Joined(start, windows);
            result == if joined.Some? && Small(joined.value) then Result.Ok(joined.value) else Refusal
  {
    hide Added, Small;
    NothingSmall();
    var captured, size, previous, i := [], 0, start, 0;
    while i < |windows|
      invariant 0 <= i <= |windows| && previous == Before(start, windows[..i])
      invariant size == Total(captured) && Small(captured)
      invariant Joined(start, windows[..i]) == Some(captured)
    {
      var added := Additions(previous, windows[i]);
      JoinedStep(start, windows, i);
      JoinedPrefix(start, windows, i + 1);
      if added.None? { return Refusal; }
      var taken, total := Take(captured, size, added.value);
      if taken.None? { return Refusal; }
      captured, size, previous, i := taken.value, total, windows[i], i + 1;
    }
    assert windows[..i] == windows;
    result := Result.Ok(captured);
  }

  /** The windows that the polls see: the first shows something, and none goes back. */
  ghost predicate Polls(history: seq<Line>, spans: seq<Span>) {
    && spans != [] && (forall i :: 0 <= i < |spans| ==> Within(history, spans[i]) && spans[i].lo < spans[i].hi)
    && forall i :: 0 < i < |spans| ==> spans[i - 1].lo <= spans[i].lo && spans[i - 1].hi <= spans[i].hi
  }

  /** Each poll still shows a line of the one before. */
  predicate Continuous(spans: seq<Span>) {
    forall i :: 0 < i < |spans| ==> spans[i].lo < spans[i - 1].hi
  }

  function Windows(history: seq<Line>, spans: seq<Span>): (windows: seq<seq<Line>>)
    requires forall i :: 0 <= i < |spans| ==> Within(history, spans[i])
    ensures |windows| == |spans| && forall i :: 0 <= i < |spans| ==> windows[i] == Shown(history, spans[i])
  {
    if spans == [] then [] else Windows(history, spans[..|spans| - 1]) + [Shown(history, spans[|spans| - 1])]
  }

  function Logged(history: seq<Line>, n: nat, m: nat): seq<Line> {
    if n <= m <= |history| then history[n..m] else []
  }

  lemma ContinuousStep(spans: seq<Span>)
    requires |spans| > 1
    ensures var n := |spans| - 1; Continuous(spans) <==> Continuous(spans[..n]) && spans[n].lo < spans[n - 1].hi
  {
    var init := spans[..|spans| - 1];
    assert forall i :: 0 < i < |init| ==> init[i] == spans[i];
    if Continuous(init) && spans[|spans| - 1].lo < spans[|spans| - 2].hi {
      forall i | 0 < i < |spans| ensures spans[i].lo < spans[i - 1].hi {
        if i < |init| { assert init[i].lo < init[i - 1].hi; }
      }
    }
    if Continuous(spans) {
      forall i | 0 < i < |init| ensures init[i].lo < init[i - 1].hi { assert spans[i].lo < spans[i - 1].hi; }
    }
  }

  lemma ContinuousAlone(spans: seq<Span>)
    requires |spans| == 1
    ensures Continuous(spans)
  {}

  lemma LoggedPlus(history: seq<Line>, a: nat, b: nat, c: nat)
    requires a <= b <= c <= |history|
    ensures Logged(history, a, b) + history[b..c] == Logged(history, a, c)
  {}

  lemma WindowsStep(history: seq<Line>, spans: seq<Span>)
    requires |spans| > 1 && forall i :: 0 <= i < |spans| ==> Within(history, spans[i])
    ensures var n, windows := |spans| - 1, Windows(history, spans)[1..];
            && windows[..|windows| - 1] == Windows(history, spans[..n])[1..]
            && windows[|windows| - 1] == Shown(history, spans[n])
            && Before(Shown(history, spans[0]), windows[..|windows| - 1]) == Shown(history, spans[n - 1])
  {
    var n, windows := |spans| - 1, Windows(history, spans)[1..];
    assert windows[..n - 1] == Windows(history, spans[..n])[1..];
  }

  lemma {:induction false} Ordered(history: seq<Line>, spans: seq<Span>, n: nat)
    requires Polls(history, spans) && n < |spans|
    ensures spans[0].hi <= spans[n].hi
  {
    if n > 0 { Ordered(history, spans, n - 1); }
  }

  /** Without repeated lines, what is captured is exactly what was logged since the first
      window, in order; and losing every old line between two polls is always noticed. */
  lemma {:induction false} CaptureExact(history: seq<Line>, spans: seq<Span>)
    requires Distinct(history) && Polls(history, spans)
    ensures Joined(Shown(history, spans[0]), Windows(history, spans)[1..])
         == if Continuous(spans) then Some(Logged(history, spans[0].hi, spans[|spans| - 1].hi)) else None
  {
    hide Added, Continuous, Before, Distinct;
    var n := |spans| - 1;
    var windows := Windows(history, spans)[1..];
    if n == 0 {
      ContinuousAlone(spans);
      assert windows == [] && history[spans[0].hi..spans[0].hi] == [];
    } else {
      CaptureExact(history, spans[..n]);
      WindowsStep(history, spans);
      PollExact(history, spans[n - 1], spans[n]);
      ContinuousStep(spans);
      Ordered(history, spans, n - 1);
      LoggedPlus(history, spans[0].hi, spans[n - 1].hi, spans[n].hi);
    }
  }

  /** The windows of the bounded ring over a growing, non-empty history are such windows. */
  lemma RingPolls(history: seq<Line>, spans: seq<Span>, rings: seq<seq<Line>>, maxLines: nat, maxBytes: nat)
    requires spans != [] && |rings| == |spans| && maxLines >= 1
    requires forall i :: 0 <= i < |spans| ==> 0 < spans[i].hi <= |history| && spans[i].lo + |rings[i]| == spans[i].hi
    requires forall i :: 0 < i < |spans| ==> spans[i - 1].hi <= spans[i].hi
    requires forall i :: 0 <= i < |spans| ==> Ring(rings[i], history[..spans[i].hi], maxLines, maxBytes)
    requires Bounded(history, maxBytes)
    ensures Polls(history, spans) && Windows(history, spans) == rings
  {
    forall i | 0 <= i < |spans| ensures spans[i].lo < spans[i].hi && Shown(history, spans[i]) == rings[i] {
      RingKeepsNewest(rings[i], history[..spans[i].hi], maxLines, maxBytes);
      assert history[..spans[i].hi][spans[i].lo..] == history[spans[i].lo..spans[i].hi];
    }
    forall i | 0 < i < |spans| ensures spans[i - 1].lo <= spans[i].lo {
      RingAdvances(rings[i - 1], rings[i], history, spans[i - 1].hi, spans[i].hi, maxLines, maxBytes);
    }
  }

  // ------------------------------------------------- from the log to the capture

  /** The whole history after the first `n` messages. */
  function LogAfter(history: seq<Line>, messages: seq<seq<Received>>, n: nat, maxBytes: nat): seq<Line>
    requires n <= |messages|
  {
    if n == 0 then history
    else LogAfter(history, messages, n - 1, maxBytes) + Accepted(messages[n - 1], maxBytes)
  }

  lemma {:induction false} LogGrows(history: seq<Line>, messages: seq<seq<Received>>, n: nat, m: nat, maxBytes: nat)
    requires n <= m <= |messages|
    ensures LogAfter(history, messages, n, maxBytes) <= LogAfter(history, messages, m, maxBytes)
  {
    hide Accepted;
    if n < m { LogGrows(history, messages, n, m - 1, maxBytes); }
  }

  /** The lines of message `i` fill the ring alone: no older line is left in it. */
  ghost predicate Floods(history: seq<Line>, messages: seq<seq<Received>>, i: nat, maxLines: nat, maxBytes: nat)
    requires i < |messages|
  {
    exists kept :: Ring(kept, LogAfter(history, messages, i + 1, maxBytes), maxLines, maxBytes)
                   && |kept| <= |Accepted(messages[i], maxBytes)|
  }

  ghost predicate Paced(history: seq<Line>, messages: seq<seq<Received>>, maxLines: nat, maxBytes: nat) {
    forall i :: 0 <= i < |messages| ==> !Floods(history, messages, i, maxLines, maxBytes)
  }

  /** `rings` are what the ring shows at first and after each of the first `n` messages. */
  ghost predicate Watched(history: seq<Line>, messages: seq<seq<Received>>, n: nat, rings: seq<seq<Line>>,
                          maxLines: nat, maxBytes: nat)
  {
    && |rings| == n + 1 && n <= |messages|
    && forall k :: 0 <= k <= n ==> Ring(rings[k], LogAfter(history, messages, k, maxBytes), maxLines, maxBytes)
  }

  /** Where in the whole history each window lies. */
  ghost function SpansOf(history: seq<Line>, messages: seq<seq<Received>>, n: nat, rings: seq<seq<Line>>,
                         maxLines: nat, maxBytes: nat): (spans: seq<Span>)
    requires Watched(history, messages, n, rings, maxLines, maxBytes)
    ensures |spans| == n + 1
    ensures forall k :: 0 <= k <= n ==>
      spans[k].hi == |LogAfter(history, messages, k, maxBytes)| && spans[k].lo + |rings[k]| == spans[k].hi
  {
    seq(n + 1, k requires 0 <= k <= n =>
      var hi := |LogAfter(history, messages, k, maxBytes)|; Span(hi - |rings[k]|, hi))
  }

  lemma FloodsAt(history: seq<Line>, messages: seq<seq<Received>>, rings: seq<seq<Line>>, i: nat, maxLines: nat,
                 maxBytes: nat)
    requires Watched(history, messages, |messages|, rings, maxLines, maxBytes) && i < |messages|
    ensures var spans := SpansOf(history, messages, |messages|, rings, maxLines, maxBytes);
            spans[i + 1].lo < spans[i].hi <==> !Floods(history, messages, i, maxLines, maxBytes)
  {
    hide Ring, Accepted;
    var later := LogAfter(history, messages, i + 1, maxBytes);
    if kept :| Ring(kept, later, maxLines, maxBytes) && |kept| <= |Accepted(messages[i], maxBytes)| {
      RingIsUnique(kept, rings[i + 1], later, maxLines, maxBytes);
    }
  }

  lemma PacedAt(history: seq<Line>, messages: seq<seq<Received>>, maxLines: nat, maxBytes: nat, spans: seq<Span>)
    requires |spans| == |messages| + 1
    requires forall i :: 0 <= i < |messages| ==>
               (spans[i + 1].lo < spans[i].hi <==> !Floods(history, messages, i, maxLines, maxBytes))
    ensures Continuous(spans) <==> Paced(history, messages, maxLines, maxBytes)
  {
    hide Floods;
    if Continuous(spans) {
      forall i | 0 <= i < |messages| ensures !Floods(history, messages, i, maxLines, maxBytes) {
        assert spans[i + 1].lo < spans[i + 1 - 1].hi;
      }
    }
    if Paced(history, messages, maxLines, maxBytes) {
      forall i | 0 < i < |spans| ensures spans[i].lo < spans[i - 1].hi {
        assert !Floods(history, messages, i - 1, maxLines, maxBytes);
      }
    }
  }

  lemma PacedContinuous(history: seq<Line>, messages: seq<seq<Received>>, rings: seq<seq<Line>>, maxLines: nat,
                        maxBytes: nat)
    requires Watched(history, messages, |messages|, rings, maxLines, maxBytes)
    ensures Continuous(SpansOf(history, messages, |messages|, rings, maxLines, maxBytes))
            <==> Paced(history, messages, maxLines, maxBytes)
  {
    hide *;
    var spans := SpansOf(history, messages, |messages|, rings, maxLines, maxBytes);
    forall i | 0 <= i < |messages| ensures spans[i + 1].lo < spans[i].hi
      <==> !Floods(history, messages, i, maxLines, maxBytes) {
      FloodsAt(history, messages, rings, i, maxLines, maxBytes);
    }
    PacedAt(history, messages, maxLines, maxBytes, spans);
  }

  /** The spans say where in the history the windows of the ring lie. */
  ghost predicate Fed(all: seq<Line>, spans: seq<Span>, rings: seq<seq<Line>>, maxLines: nat, maxBytes: nat) {
    && |spans| == |rings| > 0
    && (forall i :: 0 <= i < |spans| ==> 0 < spans[i].hi <= |all| && spans[i].lo + |rings[i]| == spans[i].hi)
    && (forall i :: 0 < i < |spans| ==> spans[i - 1].hi <= spans[i].hi)
    && (forall i :: 0 <= i < |spans| ==> Ring(rings[i], all[..spans[i].hi], maxLines, maxBytes))
  }

  lemma FedCaptures(all: seq<Line>, spans: seq<Span>, rings: seq<seq<Line>>, maxLines: nat, maxBytes: nat)
    requires Fed(all, spans, rings, maxLines, maxBytes) && maxLines >= 1
    requires Distinct(all) && Bounded(all, maxBytes)
    ensures Joined(rings[0], rings[1..])
         == if Continuous(spans) then Some(Logged(all, spans[0].hi, spans[|spans| - 1].hi)) else None
  {
    hide Ring, Distinct, Joined, Continuous, Windows, Logged;
    RingPolls(all, spans, rings, maxLines, maxBytes);
    CaptureExact(all, spans);
  }

  lemma SpansRead(history: seq<Line>, messages: seq<seq<Received>>, rings: seq<seq<Line>>, maxLines: nat, maxBytes: nat)
    requires Watched(history, messages, |messages|, rings, maxLines, maxBytes) && history != []
    ensures var n := |messages|;
            var all, spans := LogAfter(history, messages, n, maxBytes),
              SpansOf(history, messages, n, rings, maxLines, maxBytes);
            spans[0].hi == |history| && spans[n].hi == |all| && history <= all
              && Fed(all, spans, rings, maxLines, maxBytes)
  {
    hide Ring, Accepted;
    var n := |messages|;
    var all, spans := LogAfter(history, messages, n, maxBytes),
      SpansOf(history, messages, n, rings, maxLines, maxBytes);
    LogGrows(history, messages, 0, n, maxBytes);
    forall i | 0 < i < |spans| ensures spans[i - 1].hi <= spans[i].hi {
      LogGrows(history, messages, i - 1, i, maxBytes);
    }
    forall i | 0 <= i < |spans| ensures 0 < spans[i].hi <= |all|
      && Ring(rings[i], all[..spans[i].hi], maxLines, maxBytes) {
      LogGrows(history, messages, i, n, maxBytes);
      LogGrows(history, messages, 0, i, maxBytes);
      assert LogAfter(history, messages, i, maxBytes) == all[..spans[i].hi];
    }
  }

  lemma LoggedTail(history: seq<Line>, n: nat)
    requires n <= |history|
    ensures Logged(history, n, |history|) == history[n..]
  {}

  /** From the log to the capture: over windows taken after each message, without repeated
      lines, what is captured is every line that the ring took in, and the capture is refused
      exactly if some message flooded the ring. */
  lemma RingCaptureExact(history: seq<Line>, messages: seq<seq<Received>>, rings: seq<seq<Line>>, maxLines: nat,
                         maxBytes: nat)
    requires Watched(history, messages, |messages|, rings, maxLines, maxBytes) && history != [] && maxLines >= 1
    requires var all := LogAfter(history, messages, |messages|, maxBytes);
             Distinct(all) && Bounded(all, maxBytes)
    ensures var all := LogAfter(history, messages, |messages|, maxBytes);
            history <= all
            && Joined(rings[0], rings[1..])
            == if Paced(history, messages, maxLines, maxBytes) then Some(all[|history|..]) else None
  {
    hide *;
    var n := |messages|;
    var all, spans := LogAfter(history, messages, n, maxBytes),
      SpansOf(history, messages, n, rings, maxLines, maxBytes);
    SpansRead(history, messages, rings, maxLines, maxBytes);
    FedCaptures(all, spans, rings, maxLines, maxBytes);
    PacedContinuous(history, messages, rings, maxLines, maxBytes);
    LoggedTail(all, |history|);
  }

  lemma WatchedStart(history: seq<Line>, messages: seq<seq<Received>>, kept: seq<Line>, maxLines: nat, maxBytes: nat)
    requires Ring(kept, history, maxLines, maxBytes)
    ensures Watched(history, messages, 0, [kept], maxLines, maxBytes)
  {
    hide Ring;
  }

  lemma KeptOfNothing(kept: seq<Line>, history: seq<Line>, maxLines: nat, maxBytes: nat)
    requires Ring(kept, history, maxLines, maxBytes)
    ensures kept != [] ==> history != []
  {}

  lemma WatchedStep(history: seq<Line>, messages: seq<seq<Received>>, n: nat, rings: seq<seq<Line>>, kept: seq<Line>,
                    maxLines: nat, maxBytes: nat)
    requires Watched(history, messages, n, rings, maxLines, maxBytes) && n < |messages|
    requires Ring(kept, LogAfter(history, messages, n + 1, maxBytes), maxLines, maxBytes)
    ensures Watched(history, messages, n + 1, rings + [kept], maxLines, maxBytes)
  {
    hide Ring, LogAfter;
  }

  /** A capture from a ring that already shows something, with one poll behind each message. */
  method Watch(log: LogLines, messages: seq<seq<Received>>) returns (result: Result<seq<Line>>)
    requires log.Valid()
    modifies log
    ensures log.Valid() && log.history == LogAfter(old(log.history), messages, |messages|, log.maxBytes)
    ensures old(log.history) <= log.history
    ensures Distinct(log.history) && old(log.lines) != [] ==>
              var news := log.history[|old(log.history)|..];
              result == if Paced(old(log.history), messages, log.maxLines, log.maxBytes) && Small(news)
                        then Result.Ok(news) else Refusal
  {
    hide Small, Distinct, Ring, Paced, Joined, Accepted, Watched;
    ghost var history := log.history;
    var start := log.lines;
    var windows := [];
    var i := 0;
    WatchedStart(history, messages, start, log.maxLines, log.maxBytes);
    assert [start] + windows == [start];
    while i < |messages|
      invariant 0 <= i <= |messages| && |windows| == i
      invariant log.Valid() && log.history == LogAfter(history, messages, i, log.maxBytes)
      invariant Watched(history, messages, i, [start] + windows, log.maxLines, log.maxBytes)
    {
      log.OnLog(messages[i]);
      WatchedStep(history, messages, i, [start] + windows, log.lines, log.maxLines, log.maxBytes);
      assert [start] + windows + [log.lines] == [start] + (windows + [log.lines]);
      windows, i := windows + [log.lines], i + 1;
    }
    result := Capture(start, windows);
    LogGrows(history, messages, 0, |messages|, log.maxBytes);
    if Distinct(log.history) && start != [] {
      KeptOfNothing(start, history, log.maxLines, log.maxBytes);
      RingCaptureExact(history, messages, [start] + windows, log.maxLines, log.maxBytes);
      assert ([start] + windows)[1..] == windows;
    }
  }

  // -------------------------------------------------------------- longest overlap

  /** `_new_log_lines`: what follows the longest overlap. */
  method NewLogLines(baseline: seq<Line>, current: seq<Line>) returns (news: seq<Line>)
    ensures exists overlap ::
      && 0 <= overlap <= |current| && news == current[overlap..]
        && (overlap == 0 || Overlaps(baseline, current, overlap))
      && forall longer :: Overlaps(baseline, current, longer) ==> longer <= overlap
  {
    var overlap := Shorter(baseline, current);
    while overlap > 0 && baseline[|baseline| - overlap..] != current[..overlap]
      invariant 0 <= overlap <= Shorter(baseline, current)
      invariant forall longer :: Overlaps(baseline, current, longer) ==> longer <= overlap
    {
      overlap := overlap - 1;
    }
    assert overlap == 0 || Overlaps(baseline, current, overlap);
    news := current[overlap..];
  }

  /** Without repeated lines the longest overlap gives the lines since the baseline exactly
      if the ring still reaches back to its end; otherwise lines are lost without notice. */
  lemma NewLinesExact(history: seq<Line>, before: Span, after: Span, overlap: int)
    requires Distinct(history) && Within(history, before) && Within(history, after)
    requires before.lo <= after.lo && before.hi <= after.hi
    requires 0 <= overlap <= |Shown(history, after)|
    requires overlap == 0 || Overlaps(Shown(history, before), Shown(history, after), overlap)
    requires forall longer :: Overlaps(Shown(history, before), Shown(history, after), longer) ==> longer <= overlap
    ensures Shown(history, after)[overlap..] == history[before.hi..after.hi] <==> after.lo <= before.hi
  {
    var current := Shown(history, after);
    if overlap > 0 { DistinctOverlap(history, before, after, overlap); }
    if after.lo < before.hi { TrueOverlap(history, before, after); }
    else if after.lo == before.hi { assert current[0..] == history[before.hi..after.hi]; }
    else { assert |current[overlap..]| < |history[before.hi..after.hi]|; }
  }
}
