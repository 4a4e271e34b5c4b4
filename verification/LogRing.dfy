/** The bounded ring of calibration log lines that an API session keeps (`_on_log`). */
module LogRing {
  /** A character and the number of bytes of its UTF-8 encoding. */
  datatype Symbol = Symbol(code: nat, width: nat)

  type Line = seq<Symbol>

  function Bytes(line: Line): nat {
    if line == [] then 0 else Bytes(line[..|line| - 1]) + line[|line| - 1].width
  }

  /** The longest prefix whose encoding fits: cutting the bytes and dropping a broken tail. */
  function Clip(line: Line, limit: nat): (clipped: Line)
    ensures clipped <= line && Bytes(clipped) <= limit
    ensures forall n :: |clipped| < n <= |line| ==> Bytes(line[..n]) > limit
  {
    if Bytes(line) <= limit then line
    else
      var shorter := Clip(line[..|line| - 1], limit);
      assert forall n :: |shorter| < n < |line| ==> line[..|line| - 1][..n] == line[..n];
      assert line[..|line|] == line;
      shorter
  }

  function Total(lines: seq<Line>): nat {
    if lines == [] then 0 else Bytes(lines[0]) + Total(lines[1..])
  }

  lemma {:induction false} TotalPlus(lines: seq<Line>, line: Line)
    ensures Total(lines + [line]) == Total(lines) + Bytes(line)
  {
    if lines == [] {
      assert lines + [line] == [line] && [line][1..] == [];
    } else {
      assert (lines + [line])[1..] == lines[1..] + [line];
      TotalPlus(lines[1..], line);
    }
  }

  /** What the configured limits allow. */
  predicate Fits(lines: seq<Line>, maxLines: nat, maxBytes: nat) {
    |lines| <= maxLines && Total(lines) <= maxBytes
  }

  /** `kept` ends `history`, and no longer end of it is within both limits. */
  predicate Ending(kept: seq<Line>, history: seq<Line>, maxLines: nat, maxBytes: nat) {
    && |kept| <= |history| && kept == history[|history| - |kept|..]
    && forall n :: 0 <= n < |history| - |kept| ==> !Fits(history[n..], maxLines, maxBytes)
  }

  /** `kept` is the longest suffix of `history` within both limits. */
  predicate Ring(kept: seq<Line>, history: seq<Line>, maxLines: nat, maxBytes: nat) {
    Ending(kept, history, maxLines, maxBytes) && Fits(kept, maxLines, maxBytes)
  }

  lemma RingIsUnique(a: seq<Line>, b: seq<Line>, history: seq<Line>, maxLines: nat, maxBytes: nat)
    requires Ring(a, history, maxLines, maxBytes) && Ring(b, history, maxLines, maxBytes)
    ensures a == b
  {
    assert Fits(history[|history| - |a|..], maxLines, maxBytes) && Fits(history[|history| - |b|..], maxLines, maxBytes);
  }

  lemma {:induction false} DropLast(lines: seq<Line>, n: nat, maxLines: nat, maxBytes: nat)
    requires n <= |lines| && Fits(lines, maxLines, maxBytes)
    ensures Fits(lines[..|lines| - n], maxLines, maxBytes)
  {
    if n == 0 {
      assert lines[..|lines|] == lines;
    } else {
      var shorter := lines[..|lines| - 1];
      assert lines == shorter + [lines[|lines| - 1]];
      TotalPlus(shorter, lines[|lines| - 1]);
      DropLast(shorter, n - 1, maxLines, maxBytes);
      assert shorter[..|shorter| - (n - 1)] == lines[..|lines| - n];
    }
  }

  /** A later window of the same history does not reach further back. */
  lemma RingAdvances(earlier: seq<Line>, later: seq<Line>, history: seq<Line>, n: nat, m: nat, maxLines: nat,
                     maxBytes: nat)
    requires n <= m <= |history|
    requires Ring(earlier, history[..n], maxLines, maxBytes) && Ring(later, history[..m], maxLines, maxBytes)
    ensures n - |earlier| <= m - |later|
  {
    var lo := m - |later|;
    if lo <= n {
      DropLast(history[..m][lo..], m - n, maxLines, maxBytes);
      assert history[..m][lo..][..n - lo] == history[..n][lo..];
      assert Fits(history[..n][lo..], maxLines, maxBytes);
    }
  }

  /** The newest line is always kept. */
  lemma RingKeepsNewest(kept: seq<Line>, history: seq<Line>, maxLines: nat, maxBytes: nat)
    requires Ring(kept, history, maxLines, maxBytes) && history != [] && maxLines >= 1
    requires Bytes(history[|history| - 1]) <= maxBytes
    ensures kept != []
  {
    var last := history[|history| - 1..];
    assert last == [history[|history| - 1]];
    assert Total(last) == Bytes(last[0]) + Total(last[1..]) && last[1..] == [];
    assert Fits(last, maxLines, maxBytes);
  }

  /** A line of a log message after sanitizing, and whether it names a calibration term. */
  datatype Received = Received(text: Line, relevant: bool)

  /** The lines of a message that the ring takes in, clipped to the byte limit. */
  function Accepted(message: seq<Received>, maxBytes: nat): seq<Line> {
    if message == [] then []
    else
      Accepted(message[..|message| - 1], maxBytes)
      + (var last := message[|message| - 1]; if last.text != [] && last.relevant then [Clip(last.text, maxBytes)]
        else [])
  }

  predicate Bounded(lines: seq<Line>, maxBytes: nat) { forall line :: line in lines ==> Bytes(line) <= maxBytes }

  lemma AcceptedStep(message: seq<Received>, i: nat, maxBytes: nat)
    requires i < |message|
    ensures Accepted(message[..i + 1], maxBytes) ==
            Accepted(message[..i], maxBytes)
            + if message[i].text != [] && message[i].relevant then [Clip(message[i].text, maxBytes)] else []
  {
    assert message[..i + 1][..i] == message[..i];
  }

  lemma NoneAccepted(maxBytes: nat)
    ensures Accepted([], maxBytes) == []
  {}

  /** What did not fit before one more line does not fit after it. */
  lemma Extended(kept: seq<Line>, history: seq<Line>, line: Line, maxLines: nat, maxBytes: nat)
    requires Ring(kept, history, maxLines, maxBytes)
    ensures Ending(kept + [line], history + [line], maxLines, maxBytes)
    ensures Total(kept + [line]) == Total(kept) + Bytes(line)
    ensures Bounded(history, maxBytes) && Bytes(line) <= maxBytes ==> Bounded(history + [line], maxBytes)
  {
    TotalPlus(kept, line);
    forall n | 0 <= n < |history| - |kept| ensures !Fits((history + [line])[n..], maxLines, maxBytes) {
      assert (history + [line])[n..] == history[n..] + [line];
      TotalPlus(history[n..], line);
    }
  }

  /** An end that does not fit loses its oldest line. */
  lemma Evicted(kept: seq<Line>, history: seq<Line>, maxLines: nat, maxBytes: nat)
    requires Ending(kept, history, maxLines, maxBytes) && (|kept| > maxLines || Total(kept) > maxBytes)
    ensures kept != [] && Ending(kept[1..], history, maxLines, maxBytes)
    ensures Total(kept[1..]) == Total(kept) - Bytes(kept[0])
  {
    hide Bytes;
    forall n | 0 <= n < |history| - |kept[1..]| ensures !Fits(history[n..], maxLines, maxBytes) {
      if n == |history| - |kept| { assert history[n..] == kept; }
    }
  }

  class LogLines {
    const maxLines: nat
    const maxBytes: nat
    var lines: seq<Line>
    var bytes: nat
    ghost var history: seq<Line>

    ghost predicate Valid()
      reads this
    {
      && maxLines >= 1 && maxBytes >= 1
      && bytes == Total(lines)
      && Ring(lines, history, maxLines, maxBytes)
      && Bounded(history, maxBytes)
    }

    constructor (maxLines: nat := 200, maxBytes: nat := 64 * 1024)
      requires maxLines >= 1 && maxBytes >= 1
      ensures Valid() && history == []
      ensures this.maxLines == maxLines && this.maxBytes == maxBytes
    {
      this.maxLines, this.maxBytes := maxLines, maxBytes;
      lines, bytes, history := [], 0, [];
    }

    /** Append the accepted lines of one message, evicting from the front. */
    method OnLog(message: seq<Received>)
      requires Valid()
      modifies this
      ensures Valid() && history == old(history) + Accepted(message, maxBytes)
    {
      hide *;
      var i := 0;
      NoneAccepted(maxBytes);
      while i < |message|
        invariant 0 <= i <= |message| && Valid()
        invariant history == old(history) + Accepted(message[..i], maxBytes)
      {
        AcceptedStep(message, i, maxBytes);
        if message[i].text != [] && message[i].relevant {
          Append(Clip(message[i].text, maxBytes));
        }
        i := i + 1;
      }
      assert message[..i] == message;
    }

    method Append(line: Line)
      requires Valid() && Bytes(line) <= maxBytes
      modifies this
      ensures Valid() && history == old(history) + [line]
    {
      hide Bytes, Total, Ending, Bounded;
      Extended(lines, history, line, maxLines, maxBytes);
      lines, bytes, history := lines + [line], bytes + Bytes(line), history + [line];
      while |lines| > maxLines || bytes > maxBytes
        invariant bytes == Total(lines) && history == old(history) + [line]
        invariant Ending(lines, history, maxLines, maxBytes)
        decreases |lines|
      {
        Evicted(lines, history, maxLines, maxBytes);
        lines, bytes := lines[1..], bytes - Bytes(lines[0]);
      }
    }
  }
}
