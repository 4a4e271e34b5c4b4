/** Several edits of one text, spliced in from right to left (`_apply_changes`). */
module Splicing {
  datatype Edit = Edit(start: nat, end: nat, text: string)

  predicate Within(e: Edit, n: nat) { e.start <= e.end <= n }

  predicate Apart(a: Edit, b: Edit) {
    (a.end <= b.start && a.start < b.start) || (b.end <= a.start && b.start < a.start)
  }

  /** Edits of one text that do not overlap or begin at one place, in any order. */
  predicate Separate(edits: seq<Edit>, n: nat) {
    && (forall i :: 0 <= i < |edits| ==> Within(edits[i], n))
    && forall i, j :: 0 <= i < j < |edits| ==> Apart(edits[i], edits[j])
  }

  predicate Ascending(edits: seq<Edit>, from: nat, n: nat) {
    if edits == [] then from <= n
    else from <= edits[0].start && Within(edits[0], n) && Ascending(edits[1..], edits[0].end, n)
  }

  function Place(e: Edit, sorted: seq<Edit>): seq<Edit> {
    if sorted == [] || e.start <= sorted[0].start then [e] + sorted else [sorted[0]] + Place(e, sorted[1..])
  }

  function Sorted(edits: seq<Edit>): seq<Edit> {
    if edits == [] then [] else Place(edits[0], Sorted(edits[1..]))
  }

  lemma {:induction false} PlaceMulti(e: Edit, sorted: seq<Edit>)
    ensures multiset(Place(e, sorted)) == multiset(sorted) + multiset{e}
  {
    if sorted != [] && e.start > sorted[0].start {
      PlaceMulti(e, sorted[1..]);
      assert sorted == [sorted[0]] + sorted[1..];
    }
  }

  lemma AscendingFront(e: Edit, rest: seq<Edit>, from: nat, n: nat)
    requires from <= e.start && Within(e, n) && Ascending(rest, e.end, n)
    ensures Ascending([e] + rest, from, n)
  {
    assert ([e] + rest)[1..] == rest;
  }

  lemma AscendingParts(edits: seq<Edit>, from: nat, n: nat)
    requires Ascending(edits, from, n) && edits != []
    ensures from <= edits[0].start && Within(edits[0], n) && Ascending(edits[1..], edits[0].end, n)
    ensures forall low: nat :: low <= edits[0].start ==> Ascending(edits, low, n)
  {}

  lemma AscendingNone(from: nat, n: nat)
    requires from <= n
    ensures Ascending([], from, n)
  {}

  lemma ApartOrder(a: Edit, b: Edit)
    requires Apart(a, b) && a.start <= a.end && b.start <= b.end
    ensures if a.start <= b.start then a.end <= b.start else b.end <= a.start
  {}

  lemma {:induction false} PlaceAscends(e: Edit, sorted: seq<Edit>, from: nat, n: nat)
    requires Ascending(sorted, from, n) && Within(e, n) && from <= e.start && forall x :: x in sorted ==> Apart(e, x)
    ensures Ascending(Place(e, sorted), from, n)
  {
    hide Apart, Ascending;
    if sorted == [] {
      AscendingNone(e.end, n);
      AscendingFront(e, sorted, from, n);
    } else {
      var first, rest := sorted[0], sorted[1..];
      AscendingParts(sorted, from, n);
      ApartOrder(e, first);
      if e.start <= first.start { AscendingFront(e, sorted, from, n); }
      else {
        PlaceAscends(e, rest, first.end, n);
        AscendingFront(first, Place(e, rest), from, n);
      }
    }
  }

  lemma ApartSorted(edits: seq<Edit>, sorted: seq<Edit>, n: nat)
    requires Separate(edits, n) && edits != [] && multiset(sorted) == multiset(edits[1..])
    ensures Within(edits[0], n) && forall x :: x in sorted ==> Apart(edits[0], x)
  {
    forall x | x in sorted ensures Apart(edits[0], x) {
      assert x in multiset(edits[1..]);
    }
  }

  /** Sorting puts separate edits in ascending order and loses none. */
  lemma {:induction false} SortedKeeps(edits: seq<Edit>, n: nat)
    requires Separate(edits, n)
    ensures Ascending(Sorted(edits), 0, n) && multiset(Sorted(edits)) == multiset(edits)
  {
    if edits != [] {
      var rest := edits[1..];
      SortedKeeps(rest, n);
      ApartSorted(edits, Sorted(rest), n);
      hide Ascending, Separate, Place;
      assert edits == [edits[0]] + rest;
      PlaceAscends(edits[0], Sorted(rest), 0, n);
      PlaceMulti(edits[0], Sorted(rest));
    }
  }

  function Spliced(content: string, e: Edit): string
    requires e.start <= e.end <= |content|
  {
    content[..e.start] + e.text + content[e.end..]
  }

  /** Simultaneous replacement: the text from a position on, each edited span exchanged for its
      replacement and every gap as it is. */
  function Woven(content: string, edits: seq<Edit>, from: nat): string
    requires Ascending(edits, from, |content|)
    decreases |edits|
  {
    if edits == [] then content[from..]
    else content[from..edits[0].start] + edits[0].text + Woven(content, edits[1..], edits[0].end)
  }

  lemma Associate(a: string, b: string, c: string)
    ensures a + b + c == a + (b + c)
  {}

  /** One more edit to the left of those already spliced in. */
  lemma WovenLeft(content: string, edits: seq<Edit>, from: nat, result: string)
    requires Ascending(edits, from, |content|) && edits != []
    requires result == content[..edits[0].end] + Woven(content, edits[1..], edits[0].end)
    ensures edits[0].start <= edits[0].end <= |result|
    ensures Spliced(result, edits[0]) == content[..from] + Woven(content, edits, from)
  {
    var e, tail := edits[0], Woven(content, edits[1..], edits[0].end);
    hide Woven, Ascending;
    assert result[e.end..] == tail && result[..e.start] == content[..e.start];
    assert content[..e.start] == content[..from] + content[from..e.start];
    Associate(content[..from], content[from..e.start], e.text + tail);
    Associate(content[from..e.start], e.text, tail);
    Associate(content[..e.start], e.text, tail);
  }

  /** Where the untouched text before the edits from `i` on begins to be certain. */
  function Bound(edits: seq<Edit>, i: nat): nat
    requires i <= |edits|
  {
    if i == 0 then 0 else edits[i - 1].end
  }

  lemma {:induction false} AscendingTail(edits: seq<Edit>, from: nat, n: nat, i: nat)
    requires Ascending(edits, from, n) && 0 < i <= |edits|
    ensures Ascending(edits[i..], edits[i - 1].end, n)
    decreases i
  {
    if i == 1 {
    } else {
      AscendingTail(edits[1..], edits[0].end, n, i - 1);
      assert edits[1..][i - 1..] == edits[i..];
    }
  }

  lemma {:induction false} Below(edits: seq<Edit>, from: nat, n: nat)
    requires Ascending(edits, from, n)
    ensures from <= n
  {}

  lemma Tails(edits: seq<Edit>, n: nat, i: nat)
    requires Ascending(edits, 0, n) && i <= |edits|
    ensures Ascending(edits[i..], Bound(edits, i), n) && Bound(edits, i) <= n
  {
    if i == 0 { assert edits[0..] == edits; } else { AscendingTail(edits, 0, n, i); }
    Below(edits[i..], Bound(edits, i), n);
  }

  /** What the text is when the edits from `i` on are spliced in. */
  predicate Partly(content: string, edits: seq<Edit>, i: nat, result: string)
    requires i <= |edits|
  {
    && Ascending(edits[i..], Bound(edits, i), |content|) && Bound(edits, i) <= |content|
    && result == content[..Bound(edits, i)] + Woven(content, edits[i..], Bound(edits, i))
  }

  lemma PartlyStep(content: string, edits: seq<Edit>, i: nat, result: string)
    requires Ascending(edits, 0, |content|) && 0 < i <= |edits| && Partly(content, edits, i, result)
    ensures edits[i - 1].start <= edits[i - 1].end <= |result|
        && Partly(content, edits, i - 1, Spliced(result, edits[i - 1]))
  {
    Tails(edits, |content|, i - 1);
    var rest := edits[i - 1..];
    assert rest[1..] == edits[i..] && rest[0] == edits[i - 1];
    hide Ascending, Woven;
    WovenLeft(content, rest, Bound(edits, i - 1), result);
  }

  lemma NothingWoven(content: string, edits: seq<Edit>)
    requires Ascending(edits, 0, |content|)
    ensures Partly(content, edits, |edits|, content)
  {
    Tails(edits, |content|, |edits|);
    assert edits[|edits|..] == [];
    hide Ascending;
    var n := Bound(edits, |edits|);
    assert content == content[..n] + content[n..];
  }

  /** Splicing from right to left is simultaneous replacement. */
  method Splice(content: string, edits: seq<Edit>) returns (result: string)
    requires Separate(edits, |content|)
    ensures Ascending(Sorted(edits), 0, |content|) && multiset(Sorted(edits)) == multiset(edits)
    ensures result == Woven(content, Sorted(edits), 0)
  {
    hide Separate, Ascending, Sorted, Woven;
    SortedKeeps(edits, |content|);
    var order := Sorted(edits);
    var i := |order|;
    result := content;
    Tails(order, |content|, i);
    NothingWoven(content, order);
    while i > 0
      invariant 0 <= i <= |order| && Partly(content, order, i, result)
    {
      i := i - 1;
      PartlyStep(content, order, i + 1, result);
      result := result[..order[i].start] + order[i].text + result[order[i].end..];
    }
    assert order[0..] == order && content[..0] + Woven(content, order, 0) == Woven(content, order, 0);
  }

  /** A replacement or a gap of the text stands at some place of the result. */
  predicate Shows(woven: string, at: nat, part: string) { at + |part| <= |woven| && woven[at..at + |part|] == part }

  /** Where the next edit begins. */
  function Next(content: string, edits: seq<Edit>, i: nat): nat { if i < |edits| then edits[i].start else |content| }

  /** An edit's replacement and the gap behind it, at a place of the result. */
  predicate Kept(content: string, edits: seq<Edit>, i: nat, woven: string, at: nat) {
    && i < |edits| && edits[i].end <= Next(content, edits, i + 1) <= |content|
    && Shows(woven, at, edits[i].text)
    && Shows(woven, at + |edits[i].text|, content[edits[i].end..Next(content, edits, i + 1)])
  }

  lemma FirstGap(content: string, edits: seq<Edit>, from: nat)
    requires Ascending(edits, from, |content|)
    ensures from <= Next(content, edits, 0) <= |content|
    ensures Shows(Woven(content, edits, from), 0, content[from..Next(content, edits, 0)])
  {
    if edits != [] {
      Associate(content[from..edits[0].start], edits[0].text, Woven(content, edits[1..], edits[0].end));
    }
  }

  lemma ShowsLeft(a: string, part: string, b: string)
    ensures Shows(a + part + b, |a|, part)
  {}

  lemma ShowsRight(front: string, rest: string, at: nat, part: string)
    requires Shows(rest, at, part)
    ensures Shows(front + rest, |front| + at, part)
  {
    assert (front + rest)[|front| + at..|front| + at + |part|] == rest[at..at + |part|];
  }

  lemma FirstKept(content: string, edits: seq<Edit>, from: nat)
    requires Ascending(edits, from, |content|) && edits != []
    ensures Kept(content, edits, 0, Woven(content, edits, from), edits[0].start - from)
  {
    var e, rest := edits[0], Woven(content, edits[1..], edits[0].end);
    var front := content[from..e.start] + e.text;
    FirstGap(content, edits[1..], e.end);
    assert Next(content, edits[1..], 0) == Next(content, edits, 1);
    hide Ascending, Shows;
    ShowsLeft(content[from..e.start], e.text, rest);
    ShowsRight(front, rest, 0, content[e.end..Next(content, edits, 1)]);
  }

  lemma KeptRight(content: string, edits: seq<Edit>, i: nat, front: string, rest: string, b: nat)
    requires 0 < i < |edits| && Kept(content, edits[1..], i - 1, rest, b)
    ensures Kept(content, edits, i, front + rest, |front| + b)
  {
    assert edits[1..][i - 1] == edits[i] && Next(content, edits[1..], i) == Next(content, edits, i + 1);
    hide Shows, Next;
    ShowsRight(front, rest, b, edits[i].text);
    ShowsRight(front, rest, b + |edits[i].text|, content[edits[i].end..Next(content, edits, i + 1)]);
  }

  /** Every replacement and every gap between the edits is in the result, one behind the other. */
  lemma {:induction false} WovenGaps(content: string, edits: seq<Edit>, from: nat, i: nat) returns (at: nat)
    requires Ascending(edits, from, |content|) && i < |edits|
    ensures Kept(content, edits, i, Woven(content, edits, from), at)
    decreases |edits|
  {
    var e, rest := edits[0], Woven(content, edits[1..], edits[0].end);
    var front := content[from..e.start] + e.text;
    assert Woven(content, edits, from) == front + rest;
    if i == 0 {
      at := e.start - from;
      FirstKept(content, edits, from);
    } else {
      var b := WovenGaps(content, edits[1..], e.end, i - 1);
      at := |front| + b;
      hide Woven, Ascending;
      KeptRight(content, edits, i, front, rest, b);
    }
  }
}
