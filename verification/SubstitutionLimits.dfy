/** A file in which new substitutions go unread. */
module SubstitutionLimits {
  import opened Common
  import opened Scalars
  import opened ScalarRoundTrips
  import opened DocumentRows
  import opened Substitutions
  import opened SubstitutionEdits
  import opened SubstitutionInserts
  import opened SubstitutionChanges

  lemma {:induction false} WordsDecode(key: string)
    requires forall i :: 0 <= i < |key| ==> Word(key[i])
    ensures Decode(key) == Some(key) && Escaped(key)
  {
    if key != "" {
      WordsDecode(key[1..]);
      assert key == [key[0]] + key[1..];
    }
  }

  lemma QuotedEnd(key: string)
    requires Plainly(key)
    ensures var s := "\"" + key + "\":";
            DoubleEnd(s, 1, false) == Some(|key| + 2) && s[1..|key| + 1] == key && s[|key| + 2..] == ":"
  {
    var s := "\"" + key + "\":";
    WordsDecode(key);
    assert s == ("\"" + key + "\"") + ":" && s == ("\"" + key) + "\":";
    assert s[1..|key| + 1] == key && s[|key| + 1] == '"';
    DoubleEndFound(s, 1, |key| + 1);
  }

  lemma QuotedDecodes(key: string)
    requires Plainly(key)
    ensures Decode(key) == Some(key)
  {
    WordsDecode(key);
  }

  /** A key in double quotes, with nothing behind its colon. */
  lemma QuotedKeyRow(key: string)
    requires Plainly(key)
    ensures var s := "\"" + key + "\":"; KeyOf(s) == Key(key, |key| + 3) && Lead(s) == 0
  {
    var s := "\"" + key + "\":";
    hide DoubleEnd, Decode, Pad, Control, Plainly, Lead, KeyOf, Escaped;
    QuotedEnd(key);
    WordFirst(key);
    QuotedDecodes(key);
    LeadIs(s, 0);
    assert s[0..] == s;
    PadIs(s[|key| + 2..], 0);
    KeyBuild(s, 0, |key| + 2, |key| + 2, key);
  }

  lemma KeyedText(body: string, margin: nat, key: string, token: string)
    requires Plainly(key) && body == Spaces(margin) + key + ": " + token
    ensures KeyOf(body) == Key(key, margin + |key| + 1) && Lead(body) == margin && !Skipped(body)
  {
    hide KeyOf, Plainly, Spaces, Skipped, KeyToken, Pad, Control, Lead;
    KeyParts(margin, key, token);
    KeyBuild(body, margin, |key|, margin + |key|, key);
    KeyedRow(body);
  }

  lemma TwoSpaces()
    ensures Spaces(2) == "  "
  {
    assert Spaces(1) == " ";
  }

  lemma RootRow()
    ensures KeyOf("\"esphome\":") == Key("esphome", 10) && Lead("\"esphome\":") == 0 && !Skipped("\"esphome\":")
  {
    hide KeyOf, Lead, Skipped;
    assert "\"esphome\":" == "\"" + "esphome" + "\":";
    QuotedKeyRow("esphome");
    KeyedRow("\"esphome\":");
  }

  lemma ChildRow(body: string, key: string, token: string)
    requires Plainly(key) && body == "  " + key + ": " + token
    ensures KeyOf(body) == Key(key, |key| + 3) && Lead(body) == 2 && !Skipped(body)
  {
    hide *;
    TwoSpaces();
    KeyedText(body, 2, key, token);
  }

  lemma SectionRow()
    ensures KeyOf("substitutions:") == Key("substitutions", 14) && Heads("substitutions:")
  {
    hide KeyOf, Lead;
    PlainKeyRow("substitutions");
    assert "substitutions:" == "substitutions" + ":";
  }

  /** What the reader finds in the four rows. */
  lemma QuotedKeys()
    ensures KeyOf(QUOTED[0].body) == Key("substitutions", 14) && Heads(QUOTED[0].body)
    ensures KeyOf(QUOTED[1].body) == Key("ct1_name", 11) && Lead(QUOTED[1].body) == 2 && !Skipped(QUOTED[1].body)
    ensures KeyOf(QUOTED[2].body) == Key("esphome", 10) && Lead(QUOTED[2].body) == 0 && !Skipped(QUOTED[2].body)
    ensures KeyOf(QUOTED[3].body) == Key("name", 7) && Lead(QUOTED[3].body) == 2
  {
    hide KeyOf, Lead, Skipped, Heads;
    SectionRow();
    ChildRow("  ct1_name: a", "ct1_name", "a");
    RootRow();
    ChildRow("  name: x", "name", "x");
  }

  lemma NothingSkipped()
    ensures Skipped("")
  {}

  lemma NotHeading()
    ensures !Heads(QUOTED[1].body) && !Heads(QUOTED[2].body) && !Heads(QUOTED[3].body)
  {
    hide KeyOf, Lead, Skipped;
    QuotedKeys();
  }

  lemma SearchStops()
    ensures Head(QUOTED, 4) == 4 && ChildIndent(QUOTED, 2, 2) == None
  {}

  lemma RestNothing()
    ensures KeyOf(QUOTED[0].body).Key? && Rest(QUOTED[0].body) == ""
  {
    hide KeyOf, Lead, Skipped;
    QuotedKeys();
  }

  lemma CollectOther(key: string)
    requires key != "ct1_name"
    ensures Collect(QUOTED, 1, 2, Some(2), {key}) == Result.Ok(map[])
  {
    hide KeyOf, Lead, Skipped, Rest;
    QuotedKeys();
    assert Collect(QUOTED, 1, 1, Some(2), {key}) == Result.Ok(map[]);
  }

  /** The section of that file, for a reader that knows only another key. */
  lemma QuotedReads(key: string)
    requires key != "ct1_name"
    ensures Head(QUOTED, 0) == 0 && Read(QUOTED, {key}) == Result.Ok(map[])
  {
    hide KeyOf, Lead, Skipped, Heads, Head, SectionEnd, ChildIndent, Rest, TopLine, HeadLine, FirstHead, TopEnd;
    QuotedKeys();
    NotHeading();
    OneStep(QUOTED, 0); OneStep(QUOTED, 1); OneStep(QUOTED, 2); OneStep(QUOTED, 3);
    OneChild(QUOTED, 1, 2);
    SearchStops();
    NothingSkipped();
    RestNothing();
    CollectOther(key);
    ReadBuilds(QUOTED, {key}, 1, 2, Some(2));
  }

  lemma AddingOne(c: Change)
    requires Addable(c)
    ensures Adding(map[], [c], {c.key})
  {
    hide Addable;
  }

  lemma InsertedLast(c: Change, newline: string, quote: string)
    ensures Inserted(QUOTED, Block(4, 2), [c], newline, quote) == QUOTED + [Row(NewBody(2, c, quote), newline)]
  {
    hide NewBody;
    assert QUOTED[..4] == QUOTED && QUOTED[4..] == [];
    assert NewRows([c], 2, newline, quote) == [Row(NewBody(2, c, quote), newline)];
  }

  lemma UntoldOne(c: Change, after: seq<Row>)
    requires Read(after, {c.key}) == Result.Ok(map[])
    ensures !TellsAll(QUOTED, after, {c.key}, [], [c], 4)
  {
    hide Read;
    assert [c][0].key == c.key;
  }

  /** Whatever new key is inserted into that file stands under the quoted root key, and the
      reader does not find it. */
  lemma QuotedKeyUnread(c: Change, newline: string, quote: string)
    requires Addable(c) && c.key != "ct1_name"
    ensures Read(QUOTED, {c.key}) == Result.Ok(map[]) && Adding(map[], [c], {c.key})
    ensures BlockOf(QUOTED) == Some(Block(4, 2))
    ensures var after := Inserted(QUOTED, Block(4, 2), [c], newline, quote);
            && after == QUOTED + [Row(NewBody(2, c, quote), newline)]
            && Read(after, {c.key}) == Result.Ok(map[])
            && !TellsAll(QUOTED, after, {c.key}, [], [c], 4)
  {
    hide *;
    QuotedReads(c.key);
    QuotedKeyMissed();
    AddingOne(c);
    InsertedUnread(QUOTED, {c.key}, [c], quote, newline, Block(4, 2));
    InsertedLast(c, newline, quote);
    UntoldOne(c, Inserted(QUOTED, Block(4, 2), [c], newline, quote));
  }
}
