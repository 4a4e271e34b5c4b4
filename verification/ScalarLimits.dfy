/** Values that do not come back: concrete lines for each way in which a plain text is spoiled. */
module ScalarLimits {
  import opened Common
  import opened Scalars
  import opened ScalarRoundTrips
  import opened DocumentRows

  /** A plain text and what may follow it. */
  lemma PlainToken(text: string, cut: nat, end: nat)
    requires text != "" && Letter(text[0]) && 0 < end <= cut <= |text|
    requires cut < |text| ==> text[cut] == '#' && White(text[cut - 1])
    requires forall i :: 0 <= i < cut ==> text[i] != '#'
    requires (forall i :: end <= i < cut ==> text[i] == ' ') && text[end - 1] != ' '
    ensures Token(text) == Some((text[..end], end)) && Ignored(text[end..])
  {
    CutAt(text, cut);
    TrimAt(text[..cut], end);
    LeadIs(text[end..], cut - end);
    hide Cut, Trim, Lead;
  }

  /** One space, and a plain text up to a comment or the end. */
  lemma ParsePlain(raw: string, text: string, cut: nat, end: nat)
    requires raw == " " + text && text != "" && Letter(text[0]) && 0 < end <= cut <= |text|
    requires cut < |text| ==> text[cut] == '#' && White(text[cut - 1])
    requires forall i :: 0 <= i < cut ==> text[i] != '#'
    requires (forall i :: end <= i < cut ==> text[i] == ' ') && text[end - 1] != ' '
    ensures Parse(raw) == Result.Ok(Scalar(text[..end], 1, end + 1))
  {
    LeadIs(raw, 1);
    assert raw[1..] == text;
    PlainToken(text, cut, end);
    hide Token, Lead;
  }

  lemma PlainTitle(value: string, was: string)
    requires PlainName(value) && !Starts(was, '\'') && !Starts(was, '"')
    ensures Render(Title, value, was) == value
  {
    hide PlainName;
  }

  lemma {:induction false} LowerLength(s: string)
    ensures |Lower(s)| == |s| && (s != "" && 'A' <= s[0] <= 'Z' ==> Lower(s)[0] == (s[0] as int + 32) as char)
  {
    if s != "" { LowerLength(s[1..]); }
  }

  lemma Unreserved(value: string)
    requires value == "New " || value == "Nee"
    ensures PlainName(value)
  {
    LowerLength(value);
    LowerLength(value[1..]);
    assert value[1] == 'e' && Lower(value)[1..] == Lower(value[1..]);
    assert Lower(value)[1] == 'e';
  }

  /** A name that ends with a space loses it. */
  lemma SpaceLost()
    ensures Parse(" Old") == Result.Ok(Scalar("Old", 1, 4)) && Render(Title, "New ", "Old") == "New "
    ensures Rewritten(" Old", Scalar("Old", 1, 4), "New ") == " New "
        && Parse(" New ") == Result.Ok(Scalar("New", 1, 4))
  {
    hide Parse, Render;
    ParsePlain(" Old", "Old", 3, 3);
    ParsePlain(" New ", "New ", 4, 3);
    assert "New "[..3] == "New" && "Old"[..3] == "Old";
    Unreserved("New ");
    PlainTitle("New ", "Old");
  }

  lemma Swallowed()
    ensures Parse(" Nee#x") == Result.Ok(Scalar("Nee#x", 1, 6))
  {
    var text := "Nee#x";
    LeadIs(" Nee#x", 1);
    assert " Nee#x"[1..] == text;
    CutAt(text, 5);
    assert text[..5] == text;
    TrimAt(text, 5);
    LeadIs(text[5..], 0);
    hide Cut, Trim, Lead;
  }

  /** A name whose comment stands behind a tab swallows the comment: the tab is part of the old
      token and goes with it. */
  lemma CommentSwallowed()
    ensures Parse(" Old\t#x") == Result.Ok(Scalar("Old\t", 1, 5)) && Render(Title, "Nee", "Old\t") == "Nee"
    ensures Rewritten(" Old\t#x", Scalar("Old\t", 1, 5), "Nee") == " Nee#x"
        && Parse(" Nee#x") == Result.Ok(Scalar("Nee#x", 1, 6))
  {
    hide Parse, Render;
    ParsePlain(" Old\t#x", "Old\t#x", 4, 4);
    assert "Old\t#x"[..4] == "Old\t";
    Swallowed();
    Unreserved("Nee");
    PlainTitle("Nee", "Old\t");
  }

  lemma TabBehind(body: string)
    requires |body| > 2 && body[0] == 'a' && body[1] == ':' && body[2] == '\t'
    ensures KeyOf(body) == Key("a", 2)
  {
    LeadIs(body, 0);
    RunIs(body, 1);
    assert body[0..] == body;
    PadIs(body[1..], 0);
    assert body[..1] == "a" && !Control('a');
    hide Lead, Run, Pad;
  }

  lemma NothingBehind(body: string)
    requires |body| > 2 && body[0] == 'a' && body[1] == ':' && body[2] != '\t' && body[2] != ' '
    ensures KeyOf(body).NoKey?
  {
    LeadIs(body, 0);
    RunIs(body, 1);
    assert body[0..] == body;
    PadIs(body[1..], 0);
    hide Lead, Run, Pad;
  }

  /** A value behind a tab takes the tab along, and the colon with it. */
  lemma ColonGlued()
    ensures KeyOf("a:\tOld") == Key("a", 2)
    ensures KeyOf("a:Nee").NoKey?
  {
    hide KeyOf;
    TabBehind("a:\tOld");
    NothingBehind("a:Nee");
  }
}
