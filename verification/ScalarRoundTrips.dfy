/** Reading one value from its line, writing one over the old token, and when the two agree. */
module ScalarRoundTrips {
  import opened Common
  import opened Scalars

  // ----------------------------------------------------------------------- reading

  /** The first `#` behind white space, or the end. */
  function Cut(text: string, position: nat): (cut: nat)
    requires position <= |text|
    ensures position <= cut <= |text|
    ensures forall i :: position <= i < cut ==> !(text[i] == '#' && i > 0 && White(text[i - 1]))
    ensures cut < |text| ==> text[cut] == '#' && cut > 0 && White(text[cut - 1])
    decreases |text| - position
  {
    if position == |text| || (text[position] == '#' && position > 0 && White(text[position - 1])) then position
    else Cut(text, position + 1)
  }

  method PlainEnd(text: string) returns (end: nat)
    requires text != ""
    ensures end == Trim(text[..Cut(text, 0)])
  {
    end := |text|;
    var position := 0;
    while position < |text|
      invariant position <= |text| && end == |text| && Cut(text, 0) == Cut(text, position)
    {
      if text[position] == '#' && position > 0 && White(text[position - 1]) {
        end := position;
        break;
      }
      position := position + 1;
    }
    end := Trim(text[..end]);
  }

  /** A value, and the columns of the token that spells it. */
  datatype Scalar = Scalar(value: string, start: nat, end: nat)

  /** The value that a text starts with, and where its token ends. */
  function Token(text: string): (found: Option<(string, nat)>)
    requires text != ""
    ensures found.Some? ==> 0 < found.value.1 <= |text|
  {
    if text[0] == '\'' then
      var end := SingleEnd(text, 1);
      if end.None? then None
      else
        SingleEndCloses(text, 1);
        Some((Undouble(text[1..end.value - 1]), end.value))
    else if text[0] == '"' then
      var end := DoubleEnd(text, 1, false);
      if end.None? then None
      else
        DoubleEndCloses(text, 1);
        var value := Decode(text[1..end.value - 1]);
        if value.None? then None else Some((value.value, end.value))
    else
      var end := Trim(text[..Cut(text, 0)]);
      if end == 0 then None else Some((text[..end], end))
  }

  /** Only a comment may follow a token. */
  predicate Ignored(tail: string) { Lead(tail) == |tail| || tail[Lead(tail)] == '#' }

  /** The token of a text without leading spaces. */
  function FirstToken(text: string): (found: Option<(string, nat)>)
    ensures found.Some? ==> 0 < found.value.1 <= |text| && Ignored(text[found.value.1..])
  {
    if text == "" || text[0] == '#' || text[0] in "!&*|>[{" then None
    else
      var found := Token(text);
      if found.None? || !Ignored(text[found.value.1..]) then None else found
  }

  /** `_scalar_parts`, for what follows a key. */
  function Parse(raw: string): (scalar: Result<Scalar>)
    ensures scalar.Ok? ==> Lead(raw) == scalar.value.start < scalar.value.end <= |raw|
  {
    var n, found := Lead(raw), FirstToken(raw[Lead(raw)..]);
    if found.None? then Refusal else Result.Ok(Scalar(found.value.0, n, n + found.value.1))
  }

  // ----------------------------------------------------------------------- writing

  datatype Kind = Gain | Flag | Frequency | Title

  predicate Letter(c: char) { 'a' <= c <= 'z' || 'A' <= c <= 'Z' || '0' <= c <= '9' }

  predicate Bare(value: string) { value != "" && forall i :: 0 <= i < |value| ==> Letter(value[i]) }

  function Lower(s: string): string {
    if s == "" then ""
    else [if 'A' <= s[0] <= 'Z' then (s[0] as int + 32) as char else s[0]] + Lower(s[1..])
  }

  const RESERVED := ["null", "true", "false", "yes", "no", "on", "off", "~"]

  /** `_plain_yaml_name`. */
  predicate PlainName(value: string) {
    && value != "" && Letter(value[0])
    && (forall i :: 0 <= i < |value| ==> Letter(value[i]) || value[i] in " ._/-")
    && Lower(value) !in RESERVED
  }

  predicate Starts(s: string, c: char) { s != "" && s[0] == c }

  function Quoted(value: string): string { "'" + Double(value) + "'" }

  function Json(value: string, ascii: bool): string { "\"" + Encode(value, ascii) + "\"" }

  /** `_render_value`: the old token decides on the quotes. */
  function Render(kind: Kind, value: string, was: string): string {
    match kind
    case Frequency => if Starts(was, '\'') then Quoted(value) else Json(value, true)
    case Title =>
      if Starts(was, '\'') then Quoted(value)
      else if Starts(was, '"') || !PlainName(value) then Json(value, false)
      else value
    case _ =>
      if Starts(was, '\'') then "'" + value + "'"
      else if Starts(was, '"') then Json(value, true)
      else value
  }

  /** Gains are numerals and flags are `true`; frequencies and names are arbitrary text. */
  predicate Writable(kind: Kind, value: string) { kind.Gain? || kind.Flag? ==> Bare(value) }

  predicate WritesPlain(kind: Kind, value: string, was: string) {
    && !Starts(was, '\'') && !Starts(was, '"')
    && match kind { case Frequency => false case Title => PlainName(value) case _ => true }
  }

  /** The value loses its final space, or swallows a comment that only a tab held off. */
  predicate Spoiled(kind: Kind, value: string, was: string, tail: string) {
    value != "" && WritesPlain(kind, value, was) && (value[|value| - 1] == ' ' || Starts(tail, '#'))
  }

  function Rewritten(raw: string, s: Scalar, token: string): string
    requires s.start <= s.end <= |raw|
  {
    raw[..s.start] + token + raw[s.end..]
  }

  // ------------------------------------------------------------------ round trips

  lemma {:induction false} LeadBefore(n: nat, raw: string, text: string)
    requires n <= |raw| && (forall i :: 0 <= i < n ==> raw[i] == ' ') && text != "" && text[0] != ' '
    ensures Lead(raw[..n] + text) == n && (raw[..n] + text)[n..] == text
  {
    if n == 0 {
      assert raw[..0] + text == text;
    } else {
      LeadBefore(n - 1, raw[1..], text);
      assert (raw[..n] + text)[1..] == raw[1..][..n - 1] + text;
    }
  }

  lemma Tail(raw: string, s: Scalar)
    requires Parse(raw) == Result.Ok(s)
    ensures Ignored(raw[s.end..])
  {
    hide FirstToken, Ignored;
    assert raw[Lead(raw)..][s.end - s.start..] == raw[s.end..];
  }

  /** Another token in the place of the old one: reading the line is reading the token. */
  lemma ParseAt(raw: string, s: Scalar, token: string)
    requires Parse(raw) == Result.Ok(s) && token != "" && token[0] != ' '
    ensures var found := FirstToken(token + raw[s.end..]);
            Parse(Rewritten(raw, s, token)) ==
            if found.None? then Refusal else Result.Ok(Scalar(found.value.0, s.start, s.start + found.value.1))
  {
    hide FirstToken, Ignored, Lead;
    LeadBefore(s.start, raw, token + raw[s.end..]);
    assert Rewritten(raw, s, token) == raw[..s.start] + (token + raw[s.end..]);
  }

  lemma QuotedReads(value: string, tail: string)
    requires Ignored(tail)
    ensures Token(Quoted(value) + tail) == Some((value, |Quoted(value)|))
  {
    var text, n := Quoted(value) + tail, |Double(value)|;
    DoubleUndoes(value);
    assert text[1..n + 1] == Double(value);
    assert Closes(text, 1, n + 1);
    SingleEndFound(text, 1, n + 1);
  }

  lemma JsonReads(value: string, ascii: bool, tail: string)
    ensures Token(Json(value, ascii) + tail) == Some((value, |Json(value, ascii)|))
  {
    var text, n := Json(value, ascii) + tail, |Encode(value, ascii)|;
    EncodeEscaped(value, ascii);
    DecodeUndoesEncode(value, ascii);
    assert text[1..n + 1] == Encode(value, ascii);
    assert Ends(text, 1, n + 1);
    DoubleEndFound(text, 1, n + 1);
  }

  lemma {:induction false} BareDoubles(value: string)
    requires forall i :: 0 <= i < |value| ==> value[i] != '\''
    ensures Double(value) == value
  {
    if value != "" {
      BareDoubles(value[1..]);
      assert value == [value[0]] + value[1..];
    }
  }

  /** An ordinary first character, and no white space but spaces. */
  predicate Sturdy(value: string) {
    && value != "" && Letter(value[0])
    && forall i :: 0 <= i < |value| ==> value[i] != '#' && (White(value[i]) ==> value[i] == ' ')
  }

  lemma CutAt(text: string, n: nat)
    requires n <= |text| && (n < |text| ==> text[n] == '#' && n > 0 && White(text[n - 1]))
    requires forall i :: 0 <= i < n ==> !(text[i] == '#' && i > 0 && White(text[i - 1]))
    ensures Cut(text, 0) == n
  {}

  lemma TrimAt(s: string, n: nat)
    requires n <= |s| && (forall i :: n <= i < |s| ==> s[i] == ' ') && (n > 0 ==> s[n - 1] != ' ')
    ensures Trim(s) == n
  {}

  /** Where a plain text ends when only spaces keep a comment off. */
  lemma SpacedEnd(value: string, tail: string)
    requires Sturdy(value) && Ignored(tail) && !Starts(tail, '#')
    ensures var text := value + tail; Trim(text[..Cut(text, 0)]) == Trim(value)
  {
    var text, n, spaces := value + tail, |value|, Lead(tail);
    forall i | 0 <= i < n ensures text[i] != '#' { assert text[i] == value[i]; }
    forall i | n <= i < n + spaces ensures text[i] == ' ' { assert text[i] == tail[i - n]; }
    if spaces < |tail| { assert text[n + spaces] == tail[spaces] && spaces > 0 && text[n + spaces - 1] == ' '; }
    CutAt(text, n + spaces);
    var front, m := text[..n + spaces], Trim(value);
    forall i | m <= i < |front| ensures front[i] == ' ' { if i < n { assert front[i] == value[i]; } }
    assert m > 0 ==> front[m - 1] == value[m - 1];
    hide Cut, Trim;
    TrimAt(front, m);
  }

  /** A comment that touches the text becomes part of it, or takes its last space away. */
  lemma TouchedEnd(value: string, tail: string)
    requires Sturdy(value) && Starts(tail, '#')
    ensures var text := value + tail; Trim(text[..Cut(text, 0)]) != |value|
  {
    var text, n := value + tail, |value|;
    forall i | 0 <= i < n ensures text[i] == value[i] {}
    assert text[n] == '#';
    var cut := Cut(text, 0);
    if cut > n { assert text[..cut][n] == '#'; } else { assert text[..cut][n - 1] == ' '; }
  }

  lemma TrimWhole(value: string)
    requires value != ""
    ensures Trim(value) == |value| <==> value[|value| - 1] != ' '
  {}

  /** A plain text with something ignorable behind it reads back, exactly unless it ends with a
      space or the comment touches it. */
  lemma PlainReads(value: string, tail: string)
    requires Sturdy(value) && Ignored(tail)
    ensures Token(value + tail) == Some((value, |value|)) <==> value[|value| - 1] != ' ' && !Starts(tail, '#')
  {
    var text := value + tail;
    assert text[..|value|] == value && text[0] == value[0];
    hide Cut, Trim, Ignored;
    if Starts(tail, '#') { TouchedEnd(value, tail); } else { SpacedEnd(value, tail); TrimWhole(value); }
  }

  lemma PlainSturdy(kind: Kind, value: string, was: string)
    requires Writable(kind, value) && WritesPlain(kind, value, was)
    ensures Sturdy(value)
  {}

  lemma TokenStart(kind: Kind, value: string, was: string)
    requires Writable(kind, value)
    ensures var token := Render(kind, value, was); token != "" && token[0] !in " \t#!&*|>[{"
  {}

  lemma TokenReads(kind: Kind, value: string, was: string, tail: string)
    requires Writable(kind, value) && Ignored(tail)
    ensures var token := Render(kind, value, was);
            FirstToken(token + tail) == Some((value, |token|)) <==> !Spoiled(kind, value, was, tail)
  {
    var token := Render(kind, value, was);
    TokenStart(kind, value, was);
    assert (token + tail)[|token|..] == tail;
    hide Token, Ignored, PlainName;
    if WritesPlain(kind, value, was) {
      PlainSturdy(kind, value, was);
      PlainReads(value, tail);
    } else if Starts(was, '\'') {
      if kind.Gain? || kind.Flag? { BareDoubles(value); }
      QuotedReads(value, tail);
    } else {
      JsonReads(value, !kind.Title?, tail);
    }
  }

  /** Reading back what was written gives the written value and the columns of its token,
      exactly unless the value is spoiled. */
  lemma ReadBack(raw: string, s: Scalar, kind: Kind, value: string)
    requires Parse(raw) == Result.Ok(s) && Writable(kind, value)
    ensures var was := raw[s.start..s.end];
            var token := Render(kind, value, was);
            Parse(Rewritten(raw, s, token)) == Result.Ok(Scalar(value, s.start, s.start + |token|))
            <==> !Spoiled(kind, value, was, raw[s.end..])
  {
    hide *;
    var was, tail := raw[s.start..s.end], raw[s.end..];
    var token := Render(kind, value, was);
    Tail(raw, s);
    TokenStart(kind, value, was);
    ParseAt(raw, s, token);
    TokenReads(kind, value, was, tail);
  }

  lemma PlainLength(value: string, tail: string)
    requires Sturdy(value)
    ensures var found := FirstToken(value + tail);
            found.Some? ==> found == Token(value + tail) && |found.value.0| == found.value.1
  {
    assert (value + tail)[0] == value[0];
    hide Cut, Trim, Ignored;
  }

  lemma TokenTells(kind: Kind, value: string, was: string, tail: string)
    requires Writable(kind, value) && Ignored(tail)
    ensures var found := FirstToken(Render(kind, value, was) + tail);
            found.Some? && found.value.0 == value ==> !Spoiled(kind, value, was, tail)
  {
    hide Token, FirstToken, Ignored, PlainName, Sturdy;
    if WritesPlain(kind, value, was) {
      PlainSturdy(kind, value, was);
      PlainReads(value, tail);
      PlainLength(value, tail);
    }
  }

  /** If any value at all is read back, it is the written one only if that was not spoiled. */
  lemma ValueTells(raw: string, s: Scalar, kind: Kind, value: string)
    requires Parse(raw) == Result.Ok(s) && Writable(kind, value)
    ensures var was := raw[s.start..s.end];
            var read := Parse(Rewritten(raw, s, Render(kind, value, was)));
            read.Ok? && read.value.value == value ==> !Spoiled(kind, value, was, raw[s.end..])
  {
    hide *;
    var was, tail := raw[s.start..s.end], raw[s.end..];
    Tail(raw, s);
    TokenStart(kind, value, was);
    ParseAt(raw, s, Render(kind, value, was));
    TokenTells(kind, value, was, tail);
  }
}
