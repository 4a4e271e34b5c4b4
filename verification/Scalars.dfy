/** One substitution value on its line: the scanners of the parser (`_scalar_parts`) and the
    printers of the editor (`_render_value`), character by character. */
module Scalars {
  import opened Common

  /** Where `str.splitlines` ends a line. */
  predicate Break(c: char) {
    var n := c as int; 10 <= n <= 13 || 28 <= n <= 30 || n == 0x85 || n == 0x2028 || n == 0x2029
  }

  /** `str.isspace`. */
  predicate White(c: char) {
    var n := c as int;
    9 <= n <= 13 || 28 <= n <= 32 || n == 0x85 || n == 0xA0 || n == 0x1680 || 0x2000 <= n <= 0x200A
    || n == 0x2028 || n == 0x2029 || n == 0x202F || n == 0x205F || n == 0x3000
  }

  function Lead(s: string): (n: nat)
    ensures n <= |s| && (forall i :: 0 <= i < n ==> s[i] == ' ') && (n < |s| ==> s[n] != ' ')
  {
    if s == "" || s[0] != ' ' then 0 else 1 + Lead(s[1..])
  }

  /** The length without trailing spaces. */
  function Trim(s: string): (n: nat)
    ensures n <= |s| && (forall i :: n <= i < |s| ==> s[i] == ' ') && (n > 0 ==> s[n - 1] != ' ')
  {
    if s == "" || s[|s| - 1] != ' ' then |s| else Trim(s[..|s| - 1])
  }

  // ------------------------------------------------------------------ single quotes

  /** Every quote is doubled. */
  predicate Doubled(s: string) {
    if s == "" then true
    else if s[0] != '\'' then Doubled(s[1..])
    else |s| >= 2 && s[1] == '\'' && Doubled(s[2..])
  }

  function Double(s: string): string {
    if s == "" then "" else (if s[0] == '\'' then "''" else [s[0]]) + Double(s[1..])
  }

  function Undouble(s: string): string {
    if s == "" then ""
    else if |s| >= 2 && s[0] == '\'' && s[1] == '\'' then "'" + Undouble(s[2..])
    else [s[0]] + Undouble(s[1..])
  }

  /** The first quote that is neither doubled nor part of a doubled one. */
  predicate Closes(text: string, from: nat, p: nat) {
    from <= p < |text| && text[p] == '\'' && Doubled(text[from..p]) && (p + 1 < |text| ==> text[p + 1] != '\'')
  }

  function SingleEnd(text: string, position: nat): Option<nat>
    decreases |text| - position
  {
    if position >= |text| then None
    else if text[position] != '\'' then SingleEnd(text, position + 1)
    else if position + 1 < |text| && text[position + 1] == '\'' then SingleEnd(text, position + 2)
    else Some(position + 1)
  }

  lemma {:induction false} SingleEndFound(text: string, from: nat, p: nat)
    requires Closes(text, from, p)
    ensures SingleEnd(text, from) == Some(p + 1)
    decreases p - from
  {
    if from < p {
      if text[from] != '\'' {
        assert text[from..p][1..] == text[from + 1..p];
        SingleEndFound(text, from + 1, p);
      } else {
        assert text[from..p][0] == '\'' && text[from..p][1] == text[from + 1]
          && text[from..p][2..] == text[from + 2..p];
        SingleEndFound(text, from + 2, p);
      }
    }
  }

  lemma {:induction false} SingleEndCloses(text: string, from: nat)
    requires SingleEnd(text, from).Some?
    ensures SingleEnd(text, from).value > 0 && Closes(text, from, SingleEnd(text, from).value - 1)
    decreases |text| - from
  {
    var p := SingleEnd(text, from).value - 1;
    if text[from] != '\'' {
      SingleEndCloses(text, from + 1);
      assert text[from..p][1..] == text[from + 1..p];
    } else if from + 1 < |text| && text[from + 1] == '\'' {
      SingleEndCloses(text, from + 2);
      assert text[from..p][1] == '\'' && text[from..p][2..] == text[from + 2..p];
    }
  }

  method SingleQuoteEnd(text: string) returns (end: Option<nat>)
    ensures end == SingleEnd(text, 1)
    ensures end.Some? ==> end.value > 0 && Closes(text, 1, end.value - 1)
    ensures end.None? ==> forall p :: !Closes(text, 1, p)
  {
    var position := 1;
    end := None;
    while position < |text|
      invariant SingleEnd(text, 1) == SingleEnd(text, position)
    {
      if text[position] == '\'' {
        if position + 1 < |text| && text[position + 1] == '\'' {
          position := position + 2;
          continue;
        }
        SingleEndCloses(text, 1);
        return Some(position + 1);
      }
      position := position + 1;
    }
    forall p ensures !Closes(text, 1, p) {
      if Closes(text, 1, p) { SingleEndFound(text, 1, p); }
    }
  }

  lemma {:induction false} DoubleUndoes(s: string)
    ensures Undouble(Double(s)) == s && Doubled(Double(s))
  {
    if s != "" {
      DoubleUndoes(s[1..]);
      if s[0] == '\'' { assert Double(s)[2..] == Double(s[1..]); } else { assert Double(s)[1..] == Double(s[1..]); }
    }
  }

  // ------------------------------------------------------------------ double quotes

  /** Quotes stand behind a backslash, and no backslash is left over. */
  predicate Escaped(s: string) {
    if s == "" then true
    else if s[0] == '\\' then |s| >= 2 && Escaped(s[2..])
    else s[0] != '"' && Escaped(s[1..])
  }

  predicate Ends(text: string, from: nat, p: nat) {
    from <= p < |text| && text[p] == '"' && Escaped(text[from..p])
  }

  function DoubleEnd(text: string, position: nat, escaped: bool): Option<nat>
    decreases |text| - position
  {
    if position >= |text| then None
    else if text[position] == '"' && !escaped then Some(position + 1)
    else DoubleEnd(text, position + 1, text[position] == '\\' && !escaped)
  }

  lemma {:induction false} DoubleEndFound(text: string, from: nat, p: nat)
    requires Ends(text, from, p)
    ensures DoubleEnd(text, from, false) == Some(p + 1)
    decreases p - from
  {
    if from < p {
      if text[from] == '\\' {
        assert text[from..p][2..] == text[from + 2..p];
        DoubleEndFound(text, from + 2, p);
        assert DoubleEnd(text, from, false) == DoubleEnd(text, from + 1, true) == DoubleEnd(text, from + 2, false);
      } else {
        assert text[from..p][1..] == text[from + 1..p];
        DoubleEndFound(text, from + 1, p);
      }
    }
  }

  lemma {:induction false} DoubleEndCloses(text: string, from: nat)
    requires DoubleEnd(text, from, false).Some?
    ensures DoubleEnd(text, from, false).value > 0 && Ends(text, from, DoubleEnd(text, from, false).value - 1)
    decreases |text| - from
  {
    var p := DoubleEnd(text, from, false).value - 1;
    if text[from] == '\\' {
      assert DoubleEnd(text, from, false) == DoubleEnd(text, from + 1, true);
      assert from + 1 < |text| && DoubleEnd(text, from + 1, true) == DoubleEnd(text, from + 2, false);
      DoubleEndCloses(text, from + 2);
      assert text[from..p][2..] == text[from + 2..p];
    } else if text[from] != '"' {
      DoubleEndCloses(text, from + 1);
      assert text[from..p][1..] == text[from + 1..p];
    }
  }

  method DoubleQuoteEnd(text: string) returns (end: Option<nat>)
    ensures end == DoubleEnd(text, 1, false)
    ensures end.Some? ==> end.value > 0 && Ends(text, 1, end.value - 1)
    ensures end.None? ==> forall p :: !Ends(text, 1, p)
  {
    var escaped, position := false, 1;
    while position < |text|
      invariant DoubleEnd(text, 1, false) == DoubleEnd(text, position, escaped)
    {
      if text[position] == '"' && !escaped {
        DoubleEndCloses(text, 1);
        return Some(position + 1);
      }
      escaped := text[position] == '\\' && !escaped;
      position := position + 1;
    }
    forall p ensures !Ends(text, 1, p) {
      if Ends(text, 1, p) { DoubleEndFound(text, 1, p); }
    }
    end := None;
  }

  // --------------------------------------------------------- strings of RFC 8259

  function HexDigit(n: nat): char
    requires n < 16
  {
    if n < 10 then (n + '0' as int) as char else (n - 10 + 'a' as int) as char
  }

  function HexOf(c: char): Option<nat> {
    if '0' <= c <= '9' then Some(c as int - '0' as int)
    else if 'a' <= c <= 'f' then Some(c as int - 'a' as int + 10)
    else if 'A' <= c <= 'F' then Some(c as int - 'A' as int + 10)
    else None
  }

  function Hex4(n: nat): string
    requires n < 0x10000
  {
    [HexDigit(n / 4096), HexDigit(n / 256 % 16), HexDigit(n / 16 % 16), HexDigit(n % 16)]
  }

  /** The code unit that `\uXXXX` at the start of a text stands for. */
  function Unit(s: string): Option<nat> {
    if |s| >= 6 && s[0] == '\\' && s[1] == 'u'
       && HexOf(s[2]).Some? && HexOf(s[3]).Some? && HexOf(s[4]).Some? && HexOf(s[5]).Some?
    then Some(HexOf(s[2]).value * 4096 + HexOf(s[3]).value * 256 + HexOf(s[4]).value * 16 + HexOf(s[5]).value)
    else None
  }

  function Short(c: char): Option<char> {
    match c
    case '"' => Some('"') case '\\' => Some('\\') case '/' => Some('/')
    case 'b' => Some(8 as char) case 'f' => Some(12 as char) case 'n' => Some('\n')
    case 'r' => Some('\r') case 't' => Some('\t') case _ => None
  }

  function Cons(c: char, rest: Option<string>): Option<string> {
    if rest.Some? then Some([c] + rest.value) else None
  }

  /** `json.loads` on the text between the quotes; a lone surrogate is refused right after it. */
  function Decode(s: string): Option<string> {
    if s == "" then Some("")
    else if s[0] == '"' || s[0] < ' ' then None
    else if s[0] != '\\' then Cons(s[0], Decode(s[1..]))
    else if |s| < 2 then None
    else if s[1] != 'u' then if Short(s[1]).Some? then Cons(Short(s[1]).value, Decode(s[2..])) else None
    else if Unit(s).None? then None
    else
      var high := Unit(s).value;
      if !(0xD800 <= high < 0xE000) then (if high < 0x10000 then Cons(high as char, Decode(s[6..])) else None)
      else if high < 0xDC00 && Unit(s[6..]).Some? && 0xDC00 <= Unit(s[6..]).value < 0xE000 then
        Cons((0x10000 + (high - 0xD800) * 0x400 + (Unit(s[6..]).value - 0xDC00)) as char, Decode(s[12..]))
      else None
  }

  /** The letter of a two-character escape. */
  function EscapeLetter(c: char): Option<char> {
    if c == '"' || c == '\\' then Some(c)
    else if c == '\n' then Some('n') else if c == '\r' then Some('r') else if c == '\t' then Some('t')
    else if c == 8 as char then Some('b') else if c == 12 as char then Some('f') else None
  }

  /** `json.dumps` of one character, with or without `ensure_ascii`. */
  function Escape(c: char, ascii: bool): string {
    if EscapeLetter(c).Some? then ['\\', EscapeLetter(c).value]
    else if c < ' ' then "\\u" + Hex4(c as int)
    else if !ascii || c <= '~' then [c]
    else if c as int < 0x10000 then "\\u" + Hex4(c as int)
    else
      var n := c as int - 0x10000;
      "\\u" + Hex4(0xD800 + n / 0x400) + "\\u" + Hex4(0xDC00 + n % 0x400)
  }

  function Encode(s: string, ascii: bool): string {
    if s == "" then "" else Escape(s[0], ascii) + Encode(s[1..], ascii)
  }

  lemma DigitRound(n: nat)
    requires n < 16
    ensures HexOf(HexDigit(n)) == Some(n)
  {}

  lemma Nibbles(n: nat)
    requires n < 0x10000
    ensures n == n / 4096 * 4096 + n / 256 % 16 * 256 + n / 16 % 16 * 16 + n % 16
  {
    var a, b := n / 16, n / 256;
    assert b == a / 16 && n / 4096 == b / 16;
    assert n == a * 16 + n % 16 && a == b * 16 + a % 16 && b == b / 16 * 16 + b % 16;
  }

  lemma UnitOf(a: char, b: char, c: char, d: char, rest: string)
    requires HexOf(a).Some? && HexOf(b).Some? && HexOf(c).Some? && HexOf(d).Some?
    ensures Unit("\\u" + [a, b, c, d] + rest)
         == Some(HexOf(a).value * 4096 + HexOf(b).value * 256 + HexOf(c).value * 16 + HexOf(d).value)
  {
    hide HexOf;
  }

  lemma HexRound(n: nat, rest: string)
    requires n < 0x10000
    ensures Unit("\\u" + Hex4(n) + rest) == Some(n)
  {
    DigitRound(n / 4096);
    DigitRound(n / 256 % 16);
    DigitRound(n / 16 % 16);
    DigitRound(n % 16);
    Nibbles(n);
    hide HexOf, HexDigit;
    var h := Hex4(n);
    UnitOf(h[0], h[1], h[2], h[3], rest);
    assert h == [h[0], h[1], h[2], h[3]];
  }

  lemma UnitDecodes(n: nat, rest: string)
    requires n < 0xD800 || 0xE000 <= n < 0x10000
    ensures Decode("\\u" + Hex4(n) + rest) == Cons(n as char, Decode(rest))
  {
    HexRound(n, rest);
    var s := "\\u" + Hex4(n) + rest;
    assert s[6..] == rest;
    hide Hex4, Unit;
  }

  lemma PairApart(high: string, low: string, rest: string)
    requires |high| == 4 && |low| == 4
    ensures var s, second := "\\u" + high + "\\u" + low + rest, "\\u" + low + rest;
            s == "\\u" + high + second && s[0] == '\\' && s[1] == 'u' && s[6..] == second && s[12..] == rest
  {}

  lemma PairDecodes(n: nat, rest: string)
    requires n < 0x100000
    ensures Decode("\\u" + Hex4(0xD800 + n / 0x400) + "\\u" + Hex4(0xDC00 + n % 0x400) + rest)
        == Cons((0x10000 + n) as char, Decode(rest))
  {
    var high, low := 0xD800 + n / 0x400, 0xDC00 + n % 0x400;
    var second := "\\u" + Hex4(low) + rest;
    HexRound(high, second);
    HexRound(low, rest);
    PairApart(Hex4(high), Hex4(low), rest);
    hide Hex4, Unit;
    assert (high - 0xD800) * 0x400 + (low - 0xDC00) == n;
  }

  lemma LetterDecodes(c: char, rest: string)
    requires EscapeLetter(c).Some?
    ensures Decode(['\\', EscapeLetter(c).value] + rest) == Cons(c, Decode(rest))
  {
    assert Short(EscapeLetter(c).value) == Some(c) && EscapeLetter(c).value != 'u';
    hide Short, EscapeLetter;
    assert (['\\', EscapeLetter(c).value] + rest)[2..] == rest;
  }

  lemma LiteralDecodes(c: char, rest: string)
    requires c >= ' ' && c != '"' && c != '\\'
    ensures Decode([c] + rest) == Cons(c, Decode(rest))
  {
    assert ([c] + rest)[1..] == rest;
  }

  lemma EscapeDecodes(c: char, ascii: bool, rest: string)
    ensures Decode(Escape(c, ascii) + rest) == Cons(c, Decode(rest))
  {
    hide Decode, Hex4, Short;
    if EscapeLetter(c).Some? { LetterDecodes(c, rest); }
    else if c < ' ' { UnitDecodes(c as int, rest); }
    else if !ascii || c <= '~' { LiteralDecodes(c, rest); }
    else if c as int < 0x10000 { UnitDecodes(c as int, rest); }
    else { PairDecodes(c as int - 0x10000, rest); }
  }

  /** Decoding what was encoded gives the text back, whatever its characters are. */
  lemma {:induction false} DecodeUndoesEncode(s: string, ascii: bool)
    ensures Decode(Encode(s, ascii)) == Some(s)
  {
    if s != "" {
      hide Decode, Escape;
      EscapeDecodes(s[0], ascii, Encode(s[1..], ascii));
      DecodeUndoesEncode(s[1..], ascii);
      assert s == [s[0]] + s[1..];
    } else { assert Decode("") == Some("");
    }
  }

  lemma {:induction false} EscapedJoin(a: string, b: string)
    requires Escaped(a) && Escaped(b)
    ensures Escaped(a + b)
  {
    if a == "" {
      assert a + b == b;
    } else if a[0] == '\\' {
      assert (a + b)[2..] == a[2..] + b;
      EscapedJoin(a[2..], b);
    } else {
      assert (a + b)[1..] == a[1..] + b;
      EscapedJoin(a[1..], b);
    }
  }

  lemma HexEscaped(n: nat)
    requires n < 0x10000
    ensures Escaped("\\u" + Hex4(n))
  {
    var h := Hex4(n);
    assert forall i :: 0 <= i < 4 ==> h[i] != '"' && h[i] != '\\';
    var s := "\\u" + h;
    assert s[2..] == h;
    assert Escaped(h[4..]) && h[3..][1..] == h[4..] && h[2..][1..] == h[3..] && h[1..][1..] == h[2..];
    assert Escaped(h[3..]);
    assert Escaped(h[2..]);
    assert Escaped(h[1..]);
  }

  lemma EscapeEscaped(c: char, ascii: bool)
    ensures Escaped(Escape(c, ascii))
  {
    hide Hex4;
    var s := Escape(c, ascii);
    if EscapeLetter(c).Some? { assert s[2..] == ""; }
    else if c < ' ' { HexEscaped(c as int); }
    else if !ascii || c <= '~' { assert s[1..] == ""; }
    else if c as int < 0x10000 { HexEscaped(c as int); }
    else {
      var n := c as int - 0x10000;
      hide Escaped;
      HexEscaped(0xD800 + n / 0x400);
      HexEscaped(0xDC00 + n % 0x400);
      EscapedJoin("\\u" + Hex4(0xD800 + n / 0x400), "\\u" + Hex4(0xDC00 + n % 0x400));
      assert s == "\\u" + Hex4(0xD800 + n / 0x400) + ("\\u" + Hex4(0xDC00 + n % 0x400));
    }
  }

  lemma {:induction false} EncodeEscaped(s: string, ascii: bool)
    ensures Escaped(Encode(s, ascii))
  {
    if s != "" {
      EncodeEscaped(s[1..], ascii);
      EscapeEscaped(s[0], ascii);
      EscapedJoin(Escape(s[0], ascii), Encode(s[1..], ascii));
    }
  }
}
