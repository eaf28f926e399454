/**
 JSON for a terminal (apps/openalpaca/src/output.rs): hidden characters written as `\uXXXX`, and the
 document still the same to any reader (section 7 of RFC 8259).
 */
module JsonEscape {
  import opened Wrappers

  /** Which characters a terminal would not show as they are. */
  type Hidden = char -> bool

  /** Printable ASCII, JSON's structure included, is never hidden. */
  ghost predicate SparesPrintable(hidden: Hidden) {
    forall c: char :: 0x20 <= c as int < 0x7F ==> !hidden(c)
  }

  type Unit = x: int | 0 <= x < 0x1_0000 witness 0

  // ---------------------------------------------------------------- reading JSON

  /** `char::encode_utf16`. */
  function Utf16(c: char): (units: seq<Unit>) {
    var n := c as int;
    if n < 0x1_0000 then [n]
    else [0xD800 + (n - 0x1_0000) / 0x400, 0xDC00 + (n - 0x1_0000) % 0x400]
  }

  function HexValue(c: char): Option<int> {
    if '0' <= c <= '9' then Some(c as int - '0' as int)
    else if 'a' <= c <= 'f' then Some(c as int - 'a' as int + 10)
    else if 'A' <= c <= 'F' then Some(c as int - 'A' as int + 10)
    else None
  }

  /** The unit four hexadecimal digits stand for. */
  function Unhex(s: string): (r: Option<int>)
    requires |s| >= 4
  {
    match (HexValue(s[0]), HexValue(s[1]), HexValue(s[2]), HexValue(s[3]))
    case (Some(a), Some(b), Some(c), Some(d)) => Some(((a * 16 + b) * 16 + c) * 16 + d)
    case _ => None
  }

  /** What a reader sees: a character of the structure, or a UTF-16 unit of a string. */
  datatype Item = Mark(c: char) | Inside(unit: int)

  /** What stands at the start of the inside of a string: its items, its length, and whether the string goes on. */
  datatype Lexeme = Lexeme(items: seq<Item>, len: nat, inside: bool)

  function Units(units: seq<int>): (r: seq<Item>)
    ensures |r| == |units|
  {
    seq(|units|, k requires 0 <= k < |units| => Inside(units[k]))
  }

  /** The simple escapes of section 7. */
  function Simple(c: char): Option<int> {
    match c
    case '"' => Some(0x22)
    case '\\' => Some(0x5C)
    case '/' => Some(0x2F)
    case 'b' => Some(0x08)
    case 'f' => Some(0x0C)
    case 'n' => Some(0x0A)
    case 'r' => Some(0x0D)
    case 't' => Some(0x09)
    case _ => None
  }

  function LexInside(s: string): (r: Option<Lexeme>)
    requires s != ""
    ensures r.Some? ==> 0 < r.value.len <= |s|
  {
    var c := s[0];
    if c == '"' then Some(Lexeme([Mark('"')], 1, false))
    else if (c as int) < 0x20 then None
    else if c != '\\' then Some(Lexeme(Units(Utf16(c)), 1, true))
    else if |s| < 2 then None
    else if s[1] == 'u' then
      if |s| < 6 || Unhex(s[2..]).None? then None else Some(Lexeme([Inside(Unhex(s[2..]).value)], 6, true))
    else
      var unit := Simple(s[1]);
      if unit.None? then None else Some(Lexeme([Inside(unit.value)], 2, true))
  }

  function LexOne(inside: bool, s: string): (r: Option<Lexeme>)
    requires s != ""
    ensures r.Some? ==> 0 < r.value.len <= |s|
  {
    if inside then LexInside(s) else Some(Lexeme([Mark(s[0])], 1, s[0] == '"'))
  }

  /** The whole text, as its reader sees it: what a value is made from. */
  function Lex(inside: bool, s: string): Option<seq<Item>>
    decreases |s|
  {
    if s == "" then (if inside then None else Some([]))
    else
      var one := LexOne(inside, s);
      if one.None? then None
      else Before(one.value.items, Lex(one.value.inside, s[one.value.len..]))
  }

  function Before(items: seq<Item>, rest: Option<seq<Item>>): Option<seq<Item>> {
    if rest.None? then None else Some(items + rest.value)
  }

  // ---------------------------------------------------------------- escaping

  function HexDigit(d: int): (c: char)
    requires 0 <= d < 16
    ensures HexValue(c) == Some(d) && 0x20 <= c as int < 0x7F && c != '\\' && c != '"'
  {
    if d < 10 then ('0' as int + d) as char else ('a' as int + d - 10) as char
  }

  /** `\u` and four lower-case digits. */
  function Escape(unit: Unit): (r: string)
    ensures |r| == 6 && forall k | 0 <= k < 6 :: 0x20 <= r[k] as int < 0x7F
  {
    ['\\', 'u', HexDigit(unit / 4096), HexDigit(unit / 256 % 16), HexDigit(unit / 16 % 16), HexDigit(unit % 16)]
  }

  function EscapeAll(units: seq<Unit>): (r: string)
    ensures forall k | 0 <= k < |r| :: 0x20 <= r[k] as int < 0x7F
  {
    if units == [] then "" else Escape(units[0]) + EscapeAll(units[1..])
  }

  function EscapedChar(c: char, hidden: Hidden): string {
    if c != '\n' && hidden(c) then EscapeAll(Utf16(c)) else [c]
  }

  function Escaped(json: string, hidden: Hidden): string {
    if json == "" then "" else EscapedChar(json[0], hidden) + Escaped(json[1..], hidden)
  }

  lemma {:induction false} EscapedOneMore(s: string, c: char, hidden: Hidden)
    ensures Escaped(s + [c], hidden) == Escaped(s, hidden) + EscapedChar(c, hidden)
  {
    if s == "" {
      assert s + [c] == [c] && [c][1..] == "";
    } else {
      assert (s + [c])[1..] == s[1..] + [c];
      EscapedOneMore(s[1..], c, hidden);
    }
  }

  lemma {:induction false} EscapeOneMore(units: seq<Unit>, unit: Unit)
    ensures EscapeAll(units + [unit]) == EscapeAll(units) + Escape(unit)
  {
    if units == [] {
      assert units + [unit] == [unit] && [unit][1..] == [];
    } else {
      assert (units + [unit])[1..] == units[1..] + [unit];
      EscapeOneMore(units[1..], unit);
    }
  }

  method WriteEscapes(before: string, units: seq<Unit>) returns (out: string)
    ensures out == before + EscapeAll(units)
  {
    out := before;
    for j := 0 to |units|
      invariant out == before + EscapeAll(units[..j])
    {
      assert units[..j + 1] == units[..j] + [units[j]];
      EscapeOneMore(units[..j], units[j]);
      out := out + Escape(units[j]);
    }
    assert units[..|units|] == units;
  }

  method JsonWithHiddenEscaped(json: string, hidden: Hidden) returns (out: string)
    ensures out == Escaped(json, hidden)
  {
    out := "";
    for k := 0 to |json|
      invariant out == Escaped(json[..k], hidden)
    {
      var c := json[k];
      assert json[..k + 1] == json[..k] + [c];
      EscapedOneMore(json[..k], c, hidden);
      if c != '\n' && hidden(c) {
        out := WriteEscapes(out, Utf16(c));
      } else {
        out := out + [c];
      }
    }
    assert json[..|json|] == json;
  }

  // ---------------------------------------------------------------- what it keeps

  /** Nothing hidden is left but the line breaks of the layout. */
  lemma {:induction false} NothingHidden(json: string, hidden: Hidden)
    requires SparesPrintable(hidden)
    ensures forall k | 0 <= k < |Escaped(json, hidden)| :: Escaped(json, hidden)[k] == '\n' || !hidden(Escaped(json, hidden)[k])
  {
    if json != "" { NothingHidden(json[1..], hidden); }
  }

  lemma UnhexEscape(unit: Unit, rest: string)
    ensures Unhex((Escape(unit) + rest)[2..]) == Some(unit)
  {
    var a, b, c, d := unit / 4096, unit / 256 % 16, unit / 16 % 16, unit % 16;
    assert unit / 16 == unit / 256 * 16 + c && unit / 256 == a * 16 + b;
    var s := (Escape(unit) + rest)[2..];
    assert HexValue(s[0]) == Some(a) && HexValue(s[1]) == Some(b);
    assert HexValue(s[2]) == Some(c) && HexValue(s[3]) == Some(d);
  }

  /** An escape reads as its unit. */
  lemma EscapeReads(unit: Unit, rest: string)
    ensures Lex(true, Escape(unit) + rest) == Before([Inside(unit)], Lex(true, rest))
  {
    var s := Escape(unit) + rest;
    UnhexEscape(unit, rest);
    assert s[0] == '\\' && s[1] == 'u' && s[6..] == rest;
    assert LexOne(true, s) == Some(Lexeme([Inside(unit)], 6, true));
  }

  lemma EscapesInTurn(u: Unit, v: Unit, rest: string)
    ensures EscapeAll([u]) == Escape(u)
    ensures EscapeAll([u, v]) + rest == Escape(u) + (Escape(v) + rest)
  {
    assert [u, v][1..] == [v] && [u][1..] == [] && [v][1..] == [];
    assert EscapeAll([v]) == Escape(v) + "" == Escape(v);
    assert EscapeAll([u]) == Escape(u) + "" == Escape(u);
    assert Escape(u) + Escape(v) + rest == Escape(u) + (Escape(v) + rest);
  }

  lemma BeforeBefore(x: Item, y: Item, rest: Option<seq<Item>>)
    ensures Before([x], Before([y], rest)) == Before([x, y], rest)
  {
    if rest.Some? { assert [x] + ([y] + rest.value) == [x, y] + rest.value; }
  }

  /** A character's escapes read as the character would: one unit, or a pair of surrogates. */
  lemma EscapesRead(c: char, rest: string)
    ensures Lex(true, EscapeAll(Utf16(c)) + rest) == Before(Units(Utf16(c)), Lex(true, rest))
  {
    var units := Utf16(c);
    EscapeReads(units[0], rest);
    if |units| == 1 {
      EscapesInTurn(units[0], units[0], rest);
      assert units == [units[0]] && Units(units) == [Inside(units[0])];
    } else {
      EscapesInTurn(units[0], units[1], rest);
      EscapeReads(units[1], rest);
      EscapeReads(units[0], Escape(units[1]) + rest);
      assert units == [units[0], units[1]] && Units(units) == [Inside(units[0]), Inside(units[1])];
      BeforeBefore(Inside(units[0]), Inside(units[1]), Lex(true, rest));
    }
  }

  lemma {:induction false} EscapedConcat(a: string, b: string, hidden: Hidden)
    ensures Escaped(a + b, hidden) == Escaped(a, hidden) + Escaped(b, hidden)
    decreases |a|
  {
    if a == "" {
      assert a + b == b;
    } else {
      assert (a + b)[1..] == a[1..] + b;
      EscapedConcat(a[1..], b, hidden);
      Regroup(EscapedChar(a[0], hidden), Escaped(a[1..], hidden), Escaped(b, hidden));
    }
  }

  /** A newline stays a newline, and what is not hidden stays what it is, wherever it stands. */
  lemma OthersStay(a: string, c: char, b: string, hidden: Hidden)
    requires c == '\n' || !hidden(c)
    ensures Escaped(a + [c] + b, hidden) == Escaped(a, hidden) + [c] + Escaped(b, hidden)
  {
    EscapedOneMore(a, c, hidden);
    EscapedConcat(a + [c], b, hidden);
  }

  lemma Regroup(a: string, b: string, c: string)
    ensures a + (b + c) == (a + b) + c
  {
  }

  lemma {:induction false} PrintableIsKept(s: string, hidden: Hidden)
    requires SparesPrintable(hidden) && forall k | 0 <= k < |s| :: 0x20 <= s[k] as int < 0x7F
    ensures Escaped(s, hidden) == s
  {
    if s != "" {
      PrintableIsKept(s[1..], hidden);
      assert s == [s[0]] + s[1..];
    }
  }

  /** The next lexeme is no raw character of a string: it is written in printable characters. */
  predicate Written(inside: bool, s: string)
    requires s != ""
  {
    inside && (s[0] == '"' || s[0] == '\\')
  }

  /** A quote or an escape in a string reads the same before any rest, and its characters are printable. */
  lemma WrittenReads(s: string, rest: string)
    requires s != "" && Written(true, s) && LexInside(s).Some?
    ensures var n := LexInside(s).value.len;
            && (forall k | 0 <= k < n :: 0x20 <= s[k] as int < 0x7F)
            && LexInside(s[..n] + rest) == LexInside(s) && (s[..n] + rest)[n..] == rest
  {
    var n := LexInside(s).value.len;
    var t := s[..n] + rest;
    assert forall k | 0 <= k < n :: t[k] == s[k];
    if s[0] == '\\' && s[1] == 'u' {
      assert forall k | 0 <= k < 4 :: t[2..][k] == s[2..][k] == s[k + 2];
    }
  }

  /** No character to be escaped stands outside the strings. */
  predicate HiddenOnlyInside(inside: bool, s: string, hidden: Hidden)
    decreases |s|
  {
    if s == "" || LexOne(inside, s).None? then true
    else
      var one := LexOne(inside, s).value;
      (inside || s[0] == '\n' || !hidden(s[0])) && HiddenOnlyInside(one.inside, s[one.len..], hidden)
  }

  lemma WrittenIsKept(s: string, hidden: Hidden)
    requires SparesPrintable(hidden) && s != "" && Written(true, s) && LexInside(s).Some?
    ensures var n := LexInside(s).value.len; Escaped(s, hidden) == s[..n] + Escaped(s[n..], hidden)
  {
    var n := LexInside(s).value.len;
    WrittenReads(s, s[n..]);
    EscapedConcat(s[..n], s[n..], hidden);
    PrintableIsKept(s[..n], hidden);
    assert s == s[..n] + s[n..];
  }

  lemma SameStep(inside: bool, s: string, hidden: Hidden)
    requires SparesPrintable(hidden) && s != "" && LexOne(inside, s).Some?
    requires inside || s[0] == '\n' || !hidden(s[0])
    ensures var one := LexOne(inside, s).value;
            Lex(inside, Escaped(s, hidden)) == Before(one.items, Lex(one.inside, Escaped(s[one.len..], hidden)))
  {
    var one := LexOne(inside, s).value;
    var rest := Escaped(s[one.len..], hidden);
    if Written(inside, s) {
      WrittenIsKept(s, hidden);
      WrittenReads(s, rest);
    } else if s[0] != '\n' && hidden(s[0]) {
      EscapesRead(s[0], rest);
    } else {
      var t := Escaped(s, hidden);
      assert t == [s[0]] + rest && t[1..] == rest;
    }
  }

  lemma BrokenStep(s: string, hidden: Hidden)
    requires SparesPrintable(hidden) && s != "" && s[0] != '\n' && hidden(s[0])
    ensures Lex(false, Escaped(s, hidden)).Some? ==> Lex(false, Escaped(s, hidden)).value[..1] == [Mark('\\')]
  {
    var t := Escaped(s, hidden);
    assert t[0] == '\\';
  }

  /** Of a text that reads as JSON's lexemes at all, escaping changes nothing a reader sees
      exactly when no hidden character stands outside its strings. */
  lemma {:induction false} ReadsTheSame(inside: bool, s: string, hidden: Hidden)
    requires SparesPrintable(hidden) && Lex(inside, s).Some?
    ensures Lex(inside, Escaped(s, hidden)) == Lex(inside, s) <==> HiddenOnlyInside(inside, s, hidden)
    decreases |s|
  {
    if s != "" {
      var one := LexOne(inside, s).value;
      var a, b := Lex(one.inside, s[one.len..]), Lex(one.inside, Escaped(s[one.len..], hidden));
      ReadsTheSame(one.inside, s[one.len..], hidden);
      if !inside && s[0] != '\n' && hidden(s[0]) {
        BrokenStep(s, hidden);
        assert Lex(inside, s).value[..1] == [Mark(s[0])];
      } else {
        SameStep(inside, s, hidden);
        Cancels(one.items, a, b);
      }
    }
  }

  lemma Cancels(items: seq<Item>, a: Option<seq<Item>>, b: Option<seq<Item>>)
    ensures Before(items, a) == Before(items, b) <==> a == b
  {
    if a.Some? && b.Some? && items + a.value == items + b.value {
      assert a.value == (items + a.value)[|items|..] == b.value;
    }
  }
}
