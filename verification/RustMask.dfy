/**
 The masking scanner of the documentation generator (scripts/gen_api_docs.py).

 `Next` is a tokenizer on strings: it knows no index and no buffer, only the text that is left and
 whether a word character came just before. `Mask` renders its tokens, and `MaskRustNoncode`, the
 index-driven scanner that blanks a list in place, computes exactly that.
 */
module RustMask {
  import opened Wrappers

  /** `str.isalnum` beyond ASCII, which Python's Unicode tables decide. */
  type Beyond = char -> bool

  predicate IsWord(c: char, beyond: Beyond) {
    if c as int < 128 then 'a' <= c <= 'z' || 'A' <= c <= 'Z' || '0' <= c <= '9' || c == '_' else beyond(c)
  }

  // ---------------------------------------------------------------- the tokenizer

  datatype Kind = Code | Comment | Literal

  /** A token by its length: how much of it opens it, is inside it, and closes it. */
  datatype Token = Token(kind: Kind, head: nat, body: nat, tail: nat) {
    function Length(): nat { head + body + tail }

    /** What of it a mask hides: all of a comment, and the inside of a literal when asked to. */
    predicate Hides(k: int, literals: bool) {
      match kind
      case Code => false
      case Comment => true
      case Literal => literals && head <= k < head + body
    }
  }

  const OneOfCode := Token(Code, 1, 0, 0)

  /** How far it is to a character, or to the end. */
  function Until(s: string, c: char): (n: nat)
    ensures n <= |s| && (n < |s| ==> s[n] == c) && c !in s[..n]
  {
    if s == "" || s[0] == c then 0 else 1 + Until(s[1..], c)
  }

  predicate StartsWith(s: string, p: string) {
    |p| <= |s| && s[..|p|] == p
  }

  /** `str.find`: where `p` first occurs. */
  function Find(s: string, p: string): (r: Option<nat>)
    ensures r.Some? ==> r.value + |p| <= |s| && StartsWith(s[r.value..], p)
  {
    if StartsWith(s, p) then Some(0)
    else if s == "" then None
    else
      var r := Find(s[1..], p);
      if r.Some? then Some(r.value + 1) else None
  }

  predicate Pair(s: string, a: char, b: char) {
    |s| >= 2 && s[0] == a && s[1] == b
  }

  /** The length of a block comment's inside, nested comments included, from `depth` open ones. */
  function BlockLen(s: string, depth: nat): (n: nat)
    ensures n <= |s|
  {
    if depth == 0 || s == "" then 0
    else if Pair(s, '/', '*') then 2 + BlockLen(s[2..], depth + 1)
    else if Pair(s, '*', '/') then 2 + BlockLen(s[2..], depth - 1)
    else 1 + BlockLen(s[1..], depth)
  }

  /** How far it is to the quote that closes a string literal, or to the end. */
  function StringLen(s: string): (n: nat)
    ensures n <= |s| && (n < |s| ==> s[n] == '"')
  {
    if s == "" || s[0] == '"' then 0
    else if s[0] == '\\' then (if |s| == 1 then 1 else 2 + StringLen(s[2..]))
    else 1 + StringLen(s[1..])
  }

  /** How many `#` come first. */
  function Hashes(s: string): (n: nat)
    ensures n <= |s| && forall k | 0 <= k < n :: s[k] == '#'
  {
    if s != "" && s[0] == '#' then 1 + Hashes(s[1..]) else 0
  }

  /** A raw string's opener `b?r#*"`: its length, and its hashes. */
  datatype Opener = Opener(len: nat, hashes: nat)

  function RawOpen(s: string): (r: Option<Opener>)
    ensures r.Some? ==> 2 <= r.value.len <= |s| && s[r.value.len - 1] == '"'
  {
    var at := if s != "" && s[0] == 'b' then 1 else 0;
    if at < |s| && s[at] == 'r' then
      var h := Hashes(s[at + 1..]);
      if at + 1 + h < |s| && s[at + 1 + h] == '"' then Some(Opener(at + 2 + h, h)) else None
    else None
  }

  /** What closes a raw string opened with `h` hashes. */
  function RawClose(h: nat): string {
    "\"" + seq(h, _ => '#')
  }

  /** A raw string runs to its terminator, or to the end. */
  function RawToken(s: string, o: Opener): (t: Token)
    requires o.len <= |s|
    ensures o.len <= t.Length() <= |s|
  {
    var k := Find(s[o.len..], RawClose(o.hashes));
    if k.Some? then Token(Literal, o.len, k.value, 1 + o.hashes) else Token(Literal, o.len, |s| - o.len, 0)
  }

  function StringToken(s: string): (t: Token)
    requires s != ""
    ensures 0 < t.Length() <= |s|
  {
    var n := StringLen(s[1..]);
    Token(Literal, 1, n, if 1 + n < |s| then 1 else 0)
  }

  /** A tick: an escaped char literal, a plain one, or a lifetime or label. */
  function TickToken(s: string): (t: Token)
    requires s != ""
    ensures 0 < t.Length() <= |s|
  {
    if |s| > 1 && s[1] == '\\' then
      var end := if |s| < 3 then |s| else 3 + Until(s[3..], '\'');
      Token(Literal, 1, end - 1, if end < |s| then 1 else 0)
    else if |s| > 2 && s[2] == '\'' then Token(Literal, 1, 1, 1)
    else OneOfCode
  }

  /** The first token of `s`; `after` says whether a word character came just before. */
  function Next(after: bool, s: string): (t: Token)
    requires s != ""
    ensures 0 < t.Length() <= |s|
  {
    if Pair(s, '/', '/') then Token(Comment, 0, 2 + Until(s[2..], '\n'), 0)
    else if Pair(s, '/', '*') then Token(Comment, 0, 2 + BlockLen(s[2..], 1), 0)
    else NextCode(after, s)
  }

  /** The same, when no comment starts here. */
  function NextCode(after: bool, s: string): (t: Token)
    requires s != ""
    ensures 0 < t.Length() <= |s|
  {
    if (s[0] == 'r' || s[0] == 'b') && !after && RawOpen(s).Some? then RawToken(s, RawOpen(s).value)
    else if s[0] == '"' then StringToken(s)
    else if s[0] == '\'' then TickToken(s)
    else OneOfCode
  }

  // ---------------------------------------------------------------- rendering

  /** A token as the mask shows it: what is hidden becomes spaces, but for the newlines. */
  function Show(t: Token, s: string, literals: bool): (r: string)
    requires t.Length() <= |s|
    ensures |r| == t.Length()
    ensures forall k {:trigger r[k]} | 0 <= k < |r| :: r[k] == if t.Hides(k, literals) && s[k] != '\n' then ' ' else s[k]
  {
    seq(t.Length(), k requires 0 <= k < t.Length() => if t.Hides(k, literals) && s[k] != '\n' then ' ' else s[k])
  }

  /** A tokenizer, and what characters are word characters to it. */
  datatype Lexer = Lexer(next: (bool, string) -> Token, word: char -> bool)

  function Rust(beyond: Beyond): Lexer {
    Lexer((after, s) => if s == "" then OneOfCode else Next(after, s), c => IsWord(c, beyond))
  }

  /** What a tokenizer finds first, if that is something and no more than there is. */
  function First(x: Lexer, after: bool, s: string): (t: Token)
    requires s != ""
    ensures 0 < t.Length() <= |s|
  {
    var t := x.next(after, s);
    if 0 < t.Length() <= |s| then t else OneOfCode
  }

  lemma RustFirst(beyond: Beyond, after: bool, s: string)
    requires s != ""
    ensures First(Rust(beyond), after, s) == Next(after, s)
  {
  }

  /** `text` with what is not code blanked out; `literals` says whether the insides of literals count as that. */
  function Mask(x: Lexer, after: bool, text: string, literals: bool): (r: string)
    ensures |r| == |text|
    decreases |text|
  {
    if text == "" then ""
    else
      var t := First(x, after, text);
      Show(t, text, literals) + Mask(x, x.word(text[t.Length() - 1]), text[t.Length()..], literals)
  }

  // ---------------------------------------------------------------- the scanner

  predicate After(x: Lexer, text: string, i: nat)
    requires i <= |text|
  {
    i > 0 && x.word(text[i - 1])
  }

  /** `blank`: a range of the buffer, in place. */
  method BlankOut(out: array<char>, from: nat, to: nat)
    requires from <= to <= out.Length
    modifies out
    ensures forall j | 0 <= j < out.Length ::
      out[j] == if from <= j < to && old(out[j]) != '\n' then ' ' else old(out[j])
  {
    for k := from to to
      invariant forall j | 0 <= j < out.Length ::
        out[j] == if from <= j < k && old(out[j]) != '\n' then ' ' else old(out[j])
    {
      if out[k] != '\n' {
        out[k] := ' ';
      }
    }
  }

  lemma BlockStep(text: string, j: nat, depth: nat)
    requires j < |text| && depth > 0
    ensures BlockLen(text[j..], depth)
         == if text[j] == '/' && j + 1 < |text| && text[j + 1] == '*' then 2 + BlockLen(text[j + 2..], depth + 1)
            else if text[j] == '*' && j + 1 < |text| && text[j + 1] == '/' then 2 + BlockLen(text[j + 2..], depth - 1)
            else 1 + BlockLen(text[j + 1..], depth)
  {
    var s := text[j..];
    assert s[1..] == text[j + 1..];
    if j + 1 < |text| {
      assert s[2..] == text[j + 2..];
    }
  }

  /** Where a block comment ends: a counter of open comments, and an index. */
  method SkipBlock(text: string, i: nat) returns (j: nat)
    requires i + 2 <= |text|
    ensures j == i + 2 + BlockLen(text[i + 2..], 1)
  {
    var depth := 1;
    j := i + 2;
    ghost var stop := j + BlockLen(text[j..], depth);
    while j < |text| && depth > 0
      invariant i + 2 <= j <= |text| && depth >= 0
      invariant j + BlockLen(text[j..], depth) == stop
      decreases |text| - j
    {
      BlockStep(text, j, depth);
      if text[j] == '/' && j + 1 < |text| && text[j + 1] == '*' {
        depth, j := depth + 1, j + 2;
      } else if text[j] == '*' && j + 1 < |text| && text[j + 1] == '/' {
        depth, j := depth - 1, j + 2;
      } else {
        j := j + 1;
      }
    }
  }

  /** From `j` on, the string's body goes on up to `stop`; an escape may have stepped over the end. */
  ghost predicate GoesOn(text: string, j: nat, stop: nat) {
    if j <= |text| then stop == j + StringLen(text[j..]) else stop == |text|
  }

  lemma StringStep(text: string, j: nat, stop: nat)
    requires j < |text| && GoesOn(text, j, stop)
    ensures if text[j] == '"' then stop == j else GoesOn(text, if text[j] == '\\' then j + 2 else j + 1, stop)
  {
    var s := text[j..];
    assert s[1..] == text[j + 1..];
    if j + 1 < |text| { assert s[2..] == text[j + 2..]; }
  }

  lemma StringOver(text: string, j: nat, stop: nat)
    requires j >= |text| && GoesOn(text, j, stop)
    ensures stop == |text|
  {
  }

  /** Where a string literal's body ends; an escape may step over the end. */
  method SkipString(text: string, i: nat) returns (j: nat)
    requires i < |text|
    ensures Min(j, |text|) == i + 1 + StringLen(text[i + 1..])
  {
    j := i + 1;
    ghost var stop := j + StringLen(text[j..]);
    while j < |text|
      invariant i + 1 <= j && GoesOn(text, j, stop)
      decreases |text| + 1 - j
    {
      StringStep(text, j, stop);
      if text[j] == '\\' {
        j := j + 2;
        continue;
      }
      if text[j] == '"' {
        return j;
      }
      j := j + 1;
    }
    StringOver(text, j, stop);
  }

  /** Where an escaped char literal's body ends. */
  method SkipTick(text: string, i: nat) returns (j: nat)
    requires i < |text|
    ensures Min(j, |text|) == if i + 3 <= |text| then i + 3 + Until(text[i + 3..], '\'') else |text|
  {
    j := i + 3;
    while j < |text| && text[j] != '\''
      invariant i + 3 <= j
      invariant i + 3 <= |text| ==> j <= |text| && j + Until(text[j..], '\'') == i + 3 + Until(text[i + 3..], '\'')
    {
      assert text[j..][1..] == text[j + 1..];
      j := j + 1;
    }
  }

  function Min(a: nat, b: nat): nat {
    if a <= b then a else b
  }

  /** A token at `i` ends at `end`, and what a mask hides of it is `from` to `to`. */
  ghost predicate Covers(t: Token, i: nat, literals: bool, end: nat, from: nat, to: nat) {
    && i <= from <= to <= end
    && end == i + t.Length()
    && forall k | 0 <= k < t.Length() :: t.Hides(k, literals) <==> from <= i + k < to
  }

  /** The text from `i` to `end` is the next token, and what a mask hides of it is `from` to `to`. */
  ghost predicate Spans(x: Lexer, text: string, i: nat, literals: bool, end: nat, from: nat, to: nat) {
    i < |text| && Covers(First(x, After(x, text, i), text[i..]), i, literals, end, from, to)
  }

  /** One turn of the loop: what starts at `i`, where it ends, and what of it to blank. */
  method ScanOne(text: string, i: nat, literals: bool, beyond: Beyond) returns (end: nat, from: nat, to: nat)
    requires i < |text|
    ensures Spans(Rust(beyond), text, i, literals, end, from, to)
  {
    var ch := text[i];
    assert i + 1 < |text| ==> text[i..][1] == text[i + 1] && text[i..][2..] == text[i + 2..];
    if ch == '/' && i + 1 < |text| && text[i + 1] == '/' {
      end := i + 2 + Until(text[i + 2..], '\n');
      return end, i, end;
    }
    if ch == '/' && i + 1 < |text| && text[i + 1] == '*' {
      end := SkipBlock(text, i);
      return end, i, end;
    }
    end, from, to := ScanCode(text, i, literals, beyond);
  }

  method ScanCode(text: string, i: nat, literals: bool, beyond: Beyond) returns (end: nat, from: nat, to: nat)
    requires i < |text|
    ensures Covers(NextCode(i > 0 && IsWord(text[i - 1], beyond), text[i..]), i, literals, end, from, to)
  {
    var ch := text[i];
    if (ch == 'r' || ch == 'b') && (i == 0 || !IsWord(text[i - 1], beyond)) {
      var m := RawOpen(text[i..]);
      if m.Some? {
        end, from, to := ScanRaw(text, i, literals, m.value);
        return;
      }
    }
    if ch == '"' {
      end, from, to := ScanString(text, i, literals);
      return;
    }
    if ch == '\'' {
      end, from, to := ScanTick(text, i, literals);
      return;
    }
    return i + 1, i, i;
  }

  method ScanRaw(text: string, i: nat, literals: bool, m: Opener) returns (end: nat, from: nat, to: nat)
    requires i + m.len <= |text|
    ensures Covers(RawToken(text[i..], m), i, literals, end, from, to)
  {
    var inside := i + m.len;
    var terminator := RawClose(m.hashes);
    var close := Find(text[inside..], terminator);
    assert text[inside..] == text[i..][m.len..];
    var stop := if close.Some? then inside + close.value else |text|;
    end := if close.Some? then stop + |terminator| else |text|;
    if literals { return end, inside, stop; }
    return end, i, i;
  }

  method ScanString(text: string, i: nat, literals: bool) returns (end: nat, from: nat, to: nat)
    requires i < |text|
    ensures Covers(StringToken(text[i..]), i, literals, end, from, to)
  {
    var j := SkipString(text, i);
    assert text[i..][1..] == text[i + 1..];
    end := Min(j + 1, |text|);
    if literals { return end, i + 1, Min(j, |text|); }
    return end, i, i;
  }

  method ScanTick(text: string, i: nat, literals: bool) returns (end: nat, from: nat, to: nat)
    requires i < |text|
    ensures Covers(TickToken(text[i..]), i, literals, end, from, to)
  {
    var n := |text|;
    if i + 1 < n && text[i + 1] == '\\' {
      var j := SkipTick(text, i);
      assert i + 3 <= n ==> text[i..][3..] == text[i + 3..];
      end := Min(j + 1, n);
      if literals { return end, i + 1, Min(j, n); }
      return end, i, i;
    }
    if i + 2 < n && text[i + 2] == '\'' {
      if literals { return i + 3, i + 1, i + 2; }
      return i + 3, i, i;
    }
    return i + 1, i, i;
  }

  /** The buffer halfway: `all` up to `i` and the text from there, of which `all` goes on to be the mask. */
  ghost predicate Halfway(x: Lexer, out: string, all: string, text: string, i: nat, literals: bool)
  {
    && i <= |text| == |out| == |all|
    && (forall k | 0 <= k < |text| :: out[k] == if k < i then all[k] else text[k])
    && all[i..] == Mask(x, After(x, text, i), text[i..], literals)
  }

  /** A mask is the first token as it shows, then the mask of the rest. */
  lemma MaskUnfolds(x: Lexer, after: bool, s: string, rest: string, literals: bool)
    requires s != "" && rest == s[First(x, after, s).Length()..]
    ensures Mask(x, after, s, literals)
         == Show(First(x, after, s), s, literals) + Mask(x, x.word(s[First(x, after, s).Length() - 1]), rest, literals)
  {
  }

  lemma Spliced(all: string, i: nat, shown: string, tail: string)
    requires i + |shown| <= |all| && all[i..] == shown + tail
    ensures all[i + |shown|..] == tail
    ensures forall k | i <= k < i + |shown| :: all[k] == shown[k - i]
  {
    assert all[i..][|shown|..] == all[i + |shown|..];
    assert forall k | i <= k < i + |shown| :: all[k] == all[i..][k - i];
  }

  lemma TokenRendered(x: Lexer, all: string, text: string, i: nat, literals: bool, end: nat, from: nat, to: nat)
    requires i < |text| == |all| && all[i..] == Mask(x, After(x, text, i), text[i..], literals)
    requires Spans(x, text, i, literals, end, from, to)
    ensures i < end <= |text|
    ensures forall k | i <= k < end :: all[k] == if from <= k < to && text[k] != '\n' then ' ' else text[k]
    ensures all[end..] == Mask(x, After(x, text, end), text[end..], literals)
  {
    var s := text[i..];
    var t := First(x, After(x, text, i), s);
    var shown := Show(t, s, literals);
    assert s[t.Length()..] == text[end..] && s[t.Length() - 1] == text[end - 1];
    MaskUnfolds(x, After(x, text, i), s, text[end..], literals);
    Spliced(all, i, shown, Mask(x, After(x, text, end), text[end..], literals));
    forall k | i <= k < end
      ensures all[k] == if from <= k < to && text[k] != '\n' then ' ' else text[k]
    {
      assert all[k] == shown[k - i] && text[k] == s[k - i];
    }
  }

  lemma BufferRendered(x: Lexer, was: string, now: string, all: string, text: string, i: nat, literals: bool,
                       end: nat, from: nat, to: nat)
    requires i < |text| && Halfway(x, was, all, text, i, literals)
    requires Spans(x, text, i, literals, end, from, to)
    requires |now| == |was|
    requires forall k | 0 <= k < |now| :: now[k] == if from <= k < to && was[k] != '\n' then ' ' else was[k]
    ensures end > i && Halfway(x, now, all, text, end, literals)
  {
    TokenRendered(x, all, text, i, literals, end, from, to);
  }

  lemma Untouched(x: Lexer, text: string, literals: bool)
    ensures Halfway(x, text, Mask(x, false, text, literals), text, 0, literals)
  {
    assert text[0..] == text;
    var all := Mask(x, false, text, literals);
    assert all[0..] == all;
  }

  lemma SpansInside(x: Lexer, text: string, i: nat, literals: bool, end: nat, from: nat, to: nat)
    requires Spans(x, text, i, literals, end, from, to)
    ensures from <= to <= end <= |text|
  {
  }

  /** The scanner refines the tokenizer: what it has passed is rendered, what it has not is the text still. */
  method MaskRustNoncode(text: string, literals: bool, beyond: Beyond) returns (masked: string)
    ensures masked == Mask(Rust(beyond), false, text, literals)
  {
    var out := new char[|text|](k requires 0 <= k < |text| => text[k]);
    var i := 0;
    ghost var x := Rust(beyond);
    ghost var all := Mask(x, false, text, literals);
    Untouched(x, text, literals);
    assert out[..] == text;
    while i < |text|
      invariant Halfway(x, out[..], all, text, i, literals)
    {
      var end, from, to := ScanOne(text, i, literals, beyond);
      ghost var was := out[..];
      SpansInside(x, text, i, literals, end, from, to);
      BlankOut(out, from, to);
      BufferRendered(x, was, out[..], all, text, i, literals, end, from, to);
      i := end;
    }
    return out[..];
  }
}
