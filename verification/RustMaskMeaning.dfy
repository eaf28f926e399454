/** What the masking scanner promises: offsets kept, comments blanked once and for all, braces that are code. */
module RustMaskMeaning {
  import opened Wrappers
  import opened RustMask

  // ---------------------------------------------------------------- offsets

  /** `m` is `s` with some characters turned into spaces, none of them a newline. */
  ghost predicate Blanking(m: string, s: string) {
    |m| == |s| && forall k | 0 <= k < |s| :: m[k] == s[k] || (m[k] == ' ' && s[k] != '\n')
  }

  /** Every offset and every line break of the text is where it was. */
  lemma {:induction false} OffsetsKept(x: Lexer, after: bool, text: string, literals: bool)
    ensures Blanking(Mask(x, after, text, literals), text)
    decreases |text|
  {
    if text != "" {
      var n := First(x, after, text).Length();
      OffsetsKept(x, x.word(text[n - 1]), text[n..], literals);
    }
  }

  // ---------------------------------------------------------------- masking comments twice

  /** Whether a raw string may start depends on what came before; nothing else does. */
  predicate MayOpenRaw(s: string) {
    s != "" && (s[0] == 'r' || s[0] == 'b')
  }

  ghost predicate Agree(m: string, s: string, n: nat) {
    |m| == |s| && n <= |s| && forall k | 0 <= k < n :: m[k] == s[k]
  }

  lemma AgreeFrom(m: string, s: string, n: nat, d: nat)
    requires Agree(m, s, n) && d <= n
    ensures Agree(m[d..], s[d..], n - d)
  {
  }

  lemma StartsAlike(m: string, s: string, n: nat, p: string)
    requires Agree(m, s, n) && |p| <= n
    ensures StartsWith(m, p) <==> StartsWith(s, p)
  {
    assert m[..|p|] == s[..|p|];
  }

  lemma {:induction false} FindInPrefix(s: string, m: string, p: string)
    requires Find(s, p).Some? && Agree(m, s, Find(s, p).value + |p|)
    ensures Find(m, p) == Find(s, p)
    decreases |s|
  {
    var n := Find(s, p).value + |p|;
    StartsAlike(m, s, n, p);
    if !StartsWith(s, p) {
      var s1, m1 := s[1..], m[1..];
      AgreeFrom(m, s, n, 1);
      FindInPrefix(s1, m1, p);
      assert Find(m, p).value == Find(m1, p).value + 1;
    }
  }

  lemma {:induction false} StringInPrefix(s: string, m: string)
    requires StringLen(s) < |s| && Agree(m, s, StringLen(s) + 1)
    ensures StringLen(m) == StringLen(s)
    decreases |s|
  {
    var n := StringLen(s) + 1;
    if s[0] == '\\' {
      AgreeFrom(m, s, n, 2);
      StringInPrefix(s[2..], m[2..]);
    } else if s[0] != '"' {
      AgreeFrom(m, s, n, 1);
      StringInPrefix(s[1..], m[1..]);
    }
  }

  lemma {:induction false} UntilInPrefix(s: string, m: string, c: char)
    requires Until(s, c) < |s| && Agree(m, s, Until(s, c) + 1)
    ensures Until(m, c) == Until(s, c)
    decreases |s|
  {
    if s[0] != c {
      AgreeFrom(m, s, Until(s, c) + 1, 1);
      UntilInPrefix(s[1..], m[1..], c);
    }
  }

  lemma {:induction false} HashesOf(s: string, h: nat)
    requires h < |s| && s[h] != '#' && forall k | 0 <= k < h :: s[k] == '#'
    ensures Hashes(s) == h
  {
    if h > 0 { HashesOf(s[1..], h - 1); }
  }

  /** Blanking opens no raw string, and leaves open those whose opener it spares. */
  lemma SameOpener(s: string, m: string)
    requires Blanking(m, s)
    ensures RawOpen(m).Some? ==> RawOpen(m) == RawOpen(s)
    ensures RawOpen(s).Some? && Agree(m, s, RawOpen(s).value.len) ==> RawOpen(m) == RawOpen(s)
  {
    if RawOpen(m).Some? {
      OpenerIn(m, s, RawOpen(m).value);
    }
    if RawOpen(s).Some? && Agree(m, s, RawOpen(s).value.len) {
      OpenerIn(s, m, RawOpen(s).value);
    }
  }

  lemma OpenerIn(s: string, m: string, o: Opener)
    requires RawOpen(s) == Some(o) && |m| == |s| 
    requires forall k | 0 <= k < o.len :: s[k] != ' ' ==> m[k] == s[k]
    ensures RawOpen(m) == Some(o)
  {
    var at := if s != "" && s[0] == 'b' then 1 else 0;
    var t := m[at + 1..];
    forall k | 0 <= k < o.hashes ensures t[k] == '#' {
      assert s[at + 1..][k] == '#' == s[at + 1 + k] == m[at + 1 + k];
    }
    assert m[0] == s[0] && m[at] == s[at];
    HashesOf(t, o.hashes);
  }

  /** A token that is not a comment is decided by its own characters and by what blanking cannot make of the rest. */
  lemma SameToken(after: bool, s: string, m: string)
    requires s != "" && Next(after, s).kind != Comment && Blanking(m, s)
    requires Agree(m, s, Next(after, s).Length())
    ensures Next(after, m) == Next(after, s)
  {
    var n := Next(after, s).Length();
    if n == |s| {
      assert m == s;
    } else if (s[0] == 'r' || s[0] == 'b') && !after {
      SameRaw(s, m);
    } else if s[0] == '"' {
      AgreeFrom(m, s, n, 1);
      StringInPrefix(s[1..], m[1..]);
    } else if s[0] == '\'' {
      SameTick(s, m);
    }
  }

  lemma SameRawToken(s: string, m: string, o: Opener)
    requires o.len <= |s| && RawToken(s, o).Length() < |s| && Agree(m, s, RawToken(s, o).Length())
    ensures RawToken(m, o) == RawToken(s, o)
  {
    AgreeFrom(m, s, RawToken(s, o).Length(), o.len);
    FindInPrefix(s[o.len..], m[o.len..], RawClose(o.hashes));
  }

  lemma SameRaw(s: string, m: string)
    requires s != "" && (s[0] == 'r' || s[0] == 'b') && Blanking(m, s)
    requires NextCode(false, s).Length() < |s| && Agree(m, s, NextCode(false, s).Length())
    ensures NextCode(false, m) == NextCode(false, s)
  {
    SameOpener(s, m);
    if RawOpen(s).Some? {
      SameRawToken(s, m, RawOpen(s).value);
    }
  }

  lemma SameTick(s: string, m: string)
    requires s != "" && s[0] == '\'' && Blanking(m, s)
    requires TickToken(s).Length() < |s| && Agree(m, s, TickToken(s).Length())
    ensures TickToken(m) == TickToken(s)
  {
    if s[1] == '\\' {
      AgreeFrom(m, s, TickToken(s).Length(), 3);
      UntilInPrefix(s[3..], m[3..], '\'');
    }
  }

  lemma {:induction false} BlockEnd(s: string, depth: nat)
    requires depth > 0 && BlockLen(s, depth) < |s|
    ensures BlockLen(s, depth) > 0 && s[BlockLen(s, depth) - 1] == '/'
    decreases |s|
  {
    if Pair(s, '/', '*') {
      BlockEnd(s[2..], depth + 1);
    } else if Pair(s, '*', '/') {
      if depth > 1 { BlockEnd(s[2..], depth - 1); }
    } else {
      BlockEnd(s[1..], depth);
    }
  }

  /** What follows a comment is a newline, or follows a slash. */
  lemma CommentEnd(after: bool, s: string, beyond: Beyond)
    requires s != "" && Next(after, s).kind == Comment && Next(after, s).Length() < |s|
    ensures var n := Next(after, s).Length(); s[n] == '\n' || !IsWord(s[n - 1], beyond)
  {
    if !Pair(s, '/', '/') {
      BlockEnd(s[2..], 1);
    }
  }

  /** Blanks are code, one by one. */
  ghost predicate SparesBlanks(x: Lexer) {
    && !x.word(' ') && !x.word('\n')
    && forall after, s | s != "" && (s[0] == ' ' || s[0] == '\n') :: First(x, after, s) == OneOfCode
  }

  /** What follows a comment is a newline, or follows no word character. */
  ghost predicate EndsComments(x: Lexer)
  {
    forall after, s | s != "" && First(x, after, s).kind == Comment && First(x, after, s).Length() < |s| ::
      var n := First(x, after, s).Length(); s[n] == '\n' || !x.word(s[n - 1])
  }

  /** A token that is not a comment is found again, with comments after it blanked. */
  ghost predicate FindsAgain(x: Lexer) {
    forall after, later, s, m
      | s != "" && First(x, after, s).kind != Comment && Blanking(m, s) && Agree(m, s, First(x, after, s).Length())
        && (MayOpenRaw(s) ==> after == later) ::
      First(x, later, m) == First(x, after, s)
  }

  /** All that masking comments once and for all takes of a tokenizer. */
  ghost predicate Settles(x: Lexer) {
    SparesBlanks(x) && EndsComments(x) && FindsAgain(x)
  }

  lemma RustSettles(beyond: Beyond)
    ensures Settles(Rust(beyond))
  {
    var x := Rust(beyond);
    forall after, s | s != "" && First(x, after, s).kind == Comment && First(x, after, s).Length() < |s|
      ensures var n := First(x, after, s).Length(); s[n] == '\n' || !x.word(s[n - 1])
    {
      CommentEnd(after, s, beyond);
    }
    forall after, later, s, m
      | s != "" && First(x, after, s).kind != Comment && Blanking(m, s) && Agree(m, s, First(x, after, s).Length())
        && (MayOpenRaw(s) ==> after == later)
      ensures First(x, later, m) == First(x, after, s)
    {
      SameToken(after, s, m);
      BeforeDoesNotMatter(after, later, m);
    }
  }

  lemma BeforeDoesNotMatter(after: bool, later: bool, s: string)
    requires s != "" && (MayOpenRaw(s) ==> after == later)
    ensures Next(later, s) == Next(after, s)
  {
  }

  /** Text that goes on after a token it starts with is masked as the token and the rest. */
  lemma MaskPrefix(x: Lexer, after: bool, s: string, rest: string, n: nat)
    requires s != "" && First(x, after, s).kind != Comment && First(x, after, s).Length() == n
    requires |s| == n + |rest| && s[n..] == rest
    ensures Mask(x, after, s, false) == s[..n] + Mask(x, x.word(s[n - 1]), rest, false)
  {
    assert Show(First(x, after, s), s, false) == s[..n];
  }

  lemma FirstOff(s: string, blanks: string, m1: string, m2: string, m: string)
    requires blanks != "" && s != "" && s[0] == blanks[0]
    requires m1 == s[..1] + m2 && m2 == blanks[1..] + m
    ensures m1 == blanks + m
  {
  }

  predicate AllBlank(s: string) {
    forall k | 0 <= k < |s| :: s[k] == ' ' || s[k] == '\n'
  }

  lemma {:induction false} BlanksStay(x: Lexer, after: bool, blanks: string, rest: string, literals: bool)
    requires SparesBlanks(x) && AllBlank(blanks)
    ensures Mask(x, after, blanks + rest, literals) == blanks + Mask(x, blanks == "" && after, rest, literals)
    decreases |blanks|
  {
    var s := blanks + rest;
    if blanks == "" {
      assert s == rest;
      assert blanks + Mask(x, after, rest, literals) == Mask(x, after, rest, literals);
    } else {
      CodeFirst(x, after, s, blanks[1..] + rest, literals);
      BlanksStay(x, false, blanks[1..], rest, literals);
      FirstOff(s, blanks, Mask(x, after, s, literals), Mask(x, false, blanks[1..] + rest, literals),
               Mask(x, false, rest, literals));
    }
  }

  /** A character of code is masked as itself. */
  lemma CodeFirst(x: Lexer, after: bool, s: string, rest: string, literals: bool)
    requires s != "" && First(x, after, s) == OneOfCode && rest == s[1..]
    ensures Mask(x, after, s, literals) == s[..1] + Mask(x, x.word(s[0]), rest, literals)
  {
    assert Show(OneOfCode, s, literals) == s[..1];
    MaskUnfolds(x, after, s, rest, literals);
  }

  lemma {:induction false} CommentsStayMasked(x: Lexer, after: bool, later: bool, text: string)
    requires Settles(x) && (MayOpenRaw(text) ==> after == later)
    ensures var m := Mask(x, after, text, false); Mask(x, later, m, false) == m
    decreases |text|
  {
    if text != "" {
      var t := First(x, after, text);
      var n := t.Length();
      var word, rest := x.word(text[n - 1]), text[n..];
      MaskUnfolds(x, after, text, rest, false);
      if t.kind == Comment {
        BlanksStay(x, later, Show(t, text, false), Mask(x, word, rest, false), false);
        CommentsStayMasked(x, word, false, rest);
      } else {
        OffsetsKept(x, word, rest, false);
        assert Show(t, text, false) == text[..n];
        KeptToken(x, after, later, text, Mask(x, word, rest, false));
        CommentsStayMasked(x, word, word, rest);
      }
    }
  }

  /** A token that is not a comment is found again in the masked text. */
  lemma KeptToken(x: Lexer, after: bool, later: bool, text: string, m: string)
    requires Settles(x) && text != "" && First(x, after, text).kind != Comment
    requires MayOpenRaw(text) ==> after == later
    requires Blanking(m, text[First(x, after, text).Length()..])
    ensures var n := First(x, after, text).Length();
            Mask(x, later, text[..n] + m, false) == text[..n] + Mask(x, x.word(text[n - 1]), m, false)
  {
    var n := First(x, after, text).Length();
    var s := text[..n] + m;
    assert Blanking(s, text) by {
      assert text == text[..n] + text[n..];
    }
    assert s[..n] == text[..n] && s[n..] == m && s[n - 1] == text[n - 1];
    assert Agree(s, text, n);
    MaskPrefix(x, later, s, m, n);
  }

  /** Masking comments twice is masking them once. */
  lemma CommentMaskIsIdempotent(text: string, beyond: Beyond)
    ensures var x := Rust(beyond); Mask(x, false, Mask(x, false, text, false), false) == Mask(x, false, text, false)
  {
    RustSettles(beyond);
    CommentsStayMasked(Rust(beyond), false, false, text);
  }

  // ---------------------------------------------------------------- braces

  /** The token a character is in: from where it is read, and which of its characters that is. */
  datatype Spot = Spot(after: bool, text: string, k: nat)

  function SpotOf(x: Lexer, after: bool, text: string, k: nat): (p: Spot)
    requires k < |text|
    ensures p.text != "" && p.k < First(x, p.after, p.text).Length() && p.text[p.k] == text[k]
    decreases |text|
  {
    var n := First(x, after, text).Length();
    if k < n then Spot(after, text, k) else SpotOf(x, x.word(text[n - 1]), text[n..], k - n)
  }

  /** Whether the character at `k` is code, and not in a comment or a literal. */
  predicate CodeAt(x: Lexer, text: string, k: nat)
    requires k < |text|
  {
    var p := SpotOf(x, false, text, k);
    First(x, p.after, p.text).kind == Code
  }

  predicate IsBrace(c: char) { c == '{' || c == '}' }

  lemma TerminatorIsNoBrace(s: string, o: Opener, k: nat)
    requires o.len <= |s|
    requires var t := RawToken(s, o); t.head + t.body <= k < t.Length()
    ensures !IsBrace(s[k])
  {
    var p := RawClose(o.hashes);
    var at := o.len + Find(s[o.len..], p).value;
    assert s[o.len..][at - o.len..] == s[at..];
    assert s[k] == s[at..][..|p|][k - at] == p[k - at];
  }

  lemma OpenerIsNoBrace(s: string, k: nat)
    requires RawOpen(s).Some? && k < RawOpen(s).value.len
    ensures !IsBrace(s[k])
  {
    var at := if s != "" && s[0] == 'b' then 1 else 0;
    if at + 1 <= k < RawOpen(s).value.len - 1 {
      assert s[at + 1..][k - at - 1] == '#' == s[k];
    }
  }

  /** What opens and what closes a literal holds no brace. */
  lemma DelimitersAreNoBraces(after: bool, s: string, k: nat)
    requires s != "" && Next(after, s).kind == Literal
    requires k < Next(after, s).Length() && !Next(after, s).Hides(k, true)
    ensures !IsBrace(s[k])
  {
    if (s[0] == 'r' || s[0] == 'b') && !after && RawOpen(s).Some? {
      if k < RawOpen(s).value.len {
        OpenerIsNoBrace(s, k);
      } else {
        TerminatorIsNoBrace(s, RawOpen(s).value, k);
      }
    }
  }

  /** Literals are opened and closed without braces. */
  ghost predicate HidesBraces(x: Lexer) {
    forall after, s, k: nat | s != "" && k < First(x, after, s).Length() <= |s| ::
      First(x, after, s).kind == Literal && !First(x, after, s).Hides(k, true) ==> !IsBrace(s[k])
  }

  lemma RustHidesBraces(beyond: Beyond)
    ensures HidesBraces(Rust(beyond))
  {
    var x := Rust(beyond);
    forall after, s, k: nat | s != "" && k < First(x, after, s).Length() <= |s|
      ensures First(x, after, s).kind == Literal && !First(x, after, s).Hides(k, true) ==> !IsBrace(s[k])
    {
      if Next(after, s).kind == Literal && !Next(after, s).Hides(k, true) {
        DelimitersAreNoBraces(after, s, k);
      }
    }
  }

  /** A mask shows, of all braces, exactly those of the code. */
  ghost predicate Faithful(m: char, c: char, code: bool) {
    if code then m == c else !IsBrace(m)
  }

  lemma SpotHere(x: Lexer, after: bool, text: string, k: nat)
    requires text != "" && k < First(x, after, text).Length()
    ensures SpotOf(x, after, text, k) == Spot(after, text, k)
  {
  }

  lemma SpotLater(x: Lexer, after: bool, text: string, rest: string, k: nat)
    requires text != "" && First(x, after, text).Length() <= k < |text| && rest == text[First(x, after, text).Length()..]
    ensures SpotOf(x, after, text, k)
         == SpotOf(x, x.word(text[First(x, after, text).Length() - 1]), rest, k - First(x, after, text).Length())
  {
  }

  lemma MaskHereAt(x: Lexer, after: bool, text: string, literals: bool, k: nat)
    requires text != "" && k < First(x, after, text).Length()
    ensures Mask(x, after, text, literals)[k] == Show(First(x, after, text), text, literals)[k]
  {
    MaskUnfolds(x, after, text, text[First(x, after, text).Length()..], literals);
  }

  lemma MaskLaterAt(x: Lexer, after: bool, text: string, rest: string, literals: bool, k: nat)
    requires text != "" && First(x, after, text).Length() <= k < |text| && rest == text[First(x, after, text).Length()..]
    ensures Mask(x, after, text, literals)[k]
         == Mask(x, x.word(text[First(x, after, text).Length() - 1]), rest, literals)[k - First(x, after, text).Length()]
  {
    MaskUnfolds(x, after, text, rest, literals);
  }

  ghost predicate ShownAt(x: Lexer, c: char, p: Spot, literals: bool) {
    p.text != "" && p.k < First(x, p.after, p.text).Length() && c == Show(First(x, p.after, p.text), p.text, literals)[p.k]
  }

  /** A mask shows each character as the token it is in shows it. */
  lemma {:induction false} MaskAt(x: Lexer, after: bool, text: string, literals: bool, k: nat)
    requires k < |text|
    ensures ShownAt(x, Mask(x, after, text, literals)[k], SpotOf(x, after, text, k), literals)
    decreases |text|
  {
    var n := First(x, after, text).Length();
    if k < n {
      SpotHere(x, after, text, k);
      MaskHereAt(x, after, text, literals, k);
    } else {
      var rest := text[n..];
      MaskAt(x, x.word(text[n - 1]), rest, literals, k - n);
      MaskLaterAt(x, after, text, rest, literals, k);
      SpotLater(x, after, text, rest, k);
    }
  }

  /** The mask has a brace exactly where the code has one. */
  lemma BracesAreCode(x: Lexer, text: string, k: nat)
    requires HidesBraces(x) && k < |text|
    ensures Faithful(Mask(x, false, text, true)[k], text[k], CodeAt(x, text, k))
  {
    MaskAt(x, false, text, true, k);
    var p := SpotOf(x, false, text, k);
    BraceShown(x, p.after, p.text, p.k);
  }

  lemma BraceShown(x: Lexer, after: bool, s: string, k: nat)
    requires HidesBraces(x) && s != "" && k < First(x, after, s).Length()
    ensures Faithful(Show(First(x, after, s), s, true)[k], s[k], First(x, after, s).kind == Code)
  {
    var t := First(x, after, s);
    assert t.kind == Literal && !t.Hides(k, true) ==> !IsBrace(s[k]);
  }

  function Step(c: char): int {
    if c == '{' then 1 else if c == '}' then -1 else 0
  }

  /** How many more braces `scan` opens than it closes from `open` to `k`. */
  function Depth(scan: string, open: nat, k: nat): int
    requires open <= k < |scan|
    decreases k
  {
    Step(scan[k]) + if open == k then 0 else Depth(scan, open, k - 1)
  }

  /** The same, of the code of `text` alone. */
  function CodeDepth(x: Lexer, text: string, open: nat, k: nat): int
    requires open <= k < |text|
    decreases k
  {
    (if CodeAt(x, text, k) then Step(text[k]) else 0)
    + if open == k then 0 else CodeDepth(x, text, open, k - 1)
  }

  ghost predicate ShowsBraces(x: Lexer, scan: string, text: string)
  {
    |scan| == |text| && forall k | 0 <= k < |text| :: Faithful(scan[k], text[k], CodeAt(x, text, k))
  }

  lemma {:induction false} DepthIsOfCode(x: Lexer, scan: string, text: string, open: nat, k: nat)
    requires open <= k < |text| && ShowsBraces(x, scan, text)
    ensures Depth(scan, open, k) == CodeDepth(x, text, open, k)
    decreases k
  {
    assert Faithful(scan[k], text[k], CodeAt(x, text, k));
    if open != k {
      DepthIsOfCode(x, scan, text, open, k - 1);
    }
  }

  datatype Block = Block(body: string, close: nat)

  /** A closing brace at which nothing is open. */
  predicate Shuts(scan: string, open: nat, j: nat) {
    open <= j < |scan| && scan[j] == '}' && Depth(scan, open, j) == 0
  }

  ghost predicate ShutsFirst(scan: string, open: nat, j: nat) {
    Shuts(scan, open, j) && forall k: nat | k < j :: !Shuts(scan, open, k)
  }

  /** The block from an opening brace: the braces counted in `scan`, the body cut from `text`. */
  method ExtractBraceBlock(text: string, open: nat, scan: string) returns (r: Option<Block>)
    requires |scan| == |text|
    ensures r.Some? ==>
      && open < r.value.close < |text| && r.value.body == text[open + 1..r.value.close]
      && ShutsFirst(scan, open, r.value.close)
    ensures r.None? ==> forall j: nat :: !Shuts(scan, open, j)
  {
    var depth := 0;
    var i := open;
    while i < |scan|
      invariant open <= i && (open < i ==> i <= |scan| && depth == Depth(scan, open, i - 1))
      invariant open == i ==> depth == 0
      invariant forall j: nat | j < i :: !Shuts(scan, open, j)
    {
      var ch := scan[i];
      if ch == '{' {
        depth := depth + 1;
      } else if ch == '}' {
        depth := depth - 1;
        if depth == 0 {
          return Some(Block(text[open + 1..i], i));
        }
      }
      i := i + 1;
    }
    return None;
  }

  /** `close` matches the brace at `open`: a brace of code, and the first point where no brace of code is open. */
  ghost predicate Matches(x: Lexer, text: string, open: nat, close: nat)
  {
    && open <= close < |text|
    && CodeDepth(x, text, open, close) == 0
    && forall k | open <= k < close :: CodeDepth(x, text, open, k) > 0
  }

  lemma {:induction false} OpenUntilShut(scan: string, open: nat, k: nat)
    requires open <= k < |scan| && scan[open] == '{'
    requires forall j: nat | open <= j <= k :: !Shuts(scan, open, j)
    ensures Depth(scan, open, k) > 0
    decreases k
  {
    assert !Shuts(scan, open, k);
    if open != k { OpenUntilShut(scan, open, k - 1); }
  }

  lemma ShutsWhereItMatches(x: Lexer, scan: string, text: string, open: nat, j: nat)
    requires ShowsBraces(x, scan, text)
    requires open < |text| && text[open] == '{' && CodeAt(x, text, open)
    ensures ShutsFirst(scan, open, j) <==> Matches(x, text, open, j)
    ensures Matches(x, text, open, j) ==> text[j] == '}' && CodeAt(x, text, j)
  {
    assert Faithful(scan[open], text[open], CodeAt(x, text, open));
    if open <= j < |text| {
      assert Faithful(scan[j], text[j], CodeAt(x, text, j));
      forall k: nat | open <= k <= j ensures Depth(scan, open, k) == CodeDepth(x, text, open, k) {
        DepthIsOfCode(x, scan, text, open, k);
      }
      if ShutsFirst(scan, open, j) {
        forall k: nat | open <= k < j ensures CodeDepth(x, text, open, k) > 0 {
          OpenUntilShut(scan, open, k);
        }
      }
      if Matches(x, text, open, j) {
        assert j > open && CodeDepth(x, text, open, j - 1) > 0;
        forall k: nat | k < j ensures !Shuts(scan, open, k) {
          assert k >= open ==> CodeDepth(x, text, open, k) > 0;
        }
      }
    }
  }

  /** Over the mask, the block of a brace of code closes exactly at the brace of code that matches it. */
  lemma BlockShutsWhereItMatches(text: string, open: nat, j: nat, beyond: Beyond)
    requires open < |text| && text[open] == '{' && CodeAt(Rust(beyond), text, open)
    ensures var x := Rust(beyond);
            && (ShutsFirst(Mask(x, false, text, true), open, j) <==> Matches(x, text, open, j))
            && (Matches(x, text, open, j) ==> text[j] == '}' && CodeAt(x, text, j))
  {
    var x := Rust(beyond);
    RustHidesBraces(beyond);
    MaskShowsBraces(x, text);
    ShutsWhereItMatches(x, Mask(x, false, text, true), text, open, j);
  }

  lemma MaskShowsBraces(x: Lexer, text: string)
    requires HidesBraces(x)
    ensures ShowsBraces(x, Mask(x, false, text, true), text)
  {
    var scan := Mask(x, false, text, true);
    forall k: nat | k < |text| ensures Faithful(scan[k], text[k], CodeAt(x, text, k)) {
      BracesAreCode(x, text, k);
    }
  }
}
