/**
 Masking literals twice. The second scan meets the closing quote of an escaped char literal as a quote of its own,
 the backslash before it being gone, and may take it to open a literal. `Realigns` says of a text, token by token,
 whether that ever changes anything.
 */
module RustMaskTwice {
  import opened Wrappers
  import opened RustMask
  import opened RustMaskMeaning

  // ---------------------------------------------------------------- the condition

  predicate IsBlank(c: char) {
    c == ' ' || c == '\n'
  }

  /** An escaped char literal, closed. */
  predicate EscapeFirst(s: string) {
    |s| > 1 && s[0] == '\'' && s[1] == '\\' && TickToken(s).tail == 1
  }

  /** From here on, with both scans at the start of a token of the text. */
  predicate Realigns(after: bool, text: string, beyond: Beyond)
    decreases |text|, 0
  {
    if text == "" then true
    else
      var n := Next(after, text).Length();
      if EscapeFirst(text) then Strays(text[n..], beyond) else Realigns(IsWord(text[n - 1], beyond), text[n..], beyond)
  }

  /**
   From here on, with the second scan one quote behind. A backslash, or a character of code and a quote, is taken
   into the literal that quote seems to open; a blank and a quote are too, which changes nothing there.
   */
  predicate Strays(text: string, beyond: Beyond)
    decreases |text|, 1
  {
    if text == "" then true
    else if text[0] == '\\' then false
    else if Next(false, text) == OneOfCode && |text| > 1 && text[1] == '\'' then
      IsBlank(text[0]) && StraysOn(text[1..], beyond)
    else Realigns(false, text, beyond)
  }

  /** The same, with the quote here already taken. */
  predicate StraysOn(text: string, beyond: Beyond)
    requires text != ""
    decreases |text|, 0
  {
    var t := TickToken(text);
    if t == OneOfCode then Realigns(false, text[1..], beyond)
    else t.tail == 0 || Strays(text[t.Length()..], beyond)
  }

  // ---------------------------------------------------------------- literals found again

  lemma {:induction false} BlankString(s: string, n: nat)
    requires n <= |s| && AllBlank(s[..n]) && (n < |s| ==> s[n] == '"')
    ensures StringLen(s) == n
    decreases n
  {
    if n > 0 {
      assert s[..n][0] == s[0] && s[1..][..n - 1] == s[..n][1..];
      BlankString(s[1..], n - 1);
    }
  }

  lemma {:induction false} BlankFind(s: string, n: nat, p: string)
    requires n + |p| <= |s| && AllBlank(s[..n]) && p != "" && p[0] == '"' && s[n..][..|p|] == p
    ensures Find(s, p) == Some(n)
    decreases n
  {
    if n == 0 {
      assert s[0..] == s;
    } else {
      assert s[..n][0] == s[0] && s[1..][..n - 1] == s[..n][1..] && s[1..][n - 1..] == s[n..];
      assert s[..|p|][0] == s[0];
      BlankFind(s[1..], n - 1, p);
    }
  }

  lemma {:induction false} BlankFindNone(s: string, p: string)
    requires AllBlank(s) && p != "" && p[0] == '"'
    ensures Find(s, p) == None
    decreases |s|
  {
    if s != "" {
      assert |p| <= |s| ==> s[..|p|][0] == s[0];
      BlankFindNone(s[1..], p);
    }
  }

  /** `m` is the text with the inside of its first token blanked, and then some blanking of the rest. */
  ghost predicate ShownThen(t: Token, s: string, m: string) {
    && 0 < t.Length() <= |s| == |m| && Blanking(m, s)
    && forall k | 0 <= k < t.Length() :: m[k] == if t.Hides(k, true) && s[k] != '\n' then ' ' else s[k]
  }

  lemma StringAgain(s: string, m: string)
    requires s != "" && s[0] == '"' && ShownThen(StringToken(s), s, m)
    ensures StringToken(m) == StringToken(s)
  {
    var t := StringToken(s);
    var n := StringLen(s[1..]);
    var inside := m[1..][..n];
    assert forall k | 0 <= k < n :: inside[k] == m[1 + k];
    BlankString(m[1..], n);
  }

  lemma RawAgain(s: string, m: string)
    requires RawOpen(s).Some? && ShownThen(RawToken(s, RawOpen(s).value), s, m)
    ensures RawOpen(m) == RawOpen(s) && RawToken(m, RawOpen(s).value) == RawToken(s, RawOpen(s).value)
  {
    OpenerIn(s, m, RawOpen(s).value);
    RawFoundAgain(s, m, RawOpen(s).value);
  }

  lemma RawFoundAgain(s: string, m: string, o: Opener)
    requires 0 < o.len <= |s| && ShownThen(RawToken(s, o), s, m)
    ensures RawToken(m, o) == RawToken(s, o)
  {
    var t, p, tail := RawToken(s, o), RawClose(o.hashes), m[o.len..];
    var n := t.body;
    var inside := tail[..n];
    assert forall k | 0 <= k < n :: inside[k] == m[o.len + k];
    if t.tail == 0 {
      assert inside == tail;
      BlankFindNone(tail, p);
    } else {
      TerminatorAgain(s, m, o.len, n, p);
      BlankFind(tail, n, p);
    }
  }

  lemma TerminatorAgain(s: string, m: string, at: nat, n: nat, p: string)
    requires |m| == |s| && at + n + |p| <= |s| && StartsWith(s[at..][n..], p)
    requires forall k | at + n <= k < at + n + |p| :: m[k] == s[k]
    ensures m[at..][n..][..|p|] == p
  {
    var a, b := s[at + n..], m[at + n..];
    assert s[at..][n..] == a && m[at..][n..] == b;
    assert forall k | 0 <= k < |p| :: b[k] == a[k];
    assert b[..|p|] == a[..|p|];
  }

  /** A token that is neither a comment nor an escaped char literal is found again with its inside blanked. */
  lemma FoundAgain(after: bool, later: bool, s: string, m: string)
    requires s != "" && Next(after, s).kind != Comment && !(|s| > 1 && s[0] == '\'' && s[1] == '\\')
    requires ShownThen(Next(after, s), s, m) && (MayOpenRaw(s) ==> after == later)
    ensures Next(later, m) == Next(after, s)
  {
    var t := Next(after, s);
    BeforeDoesNotMatter(after, later, m);
    if t.kind == Code {
      SameToken(after, s, m);
    } else if (s[0] == 'r' || s[0] == 'b') && !after && RawOpen(s).Some? {
      RawAgain(s, m);
    } else if s[0] == '"' {
      StringAgain(s, m);
    }
  }

  // ---------------------------------------------------------------- the second mask, case by case

  /** The mask of a text, literals and all. */
  function Shown(after: bool, text: string, beyond: Beyond): (r: string)
    ensures |r| == |text|
    decreases |text|
  {
    if text == "" then ""
    else
      var t := Next(after, text);
      Show(t, text, true) + Shown(IsWord(text[t.Length() - 1], beyond), text[t.Length()..], beyond)
  }

  lemma {:induction false} ShownIsMask(after: bool, text: string, beyond: Beyond)
    ensures Shown(after, text, beyond) == Mask(Rust(beyond), after, text, true)
    decreases |text|
  {
    if text != "" {
      var n := Next(after, text).Length();
      MaskIs(after, text, text[n..], beyond);
      ShownIsMask(IsWord(text[n - 1], beyond), text[n..], beyond);
    }
  }

  lemma MaskIs(after: bool, s: string, rest: string, beyond: Beyond)
    requires s != "" && rest == s[Next(after, s).Length()..]
    ensures Mask(Rust(beyond), after, s, true)
         == Show(Next(after, s), s, true) + Mask(Rust(beyond), IsWord(s[Next(after, s).Length() - 1], beyond), rest, true)
  {
    RustFirst(beyond, after, s);
    MaskUnfolds(Rust(beyond), after, s, rest, true);
  }

  /** A scan of `m` from here changes nothing. */
  predicate Stable(after: bool, m: string, beyond: Beyond) {
    Shown(after, m, beyond) == m
  }

  lemma Unfolds(after: bool, s: string, rest: string, beyond: Beyond)
    requires s != "" && rest == s[Next(after, s).Length()..]
    ensures Shown(after, s, beyond)
         == Show(Next(after, s), s, true) + Shown(IsWord(s[Next(after, s).Length() - 1], beyond), rest, beyond)
  {
  }

  /** A token kept as it is leaves it to the rest. */
  lemma StableAfter(after: bool, head: string, rest: string, beyond: Beyond)
    requires head != "" && Next(after, head + rest).Length() == |head|
    requires Show(Next(after, head + rest), head + rest, true) == head
    ensures Stable(after, head + rest, beyond) <==> Stable(IsWord(head[|head| - 1], beyond), rest, beyond)
  {
    var m := head + rest;
    assert m[|head|..] == rest && m[|head| - 1] == head[|head| - 1];
    Unfolds(after, m, rest, beyond);
    Cancel(head, Shown(IsWord(head[|head| - 1], beyond), rest, beyond), rest);
  }

  lemma Cancel(head: string, a: string, b: string)
    ensures head + a == head + b <==> a == b
  {
    if head + a == head + b {
      assert a == (head + a)[|head|..] == (head + b)[|head|..] == b;
    }
  }

  lemma BlanksShown(after: bool, blanks: string, rest: string, beyond: Beyond)
    requires AllBlank(blanks) && blanks != ""
    ensures Shown(after, blanks + rest, beyond) == blanks + Shown(false, rest, beyond)
  {
    RustSettles(beyond);
    BlanksStay(Rust(beyond), after, blanks, rest, true);
    ShownIsMask(after, blanks + rest, beyond);
    ShownIsMask(false, rest, beyond);
  }

  lemma BlanksStable(after: bool, blanks: string, rest: string, beyond: Beyond)
    requires AllBlank(blanks) && blanks != ""
    ensures Stable(after, blanks + rest, beyond) <==> Stable(false, rest, beyond)
  {
    BlanksShown(after, blanks, rest, beyond);
    Cancel(blanks, Shown(false, rest, beyond), rest);
  }

  /** The quote of a label, or one that seems to be: it and what follows. */
  lemma LabelStable(after: bool, rest: string, beyond: Beyond)
    requires (rest != "" ==> rest[0] != '\\') && (|rest| > 1 ==> rest[1] != '\'')
    ensures Stable(after, "'" + rest, beyond) <==> Stable(false, rest, beyond)
  {
    var m := "'" + rest;
    assert m[0] == '\'' && (|m| > 1 ==> m[1] == rest[0]) && (|m| > 2 ==> m[2] == rest[1]);
    assert Next(after, m) == TickToken(m) == OneOfCode;
    StableAfter(after, "'", rest, beyond);
  }

  /** A token as it shows has no quote in second place, and a backslash in first only if it is one. */
  lemma TokenStart(after: bool, s: string)
    requires s != ""
    ensures var shown := Show(Next(after, s), s, true);
            && (shown[0] == '\\' <==> s[0] == '\\') && (shown[0] == '\'' <==> s[0] == '\'')
            && (|shown| > 1 ==> shown[1] != '\'')
  {
    var t := Next(after, s);
    if t.kind == Literal && t.Length() > 1 && (s[0] == 'r' || s[0] == 'b') && !after && RawOpen(s).Some? {
      RawStart(s);
    }
  }

  /** A raw string's opener goes on with a hash, an `r` or a double quote. */
  lemma RawStart(s: string)
    requires RawOpen(s).Some?
    ensures RawOpen(s).value.len >= 2 && s[1] != '\''
  {
    var at := if s != "" && s[0] == 'b' then 1 else 0;
    if at == 0 && Hashes(s[1..]) > 0 {
      assert s[1..][0] == '#';
    }
  }

  /** What the mask of a rest starts with. */
  lemma ShownStart(after: bool, text: string, beyond: Beyond)
    requires text != ""
    ensures var m := Shown(after, text, beyond);
            (m[0] == '\\' <==> text[0] == '\\') && (m[0] == '\'' <==> text[0] == '\'')
  {
    var t := Next(after, text);
    Unfolds(after, text, text[t.Length()..], beyond);
    TokenStart(after, text);
  }

  lemma ShownSecond(text: string, beyond: Beyond)
    requires text != ""
    ensures var m := Shown(false, text, beyond);
            && (|m| > 1 && m[1] == '\'' <==> Next(false, text) == OneOfCode && |text| > 1 && text[1] == '\'')
  {
    var t := Next(false, text);
    Unfolds(false, text, text[t.Length()..], beyond);
    if t.Length() == 1 && |text| > 1 {
      ShownStart(IsWord(text[0], beyond), text[1..], beyond);
      SingleIsCode(false, text);
    } else {
      TokenStart(false, text);
    }
  }

  /** Only code comes in tokens of one character, but for a quote that ends the text. */
  lemma SingleIsCode(after: bool, s: string)
    requires |s| > 1 && Next(after, s).Length() == 1
    ensures Next(after, s) == OneOfCode
  {
  }

  lemma TickParts(s: string) returns (blanks: string)
    requires s != "" && s[0] == '\'' && TickToken(s).tail == 1
    ensures Show(TickToken(s), s, true) == "'" + blanks + "'"
    ensures AllBlank(blanks) && |blanks| == TickToken(s).Length() - 2 && blanks != "" && (EscapeFirst(s) ==> |blanks| > 1)
  {
    var t := TickToken(s);
    var n := t.Length();
    var shown := Show(t, s, true);
    blanks := shown[1..n - 1];
    assert forall k | 0 <= k < n - 2 :: blanks[k] == shown[k + 1];
  }

  /** A closed tick literal shows as a quote, blanks, and a quote. */
  lemma TickMasked(after: bool, s: string, beyond: Beyond) returns (blanks: string)
    requires s != "" && s[0] == '\'' && TickToken(s).tail == 1
    ensures Shown(after, s, beyond) == "'" + (blanks + ("'" + Shown(false, s[TickToken(s).Length()..], beyond)))
    ensures AllBlank(blanks) && blanks != "" && (EscapeFirst(s) ==> |blanks| > 1)
  {
    var t := TickToken(s);
    var n := t.Length();
    assert Next(after, s) == t && s[n - 1] == '\'';
    blanks := TickParts(s);
    Unfolds(after, s, s[n..], beyond);
    Regroup(blanks, Shown(false, s[n..], beyond));
  }

  lemma Regroup(blanks: string, rest: string)
    ensures "'" + blanks + "'" + rest == "'" + (blanks + ("'" + rest))
  {
  }

  /** One that is not closed shows as a quote and blanks, to the end. */
  lemma UnclosedMasked(after: bool, s: string, beyond: Beyond) returns (blanks: string)
    requires s != "" && s[0] == '\'' && TickToken(s).kind == Literal && TickToken(s).tail == 0
    ensures Shown(after, s, beyond) == "'" + blanks && AllBlank(blanks) && blanks != ""
    ensures TickToken(s).Length() == |s|
  {
    var t := TickToken(s);
    assert Next(after, s) == t;
    var shown := Show(t, s, true);
    blanks := shown[1..];
    assert forall k | 0 <= k < |s| - 1 :: blanks[k] == shown[k + 1];
    Unfolds(after, s, "", beyond);
    assert shown == "'" + blanks && shown + "" == shown;
  }

  lemma BlanksAloneStable(after: bool, blanks: string, beyond: Beyond)
    requires AllBlank(blanks)
    ensures Stable(after, blanks, beyond)
  {
    if blanks != "" {
      BlanksStable(after, blanks, "", beyond);
      assert blanks + "" == blanks;
    }
  }

  lemma EscapeStable(after: bool, later: bool, s: string, beyond: Beyond)
    requires EscapeFirst(s)
    ensures Stable(later, Shown(after, s, beyond), beyond)
       <==> Stable(false, "'" + Shown(false, s[TickToken(s).Length()..], beyond), beyond)
  {
    var blanks := TickMasked(after, s, beyond);
    var q := "'" + Shown(false, s[TickToken(s).Length()..], beyond);
    assert (blanks + q)[0] == blanks[0] && (blanks + q)[1] == blanks[1];
    LabelStable(later, blanks + q, beyond);
    BlanksStable(false, blanks, q, beyond);
  }

  lemma UnclosedStable(after: bool, later: bool, s: string, beyond: Beyond)
    requires s != "" && s[0] == '\'' && TickToken(s).kind == Literal && TickToken(s).tail == 0
    ensures Stable(later, Shown(after, s, beyond), beyond)
  {
    var blanks := UnclosedMasked(after, s, beyond);
    LabelStable(later, blanks, beyond);
    BlanksAloneStable(false, blanks, beyond);
  }

  lemma ShownIsBlanking(after: bool, text: string, beyond: Beyond)
    ensures Blanking(Shown(after, text, beyond), text)
  {
    ShownIsMask(after, text, beyond);
    OffsetsKept(Rust(beyond), after, text, true);
  }

  /** A token found again is kept, and leaves it to the rest. */
  lemma FoundStable(after: bool, later: bool, s: string, rest: string, word: bool, beyond: Beyond)
    requires s != "" && Next(after, s).kind != Comment && !(|s| > 1 && s[0] == '\'' && s[1] == '\\')
    requires (MayOpenRaw(s) ==> after == later) && rest == s[Next(after, s).Length()..]
    requires word == IsWord(s[Next(after, s).Length() - 1], beyond)
    ensures Stable(later, Shown(after, s, beyond), beyond) <==> Stable(word, Shown(word, rest, beyond), beyond)
  {
    var shown, mr := Show(Next(after, s), s, true), Shown(word, rest, beyond);
    Unfolds(after, s, rest, beyond);
    ShownIsBlanking(word, rest, beyond);
    ShownAgain(after, later, s, rest, shown, mr);
    StableAfter(later, shown, mr, beyond);
    if rest == "" {
      assert mr == "";
      EmptyStable(word, shown != "" && IsWord(shown[|shown| - 1], beyond), beyond);
      EmptyStable(word, word, beyond);
    } else {
      LastIsShown(after, s);
    }
  }

  lemma EmptyStable(after: bool, later: bool, beyond: Beyond)
    ensures Stable(later, Shown(after, "", beyond), beyond)
  {
  }

  lemma ShownAgain(after: bool, later: bool, s: string, rest: string, shown: string, mr: string)
    requires s != "" && Next(after, s).kind != Comment && !(|s| > 1 && s[0] == '\'' && s[1] == '\\')
    requires (MayOpenRaw(s) ==> after == later) && rest == s[Next(after, s).Length()..]
    requires shown == Show(Next(after, s), s, true) && Blanking(mr, rest)
    ensures Next(later, shown + mr) == Next(after, s) && Show(Next(after, s), shown + mr, true) == shown
  {
    var n := |shown|;
    var m := shown + mr;
    assert Blanking(m, s) by {
      assert s == s[..n] + rest;
    }
    FoundAgain(after, later, s, m);
  }

  lemma LastIsShown(after: bool, s: string)
    requires s != "" && Next(after, s).kind != Comment && Next(after, s).Length() < |s|
    ensures !Next(after, s).Hides(Next(after, s).Length() - 1, true)
  {
  }

  lemma CommentStable(after: bool, later: bool, s: string, rest: string, beyond: Beyond)
    requires s != "" && Next(after, s).kind == Comment && rest == s[Next(after, s).Length()..]
    ensures var word := IsWord(s[Next(after, s).Length() - 1], beyond);
            Stable(later, Shown(after, s, beyond), beyond) <==> Stable(false, Shown(word, rest, beyond), beyond)
  {
    var word := IsWord(s[Next(after, s).Length() - 1], beyond);
    Unfolds(after, s, rest, beyond);
    BlanksStable(later, Show(Next(after, s), s, true), Shown(word, rest, beyond), beyond);
  }

  /** After a comment nothing hangs on what came before. */
  lemma CommentLeaves(after: bool, s: string, rest: string, beyond: Beyond)
    requires s != "" && Next(after, s).kind == Comment && rest == s[Next(after, s).Length()..]
    ensures MayOpenRaw(rest) ==> !IsWord(s[Next(after, s).Length() - 1], beyond)
    ensures !EscapeFirst(s)
  {
    if rest != "" { CommentEnd(after, s, beyond); }
  }

  // ---------------------------------------------------------------- exactly when

  lemma {:induction false} RealignsExactly(after: bool, later: bool, text: string, beyond: Beyond)
    requires MayOpenRaw(text) ==> after == later
    ensures Stable(later, Shown(after, text, beyond), beyond) <==> Realigns(after, text, beyond)
    decreases |text|, 1
  {
    if text == "" {
      EmptyStable(after, later, beyond);
    } else if Next(after, text).kind == Comment {
      CommentRealigns(after, later, text, beyond);
    } else if |text| > 1 && text[0] == '\'' && text[1] == '\\' {
      EscapeRealigns(after, later, text, beyond);
    } else {
      FoundRealigns(after, later, text, beyond);
    }
  }

  lemma {:induction false} EscapeRealigns(after: bool, later: bool, text: string, beyond: Beyond)
    requires |text| > 1 && text[0] == '\'' && text[1] == '\\'
    ensures Stable(later, Shown(after, text, beyond), beyond) <==> Realigns(after, text, beyond)
    decreases |text|, 0
  {
    EscapeIsNext(after, text, beyond);
    if EscapeFirst(text) {
      EscapeStable(after, later, text, beyond);
      StraysExactly(false, text[TickToken(text).Length()..], beyond);
    } else {
      UnclosedStable(after, later, text, beyond);
    }
  }

  lemma EscapeIsNext(after: bool, text: string, beyond: Beyond)
    requires |text| > 1 && text[0] == '\'' && text[1] == '\\'
    ensures Realigns(after, text, beyond) <==> !EscapeFirst(text) || Strays(text[TickToken(text).Length()..], beyond)
    ensures !EscapeFirst(text) ==> TickToken(text).tail == 0
  {
    assert Next(after, text) == TickToken(text);
    if !EscapeFirst(text) {
      assert text[TickToken(text).Length()..] == "";
    }
  }

  lemma {:induction false} CommentRealigns(after: bool, later: bool, text: string, beyond: Beyond)
    requires text != "" && Next(after, text).kind == Comment
    ensures Stable(later, Shown(after, text, beyond), beyond) <==> Realigns(after, text, beyond)
    decreases |text|, 0
  {
    var n := Next(after, text).Length();
    CommentStable(after, later, text, text[n..], beyond);
    CommentLeaves(after, text, text[n..], beyond);
    RealignsExactly(IsWord(text[n - 1], beyond), false, text[n..], beyond);
  }

  lemma {:induction false} FoundRealigns(after: bool, later: bool, text: string, beyond: Beyond)
    requires text != "" && Next(after, text).kind != Comment && !(|text| > 1 && text[0] == '\'' && text[1] == '\\')
    requires MayOpenRaw(text) ==> after == later
    ensures Stable(later, Shown(after, text, beyond), beyond) <==> Realigns(after, text, beyond)
    decreases |text|, 0
  {
    var n := Next(after, text).Length();
    var word, rest := IsWord(text[n - 1], beyond), text[n..];
    FoundStable(after, later, text, rest, word, beyond);
    RealignsOn(after, text, word, rest, beyond);
    RealignsExactly(word, word, rest, beyond);
  }

  lemma RealignsOn(after: bool, text: string, word: bool, rest: string, beyond: Beyond)
    requires text != "" && !EscapeFirst(text)
    requires word == IsWord(text[Next(after, text).Length() - 1], beyond) && rest == text[Next(after, text).Length()..]
    ensures Realigns(after, text, beyond) <==> Realigns(word, rest, beyond)
  {
  }

  lemma {:induction false} StraysExactly(later: bool, text: string, beyond: Beyond)
    ensures Stable(later, "'" + Shown(false, text, beyond), beyond) <==> Strays(text, beyond)
    decreases |text|, 2
  {
    if text == "" {
      LabelStable(later, "", beyond);
    } else {
      ShownStart(false, text, beyond);
      ShownSecond(text, beyond);
      if text[0] == '\\' {
        BackslashTaken(later, Shown(false, text, beyond), beyond);
      } else if Next(false, text) == OneOfCode && |text| > 1 && text[1] == '\'' {
        QuoteTaken(later, text, beyond);
        if IsBlank(text[0]) { StraysOnExactly(text[1..], beyond); }
      } else {
        LabelStable(later, Shown(false, text, beyond), beyond);
        RealignsExactly(false, false, text, beyond);
      }
    }
  }

  lemma BackslashTaken(later: bool, rest: string, beyond: Beyond)
    requires rest != "" && rest[0] == '\\'
    ensures !Stable(later, "'" + rest, beyond)
  {
    var m := "'" + rest;
    var t := Next(later, m);
    assert m[0] == '\'' && m[1] == '\\';
    assert t == TickToken(m) && t.Hides(1, true);
    Unfolds(later, m, m[t.Length()..], beyond);
  }

  /** The quote that is one too many takes the next character and the quote after it. */
  lemma QuoteTaken(later: bool, text: string, beyond: Beyond)
    requires |text| > 1 && Next(false, text) == OneOfCode && text[0] != '\\' && text[1] == '\''
    ensures Stable(later, "'" + Shown(false, text, beyond), beyond)
       <==> IsBlank(text[0]) && Stable(false, Shown(false, text[1..], beyond)[1..], beyond)
  {
    CodeShown(text, text[1..], beyond);
    ShownStart(false, text[1..], beyond);
    CharTaken(later, text[0], Shown(false, text[1..], beyond), beyond);
  }

  lemma CodeShown(text: string, rest: string, beyond: Beyond)
    requires |text| > 1 && Next(false, text) == OneOfCode && text[1] == '\'' && rest == text[1..]
    ensures Shown(false, text, beyond) == [text[0]] + Shown(false, rest, beyond)
  {
    Unfolds(false, text, rest, beyond);
    assert Show(OneOfCode, text, true) == [text[0]];
    BeforeATick(IsWord(text[0], beyond), rest, beyond);
  }

  lemma CharTaken(later: bool, c: char, mt: string, beyond: Beyond)
    requires c != '\\' && mt != "" && mt[0] == '\''
    ensures Stable(later, "'" + ([c] + mt), beyond) <==> IsBlank(c) && Stable(false, mt[1..], beyond)
  {
    var m, head := "'" + ([c] + mt), "'" + [c] + "'";
    assert m == head + mt[1..];
    CharIs(later, m, c);
    if IsBlank(c) {
      assert Show(Token(Literal, 1, 1, 1), m, true) == head;
      StableAfter(later, head, mt[1..], beyond);
    } else {
      CharLost(later, m, beyond);
    }
  }

  lemma CharIs(later: bool, m: string, c: char)
    requires |m| >= 3 && m[0] == m[2] == '\'' && m[1] == c != '\\'
    ensures Next(later, m) == Token(Literal, 1, 1, 1)
  {
  }

  lemma CharLost(later: bool, m: string, beyond: Beyond)
    requires |m| >= 3 && Next(later, m) == Token(Literal, 1, 1, 1) && !IsBlank(m[1])
    ensures !Stable(later, m, beyond)
  {
    Unfolds(later, m, m[3..], beyond);
    assert Show(Token(Literal, 1, 1, 1), m, true)[1] == ' ';
  }

  lemma BeforeATick(after: bool, text: string, beyond: Beyond)
    requires text != "" && text[0] == '\''
    ensures Shown(after, text, beyond) == Shown(false, text, beyond)
  {
    var n := Next(after, text).Length();
    Unfolds(after, text, text[n..], beyond);
    Unfolds(false, text, text[n..], beyond);
  }

  lemma {:induction false} StraysOnExactly(text: string, beyond: Beyond)
    requires text != "" && text[0] == '\''
    ensures Stable(false, Shown(false, text, beyond)[1..], beyond) <==> StraysOn(text, beyond)
    decreases |text|, 0
  {
    var t := TickToken(text);
    if t == OneOfCode {
      Unfolds(false, text, text[1..], beyond);
      assert Shown(false, text, beyond)[1..] == Shown(false, text[1..], beyond);
      RealignsExactly(false, false, text[1..], beyond);
    } else if t.tail == 0 {
      var blanks := UnclosedMasked(false, text, beyond);
      assert Shown(false, text, beyond)[1..] == blanks;
      BlanksAloneStable(false, blanks, beyond);
    } else {
      var rest := text[t.Length()..];
      var blanks := TickMasked(false, text, beyond);
      var q := "'" + Shown(false, rest, beyond);
      assert Shown(false, text, beyond)[1..] == blanks + q;
      BlanksStable(false, blanks, q, beyond);
      StraysExactly(false, rest, beyond);
    }
  }

  /** Masking literals twice is masking them once exactly when the second scan comes back into step unharmed. */
  lemma LiteralMaskIsIdempotentExactlyWhen(text: string, beyond: Beyond)
    ensures var x := Rust(beyond);
            Mask(x, false, Mask(x, false, text, true), true) == Mask(x, false, text, true) <==> Realigns(false, text, beyond)
  {
    RealignsExactly(false, false, text, beyond);
    ShownIsMask(false, text, beyond);
    ShownIsMask(false, Shown(false, text, beyond), beyond);
  }

  // ---------------------------------------------------------------- where it does, and where it does not

  /** No token of the text is an escaped char literal. */
  predicate NoEscapes(after: bool, text: string, beyond: Beyond)
    decreases |text|
  {
    if text == "" then true
    else
      var n := Next(after, text).Length();
      !EscapeFirst(text) && NoEscapes(IsWord(text[n - 1], beyond), text[n..], beyond)
  }

  /** Without escaped char literals it always does. */
  lemma {:induction false} NoEscapesRealigns(after: bool, text: string, beyond: Beyond)
    requires NoEscapes(after, text, beyond)
    ensures Realigns(after, text, beyond)
    decreases |text|
  {
    if text != "" {
      var n := Next(after, text).Length();
      NoEscapesRealigns(IsWord(text[n - 1], beyond), text[n..], beyond);
    }
  }

  /** In a list of an escaped char and a plain one, as `['\n','a']`, it does not: the comma is taken. */
  lemma ListDoesNot(list: string, beyond: Beyond)
    requires |list| == 10 && list[0] == '[' && list[1] == list[4] == list[6] == list[8] == '\'' && list[2] == '\\'
    requires list[5] == ','
    ensures !Realigns(false, list, beyond)
  {
    var s := list[1..];
    assert s[3..][0] == '\'';
    assert Next(false, list) == OneOfCode && TickToken(s) == Token(Literal, 1, 2, 1);
    assert s[4..][0] == ',' && s[4..][1] == '\'';
    assert !Strays(s[4..], beyond);
  }
}
