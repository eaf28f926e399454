/**
 Escaping a `LIKE` needle (crates/openalpaca_storage/src/sql.rs), against a matcher for `LIKE ... ESCAPE '\'`
 (section 8.5 of ISO/IEC 9075-2).
 */
module LikeEscape {
  /** How the database compares letters: `fold` brings them to one case. */
  type Fold = char -> char

  predicate IsMeta(c: char) {
    c == '\\' || c == '%' || c == '_'
  }

  /** What a pattern says of the texts it matches, one item at a time. */
  function Matches(pattern: string, text: string, fold: Fold): bool
    decreases |pattern|, |text|
  {
    if pattern == "" then text == ""
    else if pattern[0] == '%' then
      Matches(pattern[1..], text, fold) || (text != "" && Matches(pattern, text[1..], fold))
    else if pattern[0] == '_' then text != "" && Matches(pattern[1..], text[1..], fold)
    else if pattern[0] == '\\' then
      |pattern| > 1 && text != "" && fold(text[0]) == fold(pattern[1]) && Matches(pattern[2..], text[1..], fold)
    else text != "" && fold(text[0]) == fold(pattern[0]) && Matches(pattern[1..], text[1..], fold)
  }

  function Escaped(needle: string): string {
    if needle == "" then ""
    else (if IsMeta(needle[0]) then ['\\', needle[0]] else [needle[0]]) + Escaped(needle[1..])
  }

  lemma {:induction false} EscapedOneMore(s: string, c: char)
    ensures Escaped(s + [c]) == Escaped(s) + if IsMeta(c) then ['\\', c] else [c]
  {
    if s == "" {
      assert s + [c] == [c];
      assert [c][1..] == "";
    } else {
      assert (s + [c])[1..] == s[1..] + [c];
      EscapedOneMore(s[1..], c);
    }
  }

  method EscapeLike(needle: string) returns (out: string)
    ensures out == Escaped(needle)
  {
    out := "";
    for k := 0 to |needle|
      invariant out == Escaped(needle[..k])
    {
      var ch := needle[k];
      EscapedOneMore(needle[..k], ch);
      assert needle[..k + 1] == needle[..k] + [ch];
      if IsMeta(ch) {
        out := out + ['\\'];
      }
      out := out + [ch];
    }
    assert needle[..|needle|] == needle;
  }

  /** The two texts are the same, case aside. */
  predicate Same(a: string, b: string, fold: Fold) {
    |a| == |b| && forall k | 0 <= k < |a| :: fold(a[k]) == fold(b[k])
  }

  lemma SameFirst(a: string, b: string, fold: Fold)
    requires a != "" && b != ""
    ensures Same(a, b, fold) <==> fold(a[0]) == fold(b[0]) && Same(a[1..], b[1..], fold)
  {
    if fold(a[0]) == fold(b[0]) && Same(a[1..], b[1..], fold) {
      forall k | 0 <= k < |a| ensures fold(a[k]) == fold(b[k]) {
        if k > 0 { assert fold(a[1..][k - 1]) == fold(b[1..][k - 1]); }
      }
    }
  }

  /** An escaped needle, and any pattern after it: the needle itself, then what the pattern matches. */
  lemma {:induction false} MatchesNeedleThen(needle: string, pattern: string, text: string, fold: Fold)
    ensures Matches(Escaped(needle) + pattern, text, fold)
       <==> |needle| <= |text| && Same(text[..|needle|], needle, fold) && Matches(pattern, text[|needle|..], fold)
    decreases |needle|
  {
    if needle == "" {
      assert Escaped(needle) + pattern == pattern && text[0..] == text;
    } else {
      var c, rest := needle[0], Escaped(needle[1..]) + pattern;
      var p := Escaped(needle) + pattern;
      if IsMeta(c) {
        assert p == ['\\', c] + rest;
        assert p[2..] == rest;
      } else {
        assert p == [c] + rest;
        assert p[1..] == rest;
      }
      if text != "" {
        assert Matches(p, text, fold) <==> fold(text[0]) == fold(c) && Matches(rest, text[1..], fold);
        MatchesNeedleThen(needle[1..], pattern, text[1..], fold);
        if |needle| <= |text| {
          SameFirst(text[..|needle|], needle, fold);
          assert text[..|needle|][1..] == text[1..][..|needle| - 1];
          assert text[|needle|..] == text[1..][|needle| - 1..];
        }
      }
    }
  }

  /** The escaped needle matches the needle alone. */
  lemma MatchesOnlyItself(needle: string, text: string, fold: Fold)
    ensures Matches(Escaped(needle), text, fold) <==> Same(text, needle, fold)
  {
    MatchesNeedleThen(needle, "", text, fold);
    assert Escaped(needle) + "" == Escaped(needle);
    if |needle| == |text| { assert text[..|needle|] == text; }
  }

  predicate HasAt(text: string, needle: string, k: nat, fold: Fold) {
    k + |needle| <= |text| && Same(text[k..k + |needle|], needle, fold)
  }

  ghost predicate Contains(text: string, needle: string, fold: Fold) {
    exists k :: HasAt(text, needle, k, fold)
  }

  lemma {:induction false} MatchesAnything(text: string, fold: Fold)
    ensures Matches("%", text, fold)
    decreases |text|
  {
    if text != "" {
      MatchesAnything(text[1..], fold);
    } else {
      assert "%"[1..] == "";
    }
  }

  predicate MatchesFrom(pattern: string, text: string, k: nat, fold: Fold) {
    k <= |text| && Matches(pattern, text[k..], fold)
  }

  ghost predicate MatchesSomewhere(pattern: string, text: string, fold: Fold) {
    exists k: nat :: MatchesFrom(pattern, text, k, fold)
  }

  lemma HereOrFurther(pattern: string, text: string, fold: Fold)
    ensures MatchesSomewhere(pattern, text, fold)
       <==> Matches(pattern, text, fold) || (text != "" && MatchesSomewhere(pattern, text[1..], fold))
  {
    assert text[0..] == text;
    assert MatchesFrom(pattern, text, 0, fold) <==> Matches(pattern, text, fold);
    if text != "" {
      forall k: nat ensures MatchesFrom(pattern, text[1..], k, fold) <==> MatchesFrom(pattern, text, k + 1, fold) {
        if k + 1 <= |text| { assert text[1..][k..] == text[k + 1..]; }
      }
      if k: nat :| MatchesFrom(pattern, text, k, fold) {
        assert k > 0 ==> MatchesFrom(pattern, text[1..], k - 1, fold);
      }
    }
  }

  lemma {:induction false} PercentMatches(pattern: string, text: string, fold: Fold)
    requires pattern != "" && pattern[0] == '%'
    ensures Matches(pattern, text, fold) <==> MatchesSomewhere(pattern[1..], text, fold)
    decreases |text|
  {
    HereOrFurther(pattern[1..], text, fold);
    if text != "" { PercentMatches(pattern, text[1..], fold); }
  }

  /** With a `%` on either side it matches exactly the texts that contain the needle. */
  lemma MatchesWhatContains(needle: string, text: string, fold: Fold)
    ensures Matches("%" + Escaped(needle) + "%", text, fold) <==> Contains(text, needle, fold)
  {
    var p := "%" + Escaped(needle) + "%";
    assert p[1..] == Escaped(needle) + "%";
    PercentMatches(p, text, fold);
    forall k: nat ensures MatchesFrom(p[1..], text, k, fold) <==> HasAt(text, needle, k, fold) {
      if k <= |text| {
        MatchesNeedleThen(needle, "%", text[k..], fold);
        if k + |needle| <= |text| {
          assert text[k..][..|needle|] == text[k..k + |needle|];
          MatchesAnything(text[k..][|needle|..], fold);
        }
      }
    }
  }
}
