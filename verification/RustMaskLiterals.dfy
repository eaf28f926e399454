/**
 The tokenizer against Rust's own grammar of comments and literals: each form, as it is written, is one token, and
 its inside is what stands between its delimiters, whatever follows.
 */
module RustMaskLiterals {
  import opened Wrappers
  import opened RustMask
  import opened RustMaskMeaning

  // ---------------------------------------------------------------- raw strings

  function HashRun(h: nat): string {
    seq(h, _ => '#')
  }

  /** `r`, hashes and a quote, after a `b` or not. */
  function RawHead(b: bool, h: nat): (s: string)
    ensures |s| == (if b then 3 else 2) + h
  {
    (if b then ['b'] else []) + ['r'] + HashRun(h) + ['"']
  }

  /** Somewhere in it a quote is followed by `h` hashes. */
  ghost predicate HoldsQuoteAndHashes(body: string, h: nat) {
    exists k: nat :: k + h < |body| && body[k] == '"' && forall j | k < j <= k + h :: body[j] == '#'
  }

  lemma HeadOpens(b: bool, h: nat, rest: string)
    ensures var s := RawHead(b, h) + rest; RawOpen(s) == Some(Opener(|RawHead(b, h)|, h))
  {
    var s, at := RawHead(b, h) + rest, if b then 1 else 0;
    var t := s[at + 1..];
    assert s[0] == RawHead(b, h)[0] && s[at] == RawHead(b, h)[at] == 'r';
    forall k | 0 <= k < h ensures t[k] == '#' {
      assert t[k] == s[at + 1 + k] == RawHead(b, h)[at + 1 + k];
    }
    assert t[h] == s[at + 1 + h] == RawHead(b, h)[at + 1 + h] == '"';
    HashesOf(t, h);
  }

  lemma {:induction false} FoundFirst(s: string, p: string, n: nat)
    requires n <= |s| && StartsWith(s[n..], p) && forall k: nat | k < n :: !StartsWith(s[k..], p)
    ensures Find(s, p) == Some(n)
    decreases n
  {
    assert s[0..] == s;
    if n > 0 {
      var s1 := s[1..];
      assert s1[n - 1..] == s[n..];
      forall k: nat | k < n - 1 ensures !StartsWith(s1[k..], p) {
        assert s1[k..] == s[k + 1..];
      }
      FoundFirst(s1, p, n - 1);
    }
  }

  lemma {:induction false} FoundNowhere(s: string, p: string)
    requires p != "" && forall k: nat | k <= |s| :: !StartsWith(s[k..], p)
    ensures Find(s, p) == None
    decreases |s|
  {
    assert s[0..] == s;
    if s != "" {
      var s1 := s[1..];
      forall k: nat | k <= |s1| ensures !StartsWith(s1[k..], p) {
        assert s1[k..] == s[k + 1..];
      }
      FoundNowhere(s1, p);
    }
  }

  lemma CloseBegins(s: string, h: nat, k: nat)
    requires k <= |s| && StartsWith(s[k..], RawClose(h))
    ensures k + h < |s| && s[k] == '"' && forall j | k < j <= k + h :: s[j] == '#'
  {
    var t, p := s[k..], RawClose(h);
    assert t[..|p|][0] == p[0];
    forall j | k < j <= k + h ensures s[j] == '#' {
      assert t[..|p|][j - k] == p[j - k];
    }
  }

  /** What closes the string does not begin inside such a body. */
  lemma NoEarlierClose(body: string, h: nat, rest: string, k: nat)
    requires !HoldsQuoteAndHashes(body, h) && k < |body| && (rest == "" || rest[0] == '"')
    ensures !StartsWith((body + rest)[k..], RawClose(h))
  {
    var s := body + rest;
    assert rest != "" ==> s[|body|] == '"';
    if StartsWith(s[k..], RawClose(h)) {
      CloseBegins(s, h, k);
      assert k + h < |body|;
      assert body[k] == '"' && forall j | k < j <= k + h :: body[j] == s[j];
    }
  }

  /** Where no word character comes before, a raw string is one literal, and its body is the inside of it. */
  lemma RawStringIsOneLiteral(b: bool, h: nat, body: string, rest: string)
    requires !HoldsQuoteAndHashes(body, h)
    ensures Next(false, RawHead(b, h) + body + ['"'] + HashRun(h) + rest)
         == Token(Literal, (if b then 3 else 2) + h, |body|, 1 + h)
  {
    var head, p := RawHead(b, h), RawClose(h);
    var tail := ['"'] + HashRun(h) + rest;
    var s, t := head + body + ['"'] + HashRun(h) + rest, body + tail;
    assert s == head + t && s[|head|..] == t;
    HeadOpens(b, h, t);
    forall k: nat | k < |body| ensures !StartsWith(t[k..], p) {
      NoEarlierClose(body, h, tail, k);
    }
    assert t[|body|..] == tail && tail[..|p|] == p;
    FoundFirst(t, p, |body|);
    assert s[0] == head[0];
  }

  /** One that is never closed runs to the end of the text. */
  lemma OpenRawStringRunsOn(b: bool, h: nat, body: string)
    requires !HoldsQuoteAndHashes(body, h)
    ensures Next(false, RawHead(b, h) + body) == Token(Literal, (if b then 3 else 2) + h, |body|, 0)
  {
    var head, p := RawHead(b, h), RawClose(h);
    var s := head + body;
    assert s[|head|..] == body && body + "" == body;
    HeadOpens(b, h, body);
    forall k: nat | k <= |body| ensures !StartsWith(body[k..], p) {
      if k < |body| { NoEarlierClose(body, h, "", k); }
    }
    FoundNowhere(body, p);
    assert s[0] == head[0];
  }

  /** After a word character the same letters open nothing: they are code. */
  lemma WordOpensNoRawString(b: bool, h: nat, rest: string)
    ensures Next(true, RawHead(b, h) + rest) == OneOfCode
  {
    assert (RawHead(b, h) + rest)[0] == RawHead(b, h)[0];
  }

  // ---------------------------------------------------------------- strings and chars

  /** Characters and escapes: no quote, but after a backslash, and no backslash that nothing follows. */
  predicate CharsAndEscapes(body: string) {
    body == "" || if body[0] == '\\' then |body| > 1 && CharsAndEscapes(body[2..]) else body[0] != '"' && CharsAndEscapes(body[1..])
  }

  lemma {:induction false} BodyEnds(body: string, rest: string)
    requires CharsAndEscapes(body) && (rest == "" || rest[0] == '"')
    ensures StringLen(body + rest) == |body|
    decreases |body|
  {
    var s := body + rest;
    if body == "" {
      assert s == rest;
    } else if body[0] == '\\' {
      assert s[0] == '\\' && s[2..] == body[2..] + rest;
      BodyEnds(body[2..], rest);
    } else {
      assert s[0] == body[0] && s[1..] == body[1..] + rest;
      BodyEnds(body[1..], rest);
    }
  }

  /** A string is one literal, escaped quotes included. */
  lemma StringIsOneLiteral(after: bool, body: string, rest: string)
    requires CharsAndEscapes(body)
    ensures Next(after, ['"'] + body + ['"'] + rest) == Token(Literal, 1, |body|, 1)
  {
    var s, tail := ['"'] + body + ['"'] + rest, ['"'] + rest;
    PastTheFirst('"', body, ['"'], rest);
    BodyEnds(body, tail);
    QuoteOpens(after, s, |body|);
  }

  lemma PastTheFirst(c: char, body: string, close: string, rest: string)
    ensures var s := [c] + body + close + rest;
            s[0] == c && |s| == 1 + |body| + |close| + |rest| && s[1..] == body + (close + rest)
  {
  }

  lemma QuoteOpens(after: bool, s: string, n: nat)
    requires s != "" && s[0] == '"' && StringLen(s[1..]) == n
    ensures Next(after, s) == Token(Literal, 1, n, if 1 + n < |s| then 1 else 0)
  {
  }

  /** Unclosed, it runs to the end of the text. */
  lemma OpenStringRunsOn(after: bool, body: string)
    requires CharsAndEscapes(body)
    ensures Next(after, ['"'] + body) == Token(Literal, 1, |body|, 0)
  {
    var s := ['"'] + body;
    assert s[0] == '"' && s[1..] == body + "";
    BodyEnds(body, "");
    QuoteOpens(after, s, |body|);
  }

  lemma {:induction false} FirstTick(body: string, c: char, rest: string)
    requires c !in body
    ensures Until(body + [c] + rest, c) == |body|
    decreases |body|
  {
    var s := body + [c] + rest;
    if body != "" {
      assert s[1..] == body[1..] + [c] + rest;
      FirstTick(body[1..], c, rest);
    }
  }

  /** A plain char is one literal, a quote or a brace included; an escaped one is too, an escaped tick included. */
  lemma CharIsOneLiteral(after: bool, c: char, body: string, rest: string)
    requires '\'' !in body
    ensures c != '\\' ==> Next(after, ['\'', c, '\''] + rest) == Token(Literal, 1, 1, 1)
    ensures Next(after, ['\'', '\\', c] + body + ['\''] + rest) == Token(Literal, 1, 2 + |body|, 1)
  {
    var plain, s := ['\'', c, '\''] + rest, ['\'', '\\', c] + body + ['\''] + rest;
    assert s[3..] == body + ['\''] + rest;
    FirstTick(body, '\'', rest);
    assert s[0] == '\'' && s[1] == '\\' && plain[0] == '\'' && plain[1] == c && plain[2] == '\'';
  }

  /** A tick that closes nothing is a lifetime's or a label's: one character of code. */
  lemma LoneTickIsCode(after: bool, c: char, d: char, rest: string)
    requires c != '\\' && d != '\''
    ensures Next(after, ['\'', c, d] + rest) == OneOfCode
    ensures Next(after, ['\'', c]) == OneOfCode && Next(after, ['\'']) == OneOfCode
  {
    var s := ['\'', c, d] + rest;
    assert s[0] == '\'' && s[1] == c && s[2] == d;
  }

  // ---------------------------------------------------------------- comments

  /** A line comment ends before its newline, or with the text. */
  lemma LineCommentIsOneToken(after: bool, body: string, rest: string)
    requires '\n' !in body
    ensures Next(after, ['/', '/'] + body + ['\n'] + rest) == Token(Comment, 0, 2 + |body|, 0)
    ensures Next(after, ['/', '/'] + body) == Token(Comment, 0, 2 + |body|, 0)
  {
    var s, o := ['/', '/'] + body + ['\n'] + rest, ['/', '/'] + body;
    assert s[2..] == body + ['\n'] + rest && o[2..] == body;
    FirstTick(body, '\n', rest);
    assert Until(body, '\n') == |body|;
  }

  /** The inside of a block comment: text, with whole comments nested in it. */
  datatype Inside = Plain(text: string) | Nested(before: string, inner: Inside, after: Inside)

  function Written(c: Inside): string {
    match c
    case Plain(text) => text
    case Nested(before, inner, after) => before + ['/', '*'] + Written(inner) + ['*', '/'] + Written(after)
  }

  /** No marker is in the text. */
  predicate NoMarker(text: string) {
    forall k | 0 <= k < |text| - 1 :: !(text[k] == '/' && text[k + 1] == '*') && !(text[k] == '*' && text[k + 1] == '/')
  }

  /** Nor is one made where it meets the next marker, which begins with `first`. */
  predicate Meets(text: string, first: char) {
    NoMarker(text) && (text != "" ==> text[|text| - 1] != if first == '*' then '/' else '*')
  }

  predicate WellNested(c: Inside) {
    match c
    case Plain(text) => Meets(text, '*')
    case Nested(before, inner, after) => Meets(before, '/') && WellNested(inner) && WellNested(after)
  }

  lemma {:induction false} TextIsStepped(text: string, rest: string, depth: nat)
    requires rest != "" && (rest[0] == '/' || rest[0] == '*') && Meets(text, rest[0]) && depth > 0
    ensures BlockLen(text + rest, depth) == |text| + BlockLen(rest, depth)
    decreases |text|
  {
    var s := text + rest;
    if text == "" {
      assert s == rest;
    } else {
      assert s[0] == text[0] && s[1] == if |text| > 1 then text[1] else rest[0];
      assert s[1..] == text[1..] + rest;
      TextIsStepped(text[1..], rest, depth);
    }
  }

  lemma MarkerIsStepped(rest: string, depth: nat)
    requires depth > 0
    ensures BlockLen(['/', '*'] + rest, depth) == 2 + BlockLen(rest, depth + 1)
    ensures BlockLen(['*', '/'] + rest, depth) == 2 + BlockLen(rest, depth - 1)
  {
    assert (['/', '*'] + rest)[2..] == rest && (['*', '/'] + rest)[2..] == rest;
  }

  lemma {:induction false} InsideIsStepped(c: Inside, rest: string, depth: nat)
    requires WellNested(c) && depth > 0
    ensures BlockLen(Written(c) + ['*', '/'] + rest, depth) == |Written(c)| + 2 + BlockLen(rest, depth - 1)
    decreases c
  {
    match c
    case Plain(text) =>
      var tail := ['*', '/'] + rest;
      assert text + ['*', '/'] + rest == text + tail;
      TextIsStepped(text, tail, depth);
      MarkerIsStepped(rest, depth);
    case Nested(before, inner, after) =>
      var last := Written(after) + ['*', '/'] + rest;
      var mid := Written(inner) + ['*', '/'] + last;
      var tail := ['/', '*'] + mid;
      assert Written(c) + ['*', '/'] + rest == before + tail;
      TextIsStepped(before, tail, depth);
      MarkerIsStepped(mid, depth);
      InsideIsStepped(inner, last, depth + 1);
      InsideIsStepped(after, rest, depth);
  }

  /** A block comment is one comment, those nested in it included. */
  lemma BlockCommentIsOneToken(after: bool, c: Inside, rest: string)
    requires WellNested(c)
    ensures Next(after, ['/', '*'] + Written(c) + ['*', '/'] + rest) == Token(Comment, 0, |Written(c)| + 4, 0)
  {
    var s := ['/', '*'] + Written(c) + ['*', '/'] + rest;
    assert s[2..] == Written(c) + ['*', '/'] + rest;
    InsideIsStepped(c, rest, 1);
  }

  // ---------------------------------------------------------------- the rest

  /** What begins with none of these is code, character by character. */
  lemma ElseIsCode(after: bool, s: string)
    requires s != "" && s[0] != '"' && s[0] != '\''
    requires !(['/', '/'] <= s) && !(['/', '*'] <= s)
    requires after || forall b, h: nat :: !(RawHead(b, h) <= s)
    ensures Next(after, s) == OneOfCode
  {
    if !after && RawOpen(s).Some? {
      OpenerIsHead(s, RawOpen(s).value);
    }
  }

  lemma OpenerIsHead(s: string, o: Opener)
    requires RawOpen(s) == Some(o)
    ensures RawHead(s[0] == 'b', o.hashes) <= s
  {
    var b, h := s[0] == 'b', o.hashes;
    var at := if b then 1 else 0;
    var head, t := RawHead(b, h), s[at + 1..];
    forall k | 0 <= k < |head| ensures head[k] == s[k] {
      if at < k <= at + h {
        assert t[k - at - 1] == '#';
      }
    }
  }
}
