/**
 The one line of a swap marker, and how recovery reads it (crates/openalpaca_plugins/src/install.rs).

 The line is `.trash/<name>`, the incumbent's place in the trash. The file is created empty and then written, so a
 crash or a failed write leaves any prefix of it.
 */
module Marker {
  import opened Wrappers

  const TRASH := ".trash"

  /** What `writeln!` puts in the marker. */
  function Line(name: string): string {
    TRASH + "/" + name + "\n"
  }

  // ---------------------------------------------------------------- str::trim

  /** Unicode's White_Space. */
  predicate IsSpace(c: char) {
    var n := c as int;
    9 <= n <= 13 || n == 0x20 || n == 0x85 || n == 0xA0 || n == 0x1680 || 0x2000 <= n <= 0x200A
    || n == 0x2028 || n == 0x2029 || n == 0x202F || n == 0x205F || n == 0x3000
  }

  function TrimStart(s: string): string {
    if s != "" && IsSpace(s[0]) then TrimStart(s[1..]) else s
  }

  function TrimEnd(s: string): (r: string)
    ensures r <= s
    ensures r == "" || !IsSpace(r[|r| - 1])
  {
    if s != "" && IsSpace(s[|s| - 1]) then TrimEnd(s[..|s| - 1]) else s
  }

  // ---------------------------------------------------------------- Path::components

  datatype Component = RootDir | CurDir | ParentDir | Normal(name: string)

  /** The text between slashes. */
  function Split(s: string): seq<string> {
    if s == "" then [""]
    else if s[0] == '/' then [""] + Split(s[1..])
    else
      var rest := Split(s[1..]);
      [[s[0]] + rest[0]] + rest[1..]
  }

  /** Empty parts vanish; so does `.`, but at the head of a relative path. */
  function Named(parts: seq<string>, head: bool): seq<Component> {
    if parts == [] then []
    else
      var rest := Named(parts[1..], false);
      if parts[0] == "" then rest
      else if parts[0] == "." then (if head then [CurDir] + rest else rest)
      else if parts[0] == ".." then [ParentDir] + rest
      else [Normal(parts[0])] + rest
  }

  function Components(path: string): seq<Component> {
    var named := Named(Split(path), true);
    if path != "" && path[0] == '/' then [RootDir] + named else named
  }

  // ---------------------------------------------------------------- reading

  /** The trash entry a marker names, if it names a directory directly inside `.trash/`. */
  function Read(text: string): Option<string> {
    var parts := Components(TrimEnd(TrimStart(text)));
    if |parts| == 2 && parts[0] == Normal(TRASH) && parts[1].Normal? then Some(parts[1].name) else None
  }

  /** A name an update can give a trash entry: a plugin id, a dash and a stamp ending in `Z`. */
  predicate TrashName(name: string) {
    name != "" && name[0] != '.' && '/' !in name && !IsSpace(name[|name| - 1])
  }

  lemma {:induction false} SplitNoSlash(s: string)
    requires '/' !in s
    ensures Split(s) == [s]
  {
    if s != "" {
      SplitNoSlash(s[1..]);
      assert [s[0]] + s[1..] == s;
    }
  }

  lemma {:induction false} SplitOnce(a: string, b: string)
    requires '/' !in a && '/' !in b
    ensures Split(a + "/" + b) == [a, b]
  {
    var s := a + "/" + b;
    if a == "" {
      assert s[1..] == b;
      SplitNoSlash(b);
    } else {
      SplitOnce(a[1..], b);
      assert s[1..] == a[1..] + "/" + b;
      assert [s[0]] + a[1..] == a;
    }
  }

  lemma SlashlessIsOnePart(p: string)
    requires '/' !in p
    ensures |Components(p)| <= 1
  {
    SplitNoSlash(p);
    assert [p][1..] == [];
    assert p != "" ==> p[0] in p;
    assert |Named([p], true)| <= 1;
  }

  lemma TrashedComponents(q: string)
    requires '/' !in q && (q == "" || q[0] != '.')
    ensures Components(TRASH + "/" + q) == [Normal(TRASH)] + if q == "" then [] else [Normal(q)]
  {
    SplitOnce(TRASH, q);
    assert [TRASH, q][1..] == [q] && [q][1..] == [];
    assert |TRASH| == 6 && |"."| == 1 && |".."| == 2;
    assert Named([q], false) == if q == "" then [] else [Normal(q)];
  }

  /** A trimmed prefix of the line, in its two shapes: the slash is not there yet, or it is. */
  lemma TrimmedPrefix(name: string, p: string)
    requires TrashName(name) && p <= Line(name)
    ensures var t := TrimEnd(TrimStart(p));
            || '/' !in t
            || (exists q :: q <= name && t == TRASH + "/" + q)
  {
    var line, t := Line(name), TrimEnd(TrimStart(p));
    assert TrimStart(p) == p;
    assert t <= p <= line;
    if |t| > |TRASH| {
      var q := t[|TRASH| + 1..];
      assert line[..|TRASH| + 1] == TRASH + "/";
      assert t == TRASH + "/" + q;
      assert line[|TRASH| + 1..] == name + "\n";
      assert q <= name + "\n";
      assert |q| <= |name| by {
        assert |q| == |name| + 1 ==> t == line;
        assert IsSpace(line[|line| - 1]);
      }
      assert q <= name;
    } else {
      assert t <= TRASH;
    }
  }

  /** However much of the line reached the disk, recovery reads nothing or a prefix of the name. */
  lemma TornMarkerReadsPrefix(name: string, p: string)
    requires TrashName(name) && p <= Line(name)
    ensures Read(p) == None || (Read(p).value != "" && Read(p).value <= name)
  {
    TrimmedPrefix(name, p);
    var t := TrimEnd(TrimStart(p));
    if '/' !in t {
      SlashlessIsOnePart(t);
    } else {
      var q :| q <= name && t == TRASH + "/" + q;
      TrashedComponents(q);
    }
  }

  /** A marker written whole reads back as the name it was written for. */
  lemma WholeMarkerReadsName(name: string)
    requires TrashName(name)
    ensures Read(Line(name)) == Some(name)
  {
    var line := Line(name);
    assert line[..|line| - 1] == TRASH + "/" + name;
    assert TrimEnd(line) == TrimEnd(TRASH + "/" + name) == TRASH + "/" + name;
    TrashedComponents(name);
  }

  lemma ReadsBack(m: string)
    requires TrashName(m)
    ensures Read(TRASH + "/" + m) == Some(m)
  {
    var p := TRASH + "/" + m;
    TrashedComponents(m);
    assert TrimEnd(TrimStart(p)) == p;
  }

  /** What a torn marker can be read as: exactly the trash names its own name begins with. */
  lemma TornMarkerReads(m: string, n: string)
    requires TrashName(m) && TrashName(n)
    ensures (exists p :: p <= Line(n) && Read(p) == Some(m)) <==> m <= n
  {
    if p :| p <= Line(n) && Read(p) == Some(m) {
      TornMarkerReadsPrefix(n, p);
    }
    if m <= n {
      var p := TRASH + "/" + m;
      ReadsBack(m);
      assert p <= Line(n);
    }
  }
}
