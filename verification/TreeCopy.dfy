/**
 The bounded copy of a plugin's source (crates/openalpaca_plugins/src/install.rs).

 The source is a graph: directories list names, and a symbolic link stands for whatever it resolves
 to. `Unfold` says what the dereferenced tree is, with no budget and no memory of where the walk has
 been; `CopyTree` is the walk itself, which carries both. Paths are canonical, so a path names one
 directory however it is reached.
 */
module TreeCopy {
  import opened Wrappers

  const MAX_DEPTH: nat := 32
  const U64_MAX: nat := 0xFFFF_FFFF_FFFF_FFFF

  type Path = seq<string>

  newtype byte = b: int | 0 <= b < 256

  /** What is at a canonical path. `Link`: where the link resolves to, if it does. */
  datatype Node = Dir(names: seq<string>) | File(content: seq<byte>) | Link(target: Option<Path>) | Special

  type Source = map<Path, Node>

  datatype Tree = Leaf(content: seq<byte>) | Branch(entries: map<string, Tree>)

  datatype CopyError = TooDeep | ReachedTwice | TooManyEntries | TooManyBytes | Escapes | Irregular | Unreadable

  datatype CopyBudget = CopyBudget(maxEntries: nat, maxBytes: nat)

  // ---------------------------------------------------------------- the dereferenced unfolding

  /**
   A directory unfolded: its tree, how often each directory was entered on the way, how many
   entries were listed and how many bytes their files hold. `Bad`: something in it cannot be copied.
   */
  datatype Unfolding = Bad | Good(tree: Tree, dirs: multiset<Path>, count: nat, bytes: nat)

  /** Where the entry at `p` leads: itself, or what it links to, which must be inside `root`. */
  function Resolve(fs: Source, root: Path, p: Path): Result<Path, CopyError> {
    if p !in fs then Err(Unreadable)
    else if !fs[p].Link? then Ok(p)
    else if fs[p].target == None || !(root <= fs[p].target.value) then Err(Escapes)
    else Ok(fs[p].target.value)
  }

  function Unfold(fs: Source, root: Path, p: Path, depth: nat): Unfolding
    decreases MAX_DEPTH + 1 - depth, 2, 0
  {
    if depth > MAX_DEPTH || p !in fs || !fs[p].Dir? then Bad
    else
      var inside := UnfoldNames(fs, root, p, fs[p].names, depth);
      if inside.Bad? then Bad else inside.(dirs := inside.dirs + multiset{p})
  }

  function UnfoldNames(fs: Source, root: Path, p: Path, names: seq<string>, depth: nat): Unfolding
    requires depth <= MAX_DEPTH
    decreases MAX_DEPTH + 1 - depth, 1, |names|
  {
    if names == [] then Good(Branch(map[]), multiset{}, 0, 0)
    else
      var name := names[|names| - 1];
      Plus(UnfoldNames(fs, root, p, names[..|names| - 1], depth), name, UnfoldEntry(fs, root, p + [name], depth))
  }

  function UnfoldEntry(fs: Source, root: Path, p: Path, depth: nat): Unfolding
    requires depth <= MAX_DEPTH
    decreases MAX_DEPTH + 1 - depth, 0, 0
  {
    match Resolve(fs, root, p)
    case Err(_) => Bad
    case Ok(to) =>
      if to !in fs then Bad
      else match fs[to]
        case Dir(_) => Unfold(fs, root, to, depth + 1)
        case File(content) => Good(Leaf(content), multiset{}, 0, |content|)
        case _ => Bad
  }

  /** A listing with one more entry. */
  function Plus(a: Unfolding, name: string, b: Unfolding): Unfolding {
    if a.Bad? || b.Bad? || a.tree.Leaf? then Bad
    else Good(Branch(a.tree.entries[name := b.tree]), a.dirs + b.dirs, a.count + 1 + b.count, a.bytes + b.bytes)
  }

  predicate Once(names: seq<string>) {
    forall i, j | 0 <= i < j < |names| :: names[i] != names[j]
  }

  /** A file system lists a name once in a directory. */
  ghost predicate Listed(fs: Source) {
    forall p | p in fs && fs[p].Dir? :: Once(fs[p].names)
  }

  /** What a good listing holds: an entry for each name, and no other. */
  lemma {:induction false} ListingHolds(fs: Source, root: Path, p: Path, names: seq<string>, depth: nat, name: string)
    requires depth <= MAX_DEPTH && UnfoldNames(fs, root, p, names, depth).Good?
    ensures var u := UnfoldNames(fs, root, p, names, depth);
            && u.tree.Branch?
            && (name in u.tree.entries <==> name in names)
            && (name in names ==> var e := UnfoldEntry(fs, root, p + [name], depth);
                                  e.Good? && u.tree.entries[name] == e.tree && e.dirs <= u.dirs)
  {
    if names != [] {
      ListingHolds(fs, root, p, names[..|names| - 1], depth, name);
      assert name in names <==> name in names[..|names| - 1] || name == names[|names| - 1];
    }
  }

  // ---------------------------------------------------------------- what a tree holds

  /** How many entries a tree has below its top, and how long its files are together. */
  datatype Extent = Extent(entries: nat, bytes: nat)

  function Together(a: Extent, b: Extent): Extent {
    Extent(a.entries + b.entries, a.bytes + b.bytes)
  }

  ghost function ExtentOf(t: Tree): Extent
    decreases t, 1, 0
  {
    match t
    case Leaf(content) => Extent(0, |content|)
    case Branch(entries) => ExtentIn(t, entries)
  }

  /** Of some of the entries of `t`: one for each, and what each holds. */
  ghost function ExtentIn(t: Tree, entries: map<string, Tree>): Extent
    requires forall n | n in entries :: entries[n] < t
    decreases t, 0, |entries|
  {
    if entries == map[] then Extent(0, 0)
    else
      var n :| n in entries;
      Together(ExtentIn(t, entries - {n}), Together(Extent(1, 0), ExtentOf(entries[n])))
  }

  /** Any entry may be the one set apart. */
  lemma {:induction false} SetApart(t: Tree, entries: map<string, Tree>, n: string)
    requires (forall m | m in entries :: entries[m] < t) && n in entries
    ensures ExtentIn(t, entries) == Together(ExtentIn(t, entries - {n}), Together(Extent(1, 0), ExtentOf(entries[n])))
    decreases |entries|
  {
    var m := TheOneSetApart(t, entries);
    if m != n {
      var a, b := entries - {m}, entries - {n};
      SetApart(t, a, n);
      SetApart(t, b, m);
      assert a[n] == entries[n] && b[m] == entries[m];
      assert a - {n} == b - {m};
      TogetherCommutes(ExtentIn(t, a - {n}), Together(Extent(1, 0), ExtentOf(entries[n])), Together(Extent(1, 0), ExtentOf(entries[m])));
    }
  }

  lemma TogetherCommutes(a: Extent, b: Extent, c: Extent)
    ensures Together(Together(a, b), c) == Together(Together(a, c), b)
  {
  }

  lemma TheOneSetApart(t: Tree, entries: map<string, Tree>) returns (m: string)
    requires (forall n | n in entries :: entries[n] < t) && entries != map[]
    ensures m in entries
    ensures ExtentIn(t, entries) == Together(ExtentIn(t, entries - {m}), Together(Extent(1, 0), ExtentOf(entries[m])))
  {
    m :| m in entries && ExtentIn(t, entries) == Together(ExtentIn(t, entries - {m}), Together(Extent(1, 0), ExtentOf(entries[m])));
  }

  lemma {:induction false} WhateverTheTop(t: Tree, u: Tree, entries: map<string, Tree>)
    requires forall n | n in entries :: entries[n] < t && entries[n] < u
    ensures ExtentIn(t, entries) == ExtentIn(u, entries)
    decreases |entries|
  {
    if n :| n in entries {
      SetApart(t, entries, n);
      SetApart(u, entries, n);
      WhateverTheTop(t, u, entries - {n});
    }
  }

  /** A new name adds one entry, and what it holds. */
  lemma OneEntryMore(entries: map<string, Tree>, n: string, e: Tree)
    requires n !in entries
    ensures ExtentOf(Branch(entries[n := e]))
            == Together(ExtentOf(Branch(entries)), Together(Extent(1, 0), ExtentOf(e)))
  {
    var more := entries[n := e];
    SetApart(Branch(more), more, n);
    assert more - {n} == entries;
    WhateverTheTop(Branch(more), Branch(entries), entries);
  }

  /** What is counted and charged on the way is what the tree comes to. */
  lemma {:induction false} ListingMeasures(fs: Source, root: Path, p: Path, names: seq<string>, depth: nat)
    requires Listed(fs) && depth <= MAX_DEPTH && Once(names) && UnfoldNames(fs, root, p, names, depth).Good?
    ensures var u := UnfoldNames(fs, root, p, names, depth); Extent(u.count, u.bytes) == ExtentOf(u.tree)
    decreases MAX_DEPTH + 1 - depth, 1, |names|
  {
    if names != [] {
      var front, last := names[..|names| - 1], names[|names| - 1];
      var a, b := UnfoldNames(fs, root, p, front, depth), UnfoldEntry(fs, root, p + [last], depth);
      ListingMeasures(fs, root, p, front, depth);
      EntryMeasures(fs, root, p + [last], depth);
      ListingHolds(fs, root, p, front, depth, last);
      assert last !in front;
      OneEntryMore(a.tree.entries, last, b.tree);
    }
  }

  lemma {:induction false} EntryMeasures(fs: Source, root: Path, p: Path, depth: nat)
    requires Listed(fs) && depth <= MAX_DEPTH && UnfoldEntry(fs, root, p, depth).Good?
    ensures var u := UnfoldEntry(fs, root, p, depth); Extent(u.count, u.bytes) == ExtentOf(u.tree)
    decreases MAX_DEPTH + 1 - depth, 0, 0
  {
    var to := Resolve(fs, root, p).value;
    if fs[to].Dir? {
      UnfoldingMeasures(fs, root, to, depth + 1);
    }
  }

  lemma {:induction false} UnfoldingMeasures(fs: Source, root: Path, p: Path, depth: nat)
    requires Listed(fs) && Unfold(fs, root, p, depth).Good?
    ensures var u := Unfold(fs, root, p, depth); Extent(u.count, u.bytes) == ExtentOf(u.tree)
    decreases MAX_DEPTH + 1 - depth, 2, 0
  {
    ListingMeasures(fs, root, p, fs[p].names, depth);
  }

  // ---------------------------------------------------------------- what a walk accepts

  function Saturate(n: nat): nat {
    if n <= U64_MAX then n else U64_MAX
  }

  /** Every directory is entered once, and none is one the walk has been in. */
  ghost predicate Fresh(dirs: multiset<Path>, visited: set<Path>) {
    forall d | d in dirs :: dirs[d] == 1 && d !in visited
  }

  ghost predicate Accepts(u: Unfolding, visited: set<Path>, entries: nat, bytes: nat, budget: CopyBudget) {
    && u.Good?
    && Fresh(u.dirs, visited)
    && entries + u.count <= budget.maxEntries
    && Saturate(bytes + u.bytes) <= budget.maxBytes
  }

  ghost function Members(dirs: multiset<Path>): set<Path> {
    set d | d in dirs
  }

  lemma FreshSplits(a: multiset<Path>, b: multiset<Path>, visited: set<Path>)
    ensures Fresh(a + b, visited) <==> Fresh(a, visited) && Fresh(b, visited + Members(a))
    ensures visited + Members(a + b) == visited + Members(a) + Members(b)
  {
    if Fresh(a + b, visited) {
      forall d | d in a
        ensures a[d] == 1 && d !in visited
      {
        assert d in a + b && (a + b)[d] == a[d] + b[d];
      }
      forall d | d in b
        ensures b[d] == 1 && d !in visited + Members(a)
      {
        assert d in a + b && (a + b)[d] == a[d] + b[d];
      }
    }
    if Fresh(a, visited) && Fresh(b, visited + Members(a)) {
      forall d | d in a + b
        ensures (a + b)[d] == 1 && d !in visited
      {
        assert d in a ==> d in Members(a);
      }
    }
  }

  /** A listing is accepted exactly when all but its last entry is, and then the last one. */
  lemma AcceptsSplits(a: Unfolding, name: string, b: Unfolding, visited: set<Path>, entries: nat, bytes: nat, budget: CopyBudget)
    requires a.Good? ==> a.tree.Branch?
    ensures Accepts(Plus(a, name, b), visited, entries, bytes, budget)
            <==> Accepts(a, visited, entries, bytes, budget) && entries + a.count + 1 <= budget.maxEntries
                 && Accepts(b, visited + Members(a.dirs), entries + a.count + 1, Saturate(bytes + a.bytes), budget)
  {
    if a.Good? && b.Good? {
      FreshSplits(a.dirs, b.dirs, visited);
    }
  }

  // ---------------------------------------------------------------- the walk

  /** The state of a walk: the directories behind it, and the entries and bytes counted against its budget. */
  class Walk {
    const budget: CopyBudget
    var visited: set<Path>
    var entries: nat
    var bytes: nat

    constructor (budget: CopyBudget)
      ensures this.budget == budget && visited == {} && entries == 0 && bytes == 0
    {
      this.budget := budget;
      visited, entries, bytes := {}, 0, 0;
    }

    ghost predicate Within()
      reads this
    {
      entries <= budget.maxEntries && bytes <= budget.maxBytes && bytes <= U64_MAX
    }

    method Enter(dir: Path) returns (ok: bool)
      modifies this`visited
      ensures ok <==> dir !in old(visited)
      ensures visited == old(visited) + {dir}
    {
      ok := dir !in visited;
      visited := visited + {dir};
    }

    method CountEntry() returns (ok: bool)
      modifies this`entries
      ensures entries == old(entries) + 1
      ensures ok <==> entries <= budget.maxEntries
    {
      entries := entries + 1;
      ok := entries <= budget.maxEntries;
    }

    method Charge(len: nat) returns (ok: bool)
      modifies this`bytes
      ensures bytes == Saturate(old(bytes) + len)
      ensures ok <==> bytes <= budget.maxBytes
    {
      bytes := Saturate(bytes + len);
      ok := bytes <= budget.maxBytes;
    }
  }

  lemma BranchesFold(fs: Source, root: Path, p: Path, names: seq<string>, depth: nat)
    requires depth <= MAX_DEPTH
    ensures var u := UnfoldNames(fs, root, p, names, depth); u.Good? ==> u.tree.Branch?
  {
  }

  /** One more name: the listing so far, then its entry. */
  lemma ListingGrows(fs: Source, root: Path, p: Path, names: seq<string>, i: nat, depth: nat)
    requires depth <= MAX_DEPTH && i < |names|
    ensures UnfoldNames(fs, root, p, names[..i + 1], depth)
            == Plus(UnfoldNames(fs, root, p, names[..i], depth), names[i], UnfoldEntry(fs, root, p + [names[i]], depth))
  {
    assert names[..i + 1][..i] == names[..i];
  }

  /** A walk that refuses part of a listing refuses all of it. */
  lemma {:induction false} PrefixAccepted(fs: Source, root: Path, p: Path, names: seq<string>, i: nat, depth: nat,
                                          visited: set<Path>, entries: nat, bytes: nat, budget: CopyBudget)
    requires depth <= MAX_DEPTH && i <= |names|
    requires Accepts(UnfoldNames(fs, root, p, names, depth), visited, entries, bytes, budget)
    ensures Accepts(UnfoldNames(fs, root, p, names[..i], depth), visited, entries, bytes, budget)
  {
    if i == |names| {
      assert names[..i] == names;
    } else {
      var all := names[..|names| - 1];
      assert names[..|names|] == names;
      ListingGrows(fs, root, p, names, |names| - 1, depth);
      BranchesFold(fs, root, p, all, depth);
      AcceptsSplits(UnfoldNames(fs, root, p, all, depth), names[|names| - 1],
                    UnfoldEntry(fs, root, p + [names[|names| - 1]], depth), visited, entries, bytes, budget);
      PrefixAccepted(fs, root, p, all, i, depth, visited, entries, bytes, budget);
      assert all[..i] == names[..i];
    }
  }

  /** A directory is accepted exactly when it is new and its listing is accepted inside it. */
  lemma EnterSplits(fs: Source, root: Path, p: Path, depth: nat, visited: set<Path>, entries: nat, bytes: nat, budget: CopyBudget)
    requires depth <= MAX_DEPTH && p in fs && fs[p].Dir?
    ensures var inside := UnfoldNames(fs, root, p, fs[p].names, depth);
            Accepts(Unfold(fs, root, p, depth), visited, entries, bytes, budget)
            <==> p !in visited && Accepts(inside, visited + {p}, entries, bytes, budget)
  {
    var inside := UnfoldNames(fs, root, p, fs[p].names, depth);
    if inside.Good? {
      FreshSplits(multiset{p}, inside.dirs, visited);
      assert multiset{p} + inside.dirs == inside.dirs + multiset{p};
      assert Members(multiset{p}) == {p};
    }
  }

  /** The walk takes one more entry, which unfolds to `next`. */
  ghost predicate Passes(next: Unfolding, visited: set<Path>, entries: nat, bytes: nat, budget: CopyBudget) {
    entries + 1 <= budget.maxEntries && Accepts(next, visited, entries + 1, bytes, budget)
  }

  /** The walk stands where having gone over `u` from `v`, `e`, `b` leaves it. */
  ghost predicate At(walk: Walk, u: Unfolding, v: set<Path>, e: nat, b: nat)
    reads walk
  {
    && Accepts(u, v, e, b, walk.budget)
    && walk.visited == v + Members(u.dirs)
    && walk.entries == e + u.count
    && walk.bytes == Saturate(b + u.bytes)
    && walk.Within()
  }

  /** The walk must pass the next name for the whole listing to be accepted. */
  lemma NextMustPass(fs: Source, root: Path, p: Path, names: seq<string>, i: nat, depth: nat,
                     v: set<Path>, e: nat, b: nat, budget: CopyBudget)
    requires depth <= MAX_DEPTH && i < |names|
    requires Accepts(UnfoldNames(fs, root, p, names[..i], depth), v, e, b, budget)
    requires Accepts(UnfoldNames(fs, root, p, names, depth), v, e, b, budget)
    ensures var sofar := UnfoldNames(fs, root, p, names[..i], depth);
            Passes(UnfoldEntry(fs, root, p + [names[i]], depth), v + Members(sofar.dirs),
                   e + sofar.count, Saturate(b + sofar.bytes), budget)
  {
    var sofar := UnfoldNames(fs, root, p, names[..i], depth);
    ListingGrows(fs, root, p, names, i, depth);
    BranchesFold(fs, root, p, names[..i], depth);
    PrefixAccepted(fs, root, p, names, i + 1, depth, v, e, b, budget);
    AcceptsSplits(sofar, names[i], UnfoldEntry(fs, root, p + [names[i]], depth), v, e, b, budget);
  }

  /** A name that passes extends what the walk has gone over. */
  lemma NextMayPass(sofar: Unfolding, name: string, next: Unfolding, v: set<Path>, e: nat, b: nat, budget: CopyBudget)
    requires Accepts(sofar, v, e, b, budget) && sofar.tree.Branch?
    requires Passes(next, v + Members(sofar.dirs), e + sofar.count, Saturate(b + sofar.bytes), budget)
    ensures var more := Plus(sofar, name, next);
            && Accepts(more, v, e, b, budget)
            && v + Members(more.dirs) == v + Members(sofar.dirs) + Members(next.dirs)
            && more.count == sofar.count + 1 + next.count
            && Saturate(b + more.bytes) == Saturate(Saturate(b + sofar.bytes) + next.bytes)
  {
    AcceptsSplits(sofar, name, next, v, e, b, budget);
    FreshSplits(sofar.dirs, next.dirs, v);
  }

  /** What a walk that has been over `u` looks like. */
  twostate predicate Spent(walk: Walk, u: Unfolding)
    reads walk
  {
    && u.Good?
    && walk.visited == old(walk.visited) + Members(u.dirs)
    && walk.entries == old(walk.entries) + u.count
    && walk.bytes == Saturate(old(walk.bytes) + u.bytes)
  }

  /** What the walk has counted and charged since is what the copy comes to. */
  ghost predicate Charged(fs: Source, e: nat, b: nat, walk: Walk, t: Tree)
    reads walk
  {
    Listed(fs) ==> walk.entries == e + ExtentOf(t).entries && walk.bytes == Saturate(b + ExtentOf(t).bytes)
  }

  /** A directory copied: exactly when the walk accepts its unfolding, and then as that unfolding. */
  method CopyTree(fs: Source, root: Path, from: Path, depth: nat, walk: Walk) returns (r: Result<Tree, CopyError>)
    requires depth <= MAX_DEPTH + 1 && walk.Within()
    modifies walk
    ensures var u := Unfold(fs, root, from, depth);
            && (r.Ok? <==> Accepts(u, old(walk.visited), old(walk.entries), old(walk.bytes), walk.budget))
            && (r.Ok? ==> r.value == u.tree && Spent(walk, u) && walk.Within())
    ensures r.Ok? ==> Charged(fs, old(walk.entries), old(walk.bytes), walk, r.value)
    decreases MAX_DEPTH + 1 - depth, 3
  {
    if depth > MAX_DEPTH {
      return Err(TooDeep);
    }
    if from !in fs {
      return Err(Unreadable);
    }
    var ok := walk.Enter(from);
    if !ok {
      if fs[from].Dir? { EnterSplits(fs, root, from, depth, old(walk.visited), walk.entries, walk.bytes, walk.budget); }
      return Err(ReachedTwice);
    }
    if !fs[from].Dir? {
      return Err(Unreadable);
    }
    EnterSplits(fs, root, from, depth, old(walk.visited), walk.entries, walk.bytes, walk.budget);
    r := CopyNames(fs, root, from, fs[from].names, depth, walk);
    if r.Ok? {
      FreshSplits(multiset{from}, UnfoldNames(fs, root, from, fs[from].names, depth).dirs, old(walk.visited));
      if Listed(fs) { UnfoldingMeasures(fs, root, from, depth); }
    }
  }

  /** The loop over what a directory lists. */
  method CopyNames(fs: Source, root: Path, from: Path, names: seq<string>, depth: nat, walk: Walk)
    returns (r: Result<Tree, CopyError>)
    requires depth <= MAX_DEPTH && walk.Within()
    modifies walk
    ensures var u := UnfoldNames(fs, root, from, names, depth);
            && (r.Ok? <==> Accepts(u, old(walk.visited), old(walk.entries), old(walk.bytes), walk.budget))
            && (r.Ok? ==> r.value == u.tree && Spent(walk, u) && walk.Within())
    decreases MAX_DEPTH + 1 - depth, 2
  {
    ghost var v, e, b := walk.visited, walk.entries, walk.bytes;
    assert names[..|names|] == names;
    var copied: map<string, Tree> := map[];
    for i := 0 to |names|
      invariant var u := UnfoldNames(fs, root, from, names[..i], depth);
                At(walk, u, v, e, b) && u.tree == Branch(copied)
    {
      var one := CopyNext(fs, root, from, names, i, depth, walk, v, e, b);
      if one.Err? {
        return Err(one.error);
      }
      copied := copied[names[i] := one.value];
    }
    return Ok(Branch(copied));
  }

  /** One turn of the loop: the entry is counted, then copied. */
  method CopyNext(fs: Source, root: Path, from: Path, names: seq<string>, i: nat, depth: nat, walk: Walk,
                  ghost v: set<Path>, ghost e: nat, ghost b: nat)
    returns (r: Result<Tree, CopyError>)
    requires depth <= MAX_DEPTH && i < |names|
    requires At(walk, UnfoldNames(fs, root, from, names[..i], depth), v, e, b)
    modifies walk
    ensures r.Err? ==> !Accepts(UnfoldNames(fs, root, from, names, depth), v, e, b, walk.budget)
    ensures r.Ok? ==> var sofar := UnfoldNames(fs, root, from, names[..i], depth);
                      var more := UnfoldNames(fs, root, from, names[..i + 1], depth);
                      && At(walk, more, v, e, b)
                      && sofar.tree.Branch?
                      && more.tree == Branch(sofar.tree.entries[names[i] := r.value])
    decreases MAX_DEPTH + 1 - depth, 1
  {
    ghost var sofar := UnfoldNames(fs, root, from, names[..i], depth);
    BranchesFold(fs, root, from, names[..i], depth);
    if Accepts(UnfoldNames(fs, root, from, names, depth), v, e, b, walk.budget) {
      NextMustPass(fs, root, from, names, i, depth, v, e, b, walk.budget);
    }
    var counted := walk.CountEntry();
    if !counted {
      return Err(TooManyEntries);
    }
    r := CopyEntry(fs, root, from + [names[i]], depth, walk);
    if r.Ok? {
      ListingGrows(fs, root, from, names, i, depth);
      NextMayPass(sofar, names[i], UnfoldEntry(fs, root, from + [names[i]], depth), v, e, b, walk.budget);
    }
  }

  /** One entry of a listing: a directory or a file, itself or through a link. */
  method CopyEntry(fs: Source, root: Path, path: Path, depth: nat, walk: Walk) returns (r: Result<Tree, CopyError>)
    requires depth <= MAX_DEPTH && walk.Within()
    modifies walk
    ensures var u := UnfoldEntry(fs, root, path, depth);
            && (r.Ok? <==> Accepts(u, old(walk.visited), old(walk.entries), old(walk.bytes), walk.budget))
            && (r.Ok? ==> r.value == u.tree && Spent(walk, u) && walk.Within())
    ensures r.Ok? ==> Charged(fs, old(walk.entries), old(walk.bytes), walk, r.value)
    decreases MAX_DEPTH + 1 - depth, 0
  {
    var resolved := Resolve(fs, root, path);
    if resolved.Err? {
      return Err(resolved.error);
    }
    var to := resolved.value;
    if to !in fs {
      return Err(Unreadable);
    }
    match fs[to]
    case Dir(_) =>
      r := CopyTree(fs, root, to, depth + 1, walk);
    case File(content) =>
      var charged := walk.Charge(|content|);
      if !charged {
        return Err(TooManyBytes);
      }
      return Ok(Leaf(content));
    case _ =>
      return Err(Irregular);
  }

  /** What a new walk accepts, said of the tree it copies: each directory entered once, and the tree within budget. */
  ghost predicate Fits(u: Unfolding, budget: CopyBudget) {
    && u.Good? && Fresh(u.dirs, {})
    && ExtentOf(u.tree).entries <= budget.maxEntries && Saturate(ExtentOf(u.tree).bytes) <= budget.maxBytes
  }

  lemma AcceptsWhatFits(fs: Source, root: Path, budget: CopyBudget)
    requires Listed(fs)
    ensures var u := Unfold(fs, root, root, 0); Accepts(u, {}, 0, 0, budget) <==> Fits(u, budget)
  {
    if Unfold(fs, root, root, 0).Good? {
      UnfoldingMeasures(fs, root, root, 0);
    }
  }

  /** `stage`, from a resolved source directory: a new walk, and the copy from its root. */
  method Stage(fs: Source, root: Path, budget: CopyBudget) returns (r: Result<Tree, CopyError>)
    ensures var u := Unfold(fs, root, root, 0);
            && (r.Ok? <==> Accepts(u, {}, 0, 0, budget))
            && (Listed(fs) ==> (r.Ok? <==> Fits(u, budget)))
            && (r.Ok? ==> r.value == u.tree)
  {
    var walk := new Walk(budget);
    r := CopyTree(fs, root, root, 0, walk);
    if Listed(fs) { AcceptsWhatFits(fs, root, budget); }
  }
}
