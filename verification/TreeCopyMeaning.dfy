/** What an accepted unfolding means: listing order does not matter, and the copy is the source, route by route. */
module TreeCopyMeaning {
  import opened Wrappers
  import opened TreeCopy

  // ---------------------------------------------------------------- listing order

  /** The same source, but for the order its directories list in. */
  ghost predicate SameButOrder(a: Source, b: Source) {
    && a.Keys == b.Keys
    && forall p | p in a :: a[p] == b[p] || (a[p].Dir? && b[p].Dir? && multiset(a[p].names) == multiset(b[p].names))
  }

  lemma PlusCommutes(u: Unfolding, x: string, a: Unfolding, y: string, b: Unfolding)
    requires x == y ==> a == b
    ensures Plus(Plus(u, x, a), y, b) == Plus(Plus(u, y, b), x, a)
  {
    if u.Good? && u.tree.Branch? && a.Good? && b.Good? {
      assert u.tree.entries[x := a.tree][y := b.tree] == u.tree.entries[y := b.tree][x := a.tree];
      assert u.dirs + a.dirs + b.dirs == u.dirs + b.dirs + a.dirs;
    }
  }

  lemma OneMore(fs: Source, root: Path, p: Path, names: seq<string>, name: string, depth: nat)
    requires depth <= MAX_DEPTH
    ensures UnfoldNames(fs, root, p, names + [name], depth)
            == Plus(UnfoldNames(fs, root, p, names, depth), name, UnfoldEntry(fs, root, p + [name], depth))
  {
    assert (names + [name])[..|names|] == names;
  }

  /** Any one name can be read last. */
  lemma {:induction false} ReadLast(fs: Source, root: Path, p: Path, before: seq<string>, name: string, after: seq<string>, depth: nat)
    requires depth <= MAX_DEPTH
    ensures UnfoldNames(fs, root, p, before + [name] + after, depth) == UnfoldNames(fs, root, p, before + after + [name], depth)
  {
    if after == [] {
      assert before + [name] + after == before + after + [name];
    } else {
      var mid, last := after[..|after| - 1], after[|after| - 1];
      ReadLast(fs, root, p, before, name, mid, depth);
      assert before + [name] + after == (before + [name] + mid) + [last];
      assert before + after + [name] == (before + mid) + [last] + [name];
      OneMore(fs, root, p, before + [name] + mid, last, depth);
      OneMore(fs, root, p, before + mid, name, depth);
      OneMore(fs, root, p, before + mid, last, depth);
      OneMore(fs, root, p, (before + mid) + [last], name, depth);
      PlusCommutes(UnfoldNames(fs, root, p, before + mid, depth), name, UnfoldEntry(fs, root, p + [name], depth),
                   last, UnfoldEntry(fs, root, p + [last], depth));
    }
  }

  /** A rearrangement has, somewhere, whatever the other list ends with. */
  lemma FindLast(a: seq<string>, b: seq<string>) returns (before: seq<string>, after: seq<string>)
    requires a != [] && multiset(a) == multiset(b)
    ensures b == before + [a[|a| - 1]] + after
    ensures multiset(a[..|a| - 1]) == multiset(before + after)
  {
    var name := a[|a| - 1];
    assert a == a[..|a| - 1] + [name];
    assert name in multiset(b);
    var k :| 0 <= k < |b| && b[k] == name;
    before, after := b[..k], b[k + 1..];
    assert b == before + [name] + after;
    assert multiset(b) == multiset(before + after) + multiset{name};
    assert multiset(a[..|a| - 1]) == multiset(a) - multiset{name};
  }

  lemma {:induction false} NamesPermute(fs: Source, root: Path, p: Path, a: seq<string>, b: seq<string>, depth: nat)
    requires depth <= MAX_DEPTH && multiset(a) == multiset(b)
    ensures UnfoldNames(fs, root, p, a, depth) == UnfoldNames(fs, root, p, b, depth)
  {
    if a == [] {
      assert |multiset(b)| == 0;
    } else {
      var name := a[|a| - 1];
      var before, after := FindLast(a, b);
      NamesPermute(fs, root, p, a[..|a| - 1], before + after, depth);
      OneMore(fs, root, p, before + after, name, depth);
      ReadLast(fs, root, p, before, name, after, depth);
    }
  }

  lemma {:induction false} SameUnfolding(a: Source, b: Source, root: Path, p: Path, depth: nat)
    requires SameButOrder(a, b)
    ensures Unfold(a, root, p, depth) == Unfold(b, root, p, depth)
    decreases MAX_DEPTH + 1 - depth, 2, 0
  {
    if depth <= MAX_DEPTH && p in a && a[p].Dir? {
      SameNames(a, b, root, p, a[p].names, depth);
      NamesPermute(b, root, p, a[p].names, b[p].names, depth);
    }
  }

  lemma {:induction false} SameNames(a: Source, b: Source, root: Path, p: Path, names: seq<string>, depth: nat)
    requires SameButOrder(a, b) && depth <= MAX_DEPTH
    ensures UnfoldNames(a, root, p, names, depth) == UnfoldNames(b, root, p, names, depth)
    decreases MAX_DEPTH + 1 - depth, 1, |names|
  {
    if names != [] {
      SameNames(a, b, root, p, names[..|names| - 1], depth);
      var r := Resolve(a, root, p + [names[|names| - 1]]);
      assert r == Resolve(b, root, p + [names[|names| - 1]]);
      if r.Ok? && r.value in a {
        SameUnfolding(a, b, root, r.value, depth + 1);
      }
    }
  }

  /** Whatever order directories list in, the copy succeeds or fails alike, with the same tree. */
  lemma OrderDoesNotMatter(a: Source, b: Source, root: Path, budget: CopyBudget)
    requires SameButOrder(a, b)
    ensures Unfold(a, root, root, 0) == Unfold(b, root, root, 0)
    ensures Accepts(Unfold(a, root, root, 0), {}, 0, 0, budget) <==> Accepts(Unfold(b, root, root, 0), {}, 0, 0, budget)
  {
    SameUnfolding(a, b, root, root, 0);
  }

  // ---------------------------------------------------------------- routes

  /** Where a route of names leads from `p`, following links that stay inside the root. */
  function Follow(fs: Source, root: Path, p: Path, route: seq<string>): Option<Path>
    decreases |route|
  {
    if route == [] then Some(p)
    else if p !in fs || !fs[p].Dir? || route[0] !in fs[p].names then None
    else
      var to := Resolve(fs, root, p + [route[0]]);
      if to.Err? then None else Follow(fs, root, to.value, route[1..])
  }

  function Lookup(t: Tree, route: seq<string>): Option<Tree> {
    if route == [] then Some(t)
    else if t.Leaf? || route[0] !in t.entries then None
    else Lookup(t.entries[route[0]], route[1..])
  }

  predicate IsDir(fs: Source, p: Path) {
    p in fs && fs[p].Dir?
  }

  /** The copied subtree is what stands at `q`: the same bytes, or the same names. */
  ghost predicate Mirrors(fs: Source, q: Path, t: Tree) {
    q in fs && match fs[q]
               case File(content) => t == Leaf(content)
               case Dir(names) => t.Branch? && t.entries.Keys == set n | n in names
               case _ => false
  }

  /** A copied tree holds, at every route, exactly what the route leads to in the source. */
  lemma {:induction false} RouteByRoute(fs: Source, root: Path, p: Path, depth: nat, route: seq<string>)
    requires Unfold(fs, root, p, depth).Good? && root <= p
    ensures var u := Unfold(fs, root, p, depth);
            match Follow(fs, root, p, route)
            case None => Lookup(u.tree, route) == None
            case Some(q) =>
              && root <= q
              && Lookup(u.tree, route).Some? && Mirrors(fs, q, Lookup(u.tree, route).value)
              && (IsDir(fs, q) ==> q in u.dirs && depth + |route| <= MAX_DEPTH)
    decreases |route|
  {
    var names := fs[p].names;
    var inside := UnfoldNames(fs, root, p, names, depth);
    if route == [] {
      forall n
        ensures n in inside.tree.entries <==> n in names
      {
        ListingHolds(fs, root, p, names, depth, n);
      }
      ListingHolds(fs, root, p, names, depth, "");
    } else {
      ListingHolds(fs, root, p, names, depth, route[0]);
      if route[0] in names {
        var to := Resolve(fs, root, p + [route[0]]).value;
        assert root <= to;
        if IsDir(fs, to) {
          RouteByRoute(fs, root, to, depth + 1, route[1..]);
        }
      }
    }
  }

  // ---------------------------------------------------------------- no second route, no cycle

  lemma {:induction false} ListingCounts(fs: Source, root: Path, p: Path, names: seq<string>, depth: nat, m: string, n: string, d: Path)
    requires depth <= MAX_DEPTH && UnfoldNames(fs, root, p, names, depth).Good?
    requires m in names && n in names && m != n
    requires UnfoldEntry(fs, root, p + [m], depth).Good? && UnfoldEntry(fs, root, p + [n], depth).Good?
    ensures UnfoldNames(fs, root, p, names, depth).dirs[d]
            >= UnfoldEntry(fs, root, p + [m], depth).dirs[d] + UnfoldEntry(fs, root, p + [n], depth).dirs[d]
  {
    var front, last := names[..|names| - 1], names[|names| - 1];
    assert names == front + [last];
    if last == m {
      ListingHolds(fs, root, p, front, depth, n);
    } else if last == n {
      ListingHolds(fs, root, p, front, depth, m);
    } else {
      ListingCounts(fs, root, p, front, depth, m, n, d);
    }
  }

  /** The first step of a route to a directory, and the unfolding the rest of the route stays in. */
  lemma FirstStep(fs: Source, root: Path, p: Path, depth: nat, route: seq<string>, q: Path)
    requires Unfold(fs, root, p, depth).Good? && root <= p && route != []
    requires Follow(fs, root, p, route) == Some(q) && IsDir(fs, q)
    ensures route[0] in fs[p].names && Resolve(fs, root, p + [route[0]]).Ok?
    ensures var to := Resolve(fs, root, p + [route[0]]).value;
            var e := Unfold(fs, root, to, depth + 1);
            && root <= to && UnfoldEntry(fs, root, p + [route[0]], depth) == e && e.Good?
            && Follow(fs, root, to, route[1..]) == Some(q) && q in e.dirs
            && e.dirs <= UnfoldNames(fs, root, p, fs[p].names, depth).dirs
  {
    ListingHolds(fs, root, p, fs[p].names, depth, route[0]);
    var to := Resolve(fs, root, p + [route[0]]).value;
    assert IsDir(fs, to);
    RouteByRoute(fs, root, to, depth + 1, route[1..]);
  }

  /** Where every directory is entered once, only one route leads to each. */
  lemma {:induction false} OneRouteEach(fs: Source, root: Path, p: Path, depth: nat, a: seq<string>, b: seq<string>, q: Path)
    requires Unfold(fs, root, p, depth).Good? && root <= p && Fresh(Unfold(fs, root, p, depth).dirs, {})
    requires Follow(fs, root, p, a) == Follow(fs, root, p, b) == Some(q) && IsDir(fs, q)
    ensures a == b
    decreases |a|
  {
    var dirs := Unfold(fs, root, p, depth).dirs;
    if a != [] {
      FirstStep(fs, root, p, depth, a, q);
      assert dirs[q] == 1;
    }
    if b != [] {
      FirstStep(fs, root, p, depth, b, q);
      assert dirs[q] == 1;
    }
    if a != [] && b != [] {
      if a[0] != b[0] {
        ListingCounts(fs, root, p, fs[p].names, depth, a[0], b[0], q);
      } else {
        var to := Resolve(fs, root, p + [a[0]]).value;
        var e := Unfold(fs, root, to, depth + 1);
        forall d | d in e.dirs
          ensures e.dirs[d] == 1
        {
          assert d in dirs && e.dirs[d] <= dirs[d];
        }
        OneRouteEach(fs, root, to, depth + 1, a[1..], b[1..], q);
        assert a == [a[0]] + a[1..] && b == [b[0]] + b[1..];
      }
    }
  }

  lemma {:induction false} FollowOn(fs: Source, root: Path, p: Path, a: seq<string>, b: seq<string>)
    requires Follow(fs, root, p, a).Some?
    ensures Follow(fs, root, p, a + b) == Follow(fs, root, Follow(fs, root, p, a).value, b)
    decreases |a|
  {
    if a == [] {
      assert a + b == b;
    } else {
      assert (a + b)[1..] == a[1..] + b;
      FollowOn(fs, root, Resolve(fs, root, p + [a[0]]).value, a[1..], b);
    }
  }

  /** A source with a cycle, or with a second route to one directory, is refused under every budget. */
  lemma SecondRouteRefused(fs: Source, root: Path, a: seq<string>, b: seq<string>, q: Path, budget: CopyBudget)
    requires a != b && IsDir(fs, q) && Follow(fs, root, root, a) == Follow(fs, root, root, b) == Some(q)
    ensures !Accepts(Unfold(fs, root, root, 0), {}, 0, 0, budget)
  {
    if Accepts(Unfold(fs, root, root, 0), {}, 0, 0, budget) {
      OneRouteEach(fs, root, root, 0, a, b, q);
    }
  }

  lemma CycleRefused(fs: Source, root: Path, there: seq<string>, back: seq<string>, q: Path, budget: CopyBudget)
    requires back != [] && IsDir(fs, q)
    requires Follow(fs, root, root, there) == Some(q) && Follow(fs, root, q, back) == Some(q)
    ensures !Accepts(Unfold(fs, root, root, 0), {}, 0, 0, budget)
  {
    FollowOn(fs, root, root, there, back);
    assert |there + back| != |there|;
    SecondRouteRefused(fs, root, there, there + back, q, budget);
  }

  // ---------------------------------------------------------------- exactly what is refused

  /**
   A route to something that cannot be copied: a directory too deep, a node that is neither a
   directory nor a file, or a directory listing a name that is gone or links out of the root.
   */
  ghost predicate BadRoute(fs: Source, root: Path, p: Path, depth: nat, route: seq<string>) {
    match Follow(fs, root, p, route)
    case None => false
    case Some(q) =>
      if !IsDir(fs, q) then q !in fs || !fs[q].File?
      else depth + |route| > MAX_DEPTH || exists n :: n in fs[q].names && Resolve(fs, root, q + [n]).Err?
  }

  lemma {:induction false} WhichName(fs: Source, root: Path, p: Path, names: seq<string>, depth: nat) returns (n: string)
    requires depth <= MAX_DEPTH && UnfoldNames(fs, root, p, names, depth).Bad?
    ensures n in names && UnfoldEntry(fs, root, p + [n], depth).Bad?
  {
    n := names[|names| - 1];
    if UnfoldEntry(fs, root, p + [n], depth).Good? {
      BranchesFold(fs, root, p, names[..|names| - 1], depth);
      n := WhichName(fs, root, p, names[..|names| - 1], depth);
    }
  }

  lemma {:induction false} WhyBad(fs: Source, root: Path, p: Path, depth: nat) returns (route: seq<string>)
    requires Unfold(fs, root, p, depth).Bad? && depth <= MAX_DEPTH + 1 && IsDir(fs, p)
    ensures BadRoute(fs, root, p, depth, route)
    decreases MAX_DEPTH + 1 - depth
  {
    route := [];
    if depth <= MAX_DEPTH {
      var n := WhichName(fs, root, p, fs[p].names, depth);
      var to := Resolve(fs, root, p + [n]);
      if to.Ok? {
        var rest: seq<string> := [];
        if IsDir(fs, to.value) {
          rest := WhyBad(fs, root, to.value, depth + 1);
        }
        route := [n] + rest;
        assert route[0] == n && route[1..] == rest;
        assert Follow(fs, root, p, route) == Follow(fs, root, to.value, rest);
      }
    }
  }

  /** A source unfolds exactly when none of its routes leads to something that cannot be copied. */
  lemma UnfoldsExactlyWhen(fs: Source, root: Path)
    requires IsDir(fs, root)
    ensures Unfold(fs, root, root, 0).Good? <==> !exists route :: BadRoute(fs, root, root, 0, route)
  {
    if Unfold(fs, root, root, 0).Bad? {
      var route := WhyBad(fs, root, root, 0);
    } else {
      forall route
        ensures !BadRoute(fs, root, root, 0, route)
      {
        RouteByRoute(fs, root, root, 0, route);
        if Follow(fs, root, root, route).Some? && IsDir(fs, Follow(fs, root, root, route).value) {
          var q := Follow(fs, root, root, route).value;
          forall n | n in fs[q].names
            ensures Resolve(fs, root, q + [n]).Ok?
          {
            RouteByRoute(fs, root, root, 0, route + [n]);
            FollowOn(fs, root, root, route, [n]);
            LookupOn(Unfold(fs, root, root, 0).tree, route, n);
          }
        }
      }
    }
  }

  lemma {:induction false} LookupOn(t: Tree, route: seq<string>, n: string)
    requires Lookup(t, route).Some?
    ensures Lookup(t, route + [n]) == Lookup(Lookup(t, route).value, [n])
  {
    if route == [] {
      assert route + [n] == [n];
    } else {
      assert (route + [n])[1..] == route[1..] + [n];
      LookupOn(t.entries[route[0]], route[1..], n);
    }
  }

  /** A directory entered on the way is one some route leads to. */
  lemma {:induction false} WhichRoute(fs: Source, root: Path, p: Path, depth: nat, q: Path) returns (route: seq<string>)
    requires Unfold(fs, root, p, depth).Good? && q in Unfold(fs, root, p, depth).dirs
    ensures Follow(fs, root, p, route) == Some(q) && IsDir(fs, q)
    decreases MAX_DEPTH + 1 - depth
  {
    route := [];
    if q != p {
      var i := WhichEntry(fs, root, p, fs[p].names, depth, q);
      var n := fs[p].names[i];
      ListingHolds(fs, root, p, fs[p].names, depth, n);
      var rest := WhichRoute(fs, root, Resolve(fs, root, p + [n]).value, depth + 1, q);
      route := [n] + rest;
      assert route[1..] == rest;
    }
  }

  lemma {:induction false} WhichEntry(fs: Source, root: Path, p: Path, names: seq<string>, depth: nat, q: Path) returns (i: nat)
    requires depth <= MAX_DEPTH && UnfoldNames(fs, root, p, names, depth).Good?
    requires q in UnfoldNames(fs, root, p, names, depth).dirs
    ensures i < |names| && UnfoldEntry(fs, root, p + [names[i]], depth).Good?
    ensures q in UnfoldEntry(fs, root, p + [names[i]], depth).dirs
    ensures UnfoldEntry(fs, root, p + [names[i]], depth).dirs[q] < UnfoldNames(fs, root, p, names, depth).dirs[q]
            ==> exists j: nat :: j < i && UnfoldEntry(fs, root, p + [names[j]], depth).Good?
                                 && q in UnfoldEntry(fs, root, p + [names[j]], depth).dirs
  {
    var front := names[..|names| - 1];
    i := |names| - 1;
    if q in UnfoldNames(fs, root, p, front, depth).dirs {
      var j := WhichEntry(fs, root, p, front, depth, q);
      if q !in UnfoldEntry(fs, root, p + [names[i]], depth).dirs {
        i := j;
      } else {
        assert front[j] == names[j];
      }
    }
  }

  /** If a directory is entered twice, two routes lead to it. */
  lemma {:induction false} WhichTwoRoutes(fs: Source, root: Path, p: Path, depth: nat, q: Path)
    returns (a: seq<string>, b: seq<string>)
    requires Listed(fs) && Unfold(fs, root, p, depth).Good? && Unfold(fs, root, p, depth).dirs[q] >= 2
    ensures a != b && Follow(fs, root, p, a) == Follow(fs, root, p, b) == Some(q) && IsDir(fs, q)
    decreases MAX_DEPTH + 1 - depth
  {
    var names := fs[p].names;
    var i := WhichEntry(fs, root, p, names, depth, q);
    var to := Resolve(fs, root, p + [names[i]]).value;
    if q == p {
      var rest := WhichRoute(fs, root, to, depth + 1, q);
      a, b := [], [names[i]] + rest;
      assert b[1..] == rest;
    } else if Unfold(fs, root, to, depth + 1).dirs[q] >= 2 {
      var c, d := WhichTwoRoutes(fs, root, to, depth + 1, q);
      a, b := [names[i]] + c, [names[i]] + d;
      assert a[1..] == c && b[1..] == d;
    } else {
      var j: nat :| j < i && UnfoldEntry(fs, root, p + [names[j]], depth).Good?
                    && q in UnfoldEntry(fs, root, p + [names[j]], depth).dirs;
      var c := WhichRoute(fs, root, to, depth + 1, q);
      var d := WhichRoute(fs, root, Resolve(fs, root, p + [names[j]]).value, depth + 1, q);
      a, b := [names[i]] + c, [names[j]] + d;
      assert a[1..] == c && b[1..] == d;
    }
  }

  /**
   The copy succeeds exactly when no route leads to something that cannot be copied, no two routes
   lead to one directory, and the dereferenced tree, its entries counted and its files measured, is
   within budget.
   */
  lemma SucceedsExactlyWhen(fs: Source, root: Path, budget: CopyBudget)
    requires Listed(fs) && IsDir(fs, root)
    ensures Accepts(Unfold(fs, root, root, 0), {}, 0, 0, budget) <==>
              && (forall route :: !BadRoute(fs, root, root, 0, route))
              && (forall a, b | Follow(fs, root, root, a).Some? && Follow(fs, root, root, a) == Follow(fs, root, root, b) ::
                    IsDir(fs, Follow(fs, root, root, a).value) ==> a == b)
              && Unfold(fs, root, root, 0).Good?
              && ExtentOf(Unfold(fs, root, root, 0).tree).entries <= budget.maxEntries
              && Saturate(ExtentOf(Unfold(fs, root, root, 0).tree).bytes) <= budget.maxBytes
  {
    UnfoldsExactlyWhen(fs, root);
    AcceptsWhatFits(fs, root, budget);
    var u := Unfold(fs, root, root, 0);
    if u.Good? {
      if Fresh(u.dirs, {}) {
        forall a, b | Follow(fs, root, root, a).Some? && Follow(fs, root, root, a) == Follow(fs, root, root, b)
          ensures IsDir(fs, Follow(fs, root, root, a).value) ==> a == b
        {
          if IsDir(fs, Follow(fs, root, root, a).value) {
            OneRouteEach(fs, root, root, 0, a, b, Follow(fs, root, root, a).value);
          }
        }
      } else {
        var q :| q in u.dirs && u.dirs[q] != 1;
        var a, b := WhichTwoRoutes(fs, root, root, 0, q);
      }
    }
  }
}
