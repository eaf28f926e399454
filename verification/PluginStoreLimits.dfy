/**
 Where the theorems about the plugins directory end, exactly: on which trash names trees stay at home and restarts
 find their plugins, and which trees are kept at all. Each limit comes with a run that goes past it.
 */
module PluginStoreLimits {
  import opened Wrappers
  import opened PluginStore
  import opened PluginStoreSafety
  import opened PluginStoreJobs
  import opened PluginStoreRuns
  import opened PluginStoreTheorems
  import TreeCopy
  import Marker

  // ---------------------------------------------------------------- runs that get somewhere

  /** Some run ends here. */
  ghost predicate Reached(s: State) {
    exists tr, es :: IsRun(tr, es) && tr[|es|] == s
  }

  lemma ReachedFirst()
    ensures Reached(Initial())
  {
    var tr, es: seq<Event> := [Initial()], [];
    assert IsRun(tr, es) && tr[|es|] == Initial();
  }

  lemma ReachedOn(s: State, e: Event)
    requires Reached(s) && Enabled(s, e)
    ensures Reached(Apply(s, e))
  {
    var tr, es :| IsRun(tr, es) && tr[|es|] == s;
    var tr', es' := RunOneMore(tr, es, e);
  }

  /** The event neither takes this plugin away nor brings anything but `brought` to its name. */
  predicate Calm(s: State, e: Event, id: Id, brought: nat) {
    !Removes(s, e, id) && BringsOnly(s, e, id, brought)
  }

  ghost predicate Leads(tr: seq<State>, es: seq<Event>, i: nat, s0: State, s: State, id: Id, brought: nat) {
    && IsRun(tr, es) && i <= |es| && tr[i] == s0 && tr[|es|] == s
    && forall k: nat | i <= k < |es| :: Calm(tr[k], es[k], id, brought)
  }

  /** Some run comes by `s0` and ends at `s`, calmly for this plugin. */
  ghost predicate Since(s0: State, s: State, id: Id, brought: nat) {
    exists tr, es, i :: Leads(tr, es, i, s0, s, id, brought)
  }

  lemma SinceItself(s: State, id: Id, brought: nat)
    requires Reached(s)
    ensures Since(s, s, id, brought)
  {
    var tr, es :| IsRun(tr, es) && tr[|es|] == s;
    assert Leads(tr, es, |es|, s, s, id, brought);
  }

  lemma SinceOn(s0: State, s: State, e: Event, id: Id, brought: nat)
    requires Since(s0, s, id, brought) && Enabled(s, e) && Calm(s, e, id, brought)
    ensures Since(s0, Apply(s, e), id, brought)
  {
    var tr, es, i :| Leads(tr, es, i, s0, s, id, brought);
    var tr', es' := RunOneMore(tr, es, e);
    assert Leads(tr', es', i, s0, Apply(s, e), id, brought);
  }

  const A_TREE: Tree := TreeCopy.Branch(map["plugin.toml" := TreeCopy.Leaf([])])
  const FINE := Io(true, "", "", false)
  const FAILS := Io(false, "", "", true)

  // ---------------------------------------------------------------- two plugins whose names meet

  predicate HasATree(s: Store, a: Id) {
    (a, 0) in s.stood && a in s.last && s.last[a] == 0 && 0 in s.whole && s.whole[0] == A_TREE
  }

  lemma OccupyBoth(a: Id, b: Id) returns (s: State)
    requires a != b
    ensures Reached(s) && s.jobs == map[] && s.mine == s.copying == {} && HasATree(s.store, a) && s.store.next == 2
    ensures s.store.disk == map[Plugin(a) := Folder(0, A_TREE), Plugin(b) := Folder(1, A_TREE)]
    ensures s.store.names == map[]
  {
    s := Initial();
    ReachedFirst();
    ReachedOn(s, Occupy(a, A_TREE));
    s := Apply(s, Occupy(a, A_TREE));
    ReachedOn(s, Occupy(b, A_TREE));
    s := Apply(s, Occupy(b, A_TREE));
  }

  lemma StageOne(s: State, name: string) returns (s': State)
    requires Reached(s) && Staging(name) !in s.store.disk && name !in s.mine + s.copying
    ensures Reached(s') && s'.jobs == s.jobs && s'.mine == s.mine + {name} && s'.copying == s.copying
    ensures s'.store == s.store.(disk := s'.store.disk, next := s.store.next + 1, whole := s'.store.whole)
    ensures s'.store.disk == s.store.disk[Staging(name) := Folder(s.store.next, A_TREE)]
    ensures s'.store.whole == s.store.whole[s.store.next := A_TREE]
  {
    ReachedOn(s, StageBegin(name, A_TREE));
    var s1 := Apply(s, StageBegin(name, A_TREE));
    ReachedOn(s1, StageDone(name));
    s' := Apply(s1, StageDone(name));
    assert s.copying + {name} - {name} == s.copying;
  }

  /** Both plugins stand, and an update of each is staged. */
  ghost predicate BothStand(s: State, a: Id, b: Id) {
    && Reached(s) && s.jobs == map[] && "u" in s.mine && "v" in s.mine && a != b
    && Ino(s.store.disk, Plugin(a)) == Some(0) && Ino(s.store.disk, Plugin(b)) == Some(1) && HasATree(s.store, a)
    && s.store.names == map[] && (forall n :: Trash(n) !in s.store.disk)
  }

  lemma StandBoth(a: Id, b: Id) returns (s: State)
    requires a != b
    ensures BothStand(s, a, b)
  {
    s := OccupyBoth(a, b);
    s := StageOne(s, "u");
    assert "u" != "v" by { assert "u"[0] != "v"[0]; }
    s := StageOne(s, "v");
  }

  /** `a` is in the trash as `m`, and nothing else is; `marked` if its marker says so. */
  ghost predicate Trashed(s: State, a: Id, b: Id, m: string, marked: bool) {
    && s.jobs == map[] && "v" in s.mine && a != b
    && Plugin(a) !in s.store.disk && Ino(s.store.disk, Trash(m)) == Some(0) && HasATree(s.store, a)
    && (marked ==> Marked(s.store, a, m)) && Ino(s.store.disk, Plugin(b)) == Some(1)
    && s.store.names == map[m := a] && (forall n | n != m :: Trash(n) !in s.store.disk)
  }

  lemma UninstallFirst(s: State, a: Id, b: Id, m: string) returns (s': State)
    requires BothStand(s, a, b) && Marker.TrashName(m)
    ensures Reached(s') && Trashed(s', a, b, m, false)
  {
    ReachedOn(s, Begin(a, Uninstall));
    var s1 := Apply(s, Begin(a, Uninstall));
    ReachedOn(s1, Step(a, FINE.(name := m)));
    var s2 := Apply(s1, Step(a, FINE.(name := m)));
    ReachedOn(s2, Step(a, FINE));
    var s3 := Apply(s2, Step(a, FINE));
    ReachedOn(s3, Finish(a));
    s' := Apply(s3, Finish(a));
  }

  lemma UpdateIsMarked(s: State, a: Id, b: Id, m: string, brought: nat) returns (s': State)
    requires BothStand(s, a, b) && Marker.TrashName(m)
    ensures Since(s, s', a, brought) && s'.jobs == map[a := Job(MoveAside("u", m), Some(0))] && s'.mine == s.mine
    ensures s'.store == s.store.(disk := s.store.disk[MarkerOf(a) := Text(Marker.Line(m))], names := map[m := a])
  {
    SinceItself(s, a, brought);
    SinceOn(s, s, Begin(a, Update("u")), a, brought);
    var s1 := Apply(s, Begin(a, Update("u")));
    SinceOn(s, s1, Step(a, FINE.(name := m)), a, brought);
    var s2 := Apply(s1, Step(a, FINE.(name := m)));
    SinceOn(s, s2, Step(a, FINE), a, brought);
    var s3 := Apply(s2, Step(a, FINE));
    var whole := FINE.(text := Marker.Line(m));
    SinceOn(s, s3, Step(a, whole), a, brought);
    s' := Apply(s3, Step(a, whole));
  }

  lemma CommitFails(s: State, a: Id, b: Id, m: string, brought: nat) returns (s': State)
    requires BothStand(s, a, b) && Marker.TrashName(m)
    ensures Since(s, s', a, brought) && s'.jobs == map[a := Job(LookAgain(m), Some(0))]
    ensures Trashed(s'.(jobs := map[]), a, b, m, true)
  {
    var s1 := UpdateIsMarked(s, a, b, m, brought);
    SinceOn(s, s1, Step(a, FINE), a, brought);
    var s2 := Apply(s1, Step(a, FINE));
    SinceOn(s, s2, Step(a, FAILS), a, brought);
    s' := Apply(s2, Step(a, FAILS));
  }

  /** An update of `a` that moves it aside, and then can neither commit nor put it back: its marker stays. */
  lemma UpdateFailsMoved(s: State, a: Id, b: Id, m: string, brought: nat) returns (s': State)
    requires BothStand(s, a, b) && Marker.TrashName(m)
    ensures Since(s, s', a, brought) && Trashed(s', a, b, m, true)
  {
    var s3 := CommitFails(s, a, b, m, brought);
    SinceOn(s, s3, Step(a, FINE), a, brought);
    var s4 := Apply(s3, Step(a, FINE));
    SinceOn(s, s4, Step(a, FAILS), a, brought);
    var s5 := Apply(s4, Step(a, FAILS));
    SinceOn(s, s5, Finish(a), a, brought);
    s' := Apply(s5, Finish(a));
  }

  /** A failed update of `b` has left a marker for `n` of which so much was written that it reads as `m`. */
  ghost predicate HalfMarked(s: State, a: Id, b: Id, m: string, n: string, marked: bool) {
    && s.jobs == map[] && a != b && m != n
    && Plugin(a) !in s.store.disk && Ino(s.store.disk, Trash(m)) == Some(0) && HasATree(s.store, a)
    && (marked ==> Marked(s.store, a, m)) && Ino(s.store.disk, Plugin(b)) == Some(1)
    && MarkerOf(b) in s.store.disk && s.store.disk[MarkerOf(b)] == Text(Marker.TRASH + "/" + m)
    && s.store.names == map[m := a, n := b] && (forall k | k != m :: Trash(k) !in s.store.disk)
  }

  lemma UpdateBegins(s0: State, s: State, a: Id, b: Id, m: string, n: string, marked: bool, brought: nat)
    returns (s': State)
    requires Since(s0, s, a, brought) && Trashed(s, a, b, m, marked) && m != n && Marker.TrashName(n)
    ensures Since(s0, s', a, brought) && s'.jobs == map[b := Job(CreateMarker("v", n), Some(1))]
    ensures s'.store == s.store.(names := map[m := a, n := b])
  {
    SinceOn(s0, s, Begin(b, Update("v")), a, brought);
    var s1 := Apply(s, Begin(b, Update("v")));
    SinceOn(s0, s1, Step(b, FINE.(name := n)), a, brought);
    s' := Apply(s1, Step(b, FINE.(name := n)));
  }

  lemma MarkerWriteFails(s0: State, s: State, a: Id, b: Id, m: string, n: string, marked: bool, brought: nat)
    returns (s': State)
    requires Since(s0, s, a, brought) && Trashed(s, a, b, m, marked)
    requires m != n && m <= n && Marker.TrashName(m) && Marker.TrashName(n)
    ensures Since(s0, s', a, brought) && HalfMarked(s', a, b, m, n, marked)
  {
    var s1 := UpdateBegins(s0, s, a, b, m, n, marked, brought);
    SinceOn(s0, s1, Step(b, FINE), a, brought);
    var s2 := Apply(s1, Step(b, FINE));
    var torn := FAILS.(text := Marker.TRASH + "/" + m);
    assert torn.text <= Marker.Line(n);
    SinceOn(s0, s2, Step(b, torn), a, brought);
    var s3 := Apply(s2, Step(b, torn));
    SinceOn(s0, s3, Finish(b), a, brought);
    s' := Apply(s3, Finish(b));
  }

  /** `b` has been uninstalled up to its marker, which is still there. */
  ghost predicate Freed(s: State, a: Id, b: Id, m: string, n: string, spare: string, marked: bool) {
    && s.jobs == map[] && a != b && m != n && m != spare
    && Plugin(a) !in s.store.disk && Plugin(b) !in s.store.disk && HasATree(s.store, a)
    && Ino(s.store.disk, Trash(m)) == Some(0) && (marked ==> Marked(s.store, a, m))
    && MarkerOf(b) in s.store.disk && s.store.disk[MarkerOf(b)] == Text(Marker.TRASH + "/" + m)
    && s.store.names == map[m := a, n := b, spare := b]
  }

  lemma UninstallDies(s0: State, s: State, a: Id, b: Id, m: string, n: string, spare: string, marked: bool, brought: nat)
    returns (s': State)
    requires Since(s0, s, a, brought) && HalfMarked(s, a, b, m, n, marked)
    requires spare != m && spare != n && Marker.TrashName(spare)
    ensures Since(s0, s', a, brought) && Freed(s', a, b, m, n, spare, marked)
  {
    SinceOn(s0, s, Begin(b, Uninstall), a, brought);
    var s1 := Apply(s, Begin(b, Uninstall));
    SinceOn(s0, s1, Step(b, FINE.(name := spare)), a, brought);
    var s2 := Apply(s1, Step(b, FINE.(name := spare)));
    SinceOn(s0, s2, Crash, a, brought);
    s' := Apply(s2, Crash);
  }

  lemma RecoveryReads(s0: State, s: State, a: Id, id: Id, m: string, brought: nat) returns (s': State)
    requires Since(s0, s, a, brought) && s.jobs == map[] && MarkerOf(id) in s.store.disk
    requires s.store.disk[MarkerOf(id)].Text? && Marker.Read(s.store.disk[MarkerOf(id)].text) == Some(m)
    ensures Since(s0, s', a, brought) && s'.store == s.store && s'.jobs == map[id := Job(LookRestore(m), None)]
  {
    SinceOn(s0, s, Begin(id, Recover), a, brought);
    var s1 := Apply(s, Begin(id, Recover));
    SinceOn(s0, s1, Step(id, FINE), a, brought);
    s' := Apply(s1, Step(id, FINE));
  }

  /** At the next boot `a` comes first, and its rename fails. */
  lemma RecoverFirst(s0: State, s: State, a: Id, b: Id, m: string, n: string, spare: string, brought: nat)
    returns (s': State)
    requires Since(s0, s, a, brought) && Freed(s, a, b, m, n, spare, true) && Marker.TrashName(m)
    ensures Since(s0, s', a, brought) && Freed(s', a, b, m, n, spare, true)
  {
    Marker.WholeMarkerReadsName(m);
    var s1 := RecoveryReads(s0, s, a, a, m, brought);
    SinceOn(s0, s1, Step(a, FINE), a, brought);
    var s2 := Apply(s1, Step(a, FINE));
    SinceOn(s0, s2, Step(a, FAILS), a, brought);
    var s3 := Apply(s2, Step(a, FAILS));
    SinceOn(s0, s3, Finish(a), a, brought);
    s' := Apply(s3, Finish(a));
  }

  /** Then `b`, whose marker reads as the trash entry of `a`. */
  lemma RecoverSecond(s0: State, s: State, a: Id, b: Id, m: string, n: string, spare: string, marked: bool, brought: nat)
    returns (s': State)
    requires Since(s0, s, a, brought) && Freed(s, a, b, m, n, spare, marked) && Marker.TrashName(m)
    ensures Since(s0, s', a, brought) && HasATree(s'.store, a)
    ensures s'.store.names == map[m := a, n := b, spare := b]
    ensures Trash(m) !in s'.store.disk && Plugin(a) !in s'.store.disk && (marked ==> Marked(s'.store, a, m))
  {
    Marker.ReadsBack(m);
    var s1 := RecoveryReads(s0, s, a, b, m, brought);
    SinceOn(s0, s1, Step(b, FINE), a, brought);
    var s2 := Apply(s1, Step(b, FINE));
    SinceOn(s0, s2, Step(b, FINE), a, brought);
    s' := Apply(s2, Step(b, FINE));
  }

  /** Two plugins, and a trash name of the one that begins one of two of the other. */
  predicate Meet(a: Id, b: Id, m: string, n: string, spare: string) {
    && a != b && m <= n && m != n && spare != m && spare != n
    && Marker.TrashName(m) && Marker.TrashName(n) && Marker.TrashName(spare)
  }

  /** Wherever one plugin's name begins another's, a run takes a tree of the first to the name of the second. */
  lemma MeetingNamesTakeTreesAway(a: Id, b: Id, m: string, n: string, spare: string) returns (tr: seq<State>, es: seq<Event>)
    requires Meet(a, b, m, n, spare)
    ensures IsRun(tr, es) && tr[|es|].store.names == map[m := a, n := b, spare := b]
    ensures (a, 0) in tr[|es|].store.stood && !AtHome(tr[|es|].store, a, 0) && !WasEmpty(tr[|es|].store, 0)
  {
    var s0 := StandBoth(a, b);
    var s1 := UninstallFirst(s0, a, b, m);
    SinceItself(s1, a, 0);
    var s2 := MarkerWriteFails(s1, s1, a, b, m, n, false, 0);
    var s3 := UninstallDies(s1, s2, a, b, m, n, spare, false, 0);
    var s4 := RecoverSecond(s1, s3, a, b, m, n, spare, false, 0);
    var i: nat;
    tr, es, i :| Leads(tr, es, i, s1, s4, a, 0);
    assert forall k | Ours(s4.store, a, k) :: k == m;
    NotEmpty();
  }

  lemma NotEmpty()
    ensures A_TREE != EMPTY
  {
    assert "plugin.toml" in A_TREE.entries;
  }

  /** And a run after which a restart does not find the first, though nobody uninstalled it: neither the tree that stood
      nor the one its update was to bring. */
  lemma MeetingNamesLosePlugins(a: Id, b: Id, m: string, n: string, spare: string, brought: nat)
    returns (tr: seq<State>, es: seq<Event>, i: nat)
    requires Meet(a, b, m, n, spare)
    ensures IsRun(tr, es) && tr[|es|].store.names == map[m := a, n := b, spare := b]
    ensures i <= |es| && Plugin(a) in tr[i].store.disk && !Clashes(tr[i], a)
    ensures forall k: nat | i <= k < |es| :: Calm(tr[k], es[k], a, brought)
    ensures Ino(Recovered(tr[|es|].store.disk, a), Plugin(a)) == None && !MarkerIsTrue(tr[|es|].store, a)
  {
    var s0 := StandBoth(a, b);
    var s1 := UpdateFailsMoved(s0, a, b, m, brought);
    var s2 := MarkerWriteFails(s0, s1, a, b, m, n, true, brought);
    var s3 := UninstallDies(s0, s2, a, b, m, n, spare, true, brought);
    var s4 := RecoverFirst(s0, s3, a, b, m, n, spare, brought);
    var s5 := RecoverSecond(s0, s4, a, b, m, n, spare, true, brought);
    tr, es, i :| Leads(tr, es, i, s0, s5, a, brought);
    Marker.WholeMarkerReadsName(m);
    assert Marked(s5.store, a, m) && !Whole(s5.store, Trash(m));
  }

  // ---------------------------------------------------------------- runs over given names

  /** The run draws none but these names, each for its plugin. */
  ghost predicate Over(tr: seq<State>, owners: map<string, Id>) {
    |tr| > 0 && forall n | n in tr[|tr| - 1].store.names :: n in owners && owners[n] == tr[|tr| - 1].store.names[n]
  }

  ghost predicate RunOver(tr: seq<State>, es: seq<Event>, owners: map<string, Id>) {
    IsRun(tr, es) && Over(tr, owners)
  }

  ghost predicate HasAnother(owners: map<string, Id>, n: string)
    requires n in owners
  {
    exists k :: k in owners && k != n && owners[k] == owners[n]
  }

  /** Stamps do not run out: who has a name has another. */
  ghost predicate Plenty(owners: map<string, Id>) {
    forall n {:trigger HasAnother(owners, n)} | n in owners :: HasAnother(owners, n)
  }

  lemma OverApart(tr: seq<State>, owners: map<string, Id>)
    requires Over(tr, owners) && NamesApart(owners)
    ensures AllApart(tr)
  {
    var names := tr[|tr| - 1].store.names;
    forall m, n | m in names && n in names && m <= n ensures names[m] == names[n] {
      assert owners[m] == owners[n];
    }
  }

  lemma SomeMeet(owners: map<string, Id>) returns (m: string, n: string, spare: string)
    requires !NamesApart(owners) && Plenty(owners) && NamesFit(owners)
    ensures m in owners && n in owners && spare in owners
    ensures owners[spare] == owners[n] && Meet(owners[m], owners[n], m, n, spare)
  {
    m, n :| m in owners && n in owners && m <= n && owners[m] != owners[n];
    assert HasAnother(owners, n);
    spare :| spare in owners && spare != n && owners[spare] == owners[n];
  }

  ghost predicate HomeInEveryRun(owners: map<string, Id>) {
    forall tr: seq<State>, es: seq<Event>, i: nat | RunOver(tr, es, owners) && i < |tr| :: AllHome(tr[i].store)
  }

  /** Over given trash names, every tree stays at home in every run exactly when no plugin's name begins another's. */
  lemma TreesStayHomeExactlyWhen(owners: map<string, Id>)
    requires NamesFit(owners) && Plenty(owners)
    ensures HomeInEveryRun(owners) <==> NamesApart(owners)
  {
    if NamesApart(owners) {
      forall tr: seq<State>, es: seq<Event>, i: nat | RunOver(tr, es, owners) && i < |tr| ensures AllHome(tr[i].store) {
        OverApart(tr, owners);
        EveryStateKnows(tr, es, i);
      }
    } else {
      var m, n, spare := SomeMeet(owners);
      var tr, es := MeetingNamesTakeTreesAway(owners[m], owners[n], m, n, spare);
      var last := tr[|es|].store;
      assert RunOver(tr, es, owners);
      assert !AllHome(last) by {
        assert (owners[m], 0) in last.stood && !AtHome(last, owners[m], 0) && !WasEmpty(last, 0);
      }
    }
  }

  /** A stretch of a run over these names in which the plugin stands and is not uninstalled. */
  ghost predicate Stays(tr: seq<State>, es: seq<Event>, i: nat, j: nat, id: Id, owners: map<string, Id>) {
    RunOver(tr, es, owners) && i <= j < |tr| && Installed(tr, es, i, id) && Spared(tr, es, i, j, id)
  }

  ghost predicate FoundInEveryRun(owners: map<string, Id>) {
    forall tr: seq<State>, es: seq<Event>, i: nat, j: nat, id | Stays(tr, es, i, j, id, owners) :: Found(tr[j].store, id)
  }

  ghost predicate MarkersTrueInEveryRun(owners: map<string, Id>) {
    forall tr: seq<State>, es: seq<Event>, i: nat, j: nat, id | Stays(tr, es, i, j, id, owners) :: MarkerIsTrue(tr[j].store, id)
  }

  /** A stretch of a run over these names in which nothing but `brought` is brought to the plugin's name. */
  ghost predicate Updates(tr: seq<State>, es: seq<Event>, i: nat, j: nat, id: Id, brought: nat, owners: map<string, Id>) {
    && Stays(tr, es, i, j, id, owners) && !Clashes(tr[i], id)
    && forall k: nat | i <= k < j :: BringsOnly(tr[k], es[k], id, brought)
  }

  ghost predicate OldOrNewInEveryRun(owners: map<string, Id>) {
    forall tr: seq<State>, es: seq<Event>, i: nat, j: nat, id, brought | Updates(tr, es, i, j, id, brought, owners) ::
      IsOldOrNew(tr[i].store, tr[j].store, id, brought)
  }

  lemma ApartIsFound(owners: map<string, Id>)
    requires NamesApart(owners)
    ensures FoundInEveryRun(owners) && MarkersTrueInEveryRun(owners) && OldOrNewInEveryRun(owners)
  {
    forall tr: seq<State>, es: seq<Event>, i: nat, j: nat, id | Stays(tr, es, i, j, id, owners)
      ensures Found(tr[j].store, id) && MarkerIsTrue(tr[j].store, id)
    {
      OverApart(tr, owners);
      RestartFindsThePlugin(tr, es, i, j, id);
      WholeMarkerNamesATree(tr, es, i, j, id);
    }
    forall tr: seq<State>, es: seq<Event>, i: nat, j: nat, id, brought | Updates(tr, es, i, j, id, brought, owners)
      ensures IsOldOrNew(tr[i].store, tr[j].store, id, brought)
    {
      OverApart(tr, owners);
      OldOrNew(tr, es, i, j, id, brought);
    }
  }

  lemma MeetingIsNotFound(owners: map<string, Id>)
    requires NamesFit(owners) && Plenty(owners) && !NamesApart(owners)
    ensures !FoundInEveryRun(owners) && !MarkersTrueInEveryRun(owners) && !OldOrNewInEveryRun(owners)
  {
    var m, n, spare := SomeMeet(owners);
    var tr, es, i := MeetingNamesLosePlugins(owners[m], owners[n], m, n, spare, 2);
    var j, id := |es|, owners[m];
    assert forall k: nat | i <= k < j :: Calm(tr[k], es[k], id, 2);
    assert Updates(tr, es, i, j, id, 2, owners);
    assert !Found(tr[j].store, id) && !IsOldOrNew(tr[i].store, tr[j].store, id, 2);
  }

  /** Over given trash names, a restart finds every plugin in every run, every whole marker names a tree, and every update
      is all or nothing, each exactly when no plugin's name begins another's. */
  lemma PluginsAreFoundExactlyWhen(owners: map<string, Id>)
    requires NamesFit(owners) && Plenty(owners)
    ensures FoundInEveryRun(owners) <==> NamesApart(owners)
    ensures MarkersTrueInEveryRun(owners) <==> NamesApart(owners)
    ensures OldOrNewInEveryRun(owners) <==> NamesApart(owners)
  {
    if NamesApart(owners) {
      ApartIsFound(owners);
    } else {
      MeetingIsNotFound(owners);
    }
  }

  // ---------------------------------------------------------------- a put-back under way

  /** A run that goes on from another's last state, bringing nothing but `brought` to the name, and not taking it away. */
  ghost predicate GoesOn(tr: seq<State>, es: seq<Event>, tr': seq<State>, es': seq<Event>, id: Id, brought: nat) {
    && IsRun(tr', es') && Trusted(tr', es') && |tr| == |es| + 1 && tr <= tr' && es <= es'
    && Spared(tr', es', |es|, |es'|, id)
    && forall k: nat | |es| <= k < |es'| :: BringsOnly(tr'[k], es'[k], id, brought)
  }

  ghost predicate AllOrNothing(tr: seq<State>, es: seq<Event>, id: Id)
    requires |tr| == |es| + 1
  {
    forall tr': seq<State>, es': seq<Event>, brought | GoesOn(tr, es, tr', es', id, brought) ::
      IsOldOrNew(tr[|es|].store, tr'[|es'|].store, id, brought)
  }

  /** The put-back can succeed, and then it is not what stood that stands. */
  lemma PutBackReplaces(s: State, id: Id)
    requires Clashes(s, id) && Sound(s.store) && JobOk(s.store, id, s.jobs[id]) && LastStands(s.store)
    ensures Enabled(s, Step(id, FINE))
    ensures var t := Apply(s, Step(id, FINE)).store; id in s.store.last && id in t.last && t.last[id] != s.store.last[id]
  {
    var j := s.jobs[id];
    assert IsFolder(s.store.disk, Trash(j.call.name));
    assert Ino(s.store.disk, Trash(j.call.name)) != Ino(s.store.disk, Plugin(id));
    CallStands(s.store, id, j, FINE);
  }

  lemma PutBackGoesOn(tr: seq<State>, es: seq<Event>, id: Id) returns (tr': seq<State>, es': seq<Event>, brought: nat)
    requires IsRun(tr, es) && Trusted(tr, es) && Clashes(tr[|es|], id)
    ensures GoesOn(tr, es, tr', es', id, brought)
    ensures !IsOldOrNew(tr[|es|].store, tr'[|es'|].store, id, brought)
  {
    var s := tr[|es|];
    var j := s.jobs[id];
    EveryState(tr, es, |es|);
    EveryStateTrusted(tr, es, |es|);
    EveryStateStands(tr, es, |es|);
    assert JobOk(s.store, id, j);
    PutBackReplaces(s, id);
    tr', es' := RunOneMore(tr, es, Step(id, FINE));
    TrustedStill(tr, es, tr', es', id);
    brought := s.store.last[id];
  }

  lemma TrustedStill(tr: seq<State>, es: seq<Event>, tr': seq<State>, es': seq<Event>, id: Id)
    requires IsRun(tr, es) && Trusted(tr, es) && Clashes(tr[|es|], id)
    requires IsRun(tr', es') && tr <= tr' && es' == es + [Step(id, FINE)]
    ensures Trusted(tr', es')
  {
    var s := tr[|es|];
    assert StepAt(tr', es', |es|);
    NamesOnlyGrow(s.store, id, s.jobs[id], FINE);
    if AllApart(tr) {
      assert tr'[|es'|].store.names == s.store.names;
    } else {
      forall i: nat | i < |es'| && es'[i].Step? ensures !Removes(tr'[i], es'[i], es'[i].id) {
        if i < |es| { assert !Removes(tr[i], es[i], es[i].id); }
      }
    }
  }

  /** From a state in which the plugin stands, whatever goes on is all or nothing exactly when no put-back is under way
      onto an empty directory that has taken the name: it may still put back the older tree. */
  lemma AllOrNothingExactlyWhen(tr: seq<State>, es: seq<Event>, id: Id)
    requires IsRun(tr, es) && Trusted(tr, es) && Plugin(id) in tr[|es|].store.disk
    ensures AllOrNothing(tr, es, id) <==> !Clashes(tr[|es|], id)
  {
    if Clashes(tr[|es|], id) {
      var tr', es', brought := PutBackGoesOn(tr, es, id);
      assert GoesOn(tr, es, tr', es', id, brought);
    } else {
      forall tr': seq<State>, es': seq<Event>, brought | GoesOn(tr, es, tr', es', id, brought)
        ensures IsOldOrNew(tr[|es|].store, tr'[|es'|].store, id, brought)
      {
        assert tr'[|es|] == tr[|es|];
        OldOrNew(tr', es', |es|, |es'|, id, brought);
      }
    }
  }

  /** There are such states: an update could not commit, and somebody took the name before the put-back. */
  lemma PutBackMayClash(a: Id, b: Id, m: string) returns (tr: seq<State>, es: seq<Event>)
    requires a != b && Marker.TrashName(m)
    ensures IsRun(tr, es) && Trusted(tr, es) && Clashes(tr[|es|], a)
  {
    var s0 := StandBoth(a, b);
    var s1 := CommitFails(s0, a, b, m, 0);
    SinceOn(s0, s1, Step(a, FINE), a, 0);
    var s2 := Apply(s1, Step(a, FINE));
    var i: nat;
    tr, es, i :| Leads(tr, es, i, s0, s2, a, 0);
    tr, es := RunOneMore(tr, es, Occupy(a, EMPTY));
    assert tr[|es|].store.names == map[m := a];
  }

  // ---------------------------------------------------------------- empty directories

  /** Every directory of this content that ever stood at a name is kept, in every run. */
  ghost predicate KeptInEveryRun(tree: Tree) {
    forall tr: seq<State>, es: seq<Event>, i: nat | IsRun(tr, es) && i < |tr| :: KeepsAll(tr[i].store, tree)
  }

  ghost predicate KeepsAll(s: Store, tree: Tree) {
    forall id, ino | (id, ino) in s.stood && ino in s.whole && s.whole[ino] == tree :: StandsWhole(s, ino)
  }

  /** A new plugin's copy is renamed over an empty directory that took the name after the look. */
  lemma EmptyIsReplaced(id: Id) returns (tr: seq<State>, es: seq<Event>)
    ensures IsRun(tr, es) && !KeepsAll(tr[|es|].store, EMPTY)
  {
    var s0 := Initial();
    ReachedFirst();
    var s1 := StageOne(s0, "u");
    ReachedOn(s1, Begin(id, Install("u")));
    var s2 := Apply(s1, Begin(id, Install("u")));
    ReachedOn(s2, Occupy(id, EMPTY));
    var s3 := Apply(s2, Occupy(id, EMPTY));
    ReachedOn(s3, Step(id, FINE));
    var s4 := Apply(s3, Step(id, FINE));
    tr, es :| IsRun(tr, es) && tr[|es|] == s4;
    assert (id, 1) in s4.store.stood && s4.store.whole[1] == EMPTY;
    assert !StandsWhole(s4.store, 1);
  }

  /** Nothing that stood at a name is ever lost but empty directories, and they may be. */
  lemma TreesAreKeptExactlyWhen(tree: Tree)
    ensures KeptInEveryRun(tree) <==> tree != EMPTY
  {
    if tree == EMPTY {
      var tr, es := EmptyIsReplaced("p");
    } else {
      forall tr: seq<State>, es: seq<Event>, i: nat | IsRun(tr, es) && i < |tr| ensures KeepsAll(tr[i].store, tree) {
        var s := tr[i].store;
        forall id, ino | (id, ino) in s.stood && ino in s.whole && s.whole[ino] == tree ensures StandsWhole(s, ino) {
          EveryTreeIsKept(tr, es, i, id, ino);
        }
      }
    }
  }
}
