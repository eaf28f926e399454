/** The theorems about the plugins directory, over every run of its jobs, crashes included. */
module PluginStoreTheorems {
  import opened Wrappers
  import opened PluginStore
  import opened PluginStoreSafety
  import opened PluginStoreJobs
  import opened PluginStoreRuns
  import Marker

  // ---------------------------------------------------------------- without uninstalls

  /** A name that is taken, or has a marker, is one something has stood at. */
  predicate Remembered(s: Store, id: Id) {
    Plugin(id) in s.disk || MarkerOf(id) in s.disk ==> id in s.last
  }

  ghost predicate Steady(s: State) {
    && (forall id: Id {:trigger Anchored(s.store, id)} :: Anchored(s.store, id) && Remembered(s.store, id))
    && (forall id | id in s.jobs :: NothingMissing(s.store, id, s.jobs[id]))
  }

  /** An uninstall of this plugin takes it away, or its marker for want of it; one that fails does neither. */
  predicate Removes(s: State, e: Event, id: Id) {
    e.Step? && e.id == id && id in s.jobs && TakesAway(s.store, id, s.jobs[id], e.io)
  }

  lemma RememberedOwn(s: Store, id: Id, j: Job, io: Io)
    requires JobOk(s, id, j) && Possible(s, id, j, io) && Remembered(s, id)
    ensures Remembered(Advance(s, id, j, io).store, id)
  {
    CallStands(s, id, j, io);
    if !j.call.CreateMarker? && !j.call.WriteMarker? {
      CallMoves(s, id, j, io);
      MarkerStays(s, id, j, io);
    }
  }

  /** Only an update creates a marker. */
  lemma MarkerStays(s: Store, id: Id, j: Job, io: Io)
    requires Possible(s, id, j, io) && !j.call.CreateMarker? && !j.call.WriteMarker?
    ensures MarkerOf(id) in Advance(s, id, j, io).store.disk ==> MarkerOf(id) in s.disk
  {
  }

  /** Without uninstalls a marker is only ever followed when it is whole, so it is followed to its own plugin's tree. */
  lemma SteadyTakesOwn(s: Store, id: Id, j: Job)
    requires NamesFit(s.names) && Anchored(s, id) && Remembered(s, id) && JobOk(s, id, j)
    ensures TakesOwn(s, id, j)
  {
    if j.call.LookRestore? && Plugin(id) !in s.disk {
      var n :| Ours(s, id, n) && Marked(s, id, n);
      Marker.WholeMarkerReadsName(n);
    }
  }

  lemma SteadyPutsBackOwn(s: State, e: Event)
    requires Enabled(s, e) && Knowing(s) && Steady(s)
    ensures PutsBackOwn(s, e)
  {
    if e.Step? {
      assert Anchored(s.store, e.id);
      SteadyTakesOwn(s.store, e.id, s.jobs[e.id]);
    }
  }

  lemma SteadyCall(s: State, e: Event)
    requires e.Step? && !Removes(s, e, e.id) && Enabled(s, e) && Sound(s.store) && Knowing(s) && Steady(s)
    ensures Steady(Apply(s, e))
  {
    var t, u, j := s.store, Apply(s, e).store, s.jobs[e.id];
    assert Anchored(t, e.id);
    CallStands(t, e.id, j, e.io);
    AnchoredOwn(t, e.id, j, e.io);
    RememberedOwn(t, e.id, j, e.io);
    forall id: Id | id != e.id
      ensures Anchored(u, id) && Remembered(u, id)
      ensures id in s.jobs ==> NothingMissing(u, id, s.jobs[id])
    {
      assert Anchored(t, id) && Remembered(t, id);
      OtherCall(t, e.id, j, e.io, id);
      AnchoredUntouched(t, u, id);
      assert SameAt(t.disk, u.disk, Plugin(id)) && SameAt(t.disk, u.disk, MarkerOf(id));
      if id in s.jobs {
        assert NothingMissing(t, id, s.jobs[id]);
      }
    }
  }

  lemma SteadyOther(s: State, e: Event)
    requires !e.Step? && Enabled(s, e) && Knowing(s) && Steady(s)
    ensures Steady(Apply(s, e))
  {
    var t, u := s.store, Apply(s, e).store;
    forall id: Id
      ensures Anchored(u, id) && Remembered(u, id)
      ensures id in s.jobs ==> NothingMissing(u, id, s.jobs[id])
    {
      assert Anchored(t, id) && Remembered(t, id);
      if id in s.jobs {
        assert NothingMissing(t, id, s.jobs[id]);
      }
      if (e.Torn? || e.Occupy?) && id == e.id {
        assert Ino(u.disk, Plugin(id)).Some?;
      } else {
        AnchoredUntouched(t, u, id);
      }
    }
  }

  // ---------------------------------------------------------------- every state of every run

  ghost predicate Inv(s: State) {
    Sound(s.store) && Staged(s) && JobsDrawn(s) && NothingLost(s.store)
  }

  lemma {:induction false} EveryState(tr: seq<State>, es: seq<Event>, i: nat)
    requires IsRun(tr, es) && i < |tr|
    ensures Inv(tr[i])
  {
    if i > 0 {
      EveryState(tr, es, i - 1);
      assert StepAt(tr, es, i - 1);
      InvStep(tr[i - 1], es[i - 1]);
    }
  }

  lemma InvStep(s: State, e: Event)
    requires Inv(s) && Enabled(s, e)
    ensures Inv(Apply(s, e))
  {
    SoundStep(s, e);
    StagedStep(s, e);
    DrawnStep(s, e);
    NothingLostStep(s, e);
  }

  /** No plugin's trash name drawn in the run is the beginning of another plugin's. */
  ghost predicate AllApart(tr: seq<State>) {
    |tr| > 0 && NamesApart(tr[|tr| - 1].store.names)
  }

  lemma {:induction false} NamesKeptLater(tr: seq<State>, es: seq<Event>, i: nat, j: nat)
    requires IsRun(tr, es) && i <= j < |tr|
    ensures NamesKept(tr[i].store, tr[j].store)
  {
    if i < j {
      NamesKeptLater(tr, es, i, j - 1);
      assert StepAt(tr, es, j - 1);
      NamesKeptStep(tr[j - 1], es[j - 1]);
    }
  }

  lemma {:induction false} EveryStateKnows(tr: seq<State>, es: seq<Event>, i: nat)
    requires IsRun(tr, es) && AllApart(tr) && i < |tr|
    ensures Knowing(tr[i]) && AllHome(tr[i].store) && NamesApart(tr[i].store.names)
  {
    NamesKeptLater(tr, es, i, |tr| - 1);
    if i > 0 {
      EveryState(tr, es, i - 1);
      EveryStateKnows(tr, es, i - 1);
      assert StepAt(tr, es, i - 1);
      ApartPutsBackOwn(tr[i - 1], es[i - 1]);
      KnowingStep(tr[i - 1], es[i - 1]);
      AllHomeStep(tr[i - 1], es[i - 1]);
    }
  }

  /** A trash name of a plugin without a dot in its id. */
  ghost predicate Dotless(id: Id, name: string) {
    '.' !in id && exists stamp :: Stamp(stamp) && name == id + "-" + stamp
  }

  ghost predicate AllDotless(names: map<string, Id>) {
    forall n | n in names :: Dotless(names[n], n)
  }

  /** As none is when no id has a dot in it. */
  lemma DotlessRunsAreApart(tr: seq<State>)
    requires |tr| > 0 && AllDotless(tr[|tr| - 1].store.names)
    ensures AllApart(tr)
  {
    var names := tr[|tr| - 1].store.names;
    forall m, n | m in names && n in names && m <= n ensures names[m] == names[n] {
      assert Dotless(names[m], m) && Dotless(names[n], n);
      var s :| Stamp(s) && m == names[m] + "-" + s;
      var t :| Stamp(t) && n == names[n] + "-" + t;
      DotlessNamesAreApart(names[m], names[n], s, t);
    }
  }

  /** No uninstall ever takes anything away. */
  ghost predicate NoUninstalls(tr: seq<State>, es: seq<Event>) {
    |es| < |tr| && forall i: nat | i < |es| && es[i].Step? :: !Removes(tr[i], es[i], es[i].id)
  }

  lemma InitiallySteady()
    ensures Steady(Initial())
  {
    var s := Initial();
    forall id: Id
      ensures Anchored(s.store, id) && Remembered(s.store, id)
    {
      assert id !in s.store.last && Plugin(id) !in s.store.disk && MarkerOf(id) !in s.store.disk;
    }
  }

  lemma {:induction false} EveryStateSteady(tr: seq<State>, es: seq<Event>, i: nat)
    requires IsRun(tr, es) && NoUninstalls(tr, es) && i < |tr|
    ensures Knowing(tr[i]) && AllHome(tr[i].store) && Steady(tr[i])
  {
    InitiallySteady();
    if i > 0 {
      EveryState(tr, es, i - 1);
      EveryStateSteady(tr, es, i - 1);
      assert StepAt(tr, es, i - 1);
      SteadyPutsBackOwn(tr[i - 1], es[i - 1]);
      KnowingStep(tr[i - 1], es[i - 1]);
      AllHomeStep(tr[i - 1], es[i - 1]);
      if es[i - 1].Step? {
        SteadyCall(tr[i - 1], es[i - 1]);
      } else {
        SteadyOther(tr[i - 1], es[i - 1]);
      }
    }
  }

  /** In a run without uninstalls, and in any run whose trash names are apart, every put-back is of the plugin's own tree. */
  ghost predicate Trusted(tr: seq<State>, es: seq<Event>) {
    AllApart(tr) || NoUninstalls(tr, es)
  }

  lemma EveryStateTrusted(tr: seq<State>, es: seq<Event>, i: nat)
    requires IsRun(tr, es) && Trusted(tr, es) && i < |tr|
    ensures Knowing(tr[i]) && AllHome(tr[i].store)
  {
    if AllApart(tr) {
      EveryStateKnows(tr, es, i);
    } else {
      EveryStateSteady(tr, es, i);
    }
  }

  lemma TrustedPutsBackOwn(tr: seq<State>, es: seq<Event>, i: nat)
    requires IsRun(tr, es) && Trusted(tr, es) && i < |es|
    ensures PutsBackOwn(tr[i], es[i])
  {
    assert StepAt(tr, es, i);
    EveryState(tr, es, i);
    if AllApart(tr) {
      EveryStateKnows(tr, es, i);
      ApartPutsBackOwn(tr[i], es[i]);
    } else {
      EveryStateSteady(tr, es, i);
      SteadyPutsBackOwn(tr[i], es[i]);
    }
  }

  // ---------------------------------------------------------------- one plugin, whatever happens to the others

  /** The plugin is where a restart finds it, and no job of its own is about to take it away. */
  ghost predicate Watched(s: State, id: Id) {
    id in s.store.last && Anchored(s.store, id) && (id in s.jobs ==> NothingMissing(s.store, id, s.jobs[id]))
  }

  lemma WatchedCall(s: State, e: Event, id: Id)
    requires e.Step? && Enabled(s, e) && Sound(s.store) && Knowing(s) && PutsBackOwn(s, e)
    requires Watched(s, id) && !Removes(s, e, id)
    ensures Watched(Apply(s, e), id)
  {
    var t, u, j := s.store, Apply(s, e).store, s.jobs[e.id];
    CallStands(t, e.id, j, e.io);
    if e.id == id {
      AnchoredOwn(t, id, j, e.io);
    } else {
      OtherCall(t, e.id, j, e.io, id);
      AnchoredUntouched(t, u, id);
    }
  }

  lemma WatchedOther(s: State, e: Event, id: Id)
    requires !e.Step? && Enabled(s, e) && Knowing(s) && Watched(s, id)
    ensures Watched(Apply(s, e), id)
  {
    var t, u := s.store, Apply(s, e).store;
    if (e.Torn? || e.Occupy?) && id == e.id {
      assert Ino(u.disk, Plugin(id)).Some?;
    } else {
      AnchoredUntouched(t, u, id);
    }
  }

  lemma WatchedStep(s: State, e: Event, id: Id)
    requires Enabled(s, e) && Sound(s.store) && Knowing(s) && PutsBackOwn(s, e)
    requires Watched(s, id) && !Removes(s, e, id)
    ensures Watched(Apply(s, e), id)
  {
    if e.Step? {
      WatchedCall(s, e, id);
    } else {
      WatchedOther(s, e, id);
    }
  }

  /** What stands at a name is what came there last. */
  ghost predicate LastStands(s: Store) {
    forall id | Plugin(id) in s.disk :: id in s.last && Ino(s.disk, Plugin(id)) == Some(s.last[id])
  }

  lemma LastStandsStep(s: State, e: Event)
    requires Enabled(s, e) && Sound(s.store) && LastStands(s.store)
    ensures LastStands(Apply(s, e).store)
  {
    if e.Step? {
      var j := s.jobs[e.id];
      CallStands(s.store, e.id, j, e.io);
      CallMoves(s.store, e.id, j, e.io);
    }
  }

  lemma {:induction false} EveryStateStands(tr: seq<State>, es: seq<Event>, i: nat)
    requires IsRun(tr, es) && i < |tr|
    ensures LastStands(tr[i].store)
  {
    if i > 0 {
      EveryState(tr, es, i - 1);
      EveryStateStands(tr, es, i - 1);
      assert StepAt(tr, es, i - 1);
      LastStandsStep(tr[i - 1], es[i - 1]);
    }
  }

  /** At this state the plugin stands; or it has stood, and no uninstall ever takes anything away. */
  ghost predicate Installed(tr: seq<State>, es: seq<Event>, i: nat, id: Id)
    requires i < |tr|
  {
    Plugin(id) in tr[i].store.disk || (id in tr[i].store.last && NoUninstalls(tr, es))
  }

  /** Between the two states no uninstall takes this plugin away; any other may be. */
  ghost predicate Spared(tr: seq<State>, es: seq<Event>, i: nat, j: nat, id: Id)
    requires j < |tr|
  {
    forall k: nat | i <= k < j && k < |es| :: !Removes(tr[k], es[k], id)
  }

  lemma InstalledIsWatched(tr: seq<State>, es: seq<Event>, i: nat, id: Id)
    requires IsRun(tr, es) && i < |tr| && Installed(tr, es, i, id)
    ensures Watched(tr[i], id)
  {
    if id in tr[i].store.last && NoUninstalls(tr, es) {
      EveryStateSteady(tr, es, i);
      assert Anchored(tr[i].store, id);
    } else {
      EveryState(tr, es, i);
      EveryStateStands(tr, es, i);
    }
  }

  lemma {:induction false} EveryStateWatched(tr: seq<State>, es: seq<Event>, i: nat, j: nat, id: Id)
    requires IsRun(tr, es) && Trusted(tr, es) && i <= j < |tr| && Installed(tr, es, i, id) && Spared(tr, es, i, j, id)
    ensures Watched(tr[j], id)
  {
    if i == j {
      InstalledIsWatched(tr, es, i, id);
    } else {
      EveryStateWatched(tr, es, i, j - 1, id);
      assert !Removes(tr[j - 1], es[j - 1], id);
      WatchedNext(tr, es, j - 1, id);
    }
  }

  lemma WatchedNext(tr: seq<State>, es: seq<Event>, i: nat, id: Id)
    requires IsRun(tr, es) && Trusted(tr, es) && i < |es| && Watched(tr[i], id) && !Removes(tr[i], es[i], id)
    ensures Watched(tr[i + 1], id)
  {
    EveryState(tr, es, i);
    EveryStateTrusted(tr, es, i);
    TrustedPutsBackOwn(tr, es, i);
    assert StepAt(tr, es, i);
    WatchedStep(tr[i], es[i], id);
  }

  // ---------------------------------------------------------------- the theorems

  ghost predicate StandsWhole(s: Store, ino: nat) {
    exists p :: Kept(p) && Whole(s, p) && s.disk[p].ino == ino
  }

  /** Nothing is ever deleted but empty directories: every other tree that ever stood at a name is, whole, at a name
      or in the trash. */
  lemma EveryTreeIsKept(tr: seq<State>, es: seq<Event>, i: nat, id: Id, ino: nat)
    requires IsRun(tr, es) && i < |tr| && (id, ino) in tr[i].store.stood
    requires !WasEmpty(tr[i].store, ino)
    ensures StandsWhole(tr[i].store, ino)
  {
    EveryState(tr, es, i);
    var p :| Kept(p) && Ino(tr[i].store.disk, p) == Some(ino);
    assert Whole(tr[i].store, p);
  }

  /** Every tree that ever stood at `plugins/<id>` stands there still, or in the trash under that plugin's name. */
  lemma EveryTreeIsAtHome(tr: seq<State>, es: seq<Event>, i: nat, id: Id, ino: nat)
    requires IsRun(tr, es) && Trusted(tr, es) && i < |tr| && (id, ino) in tr[i].store.stood
    requires !WasEmpty(tr[i].store, ino)
    ensures AtHome(tr[i].store, id, ino)
  {
    EveryStateTrusted(tr, es, i);
  }

  /** What stands at a plugin's name is always a whole tree, never a part of one. */
  lemma OnlyWholeTreesStand(tr: seq<State>, es: seq<Event>, i: nat, id: Id)
    requires IsRun(tr, es) && i < |tr| && Plugin(id) in tr[i].store.disk
    ensures Whole(tr[i].store, Plugin(id))
  {
    EveryState(tr, es, i);
  }

  /** A restart whose rename succeeds leaves at `plugins/<id>`, whole, the directory that last stood there. */
  ghost predicate Found(s: Store, id: Id) {
    var d := Recovered(s.disk, id);
    && id in s.last && Ino(d, Plugin(id)) == Some(s.last[id])
    && s.last[id] in s.whole && d[Plugin(id)].tree == s.whole[s.last[id]]
  }

  /** So it does wherever the process dies, from a moment the plugin stood there on until it is uninstalled. */
  lemma RestartFindsThePlugin(tr: seq<State>, es: seq<Event>, i: nat, j: nat, id: Id)
    requires IsRun(tr, es) && Trusted(tr, es) && i <= j < |tr| && Installed(tr, es, i, id) && Spared(tr, es, i, j, id)
    ensures Found(tr[j].store, id)
  {
    EveryState(tr, es, j);
    EveryStateTrusted(tr, es, j);
    EveryStateWatched(tr, es, i, j, id);
    RecoveryRestores(tr[j].store, id);
  }

  /** A whole marker names a tree that is still in the trash, the last that stood, unless the plugin's name is taken. */
  ghost predicate MarkerIsTrue(s: Store, id: Id) {
    forall name | Marker.TrashName(name) && Marked(s, id, name) && Plugin(id) !in s.disk ::
      Whole(s, Trash(name)) && id in s.last && s.disk[Trash(name)].ino == s.last[id]
  }

  /** So it does in the same stretch of a run; and everywhere in a run without uninstalls. */
  lemma WholeMarkerNamesATree(tr: seq<State>, es: seq<Event>, i: nat, j: nat, id: Id)
    requires IsRun(tr, es) && i <= j < |tr|
    requires NoUninstalls(tr, es) || (Trusted(tr, es) && Installed(tr, es, i, id) && Spared(tr, es, i, j, id))
    ensures MarkerIsTrue(tr[j].store, id)
  {
    var s := tr[j].store;
    EveryState(tr, es, j);
    EveryStateTrusted(tr, es, j);
    forall name | Marker.TrashName(name) && Marked(s, id, name) && Plugin(id) !in s.disk
      ensures Whole(s, Trash(name)) && id in s.last && s.disk[Trash(name)].ino == s.last[id]
    {
      if NoUninstalls(tr, es) {
        EveryStateSteady(tr, es, j);
        assert Anchored(s, id) && Remembered(s, id);
      } else {
        EveryStateWatched(tr, es, i, j, id);
      }
      Marker.WholeMarkerReadsName(name);
      AnchorReads(s, id, name);
    }
  }

  /** The only directory the run brings to this name from outside the trash is `brought`. */
  predicate BringsOnly(s: State, e: Event, id: Id, brought: nat) {
    && (e.Occupy? ==> e.id != id)
    && (e.Step? && e.id == id && id in s.jobs && s.jobs[id].call.Commit? && e.io.ok ==>
          Ino(s.store.disk, Staging(s.jobs[id].call.staged)) == Some(brought))
  }

  /** A put-back is under way onto a name that an empty directory has taken since. */
  predicate Clashes(s: State, id: Id) {
    id in s.jobs && (s.jobs[id].call.PutBack? || s.jobs[id].call.Restore?) && HoldsEmpty(s.store.disk, Plugin(id))
  }

  lemma NoClashStep(s: State, e: Event, id: Id)
    requires Enabled(s, e) && !Clashes(s, id) && (e.Occupy? ==> e.id != id)
    ensures !Clashes(Apply(s, e), id)
  {
    if e.Step? && e.id != id {
      TouchesOnly(s.store, e.id, s.jobs[e.id], e.io, Plugin(id));
    }
  }

  lemma LastIsOldOrNew(s: State, e: Event, id: Id, brought: nat)
    requires Enabled(s, e) && Sound(s.store) && Knowing(s) && Watched(s, id) && !Clashes(s, id) && BringsOnly(s, e, id, brought)
    ensures var t := Apply(s, e).store; id in t.last && (t.last[id] == s.store.last[id] || t.last[id] == brought)
  {
    if e.Step? {
      var j := s.jobs[e.id];
      CallStands(s.store, e.id, j, e.io);
      if e.id == id && MoveOf(s.store, id, j, e.io).Some? && !j.call.Commit? {
        assert JobOk(s.store, id, j);
        if j.call.PutBack? {
          Marker.WholeMarkerReadsName(j.call.name);
        }
        if j.call.PutBack? || j.call.Restore? {
          AnchorReads(s.store, id, j.call.name);
        }
      }
    }
  }

  /** What came to stand since is `brought` or nothing, and a restart leaves there what came to stand last. */
  ghost predicate IsOldOrNew(s: Store, t: Store, id: Id, brought: nat) {
    && id in s.last && id in t.last && (t.last[id] == s.last[id] || t.last[id] == brought)
    && Ino(Recovered(t.disk, id), Plugin(id)) == Some(t.last[id])
  }

  /**
   An update is all or nothing: when nothing but `brought` is brought to the name from state `i` on,
   then at every later state, crashed or not, a restart leaves there the old directory or `brought`.
   */
  lemma {:induction false} OldOrNew(tr: seq<State>, es: seq<Event>, i: nat, j: nat, id: Id, brought: nat)
    requires IsRun(tr, es) && Trusted(tr, es) && i <= j < |tr| && Installed(tr, es, i, id) && Spared(tr, es, i, j, id)
    requires !Clashes(tr[i], id)
    requires forall k: nat | i <= k < j :: BringsOnly(tr[k], es[k], id, brought)
    ensures IsOldOrNew(tr[i].store, tr[j].store, id, brought) && !Clashes(tr[j], id)
  {
    RestartFindsThePlugin(tr, es, i, i, id);
    if i < j {
      OldOrNew(tr, es, i, j - 1, id, brought);
      EveryState(tr, es, j - 1);
      EveryStateTrusted(tr, es, j - 1);
      EveryStateWatched(tr, es, i, j - 1, id);
      assert StepAt(tr, es, j - 1) && BringsOnly(tr[j - 1], es[j - 1], id, brought);
      LastIsOldOrNew(tr[j - 1], es[j - 1], id, brought);
      NoClashStep(tr[j - 1], es[j - 1], id);
    }
    RestartFindsThePlugin(tr, es, i, j, id);
  }
}
