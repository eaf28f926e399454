/** The theorems over whole runs: no tree is lost, and a restart always finds a whole plugin to put back. */
module PluginStoreRuns {
  import opened Wrappers
  import opened PluginStore
  import opened PluginStoreSafety
  import opened PluginStoreJobs
  import Marker

  // ---------------------------------------------------------------- knowing, through every event

  /** Every job knows what it should, and every marker is its own plugin's. */
  ghost predicate Knowing(s: State) {
    && NamesFit(s.store.names)
    && (forall id | id in s.jobs :: JobOk(s.store, id, s.jobs[id]))
    && (forall id: Id {:trigger MarkerOk(s.store, id)} :: MarkerOk(s.store, id))
  }

  /** The event puts back no tree but its own plugin's. */
  ghost predicate PutsBackOwn(s: State, e: Event) {
    e.Step? && Enabled(s, e) ==> TakesOwn(s.store, e.id, s.jobs[e.id])
  }

  /** Names drawn stay drawn, and for the same plugin. */
  predicate NamesKept(s: Store, t: Store) {
    forall n | n in s.names :: n in t.names && t.names[n] == s.names[n]
  }

  lemma NamesKeptStep(s: State, e: Event)
    requires Enabled(s, e)
    ensures NamesKept(s.store, Apply(s, e).store)
  {
    if e.Step? {
      NamesOnlyGrow(s.store, e.id, s.jobs[e.id], e.io);
    }
  }

  lemma ApartPutsBackOwn(s: State, e: Event)
    requires Enabled(s, e) && Sound(s.store) && Knowing(s) && NamesApart(s.store.names)
    ensures PutsBackOwn(s, e)
  {
    if e.Step? {
      assert MarkerOk(s.store, e.id);
      ApartTakesOwn(s.store, e.id, s.jobs[e.id]);
    }
  }

  lemma StepKnows(s: State, e: Event)
    requires e.Step? && Enabled(s, e) && PutsBackOwn(s, e) && Sound(s.store) && Knowing(s)
    ensures Knowing(Apply(s, e))
  {
    var t, j := s.store, s.jobs[e.id];
    var s' := Apply(s, e);
    assert MarkerOk(t, e.id) && JobOk(t, e.id, j);
    FitCall(t, e.id, j, e.io);
    forall id: Id
      ensures MarkerOk(s'.store, id)
      ensures id in s'.jobs ==> JobOk(s'.store, id, s'.jobs[id])
    {
      assert MarkerOk(t, id);
      if id == e.id {
        OwnCall(t, id, j, e.io);
        OwnMarker(t, id, j, e.io);
      } else {
        OtherCall(t, e.id, j, e.io, id);
        UntouchedKnows(t, s'.store, id, if id in s.jobs then s.jobs[id] else j);
      }
    }
  }

  lemma TornKnows(s: State, e: Event)
    requires e.Torn? && Enabled(s, e) && Sound(s.store) && Knowing(s)
    ensures Knowing(Apply(s, e))
  {
    var t := Apply(s, e).store;
    forall id: Id
      ensures MarkerOk(t, id)
      ensures id in s.jobs ==> JobOk(t, id, s.jobs[id])
    {
      assert MarkerOk(s.store, id);
      if id == e.id {
        assert Ours(t, id, s.jobs[id].call.name);
      } else {
        UntouchedKnows(s.store, t, id, s.jobs[if id in s.jobs then id else e.id]);
      }
    }
  }

  /** A directory put at a free name is new: no job mistakes it for an incumbent. */
  lemma OccupyOwn(s: Store, id: Id, tree: Tree, j: Job)
    requires Plugin(id) !in s.disk && JobOk(s, id, j)
    ensures JobOk(Occupied(s, id, tree), id, j)
  {
    var t := Occupied(s, id, tree);
    assert Ino(t.disk, Plugin(id)) == Some(s.next);
    assert forall p | p != Plugin(id) :: SameAt(s.disk, t.disk, p) && Ino(t.disk, p) == Ino(s.disk, p);
  }

  lemma OccupyKnows(s: State, e: Event)
    requires e.Occupy? && Enabled(s, e) && Sound(s.store) && Knowing(s)
    ensures Knowing(Apply(s, e))
  {
    var t := Apply(s, e).store;
    forall id: Id
      ensures MarkerOk(t, id)
      ensures id in s.jobs ==> JobOk(t, id, s.jobs[id])
    {
      assert MarkerOk(s.store, id);
      if MarkerOf(id) in s.store.disk {
        var n :| Ours(s.store, id, n) && s.store.disk[MarkerOf(id)].text <= Marker.Line(n);
        assert Ours(t, id, n);
      }
      if id in s.jobs {
        if id == e.id {
          OccupyOwn(s.store, id, e.tree, s.jobs[id]);
        } else {
          UntouchedKnows(s.store, t, id, s.jobs[id]);
        }
      }
    }
  }

  lemma OtherKnows(s: State, e: Event)
    requires !e.Step? && !e.Torn? && !e.Occupy? && Enabled(s, e) && Sound(s.store) && Knowing(s)
    ensures Knowing(Apply(s, e))
  {
    var t := Apply(s, e).store;
    forall id: Id
      ensures MarkerOk(t, id)
      ensures id in s.jobs ==> JobOk(t, id, s.jobs[id])
    {
      assert MarkerOk(s.store, id);
      assert Untouched(s.store, t, id);
      UntouchedKnows(s.store, t, id, if id in s.jobs then s.jobs[id] else Job(Done(Failed), None));
    }
  }

  lemma KnowingStep(s: State, e: Event)
    requires Enabled(s, e) && PutsBackOwn(s, e) && Sound(s.store) && Knowing(s)
    ensures Knowing(Apply(s, e))
  {
    match e
    case Step(_, _) => StepKnows(s, e);
    case Torn(_, _) => TornKnows(s, e);
    case Occupy(_, _) => OccupyKnows(s, e);
    case _ => OtherKnows(s, e);
  }

  /** A run goes on with any event that can happen. */
  lemma RunOneMore(tr: seq<State>, es: seq<Event>, e: Event) returns (tr': seq<State>, es': seq<Event>)
    requires IsRun(tr, es) && Enabled(tr[|es|], e)
    ensures IsRun(tr', es') && tr' == tr + [Apply(tr[|es|], e)] && es' == es + [e]
  {
    tr', es' := tr + [Apply(tr[|es|], e)], es + [e];
    forall i: nat | i < |es'| ensures StepAt(tr', es', i) {
      if i < |es| { assert StepAt(tr, es, i); }
    }
  }

  // ---------------------------------------------------------------- every tree at home or in the trash

  /** The directory stands at its plugin's name, or in the trash under a name drawn for that plugin. */
  ghost predicate AtHome(s: Store, id: Id, ino: nat) {
    Ino(s.disk, Plugin(id)) == Some(ino) || exists n :: Ours(s, id, n) && Ino(s.disk, Trash(n)) == Some(ino)
  }

  ghost predicate AllHome(s: Store) {
    forall id, ino | (id, ino) in s.stood :: AtHome(s, id, ino) || WasEmpty(s, ino)
  }

  lemma UntouchedHome(s: Store, t: Store, id: Id, ino: nat)
    requires Untouched(s, t, id) && AtHome(s, id, ino)
    ensures AtHome(t, id, ino)
  {
    if Ino(s.disk, Plugin(id)) != Some(ino) {
      var n :| Ours(s, id, n) && Ino(s.disk, Trash(n)) == Some(ino);
      assert Ours(t, id, n) && Ino(t.disk, Trash(n)) == Some(ino);
    }
  }

  /** A call's move is out of the plugin's name into its trash, or into the plugin's name. */
  lemma MoveShape(s: Store, id: Id, j: Job, io: Io)
    requires JobOk(s, id, j) && Possible(s, id, j, io) && MoveOf(s, id, j, io).Some?
    ensures var (from, to) := MoveOf(s, id, j, io).value;
            if from == Plugin(id) then to.Trash? && Ours(Advance(s, id, j, io).store, id, to.name) else to == Plugin(id)
  {
  }

  /** A rename of that shape leaves every tree of the plugin's at home. */
  lemma MoveHome(s: Store, t: Store, id: Id, from: Place, to: Place, ino: nat)
    requires AtHome(s, id, ino) && CanRename(s, from, to) && Ino(s.disk, to) != Some(ino) && t.disk == Rename(s.disk, from, to)
    requires if from == Plugin(id) then to.Trash? && Ours(t, id, to.name) else to == Plugin(id)
    requires forall n | Ours(s, id, n) :: Ours(t, id, n)
    ensures AtHome(t, id, ino)
  {
    if Ino(s.disk, Plugin(id)) == Some(ino) {
      assert from == Plugin(id) ==> Ino(t.disk, Trash(to.name)) == Some(ino);
    } else {
      var n :| Ours(s, id, n) && Ino(s.disk, Trash(n)) == Some(ino);
      assert Ours(t, id, n);
      assert from == Trash(n) || Ino(t.disk, Trash(n)) == Some(ino);
    }
  }

  lemma OwnHome(s: Store, id: Id, j: Job, io: Io, ino: nat)
    requires Sound(s) && JobOk(s, id, j) && Possible(s, id, j, io) && AtHome(s, id, ino)
    ensures AtHome(Advance(s, id, j, io).store, id, ino) || WasEmpty(s, ino)
  {
    var t := Advance(s, id, j, io).store;
    var m := MoveOf(s, id, j, io);
    CallMoves(s, id, j, io);
    NamesOnlyGrow(s, id, j, io);
    if m.Some? && Ino(s.disk, m.value.1) == Some(ino) {
      assert Whole(s, m.value.1);
    } else if m.Some? {
      MoveShape(s, id, j, io);
      MoveHome(s, t, id, m.value.0, m.value.1, ino);
    } else if Ino(s.disk, Plugin(id)) != Some(ino) {
      var n :| Ours(s, id, n) && Ino(s.disk, Trash(n)) == Some(ino);
      assert Ours(t, id, n) && Ino(t.disk, Trash(n)) == Some(ino);
    }
  }

  lemma AllHomeStep(s: State, e: Event)
    requires Enabled(s, e) && PutsBackOwn(s, e) && Sound(s.store) && Staged(s) && Knowing(s) && AllHome(s.store)
    ensures AllHome(Apply(s, e).store)
  {
    var t := Apply(s, e).store;
    if e.Step? {
      CallStands(s.store, e.id, s.jobs[e.id], e.io);
    }
    forall id, ino | (id, ino) in t.stood
      ensures AtHome(t, id, ino) || WasEmpty(t, ino)
    {
      if WasEmpty(s.store, ino) {
        WasEmptyStays(s, e, ino);
      } else if (id, ino) in s.store.stood {
        assert AtHome(s.store, id, ino) && MarkerOk(s.store, id);
        if e.Step? {
          assert MarkerOk(s.store, e.id);
          if id == e.id {
            OwnHome(s.store, id, s.jobs[id], e.io, ino);
          } else {
            OtherCall(s.store, e.id, s.jobs[e.id], e.io, id);
            UntouchedHome(s.store, t, id, ino);
          }
        } else {
          ElsewhereHome(s, e, id, ino);
        }
      }
    }
  }

  lemma ElsewhereHome(s: State, e: Event, id: Id, ino: nat)
    requires Enabled(s, e) && !e.Step? && AtHome(s.store, id, ino)
    ensures AtHome(Apply(s, e).store, id, ino)
  {
    var t := Apply(s, e).store;
    if Ino(s.store.disk, Plugin(id)) != Some(ino) {
      var n :| Ours(s.store, id, n) && Ino(s.store.disk, Trash(n)) == Some(ino);
      assert Ours(t, id, n) && Ino(t.disk, Trash(n)) == Some(ino);
    }
  }

  // ---------------------------------------------------------------- recovery

  /** What a boot makes of one plugin: `recover_swap`, when the marker is there and no call fails. */
  function Recovered(d: Disk, id: Id): Disk {
    if MarkerOf(id) !in d || d[MarkerOf(id)].Folder? then d
    else match Marker.Read(d[MarkerOf(id)].text)
      case None => d
      case Some(name) =>
        (if Plugin(id) !in d && IsFolder(d, Trash(name)) then Rename(d, Trash(name), Plugin(id)) else d) - {MarkerOf(id)}
  }

  /** Recovery twice is recovery once. */
  lemma RecoveryIsIdempotent(d: Disk, id: Id)
    ensures Recovered(Recovered(d, id), id) == Recovered(d, id)
  {
  }

  /** A commit that landed is never undone: with the name taken, recovery moves no tree. */
  lemma RecoveryUndoesNothing(d: Disk, id: Id, p: Place)
    requires Plugin(id) in d && p != MarkerOf(id)
    ensures SameAt(d, Recovered(d, id), p)
  {
  }

  /**
   Without uninstalls, the directory that last stood at a name stands there still, or the name is
   free, the plugin's marker is whole, and the trash entry it names is that directory.
   */
  ghost predicate Anchored(s: Store, id: Id) {
    id in s.last ==>
      || Ino(s.disk, Plugin(id)) == Some(s.last[id])
      || (Plugin(id) !in s.disk && exists n :: Ours(s, id, n) && Marked(s, id, n) && Ino(s.disk, Trash(n)) == Some(s.last[id]))
  }

  /** A marker is about to be dropped only of a plugin that stands, or never stood. */
  ghost predicate NothingMissing(s: Store, id: Id, j: Job) {
    j.call.Unmark? ==> id !in s.last || Plugin(id) in s.disk
  }

  /** The call is an uninstall's move that succeeds, or that finds nothing to move and goes on to drop the marker. */
  predicate TakesAway(s: Store, id: Id, j: Job, io: Io) {
    j.call.ToTrash? && (io.ok || !IsFolder(s.disk, Plugin(id)))
  }

  lemma AnchorReads(s: Store, id: Id, name: string)
    requires Anchored(s, id) && Sound(s) && NamesFit(s.names) && id in s.last && Plugin(id) !in s.disk && Names(s, id, name)
    ensures Ino(s.disk, Trash(name)) == Some(s.last[id])
  {
    var n :| Ours(s, id, n) && Marked(s, id, n) && Ino(s.disk, Trash(n)) == Some(s.last[id]);
    Marker.WholeMarkerReadsName(n);
  }

  /** Recovery puts at the name, whole, the directory that last stood there. */
  lemma RecoveryRestores(s: Store, id: Id)
    requires Sound(s) && NamesFit(s.names) && Anchored(s, id) && id in s.last
    ensures var d := Recovered(s.disk, id);
            && Ino(d, Plugin(id)) == Some(s.last[id])
            && s.last[id] in s.whole && d[Plugin(id)].tree == s.whole[s.last[id]]
  {
    if Plugin(id) !in s.disk {
      var n :| Ours(s, id, n) && Marked(s, id, n) && Ino(s.disk, Trash(n)) == Some(s.last[id]);
      Marker.WholeMarkerReadsName(n);
      assert Whole(s, Trash(n));
    } else {
      assert Whole(s, Plugin(id));
    }
  }

  /** Until the incumbent moves, it is at the name; once it has moved, the marker is whole. */
  lemma AnchoredSwapOut(s: Store, id: Id, j: Job, io: Io)
    requires Sound(s) && JobOk(s, id, j) && Possible(s, id, j, io) && Anchored(s, id)
    requires j.call.Look? || j.call.CreateMarker? || j.call.WriteMarker? || j.call.MoveAside?
    ensures Anchored(SwapOut(s, id, j, io).store, id)
  {
    var t := SwapOut(s, id, j, io).store;
    if j.call.MoveAside? && io.ok {
      assert Ours(t, id, j.call.name) && Marked(t, id, j.call.name);
    } else if j.call.Look? && Plugin(id) !in s.disk {
      AnchoredUntouched(s, t, id);
    } else {
      assert Plugin(id) in s.disk && Ino(t.disk, Plugin(id)) == Ino(s.disk, Plugin(id));
    }
  }

  lemma AnchoredSwapIn(s: Store, id: Id, j: Job, io: Io)
    requires JobOk(s, id, j) && Possible(s, id, j, io) && Anchored(s, id)
    requires j.call.Commit? || j.call.LookAgain? || j.call.PutBack?
    ensures Anchored(SwapIn(s, id, j, io).store, id)
  {
    var t := SwapIn(s, id, j, io).store;
    if !io.ok || j.call.LookAgain? {
      AnchoredUntouched(s, t, id);
    }
  }

  lemma AnchoredRecovery(s: Store, id: Id, j: Job, io: Io)
    requires Sound(s) && NamesFit(s.names) && JobOk(s, id, j) && Possible(s, id, j, io)
    requires Anchored(s, id) && NothingMissing(s, id, j) && !TakesAway(s, id, j, io)
    requires j.call.ReadBack? || j.call.LookRestore? || j.call.Restore? || j.call.ToTrash? || j.call.Unmark?
    ensures var r := Recovery(s, id, j, io); Anchored(r.store, id) && NothingMissing(r.store, id, r.job)
  {
    var t := Recovery(s, id, j, io).store;
    if j.call.LookRestore? && Plugin(id) !in s.disk && id in s.last {
      AnchorReads(s, id, j.call.name);
    }
    if !(j.call.Restore? && io.ok) && !(j.call.Unmark? && io.ok) {
      AnchoredUntouched(s, t, id);
    }
  }

  lemma AnchoredOwn(s: Store, id: Id, j: Job, io: Io)
    requires Sound(s) && NamesFit(s.names) && JobOk(s, id, j) && Possible(s, id, j, io)
    requires Anchored(s, id) && NothingMissing(s, id, j) && !TakesAway(s, id, j, io)
    ensures var r := Advance(s, id, j, io); Anchored(r.store, id) && NothingMissing(r.store, id, r.job)
  {
    if j.call.Look? || j.call.CreateMarker? || j.call.WriteMarker? || j.call.MoveAside? {
      AnchoredSwapOut(s, id, j, io);
    } else if j.call.Commit? || j.call.LookAgain? || j.call.PutBack? {
      AnchoredSwapIn(s, id, j, io);
    } else {
      AnchoredRecovery(s, id, j, io);
    }
  }

  lemma AnchoredUntouched(s: Store, t: Store, id: Id)
    requires Untouched(s, t, id) && Anchored(s, id)
    requires id in t.last <==> id in s.last
    requires id in t.last ==> t.last[id] == s.last[id]
    ensures Anchored(t, id)
  {
    if id in s.last && Plugin(id) !in s.disk {
      var n :| Ours(s, id, n) && Marked(s, id, n) && Ino(s.disk, Trash(n)) == Some(s.last[id]);
      assert Ours(t, id, n) && Marked(t, id, n) && Ino(t.disk, Trash(n)) == Some(t.last[id]);
    }
  }
}
