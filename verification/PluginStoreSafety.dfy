/** What every run of installs, updates, uninstalls, recoveries and crashes keeps on disk. */
module PluginStoreSafety {
  import opened Wrappers
  import opened PluginStore
  import Marker

  // ---------------------------------------------------------------- whole trees only

  /** The complete tree of its number stands at `p`. */
  ghost predicate Whole(s: Store, p: Place) {
    IsFolder(s.disk, p) && s.disk[p].ino in s.whole && s.disk[p].tree == s.whole[s.disk[p].ino]
  }

  ghost predicate Sound(s: Store) {
    && (forall p | p in s.disk && !p.MarkerOf? :: s.disk[p].Folder? && s.disk[p].ino < s.next)
    && (forall p | p in s.disk && (p.Plugin? || p.Trash?) :: Whole(s, p))
    && (forall p, q | IsFolder(s.disk, p) && IsFolder(s.disk, q) && p != q :: s.disk[p].ino != s.disk[q].ino)
    && (forall p | p in s.disk && p.MarkerOf? :: s.disk[p].Text?)
    && (forall i | i in s.whole :: i < s.next)
    && (forall n | Trash(n) in s.disk :: n in s.names)
  }

  ghost predicate Staged(s: State) {
    && s.mine !! s.copying
    && (forall n | n in s.mine && Staging(n) in s.store.disk :: Whole(s.store, Staging(n)))
    && (forall n | n in s.copying && IsFolder(s.store.disk, Staging(n)) :: s.store.disk[Staging(n)].ino !in s.store.whole)
    && (forall id | id in s.jobs :: UsesStaged(s.jobs[id].call) ==> StagedOf(s.jobs[id].call) in s.mine)
  }

  predicate UsesStaged(c: Call) {
    c.Look? || c.CreateMarker? || c.WriteMarker? || c.MoveAside? || c.Commit?
  }

  function StagedOf(c: Call): string
    requires UsesStaged(c)
  {
    c.staged
  }

  lemma SoundRename(s: Store, from: Place, to: Place)
    requires Sound(s) && CanRename(s, from, to) && Whole(s, from)
    requires to.Plugin? || (to.Trash? && to.name in s.names)
    ensures Sound(s.(disk := Rename(s.disk, from, to)))
  {
  }

  lemma SoundMark(s: Store, id: Id, text: string)
    requires Sound(s)
    ensures Sound(Put(s, MarkerOf(id), Text(text)))
  {
  }

  lemma SoundRemove(s: Store, p: Place)
    requires Sound(s)
    ensures Sound(Remove(s, p))
  {
  }

  lemma SoundMake(s: Store, p: Place, tree: Tree, done: bool)
    requires Sound(s) && ((p.Plugin? && done) || p.Staging?)
    ensures Sound(Make(s, p, tree, done))
  {
  }

  /** The name a swap moves the incumbent to has been drawn. */
  predicate DrawnFor(s: Store, c: Call) {
    c.CreateMarker? || c.WriteMarker? || c.MoveAside? ==> c.name in s.names
  }

  lemma SoundCall(s: Store, id: Id, j: Job, io: Io)
    requires Sound(s) && Possible(s, id, j, io) && DrawnFor(s, j.call)
    requires j.call.Commit? && io.ok ==> Whole(s, Staging(j.call.staged))
    ensures Sound(Advance(s, id, j, io).store)
  {
    match j.call
    case Look(staged) => SoundRemove(s, Staging(staged));
    case CreateMarker(staged, _) =>
      SoundMark(s, id, "");
      SoundRemove(s, Staging(staged));
    case WriteMarker(staged, _) =>
      SoundMark(s, id, io.text);
      SoundRemove(Put(s, MarkerOf(id), Text(io.text)), Staging(staged));
    case MoveAside(staged, name) =>
      if io.ok { SoundRename(s, Plugin(id), Trash(name)); }
      SoundRemove(s, Staging(staged));
    case Commit(staged, _) =>
      if io.ok { SoundRename(s, Staging(staged), Plugin(id)); }
      SoundRemove(s, Staging(staged));
    case PutBack(name) => if io.ok { SoundRename(s, Trash(name), Plugin(id)); }
    case Restore(name) => if io.ok { SoundRename(s, Trash(name), Plugin(id)); }
    case ToTrash =>
      if io.ok && IsFolder(s.disk, Plugin(id)) {
        SoundRename(s.(names := s.names[io.name := id]), Plugin(id), Trash(io.name));
      }
    case Unmark(_) => SoundRemove(s, MarkerOf(id));
    case _ =>
  }

  // ---------------------------------------------------------------- nothing is lost

  predicate Kept(p: Place) {
    p.Plugin? || p.Trash?
  }

  /** The directory stands at a plugin's name or in the trash. */
  ghost predicate Stands(d: Disk, ino: nat) {
    exists p :: Kept(p) && Ino(d, p) == Some(ino)
  }

  /** The directory was an empty one: the only kind a rename may put another in the place of. */
  predicate WasEmpty(s: Store, ino: nat) {
    ino in s.whole && s.whole[ino] == EMPTY
  }

  ghost predicate NothingLost(s: Store) {
    forall id, ino | (id, ino) in s.stood :: Stands(s.disk, ino) || WasEmpty(s, ino)
  }

  lemma RenameKeeps(d: Disk, from: Place, to: Place, ino: nat)
    requires from in d && Ino(d, to) != Some(ino) && Kept(to) && Stands(d, ino)
    ensures Stands(Rename(d, from, to), ino)
  {
    var p :| Kept(p) && Ino(d, p) == Some(ino);
    assert Ino(Rename(d, from, to), if p == from then to else p) == Some(ino);
  }

  lemma OtherwiseKeeps(d: Disk, d': Disk, ino: nat)
    requires Stands(d, ino) && forall p | Kept(p) && p in d :: p in d' && d'[p] == d[p]
    ensures Stands(d', ino)
  {
    var p :| Kept(p) && Ino(d, p) == Some(ino);
    assert Ino(d', p) == Some(ino);
  }

  /** The rename a call makes, if it makes one: every tree moves this way or not at all. */
  function MoveOf(s: Store, id: Id, j: Job, io: Io): Option<(Place, Place)> {
    if !io.ok then None
    else match j.call
      case MoveAside(_, name) => Some((Plugin(id), Trash(name)))
      case Commit(staged, _) => Some((Staging(staged), Plugin(id)))
      case PutBack(name) => Some((Trash(name), Plugin(id)))
      case Restore(name) => Some((Trash(name), Plugin(id)))
      case ToTrash => if IsFolder(s.disk, Plugin(id)) then Some((Plugin(id), Trash(io.name))) else None
      case _ => None
  }

  /** A call makes the rename it makes, and touches no other tree. */
  ghost predicate Moves(s: Store, m: Option<(Place, Place)>, d: Disk) {
    if m.Some? then CanRename(s, m.value.0, m.value.1) && Kept(m.value.1) && d == Rename(s.disk, m.value.0, m.value.1)
    else forall p | Kept(p) :: (p in d <==> p in s.disk) && (p in d ==> d[p] == s.disk[p])
  }

  /** What a call adds to the record: the directory it brings to a plugin's name. */
  predicate Records(s: Store, id: Id, m: Option<(Place, Place)>, t: Store) {
    if m.Some? && m.value.1.Plugin? && m.value.0 in s.disk && s.disk[m.value.0].Folder? then
      && t.stood == s.stood + {(id, s.disk[m.value.0].ino)}
      && t.last == s.last[id := s.disk[m.value.0].ino]
      && Ino(t.disk, Plugin(id)) == Some(s.disk[m.value.0].ino)
    else t.stood == s.stood && t.last == s.last
  }

  function Drawn(s: Store, id: Id, j: Job, io: Io): set<string> {
    if j.call.Look? && io.ok && Plugin(id) in s.disk then {io.name}
    else if j.call.ToTrash? && io.ok && IsFolder(s.disk, Plugin(id)) then {io.name}
    else {}
  }

  /** The names drawn are those before and the one the call draws, if it draws one. */
  ghost predicate GrowsBy(s: Store, id: Id, j: Job, io: Io, t: Store) {
    && t.next == s.next && t.whole == s.whole
    && (forall n :: n in t.names <==> n in s.names || n in Drawn(s, id, j, io))
    && (forall n | n in t.names :: t.names[n] == if n in s.names then s.names[n] else id)
    && Drawn(s, id, j, io) !! s.names.Keys
    && (forall n | n in Drawn(s, id, j, io) :: Marker.TrashName(n) && Trash(n) !in s.disk)
  }

  predicate SameAt(d: Disk, e: Disk, p: Place) {
    (p in d <==> p in e) && (p in d ==> d[p] == e[p])
  }

  /** All a call does, to whatever job it belongs. */
  ghost predicate Does(s: Store, id: Id, j: Job, io: Io, t: Store) {
    && Moves(s, MoveOf(s, id, j, io), t.disk) && Records(s, id, MoveOf(s, id, j, io), t)
    && GrowsBy(s, id, j, io, t)
    && (forall p: Place | p.MarkerOf? && p != MarkerOf(id) :: SameAt(s.disk, t.disk, p))
    && (forall p: Place | p.Staging? && p in t.disk :: SameAt(s.disk, t.disk, p))
  }

  lemma MoveAsideDoes(s: Store, id: Id, j: Job, io: Io)
    requires Possible(s, id, j, io) && j.call.MoveAside?
    ensures Does(s, id, j, io, SwapOut(s, id, j, io).store)
  {
  }

  lemma LookDoes(s: Store, id: Id, j: Job, io: Io)
    requires Possible(s, id, j, io) && j.call.Look?
    ensures Does(s, id, j, io, SwapOut(s, id, j, io).store)
  {
  }

  lemma MarkingDoes(s: Store, id: Id, j: Job, io: Io)
    requires Possible(s, id, j, io) && (j.call.CreateMarker? || j.call.WriteMarker?)
    ensures Does(s, id, j, io, SwapOut(s, id, j, io).store)
  {
  }

  lemma SwapInDoes(s: Store, id: Id, j: Job, io: Io)
    requires Possible(s, id, j, io)
    requires j.call.Commit? || j.call.LookAgain? || j.call.PutBack?
    ensures Does(s, id, j, io, SwapIn(s, id, j, io).store)
  {
  }

  lemma RecoveryDoes(s: Store, id: Id, j: Job, io: Io)
    requires Possible(s, id, j, io)
    requires j.call.ReadBack? || j.call.LookRestore? || j.call.Restore? || j.call.ToTrash? || j.call.Unmark?
    ensures Does(s, id, j, io, Recovery(s, id, j, io).store)
  {
  }

  lemma CallDoes(s: Store, id: Id, j: Job, io: Io)
    requires Possible(s, id, j, io)
    ensures Does(s, id, j, io, Advance(s, id, j, io).store)
  {
    if j.call.MoveAside? {
      MoveAsideDoes(s, id, j, io);
    } else if j.call.Look? {
      LookDoes(s, id, j, io);
    } else if j.call.CreateMarker? || j.call.WriteMarker? {
      MarkingDoes(s, id, j, io);
    } else if j.call.Commit? || j.call.LookAgain? || j.call.PutBack? {
      SwapInDoes(s, id, j, io);
    } else {
      RecoveryDoes(s, id, j, io);
    }
  }

  lemma CallMoves(s: Store, id: Id, j: Job, io: Io)
    requires Possible(s, id, j, io)
    ensures Moves(s, MoveOf(s, id, j, io), Advance(s, id, j, io).store.disk)
  {
    CallDoes(s, id, j, io);
  }

  lemma CallStands(s: Store, id: Id, j: Job, io: Io)
    requires Possible(s, id, j, io)
    ensures Records(s, id, MoveOf(s, id, j, io), Advance(s, id, j, io).store)
  {
    CallDoes(s, id, j, io);
  }

  lemma NamesOnlyGrow(s: Store, id: Id, j: Job, io: Io)
    requires Possible(s, id, j, io)
    ensures GrowsBy(s, id, j, io, Advance(s, id, j, io).store)
  {
    CallDoes(s, id, j, io);
  }

  lemma OtherMarkers(s: Store, id: Id, j: Job, io: Io)
    requires Possible(s, id, j, io)
    ensures forall p: Place | p.MarkerOf? && p != MarkerOf(id) :: SameAt(s.disk, Advance(s, id, j, io).store.disk, p)
  {
    CallDoes(s, id, j, io);
  }

  /** A staging copy is as it was, or gone. */
  lemma StagedCall(s: Store, id: Id, j: Job, io: Io, name: string)
    requires Possible(s, id, j, io)
    ensures var t := Advance(s, id, j, io).store;
            t.whole == s.whole && (Staging(name) in t.disk ==> SameAt(s.disk, t.disk, Staging(name)))
  {
    CallDoes(s, id, j, io);
  }

  lemma CallKeeps(s: Store, id: Id, j: Job, io: Io, ino: nat)
    requires Sound(s) && Possible(s, id, j, io) && Stands(s.disk, ino)
    ensures Stands(Advance(s, id, j, io).store.disk, ino) || WasEmpty(s, ino)
  {
    var m := MoveOf(s, id, j, io);
    CallMoves(s, id, j, io);
    if m.Some? && Ino(s.disk, m.value.1) == Some(ino) {
      assert Whole(s, m.value.1);
    } else if m.Some? {
      RenameKeeps(s.disk, m.value.0, m.value.1, ino);
    } else {
      OtherwiseKeeps(s.disk, Advance(s, id, j, io).store.disk, ino);
    }
  }

  // ---------------------------------------------------------------- every event

  ghost predicate JobsDrawn(s: State) {
    forall id | id in s.jobs :: DrawnFor(s.store, s.jobs[id].call)
  }

  lemma DrawnCall(s: Store, id: Id, j: Job, io: Io)
    requires DrawnFor(s, j.call) && Possible(s, id, j, io)
    ensures var r := Advance(s, id, j, io);
            && DrawnFor(r.store, r.job.call)
            && s.names.Keys <= r.store.names.Keys
            && (UsesStaged(r.job.call) ==> UsesStaged(j.call) && StagedOf(r.job.call) == StagedOf(j.call))
  {
  }

  lemma DrawnStep(s: State, e: Event)
    requires JobsDrawn(s) && Staged(s) && Enabled(s, e)
    ensures JobsDrawn(Apply(s, e))
    ensures var s' := Apply(s, e);
            forall id | id in s'.jobs :: UsesStaged(s'.jobs[id].call) ==> StagedOf(s'.jobs[id].call) in s'.mine
  {
    if e.Step? {
      DrawnCall(s.store, e.id, s.jobs[e.id], e.io);
    }
  }

  lemma SoundStep(s: State, e: Event)
    requires Sound(s.store) && Staged(s) && JobsDrawn(s) && Enabled(s, e)
    ensures Sound(Apply(s, e).store)
  {
    var t := s.store;
    match e
    case Step(id, io) => SoundCall(t, id, s.jobs[id], io);
    case Torn(id, text) => SoundMark(t, id, text);
    case StageBegin(name, tree) => SoundMake(t, Staging(name), tree, false);
    case Sweep(name) => SoundRemove(t, Staging(name));
    case Occupy(id, tree) => SoundMake(t, Plugin(id), tree, true);
    case StageDone(name) => SoundDone(s, name);
    case _ =>
  }

  /** A copy that is done is as it stands. */
  lemma SoundDone(s: State, name: string)
    requires Sound(s.store) && Staged(s) && Enabled(s, StageDone(name))
    ensures Sound(Apply(s, StageDone(name)).store)
  {
    var t := Apply(s, StageDone(name)).store;
    forall p | p in t.disk && (p.Plugin? || p.Trash?) ensures Whole(t, p) {
      assert Whole(s.store, p);
    }
  }

  /** A call changes no staged copy, but to drop it or to commit it. */
  lemma StagedStep(s: State, e: Event)
    requires Sound(s.store) && Staged(s) && JobsDrawn(s) && Enabled(s, e)
    ensures Staged(Apply(s, e))
  {
    var s' := Apply(s, e);
    DrawnStep(s, e);
    forall n | n in s'.mine && Staging(n) in s'.store.disk
      ensures Whole(s'.store, Staging(n))
    {
      if e.Step? {
        StagedCall(s.store, e.id, s.jobs[e.id], e.io, n);
      }
    }
    forall n | n in s'.copying && IsFolder(s'.store.disk, Staging(n))
      ensures s'.store.disk[Staging(n)].ino !in s'.store.whole
    {
      if e.Step? {
        StagedCall(s.store, e.id, s.jobs[e.id], e.io, n);
      }
    }
  }

  /** Complete trees stay on record as they were. */
  lemma WasEmptyStays(s: State, e: Event, ino: nat)
    requires Sound(s.store) && Staged(s) && Enabled(s, e) && WasEmpty(s.store, ino)
    ensures WasEmpty(Apply(s, e).store, ino)
  {
    if e.Step? {
      NamesOnlyGrow(s.store, e.id, s.jobs[e.id], e.io);
    }
  }

  lemma NothingLostStep(s: State, e: Event)
    requires Sound(s.store) && Staged(s) && NothingLost(s.store) && Enabled(s, e)
    ensures NothingLost(Apply(s, e).store)
  {
    var t := Apply(s, e).store;
    if e.Step? {
      CallStands(s.store, e.id, s.jobs[e.id], e.io);
      CallMoves(s.store, e.id, s.jobs[e.id], e.io);
      NamesOnlyGrow(s.store, e.id, s.jobs[e.id], e.io);
    }
    if e.Occupy? {
      assert Ino(t.disk, Plugin(e.id)) == Some(s.store.next);
    }
    forall id, ino | (id, ino) in t.stood
      ensures Stands(t.disk, ino) || WasEmpty(t, ino)
    {
      if (id, ino) in s.store.stood {
        if WasEmpty(s.store, ino) {
          WasEmptyStays(s, e, ino);
        } else if e.Step? {
          CallKeeps(s.store, e.id, s.jobs[e.id], e.io, ino);
        } else {
          OtherwiseKeeps(s.store.disk, t.disk, ino);
        }
      }
    }
  }
}
