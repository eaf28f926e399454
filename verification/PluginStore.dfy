/**
 The plugins directory on disk, and the jobs that change it (crates/openalpaca_plugins/src/install.rs).

 The file system is a map from paths to nodes with an atomic rename. A job is an install, update,
 uninstall or recovery of one plugin, under that plugin's mutex; it advances one I/O call at a time,
 every call may fail, and the process may die between any two. Jobs on different plugins interleave
 freely, and anyone may put a directory at a free name.
 */
module PluginStore {
  import opened Wrappers
  import TreeCopy
  import Marker

  type Id = string

  type Tree = TreeCopy.Tree

  datatype Place = Plugin(id: Id) | Trash(name: string) | Staging(name: string) | MarkerOf(id: Id)

  /** A directory keeps its `ino` through every rename, so a tree can be told from an equal one. */
  datatype Thing = Folder(ino: nat, tree: Tree) | Text(text: string)

  type Disk = map<Place, Thing>

  /** `incumbent_in_place` is true of `InPlace` and false of `Moved`. */
  datatype Report = Swapped | InPlace | Moved | Settled | Restored | Missing | Unreadable | Failed | Removed

  /** The I/O call a job makes next. */
  datatype Call =
    | Look(staged: string)                          // dest.exists(), and the trash target
    | CreateMarker(staged: string, name: string)
    | WriteMarker(staged: string, name: string)
    | MoveAside(staged: string, name: string)       // rename dest to the trash
    | Commit(staged: string, trash: Option<string>) // Staged::commit
    | LookAgain(name: string)                       // dest.exists(), after a failed commit
    | PutBack(name: string)                         // rename the trashed tree to dest
    | Unmark(report: Report)                        // remove_marker, whose failure is only logged
    | Done(report: Report)
    | ReadBack                                      // recover_swap: read the marker
    | LookRestore(name: string)                     // dest.exists(), trashed.is_dir()
    | Restore(name: string)                         // rename the trashed tree to dest
    | ToTrash                                       // uninstall: rename dest to the trash

  /** `was`: the directory that stood at the name when the job looked. */
  datatype Job = Job(call: Call, was: Option<nat>)

  /**
   How a call ends. `name`: the trash name drawn for it. `text`: what of the marker's line reached
   the disk. `swept`: whether an abandoned staging copy was removed.
   */
  datatype Io = Io(ok: bool, name: string, text: string, swept: bool)

  /**
   The disk, and what has happened to it. `next` numbers the next directory. `whole`: every tree as
   it was when it was complete. `stood`: which directories have stood at which plugin's name. `last`:
   the one that most recently came to stand at each. `names`: trash names drawn, and for which plugin.
   */
  datatype Store = Store(disk: Disk, next: nat, whole: map<nat, Tree>, stood: set<(Id, nat)>,
                         last: map<Id, nat>, names: map<string, Id>)

  /** `mine`: this process's finished staging copies; `copying`: those it is still writing. */
  datatype State = State(store: Store, mine: set<string>, copying: set<string>, jobs: map<Id, Job>)

  // ---------------------------------------------------------------- the disk

  predicate IsFolder(d: Disk, p: Place) {
    p in d && d[p].Folder?
  }

  /** What `rename` does, when it does it. */
  function Rename(d: Disk, from: Place, to: Place): Disk
    requires from in d
  {
    (d - {from})[to := d[from]]
  }

  /** A directory comes to stand at a plugin's name. */
  function Land(s: Store, from: Place, id: Id): Store
    requires IsFolder(s.disk, from)
  {
    var ino := s.disk[from].ino;
    s.(disk := Rename(s.disk, from, Plugin(id)), stood := s.stood + {(id, ino)}, last := s.last[id := ino])
  }

  function Put(s: Store, p: Place, t: Thing): Store {
    s.(disk := s.disk[p := t])
  }

  function Remove(s: Store, p: Place): Store {
    s.(disk := s.disk - {p})
  }

  function Ino(d: Disk, p: Place): Option<nat> {
    if IsFolder(d, p) then Some(d[p].ino) else None
  }

  // ---------------------------------------------------------------- one call

  datatype Stretch = Stretch(store: Store, job: Job)

  /** `Staged`, dropped without a commit, sweeps itself; the sweep may fail. */
  function DropStaged(s: Store, staged: string, io: Io): Store {
    if io.swept then Remove(s, Staging(staged)) else s
  }

  /** A trash name is `<id>-<stamp>`, fresh because stamps are, and every id starts with no dot. */
  predicate Drawable(s: Store, name: string) {
    Marker.TrashName(name) && name !in s.names && Trash(name) !in s.disk
  }

  const EMPTY: Tree := TreeCopy.Branch(map[])

  /** A rename succeeds only from a directory that is there, onto a name that is free or holds an empty directory. */
  predicate CanRename(s: Store, from: Place, to: Place) {
    IsFolder(s.disk, from) && (to !in s.disk || HoldsEmpty(s.disk, to))
  }

  predicate HoldsEmpty(d: Disk, p: Place) {
    p.Plugin? && IsFolder(d, p) && d[p].tree == EMPTY
  }

  /** How a call may end in this store. */
  predicate Possible(s: Store, id: Id, j: Job, io: Io) {
    match j.call
    case Look(_) => io.ok && Plugin(id) in s.disk ==> Drawable(s, io.name)
    case WriteMarker(_, name) => io.text <= Marker.Line(name) && (io.ok ==> io.text == Marker.Line(name))
    case MoveAside(_, name) => io.ok ==> CanRename(s, Plugin(id), Trash(name))
    case Commit(staged, _) => io.ok ==> CanRename(s, Staging(staged), Plugin(id))
    case PutBack(name) => io.ok ==> CanRename(s, Trash(name), Plugin(id))
    case Restore(name) => io.ok ==> CanRename(s, Trash(name), Plugin(id))
    case ReadBack => io.ok ==> MarkerOf(id) in s.disk && s.disk[MarkerOf(id)].Text?
    case ToTrash => io.ok && IsFolder(s.disk, Plugin(id)) ==> Drawable(s, io.name)
    case Done(_) => false
    case _ => true
  }

  /** `replace_with`, up to and including the move to the trash. */
  function SwapOut(s: Store, id: Id, j: Job, io: Io): Stretch
    requires j.call.Look? || j.call.CreateMarker? || j.call.WriteMarker? || j.call.MoveAside?
    requires Possible(s, id, j, io)
  {
    match j.call
    case Look(staged) =>
      if Plugin(id) !in s.disk then Stretch(s, Job(Commit(staged, None), None))
      else if io.ok then
        Stretch(s.(names := s.names[io.name := id]), Job(CreateMarker(staged, io.name), Ino(s.disk, Plugin(id))))
      else Stretch(DropStaged(s, staged, io), Job(Done(InPlace), Ino(s.disk, Plugin(id))))
    case CreateMarker(staged, name) =>
      if io.ok then Stretch(Put(s, MarkerOf(id), Text("")), j.(call := WriteMarker(staged, name)))
      else Stretch(DropStaged(s, staged, io), j.(call := Done(InPlace)))
    case WriteMarker(staged, name) =>
      var s1 := Put(s, MarkerOf(id), Text(io.text));
      if io.ok then Stretch(s1, j.(call := MoveAside(staged, name)))
      else Stretch(DropStaged(s1, staged, io), j.(call := Done(InPlace)))
    case MoveAside(staged, name) =>
      if io.ok then Stretch(s.(disk := Rename(s.disk, Plugin(id), Trash(name))), j.(call := Commit(staged, Some(name))))
      else Stretch(DropStaged(s, staged, io), j.(call := Unmark(InPlace)))
  }

  /** `replace_with`, from the commit on. */
  function SwapIn(s: Store, id: Id, j: Job, io: Io): Stretch
    requires j.call.Commit? || j.call.LookAgain? || j.call.PutBack?
    requires Possible(s, id, j, io)
  {
    match j.call
    case Commit(staged, name) =>
      if io.ok then
        Stretch(Land(s, Staging(staged), id), j.(call := if name.Some? then Unmark(Swapped) else Done(Swapped)))
      else
        Stretch(DropStaged(s, staged, io), j.(call := if name.Some? then LookAgain(name.value) else Done(Moved)))
    case LookAgain(name) =>
      Stretch(s, j.(call := if Plugin(id) in s.disk then Unmark(Moved) else PutBack(name)))
    case PutBack(name) =>
      if io.ok then Stretch(Land(s, Trash(name), id), j.(call := Unmark(InPlace)))
      else Stretch(s, j.(call := Done(Moved)))
  }

  /** `recover_swap`, and the uninstall's move. */
  function Recovery(s: Store, id: Id, j: Job, io: Io): Stretch
    requires j.call.ReadBack? || j.call.LookRestore? || j.call.Restore? || j.call.ToTrash? || j.call.Unmark?
    requires Possible(s, id, j, io)
  {
    match j.call
    case ReadBack =>
      if !io.ok then Stretch(s, j.(call := Done(Failed)))
      else
        var recorded := Marker.Read(s.disk[MarkerOf(id)].text);
        Stretch(s, j.(call := if recorded.Some? then LookRestore(recorded.value) else Done(Unreadable)))
    case LookRestore(name) =>
      Stretch(s, j.(call := if Plugin(id) in s.disk then Unmark(Settled)
                            else if IsFolder(s.disk, Trash(name)) then Restore(name)
                            else Unmark(Missing)))
    case Restore(name) =>
      if io.ok then Stretch(Land(s, Trash(name), id), j.(call := Unmark(Restored)))
      else Stretch(s, j.(call := Done(Failed)))
    case ToTrash =>
      if !IsFolder(s.disk, Plugin(id)) then Stretch(s, j.(call := Unmark(Removed)))
      else if io.ok then
        var s1 := s.(disk := Rename(s.disk, Plugin(id), Trash(io.name)), names := s.names[io.name := id]);
        Stretch(s1, j.(call := Unmark(Removed)))
      else Stretch(s, j.(call := Done(Failed)))
    case Unmark(report) =>
      Stretch(if io.ok then Remove(s, MarkerOf(id)) else s, j.(call := Done(report)))
  }

  function Advance(s: Store, id: Id, j: Job, io: Io): Stretch
    requires Possible(s, id, j, io)
  {
    if j.call.Look? || j.call.CreateMarker? || j.call.WriteMarker? || j.call.MoveAside? then SwapOut(s, id, j, io)
    else if j.call.Commit? || j.call.LookAgain? || j.call.PutBack? then SwapIn(s, id, j, io)
    else Recovery(s, id, j, io)
  }

  // ---------------------------------------------------------------- events

  datatype Start = Install(staged: string) | Update(staged: string) | Uninstall | Recover

  function FirstCall(what: Start): Call {
    match what
    case Install(staged) => Commit(staged, None)
    case Update(staged) => Look(staged)
    case Uninstall => ToTrash
    case Recover => ReadBack
  }

  datatype Event =
    | Begin(id: Id, what: Start)
    | Step(id: Id, io: Io)
    | Torn(id: Id, text: string)          // more of the marker's line reaches the disk
    | Finish(id: Id)
    | StageBegin(name: string, tree: Tree)
    | StageMore(name: string, tree: Tree) // the copy goes on: the staged tree is whatever it is so far
    | StageDone(name: string)
    | Sweep(name: string)                 // sweep_stale_staging, of one entry
    | Occupy(id: Id, tree: Tree)          // somebody puts a directory at a free name
    | Crash

  predicate Enabled(s: State, e: Event) {
    match e
    case Begin(id, what) =>
      id !in s.jobs && (what.Install? || what.Update? ==> what.staged in s.mine)
    case Step(id, io) => id in s.jobs && Possible(s.store, id, s.jobs[id], io)
    case Torn(id, text) =>
      id in s.jobs && s.jobs[id].call.WriteMarker? && text <= Marker.Line(s.jobs[id].call.name)
    case Finish(id) => id in s.jobs && s.jobs[id].call.Done?
    case StageBegin(name, _) => Staging(name) !in s.store.disk && name !in s.mine + s.copying
    case StageMore(name, _) => name in s.copying && IsFolder(s.store.disk, Staging(name))
    case StageDone(name) => name in s.copying && IsFolder(s.store.disk, Staging(name))
    case Sweep(name) => name !in s.mine + s.copying
    case Occupy(id, _) => Plugin(id) !in s.store.disk
    case Crash => true
  }

  /** A new directory, complete when `done`. */
  function Make(s: Store, p: Place, tree: Tree, done: bool): Store {
    var s1 := Put(s, p, Folder(s.next, tree)).(next := s.next + 1);
    if done then s1.(whole := s.whole[s.next := tree]) else s1
  }

  /** The store after somebody has put a directory at a free name. */
  function Occupied(s: Store, id: Id, tree: Tree): Store {
    Make(s, Plugin(id), tree, true).(stood := s.stood + {(id, s.next)}, last := s.last[id := s.next])
  }

  function ApplyToStore(s: State, e: Event): Store
    requires Enabled(s, e)
  {
    var t := s.store;
    match e
    case Step(id, io) => Advance(t, id, s.jobs[id], io).store
    case Torn(id, text) => Put(t, MarkerOf(id), Text(text))
    case StageBegin(name, tree) => Make(t, Staging(name), tree, false)
    case StageMore(name, tree) => Put(t, Staging(name), Folder(t.disk[Staging(name)].ino, tree))
    case StageDone(name) =>
      t.(whole := t.whole[t.disk[Staging(name)].ino := t.disk[Staging(name)].tree])
    case Sweep(name) => Remove(t, Staging(name))
    case Occupy(id, tree) => Occupied(t, id, tree)
    case _ => t
  }

  function ApplyToJobs(s: State, e: Event): map<Id, Job>
    requires Enabled(s, e)
  {
    match e
    case Begin(id, what) => s.jobs[id := Job(FirstCall(what), None)]
    case Step(id, io) => s.jobs[id := Advance(s.store, id, s.jobs[id], io).job]
    case Finish(id) => s.jobs - {id}
    case Crash => map[]
    case _ => s.jobs
  }

  function Apply(s: State, e: Event): State
    requires Enabled(s, e)
  {
    State(ApplyToStore(s, e),
          if e.Crash? then {} else if e.StageDone? then s.mine + {e.name} else s.mine,
          if e.Crash? then {}
          else if e.StageBegin? then s.copying + {e.name}
          else if e.StageDone? then s.copying - {e.name}
          else s.copying,
          ApplyToJobs(s, e))
  }

  function Initial(): State {
    State(Store(map[], 0, map[], {}, map[], map[]), {}, {}, map[])
  }

  ghost predicate StepAt(tr: seq<State>, es: seq<Event>, i: nat) {
    i < |es| < |tr| && Enabled(tr[i], es[i]) && tr[i + 1] == Apply(tr[i], es[i])
  }

  ghost predicate IsRun(tr: seq<State>, es: seq<Event>) {
    && |tr| == |es| + 1
    && tr[0] == Initial()
    && forall i: nat | i < |es| :: StepAt(tr, es, i)
  }
}
