/**
 The swap and its recovery as the code runs them: one method each, over a disk that changes at every
 call (crates/openalpaca_plugins/src/install.rs). Each is proved to follow, call by call, the job of
 the same name in `PluginStore`; `TrailGoesOn` makes any such trail part of a run, so that what is proved
 of every state of every run holds of every disk a crash could leave a method at.
 */
module PluginsRoot {
  import opened Wrappers
  import opened PluginStore
  import opened PluginStoreSafety
  import opened PluginStoreRuns
  import Marker

  /** A call of the job, or somebody putting a directory at the plugin's free name. */
  datatype Happening = Called(io: Io) | Taken(tree: Tree)

  predicate May(at: Stretch, id: Id, h: Happening) {
    match h
    case Called(io) => Possible(at.store, id, at.job, io)
    case Taken(_) => Plugin(id) !in at.store.disk
  }

  function Next(at: Stretch, id: Id, h: Happening): Stretch
    requires May(at, id, h)
  {
    match h
    case Called(io) => Advance(at.store, id, at.job, io)
    case Taken(tree) => Stretch(Occupied(at.store, id, tree), at.job)
  }

  /** Consecutive stores are one happening apart. */
  ghost predicate NextAt(id: Id, trail: seq<Stretch>, hs: seq<Happening>, i: nat) {
    i < |hs| < |trail| && May(trail[i], id, hs[i]) && trail[i + 1] == Next(trail[i], id, hs[i])
  }

  ghost predicate Trail(id: Id, trail: seq<Stretch>, hs: seq<Happening>) {
    |trail| == |hs| + 1 && forall i: nat | i < |hs| :: NextAt(id, trail, hs, i)
  }

  /** One store and job comes of another by calls of that job. */
  ghost predicate Follows(id: Id, from: Stretch, to: Stretch) {
    exists trail, hs :: Trail(id, trail, hs) && trail[0] == from && trail[|trail| - 1] == to
  }

  lemma FollowsNothing(id: Id, from: Stretch)
    ensures Follows(id, from, from)
  {
    var trail, hs: seq<Happening> := [from], [];
    assert Trail(id, trail, hs) && trail[0] == from && trail[|trail| - 1] == from;
  }

  lemma FollowsOn(id: Id, from: Stretch, to: Stretch, h: Happening)
    requires Follows(id, from, to) && May(to, id, h)
    ensures Follows(id, from, Next(to, id, h))
  {
    var trail, hs :| Trail(id, trail, hs) && trail[0] == from && trail[|trail| - 1] == to;
    var trail', hs' := trail + [Next(to, id, h)], hs + [h];
    forall i: nat | i < |hs'|
      ensures NextAt(id, trail', hs', i)
    {
      if i < |hs| {
        assert NextAt(id, trail, hs, i);
      }
    }
    assert Trail(id, trail', hs') && trail'[0] == from;
  }

  /** What the trail has at `k`, the run has `k` states on. */
  ghost predicate Along(tr: seq<State>, start: nat, id: Id, trail: seq<Stretch>, k: nat) {
    && k < |trail| && start + k < |tr| && id in tr[start + k].jobs
    && trail[k] == Stretch(tr[start + k].store, tr[start + k].jobs[id])
  }

  /** A run that has come to where a trail starts goes on along it, store by store. */
  lemma {:induction false} TrailGoesOn(tr: seq<State>, es: seq<Event>, id: Id, trail: seq<Stretch>, hs: seq<Happening>)
    returns (tr': seq<State>, es': seq<Event>)
    requires IsRun(tr, es) && Trail(id, trail, hs) && Along(tr, |es|, id, trail, 0)
    ensures IsRun(tr', es') && |es'| == |es| + |hs| && tr <= tr'
    ensures forall k: nat | k <= |hs| :: Along(tr', |es|, id, trail, k)
    decreases |hs|
  {
    tr', es' := tr, es;
    if hs != [] {
      var n := |hs| - 1;
      var trail0, hs0 := trail[..n + 1], hs[..n];
      forall i: nat | i < n ensures NextAt(id, trail0, hs0, i) {
        assert NextAt(id, trail, hs, i);
      }
      var tr0, es0 := TrailGoesOn(tr, es, id, trail0, hs0);
      assert Along(tr0, |es|, id, trail0, n) && NextAt(id, trail, hs, n);
      tr', es' := OneMoreHappening(tr0, es0, id, hs[n]);
      forall k: nat | k <= n ensures Along(tr', |es|, id, trail, k) {
        assert Along(tr0, |es|, id, trail0, k);
      }
    }
  }

  lemma OneMoreHappening(tr: seq<State>, es: seq<Event>, id: Id, h: Happening)
    returns (tr': seq<State>, es': seq<Event>)
    requires IsRun(tr, es) && id in tr[|es|].jobs
    requires May(Stretch(tr[|es|].store, tr[|es|].jobs[id]), id, h)
    ensures IsRun(tr', es') && |es'| == |es| + 1 && tr <= tr'
    ensures id in tr'[|es'|].jobs
    ensures Next(Stretch(tr[|es|].store, tr[|es|].jobs[id]), id, h) == Stretch(tr'[|es'|].store, tr'[|es'|].jobs[id])
  {
    var e := match h case Called(io) => Step(id, io) case Taken(tree) => Occupy(id, tree);
    tr', es' := RunOneMore(tr, es, e);
  }

  /** A directory put at the name by somebody, if any, keeps no rename out: there is none, or an empty one. */
  predicate Leaves(taken: Option<Tree>) {
    taken == None || taken == Some(EMPTY)
  }

  /**
   What the machine answers to each call of one swap, and what somebody puts at the plugin's name while it is free:
   `false` is a call that fails for a reason of its own, `cut` how much of the marker's line a failed write leaves,
   `taken`, `takenThen` and `takenLast` who comes before the commit's rename, before the look after it, and before
   the rename back. A commit refused by its own look at the name is one that fails.
   */
  datatype SwapIo = SwapIo(
    makesTrash: bool, creates: bool, cut: Option<nat>, movesAside: bool, taken: Option<Tree>, commits: bool,
    takenThen: Option<Tree>, takenLast: Option<Tree>, putsBack: bool, sweeps: bool, unmarks: bool)

  /** The calls before the commit do not fail. */
  predicate Prepares(io: SwapIo) {
    io.makesTrash && io.creates && io.cut == None && io.movesAside
  }

  /** The commit has a staged copy to move, does not fail, and finds the name free. */
  predicate Commits(d: Disk, staged: string, io: SwapIo) {
    io.commits && IsFolder(d, Staging(staged)) && Leaves(io.taken)
  }

  /** Nobody took the name, and the rename back does not fail. */
  predicate PutsBack(io: SwapIo) {
    io.taken == None && io.takenThen == None && Leaves(io.takenLast) && io.putsBack
  }

  /** Nothing is touched but the plugin's name, its marker, the trash name and the staged copy. */
  ghost predicate TouchesOnly(before: Disk, now: Disk, id: Id, staged: string, name: string) {
    forall p | p != Plugin(id) && p != MarkerOf(id) && p != Staging(staged) && p != Trash(name) ::
      (p in now <==> p in before) && (p in now ==> now[p] == before[p])
  }

  /** Where each tree is after a swap over an incumbent that stood at `was`. */
  ghost predicate Outcome(before: Disk, now: Disk, id: Id, was: Place, staged: string, name: string, io: SwapIo, r: Report)
    requires was in before
  {
    && (r == Swapped ==> Staging(staged) in before && Plugin(id) in now && now[Plugin(id)] == before[Staging(staged)]
                         && Trash(name) in now && now[Trash(name)] == before[was] && (io.unmarks ==> MarkerOf(id) !in now))
    && (r == InPlace ==> Plugin(id) in now && now[Plugin(id)] == before[was])
    && (r == Moved ==> Trash(name) in now && now[Trash(name)] == before[was]
                       && (Plugin(id) !in now ==> MarkerOf(id) in now && now[MarkerOf(id)] == Text(Marker.Line(name))))
    && (r == Swapped || io.sweeps ==> Staging(staged) !in now)
    && TouchesOnly(before, now, id, staged, name)
  }

  lemma OutcomeBefore(before: Disk, marked: Disk, now: Disk, id: Id, staged: string, name: string, io: SwapIo, r: Report)
    requires Plugin(id) in before && marked == before[MarkerOf(id) := Text(Marker.Line(name))]
    requires Outcome(marked, now, id, Plugin(id), staged, name, io, r)
    ensures Outcome(before, now, id, Plugin(id), staged, name, io, r)
  {
  }

  lemma OutcomeAside(before: Disk, moved: Disk, now: Disk, id: Id, staged: string, name: string, io: SwapIo, r: Report)
    requires Plugin(id) in before && moved == Rename(before, Plugin(id), Trash(name))
    requires Outcome(moved, now, id, Trash(name), staged, name, io, r)
    ensures Outcome(before, now, id, Plugin(id), staged, name, io, r)
  {
  }

  class Root {
    var disk: Disk
    var next: nat
    /** The store this disk is part of, with its history, and the job at work on it. */
    ghost var model: Stretch

    ghost predicate Valid()
      reads this
    {
      model.store.disk == disk && model.store.next == next
    }

    /** The proof's half of a call: the job advances. */
    ghost method Did(id: Id, from: Stretch, io: Io)
      requires Possible(model.store, id, model.job, io) && Follows(id, from, model)
      modifies this`model
      ensures model.store.next == old(model.store.next)
      ensures model == Advance(old(model.store), id, old(model.job), io) && Follows(id, from, model)
    {
      FollowsOn(id, from, model, Called(io));
      model := Advance(model.store, id, model.job, io);
    }

    /** Between two calls, somebody may put a directory at the plugin's name while it is free. */
    method Meanwhile(id: Id, taken: Option<Tree>, ghost from: Stretch)
      requires Valid() && Follows(id, from, model)
      modifies this
      ensures Valid() && Follows(id, from, model) && model.job == old(model.job)
      ensures disk == if taken.Some? && Plugin(id) !in old(disk)
                      then old(disk)[Plugin(id) := Folder(old(next), taken.value)] else old(disk)
    {
      if taken.Some? && Plugin(id) !in disk {
        FollowsOn(id, from, model, Taken(taken.value));
        disk, next := disk[Plugin(id) := Folder(next, taken.value)], next + 1;
        model := Next(model, id, Taken(taken.value));
      }
    }

    /** `std::fs::rename` of a directory: atomic, and it may fail for reasons of its own. */
    method RenameFolder(from: Place, to: Place, works: bool) returns (ok: bool)
      modifies this`disk
      ensures ok == (works && IsFolder(old(disk), from) && (to !in old(disk) || HoldsEmpty(old(disk), to)))
      ensures disk == if ok then Rename(old(disk), from, to) else old(disk)
    {
      ok := works && from in disk && disk[from].Folder? && (to !in disk || HoldsEmpty(disk, to));
      if ok {
        disk := Rename(disk, from, to);
      }
    }

    /** `remove_dir_all` of a staging copy, as its drop does it. */
    method DropStaged(staged: string, sweeps: bool)
      modifies this`disk
      ensures disk == if sweeps then old(disk) - {Staging(staged)} else old(disk)
    {
      if sweeps {
        disk := disk - {Staging(staged)};
      }
    }

    method RemoveMarker(id: Id, works: bool, ghost from: Stretch)
      requires Valid() && model.job.call.Unmark? && Follows(id, from, model)
      modifies this
      ensures Valid() && Follows(id, from, model)
      ensures model.job == old(model.job).(call := Done(old(model.job.call.report)))
      ensures disk == if works then old(disk) - {MarkerOf(id)} else old(disk)
    {
      if works {
        disk := disk - {MarkerOf(id)};
      }
      Did(id, from, Io(works, "", "", false));
    }

    /** `write_marker`: created empty, then written; a failed write leaves some of the line. */
    method WriteMarker(id: Id, staged: string, name: string, io: SwapIo, ghost from: Stretch) returns (ok: bool)
      requires Valid() && model.job.call == CreateMarker(staged, name) && Follows(id, from, model)
      modifies this
      ensures Valid() && Follows(id, from, model) && model.job.was == old(model.job.was)
      ensures ok == (io.creates && io.cut == None)
      ensures ok ==> model.job.call == MoveAside(staged, name)
                     && disk == old(disk)[MarkerOf(id) := Text(Marker.Line(name))]
      ensures !ok ==> model.job.call == Done(InPlace)
      ensures !ok ==> if io.creates then MarkerOf(id) in disk && disk[MarkerOf(id)].Text? && disk[MarkerOf(id)].text <= Marker.Line(name)
                      else SameAt(old(disk), disk, MarkerOf(id))
      ensures !ok && io.sweeps ==> Staging(staged) !in disk
      ensures forall p | p != MarkerOf(id) && p != Staging(staged) ::
                (p in disk <==> p in old(disk)) && (p in disk ==> disk[p] == old(disk)[p])
    {
      if !io.creates {
        DropStaged(staged, io.sweeps);
        Did(id, from, Io(false, "", "", io.sweeps));
        return false;
      }
      disk := disk[MarkerOf(id) := Text("")];
      Did(id, from, Io(true, "", "", false));
      var line := Marker.Line(name);
      if io.cut == None {
        disk := disk[MarkerOf(id) := Text(line)];
        Did(id, from, Io(true, "", line, false));
        return true;
      }
      var some := line[..if io.cut.value < |line| then io.cut.value else |line|];
      disk := disk[MarkerOf(id) := Text(some)];
      DropStaged(staged, io.sweeps);
      Did(id, from, Io(false, "", some, io.sweeps));
      return false;
    }

    /**
     `replace_with`: exactly when the staged copy comes to stand at the name, when the incumbent is there after a
     failure, and where each tree ends up, whichever of its calls fail and whoever takes the name meanwhile.
     */
    method ReplaceWith(id: Id, staged: string, name: string, io: SwapIo) returns (r: Report)
      requires Valid() && model.job == Job(Look(staged), None)
      requires Plugin(id) in disk ==> Drawable(model.store, name)
      modifies this
      ensures Valid() && model.job.call == Done(r) && Follows(id, old(model), model)
      ensures r == Swapped || r == InPlace || r == Moved
      ensures r == Swapped
              <==> Commits(old(disk), staged, io)
                   && (Plugin(id) in old(disk) ==> Prepares(io) && IsFolder(old(disk), Plugin(id)))
      ensures r == InPlace
              <==> Plugin(id) in old(disk)
                   && (Prepares(io) && IsFolder(old(disk), Plugin(id)) ==> !Commits(old(disk), staged, io) && PutsBack(io))
      ensures r == Swapped ==> Staging(staged) in old(disk) && Plugin(id) in disk && disk[Plugin(id)] == old(disk)[Staging(staged)]
      ensures r == Swapped && Plugin(id) in old(disk) ==>
                Trash(name) in disk && disk[Trash(name)] == old(disk)[Plugin(id)] && (io.unmarks ==> MarkerOf(id) !in disk)
      ensures r == InPlace ==> Plugin(id) in old(disk) && Plugin(id) in disk && disk[Plugin(id)] == old(disk)[Plugin(id)]
      ensures r == Moved && Plugin(id) in old(disk) ==>
                Trash(name) in disk && disk[Trash(name)] == old(disk)[Plugin(id)]
                && (Plugin(id) !in disk ==> MarkerOf(id) in disk && disk[MarkerOf(id)] == Text(Marker.Line(name)))
      ensures r == Swapped || io.sweeps ==> Staging(staged) !in disk
      ensures TouchesOnly(old(disk), disk, id, staged, name)
    {
      ghost var from := model;
      FollowsNothing(id, from);
      if Plugin(id) !in disk {
        r := CommitFresh(id, staged, io, from);
      } else {
        r := SwapOver(id, staged, name, io, from);
      }
    }

    /** `replace_with` over an incumbent: the trash directory, the marker, the incumbent aside, the commit. */
    method SwapOver(id: Id, staged: string, name: string, io: SwapIo, ghost from: Stretch) returns (r: Report)
      requires Valid() && model.job == Job(Look(staged), None) && Follows(id, from, model)
      requires Plugin(id) in disk && Drawable(model.store, name)
      modifies this
      ensures Valid() && model.job.call == Done(r) && Follows(id, from, model)
      ensures r == if !Prepares(io) || !IsFolder(old(disk), Plugin(id)) then InPlace
                   else if Commits(old(disk), staged, io) then Swapped else if PutsBack(io) then InPlace else Moved
      ensures Outcome(old(disk), disk, id, Plugin(id), staged, name, io, r)
    {
      var ok := Announce(id, staged, name, io, from);
      if !ok {
        return InPlace;
      }
      ghost var marked := disk;
      r := MoveAsideAndCommit(id, staged, name, io, from);
      OutcomeBefore(old(disk), marked, disk, id, staged, name, io, r);
    }

    /** The trash directory and the marker. */
    method Announce(id: Id, staged: string, name: string, io: SwapIo, ghost from: Stretch) returns (ok: bool)
      requires Valid() && model.job == Job(Look(staged), None) && Follows(id, from, model)
      requires Plugin(id) in disk && Drawable(model.store, name)
      modifies this
      ensures Valid() && Follows(id, from, model)
      ensures ok == (io.makesTrash && io.creates && io.cut == None)
      ensures ok ==> model.job.call == MoveAside(staged, name) && disk == old(disk)[MarkerOf(id) := Text(Marker.Line(name))]
      ensures !ok ==> model.job.call == Done(InPlace) && (io.sweeps ==> Staging(staged) !in disk)
      ensures !ok ==> forall p | p != MarkerOf(id) && p != Staging(staged) ::
                (p in disk <==> p in old(disk)) && (p in disk ==> disk[p] == old(disk)[p])
    {
      if !io.makesTrash {
        DropStaged(staged, io.sweeps);
        Did(id, from, Io(false, "", "", io.sweeps));
        return false;
      }
      Did(id, from, Io(true, name, "", false));
      ok := WriteMarker(id, staged, name, io, from);
    }

    /** The rest of it, with the marker written: moving aside, and committing. */
    method MoveAsideAndCommit(id: Id, staged: string, name: string, io: SwapIo, ghost from: Stretch) returns (r: Report)
      requires Valid() && model.job.call == MoveAside(staged, name) && Follows(id, from, model)
      requires Plugin(id) in disk && Trash(name) !in disk
      requires MarkerOf(id) in disk && disk[MarkerOf(id)] == Text(Marker.Line(name))
      modifies this
      ensures Valid() && model.job.call == Done(r) && Follows(id, from, model)
      ensures r == if !io.movesAside || !IsFolder(old(disk), Plugin(id)) then InPlace
                   else if Commits(old(disk), staged, io) then Swapped else if PutsBack(io) then InPlace else Moved
      ensures Outcome(old(disk), disk, id, Plugin(id), staged, name, io, r)
    {
      var ok := TryMoveAside(id, staged, name, io, from);
      if !ok {
        RemoveMarker(id, io.unmarks, from);
        return InPlace;
      }
      ghost var moved := disk;
      r := CommitOrPutBack(id, staged, name, io, from);
      OutcomeAside(old(disk), moved, disk, id, staged, name, io, r);
    }

    /** The incumbent to the trash. */
    method TryMoveAside(id: Id, staged: string, name: string, io: SwapIo, ghost from: Stretch) returns (ok: bool)
      requires Valid() && model.job.call == MoveAside(staged, name) && Follows(id, from, model)
      requires Plugin(id) in disk && Trash(name) !in disk
      modifies this
      ensures Valid() && Follows(id, from, model)
      ensures ok == (io.movesAside && IsFolder(old(disk), Plugin(id)))
      ensures ok ==> model.job.call == Commit(staged, Some(name)) && disk == Rename(old(disk), Plugin(id), Trash(name))
      ensures !ok ==> model.job.call == Unmark(InPlace)
                      && disk == if io.sweeps then old(disk) - {Staging(staged)} else old(disk)
    {
      ok := RenameFolder(Plugin(id), Trash(name), io.movesAside);
      if !ok {
        DropStaged(staged, io.sweeps);
      }
      Did(id, from, Io(ok, "", "", !ok && io.sweeps));
    }

    /** `replace_with` into a name that is free: a bare commit. */
    method CommitFresh(id: Id, staged: string, io: SwapIo, ghost from: Stretch) returns (r: Report)
      requires Valid() && model.job == Job(Look(staged), None) && Plugin(id) !in disk && Follows(id, from, model)
      modifies this
      ensures Valid() && model.job.call == Done(r) && Follows(id, from, model)
      ensures r == if Commits(old(disk), staged, io) then Swapped else Moved
      ensures r == Swapped ==> Staging(staged) in old(disk) && Plugin(id) in disk && disk[Plugin(id)] == old(disk)[Staging(staged)]
      ensures r == Swapped || io.sweeps ==> Staging(staged) !in disk
      ensures forall p | p != Plugin(id) && p != Staging(staged) ::
                (p in disk <==> p in old(disk)) && (p in disk ==> disk[p] == old(disk)[p])
    {
      Did(id, from, Io(true, "", "", false));
      var committed := TryCommit(id, staged, None, io, from);
      return if committed then Swapped else Moved;
    }

    /** `Staged::commit`, and the staging copy's own sweep if it fails. */
    method TryCommit(id: Id, staged: string, trashed: Option<string>, io: SwapIo, ghost from: Stretch) returns (ok: bool)
      requires Valid() && model.job.call == Commit(staged, trashed) && Plugin(id) !in disk && Follows(id, from, model)
      modifies this
      ensures Valid() && Follows(id, from, model)
      ensures ok == Commits(old(disk), staged, io)
      ensures ok ==> model.job.call == (if trashed.Some? then Unmark(Swapped) else Done(Swapped))
                     && Plugin(id) in disk && disk[Plugin(id)] == old(disk)[Staging(staged)]
      ensures !ok ==> model.job.call == (if trashed.Some? then LookAgain(trashed.value) else Done(Moved))
                      && (Plugin(id) in disk <==> io.taken.Some?)
      ensures ok || io.sweeps ==> Staging(staged) !in disk
      ensures forall p | p != Plugin(id) && p != Staging(staged) ::
                (p in disk <==> p in old(disk)) && (p in disk ==> disk[p] == old(disk)[p])
    {
      Meanwhile(id, io.taken, from);
      ok := RenameFolder(Staging(staged), Plugin(id), io.commits);
      if !ok {
        DropStaged(staged, io.sweeps);
      }
      Did(id, from, Io(ok, "", "", !ok && io.sweeps));
    }

    /** The second half of `replace_with`, with the incumbent in the trash. */
    method CommitOrPutBack(id: Id, staged: string, name: string, io: SwapIo, ghost from: Stretch) returns (r: Report)
      requires Valid() && model.job.call == Commit(staged, Some(name)) && Follows(id, from, model)
      requires IsFolder(disk, Trash(name)) && Plugin(id) !in disk
      requires MarkerOf(id) in disk && disk[MarkerOf(id)] == Text(Marker.Line(name))
      modifies this
      ensures Valid() && model.job.call == Done(r) && Follows(id, from, model)
      ensures r == if Commits(old(disk), staged, io) then Swapped else if PutsBack(io) then InPlace else Moved
      ensures Outcome(old(disk), disk, id, Trash(name), staged, name, io, r)
    {
      var ok := TryCommit(id, staged, Some(name), io, from);
      if ok {
        RemoveMarker(id, io.unmarks, from);
        return Swapped;
      }
      r := PutBackOrKeep(id, name, io, from);
    }

    /** After a failed commit: back to its name, unless the name has been taken or the rename fails. */
    method PutBackOrKeep(id: Id, name: string, io: SwapIo, ghost from: Stretch) returns (r: Report)
      requires Valid() && model.job.call == LookAgain(name) && Follows(id, from, model)
      requires IsFolder(disk, Trash(name)) && MarkerOf(id) in disk && disk[MarkerOf(id)] == Text(Marker.Line(name))
      modifies this
      ensures Valid() && model.job.call == Done(r) && Follows(id, from, model)
      ensures r == if Plugin(id) !in old(disk) && io.takenThen == None && Leaves(io.takenLast) && io.putsBack
                   then InPlace else Moved
      ensures r == InPlace ==> Plugin(id) in disk && disk[Plugin(id)] == old(disk)[Trash(name)]
      ensures r == Moved ==> Trash(name) in disk && disk[Trash(name)] == old(disk)[Trash(name)]
                             && (Plugin(id) !in disk ==> MarkerOf(id) in disk && disk[MarkerOf(id)] == Text(Marker.Line(name)))
      ensures forall p | p != Plugin(id) && p != MarkerOf(id) && p != Trash(name) ::
                (p in disk <==> p in old(disk)) && (p in disk ==> disk[p] == old(disk)[p])
    {
      Meanwhile(id, io.takenThen, from);
      Did(id, from, Io(true, "", "", false));
      if Plugin(id) in disk {
        RemoveMarker(id, io.unmarks, from);
        return Moved;
      }
      var ok := TryPutBack(id, name, io, from);
      if ok {
        RemoveMarker(id, io.unmarks, from);
        return InPlace;
      }
      return Moved;
    }

    /** The rename back. */
    method TryPutBack(id: Id, name: string, io: SwapIo, ghost from: Stretch) returns (ok: bool)
      requires Valid() && model.job.call == PutBack(name) && Follows(id, from, model)
      requires IsFolder(disk, Trash(name)) && Plugin(id) !in disk
      modifies this
      ensures Valid() && Follows(id, from, model)
      ensures ok == (Leaves(io.takenLast) && io.putsBack)
      ensures model.job.call == if ok then Unmark(InPlace) else Done(Moved)
      ensures if ok then Plugin(id) in disk && disk[Plugin(id)] == old(disk)[Trash(name)]
              else Trash(name) in disk && disk[Trash(name)] == old(disk)[Trash(name)]
      ensures forall p | p != Plugin(id) && p != Trash(name) ::
                (p in disk <==> p in old(disk)) && (p in disk ==> disk[p] == old(disk)[p])
    {
      Meanwhile(id, io.takenLast, from);
      ok := RenameFolder(Trash(name), Plugin(id), io.putsBack);
      Did(id, from, Io(ok, "", "", false));
    }

    /**
     `recover_swap`: exactly when it puts the recorded tree back, and when not why; the disk recovered, or untouched
     when reading the marker or the rename fails.
     */
    method RecoverSwap(id: Id, readable: bool, putsBack: bool, unmarks: bool) returns (r: Report, dropped: bool)
      requires Valid() && model.job.call == ReadBack && MarkerOf(id) in disk && disk[MarkerOf(id)].Text?
      modifies this
      ensures Valid() && model.job.call == Done(r) && Follows(id, old(model), model)
      ensures var recorded := Marker.Read(old(disk)[MarkerOf(id)].text);
              r == if !readable then Failed
                   else if recorded == None then Unreadable
                   else if Plugin(id) in old(disk) then Settled
                   else if !IsFolder(old(disk), Trash(recorded.value)) then Missing
                   else if putsBack then Restored else Failed
      ensures dropped == (unmarks && r != Failed && r != Unreadable)
      ensures r == Failed || r == Unreadable ==> disk == old(disk)
      ensures r == Restored ==>
                var name := Marker.Read(old(disk)[MarkerOf(id)].text).value;
                Plugin(id) in disk && disk[Plugin(id)] == old(disk)[Trash(name)] && Trash(name) !in disk
      ensures r != Failed && (dropped || r == Unreadable) ==> disk == Recovered(old(disk), id)
      ensures r != Failed && !dropped ==> Recovered(disk, id) == Recovered(old(disk), id)
    {
      ghost var from := model;
      FollowsNothing(id, from);
      Did(id, from, Io(readable, "", "", false));
      if !readable {
        return Failed, false;
      }
      var recorded := Marker.Read(disk[MarkerOf(id)].text);
      if recorded.None? {
        return Unreadable, false;
      }
      r, dropped := PutBackRecorded(id, recorded.value, putsBack, unmarks, from);
    }

    /** The rest of it, with the marker read: the tree it names back, if there is one and the name is free. */
    method PutBackRecorded(id: Id, name: string, putsBack: bool, unmarks: bool, ghost from: Stretch)
      returns (r: Report, dropped: bool)
      requires Valid() && model.job.call == LookRestore(name) && Follows(id, from, model)
      requires MarkerOf(id) in disk && disk[MarkerOf(id)].Text? && Marker.Read(disk[MarkerOf(id)].text) == Some(name)
      modifies this
      ensures Valid() && model.job.call == Done(r) && Follows(id, from, model)
      ensures r == if Plugin(id) in old(disk) then Settled
                   else if !IsFolder(old(disk), Trash(name)) then Missing
                   else if putsBack then Restored else Failed
      ensures dropped == (unmarks && r != Failed)
      ensures r == Failed ==> disk == old(disk)
      ensures r == Restored ==> Plugin(id) in disk && disk[Plugin(id)] == old(disk)[Trash(name)] && Trash(name) !in disk
      ensures r != Failed && dropped ==> disk == Recovered(old(disk), id)
      ensures r != Failed && !dropped ==> Recovered(disk, id) == Recovered(old(disk), id)
    {
      dropped := false;
      Did(id, from, Io(true, "", "", false));
      if Plugin(id) in disk {
        r := Settled;
      } else if Trash(name) in disk && disk[Trash(name)].Folder? {
        var ok := RenameFolder(Trash(name), Plugin(id), putsBack);
        Did(id, from, Io(ok, "", "", false));
        if !ok {
          return Failed, false;
        }
        r := Restored;
      } else {
        r := Missing;
      }
      RemoveMarker(id, unmarks, from);
      dropped := unmarks;
    }
  }
}
