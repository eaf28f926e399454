/** What a failed swap reports, over every run, uninstalls and torn markers included. */
module PluginStoreReports {
  import opened Wrappers
  import opened PluginStore
  import opened PluginStoreSafety
  import opened PluginStoreJobs
  import opened PluginStoreTheorems

  // ---------------------------------------------------------------- what a report rests on

  predicate ReportOk(s: Store, id: Id, was: Option<nat>, report: Report) {
    match report
    case InPlace => was.Some? && Ino(s.disk, Plugin(id)) == was
    case Moved => was.None? || Ino(s.disk, Plugin(id)) != was
    case Swapped => Plugin(id) in s.disk
    case _ => true
  }

  /** The incumbent is not at the name, and if anything is in the trash under this name it is the incumbent. */
  ghost predicate Gone(s: Store, id: Id, was: Option<nat>, name: string) {
    Ours(s, id, name) && was.Some? && Ino(s.disk, Plugin(id)) != was
    && (Trash(name) in s.disk ==> Ino(s.disk, Trash(name)) == was)
  }

  ghost predicate Tells(s: Store, id: Id, j: Job) {
    && (j.was.Some? ==> j.was.value < s.next)
    && match j.call
       case CreateMarker(_, name) => Ours(s, id, name) && j.was.Some? && Ino(s.disk, Plugin(id)) == j.was
       case WriteMarker(_, name) => Ours(s, id, name) && j.was.Some? && Ino(s.disk, Plugin(id)) == j.was
       case MoveAside(_, name) => Ours(s, id, name) && j.was.Some? && Ino(s.disk, Plugin(id)) == j.was
       case Commit(_, trash) => if trash.Some? then Gone(s, id, j.was, trash.value) else j.was == None
       case LookAgain(name) => Gone(s, id, j.was, name)
       case PutBack(name) => Gone(s, id, j.was, name)
       case Unmark(report) => ReportOk(s, id, j.was, report)
       case Done(report) => ReportOk(s, id, j.was, report)
       case _ => true
  }

  lemma SwapOutTells(s: Store, id: Id, j: Job, io: Io)
    requires Sound(s) && Tells(s, id, j) && Possible(s, id, j, io)
    requires j.call.Look? || j.call.CreateMarker? || j.call.WriteMarker? || j.call.MoveAside?
    ensures var r := SwapOut(s, id, j, io); Tells(r.store, id, r.job)
  {
  }

  lemma SwapInTells(s: Store, id: Id, j: Job, io: Io)
    requires Sound(s) && Tells(s, id, j) && Possible(s, id, j, io)
    requires j.call.Commit? || j.call.LookAgain? || j.call.PutBack?
    ensures var r := SwapIn(s, id, j, io); Tells(r.store, id, r.job)
  {
  }

  lemma RecoveryTells(s: Store, id: Id, j: Job, io: Io)
    requires Tells(s, id, j) && Possible(s, id, j, io)
    requires j.call.ReadBack? || j.call.LookRestore? || j.call.Restore? || j.call.ToTrash? || j.call.Unmark?
    ensures var r := Recovery(s, id, j, io); Tells(r.store, id, r.job)
  {
  }

  lemma OwnCallTells(s: Store, id: Id, j: Job, io: Io)
    requires Sound(s) && Tells(s, id, j) && Possible(s, id, j, io)
    ensures var r := Advance(s, id, j, io); Tells(r.store, id, r.job)
  {
    if j.call.Look? || j.call.CreateMarker? || j.call.WriteMarker? || j.call.MoveAside? {
      SwapOutTells(s, id, j, io);
    } else if j.call.Commit? || j.call.LookAgain? || j.call.PutBack? {
      SwapInTells(s, id, j, io);
    } else {
      RecoveryTells(s, id, j, io);
    }
  }

  // ---------------------------------------------------------------- whatever the others do

  /** Plugin `id`'s name is as it was, and of its trash entries some may be gone, but none is new. */
  ghost predicate AddsNothing(s: Store, t: Store, id: Id) {
    && s.next <= t.next && SameAt(s.disk, t.disk, Plugin(id))
    && forall n | Ours(s, id, n) :: Ours(t, id, n) && (Trash(n) in t.disk ==> SameAt(s.disk, t.disk, Trash(n)))
  }

  lemma AddsNothingTells(s: Store, t: Store, id: Id, j: Job)
    requires AddsNothing(s, t, id) && Tells(s, id, j)
    ensures Tells(t, id, j)
  {
  }

  /** Another plugin's call may take one of this one's trash entries, by a torn marker, but never fills one. */
  lemma OtherCallAddsNothing(s: Store, id: Id, j: Job, io: Io, other: Id)
    requires Tells(s, id, j) && Possible(s, id, j, io) && other != id
    ensures AddsNothing(s, Advance(s, id, j, io).store, other)
  {
    var t := Advance(s, id, j, io).store;
    TouchesOnly(s, id, j, io, Plugin(other));
    NamesOnlyGrow(s, id, j, io);
    forall n | Ours(s, other, n)
      ensures Ours(t, other, n) && (Trash(n) in t.disk ==> SameAt(s.disk, t.disk, Trash(n)))
    {
      if (j.call.PutBack? || j.call.Restore?) && j.call.name == n {
        TakenOrLeft(s, id, j, io, n);
      } else {
        TouchesOnly(s, id, j, io, Trash(n));
      }
    }
  }

  lemma TakenOrLeft(s: Store, id: Id, j: Job, io: Io, n: string)
    requires Possible(s, id, j, io) && (j.call == PutBack(n) || j.call == Restore(n))
    ensures var t := Advance(s, id, j, io).store; Trash(n) in t.disk ==> SameAt(s.disk, t.disk, Trash(n))
  {
  }

  ghost predicate Telling(s: State) {
    forall id | id in s.jobs :: Tells(s.store, id, s.jobs[id])
  }

  lemma OccupyTells(s: Store, id: Id, tree: Tree, j: Job)
    requires Plugin(id) !in s.disk && Tells(s, id, j)
    ensures Tells(Occupied(s, id, tree), id, j)
  {
    var t := Occupied(s, id, tree);
    assert Ino(t.disk, Plugin(id)) == Some(s.next);
    assert forall p | p != Plugin(id) :: SameAt(s.disk, t.disk, p) && Ino(t.disk, p) == Ino(s.disk, p);
  }

  lemma TellingStep(s: State, e: Event)
    requires Sound(s.store) && Telling(s) && Enabled(s, e)
    ensures Telling(Apply(s, e))
  {
    var t := Apply(s, e);
    forall id | id in t.jobs ensures Tells(t.store, id, t.jobs[id]) {
      if e.Step? {
        assert Tells(s.store, e.id, s.jobs[e.id]);
        if id == e.id {
          OwnCallTells(s.store, id, s.jobs[id], e.io);
        } else {
          OtherCallAddsNothing(s.store, e.id, s.jobs[e.id], e.io, id);
          AddsNothingTells(s.store, t.store, id, s.jobs[id]);
        }
      } else if e.Occupy? && e.id == id {
        OccupyTells(s.store, id, e.tree, s.jobs[id]);
      } else if !e.Begin? || e.id != id {
        ElsewhereAddsNothing(s, e, id);
        AddsNothingTells(s.store, t.store, id, s.jobs[id]);
      }
    }
  }

  lemma ElsewhereAddsNothing(s: State, e: Event, id: Id)
    requires Enabled(s, e) && !e.Step? && (e.Occupy? ==> e.id != id)
    ensures AddsNothing(s.store, Apply(s, e).store, id)
  {
  }

  lemma {:induction false} EveryStateTells(tr: seq<State>, es: seq<Event>, i: nat)
    requires IsRun(tr, es) && i < |tr|
    ensures Telling(tr[i])
  {
    if i > 0 {
      EveryState(tr, es, i - 1);
      EveryStateTells(tr, es, i - 1);
      assert StepAt(tr, es, i - 1);
      TellingStep(tr[i - 1], es[i - 1]);
    }
  }

  /** A failed swap reports `incumbent_in_place` exactly when the old tree is at the name. */
  lemma ReportsAreTrue(tr: seq<State>, es: seq<Event>, i: nat, id: Id)
    requires IsRun(tr, es) && i < |tr| && id in tr[i].jobs
    requires tr[i].jobs[id].call == Done(InPlace) || tr[i].jobs[id].call == Done(Moved)
    ensures var was := tr[i].jobs[id].was;
            tr[i].jobs[id].call == Done(InPlace) <==> was.Some? && Ino(tr[i].store.disk, Plugin(id)) == was
  {
    EveryStateTells(tr, es, i);
    assert Tells(tr[i].store, id, tr[i].jobs[id]);
  }
}
