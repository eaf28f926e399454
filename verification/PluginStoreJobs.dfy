/** What each job knows at each call, whatever the jobs on other plugins do meanwhile. */
module PluginStoreJobs {
  import opened Wrappers
  import opened PluginStore
  import opened PluginStoreSafety
  import Marker

  // ---------------------------------------------------------------- names

  /** No plugin's drawn name is the beginning of another plugin's, so a torn marker never names another's tree. */
  ghost predicate NamesApart(names: map<string, Id>) {
    forall m, n | m in names && n in names && m <= n :: names[m] == names[n]
  }

  ghost predicate NamesFit(names: map<string, Id>) {
    forall n | n in names :: Marker.TrashName(n)
  }

  /** A stamp is 15 characters of date and time, a dot, nine digits and a `Z`. */
  predicate Stamp(stamp: string) {
    |stamp| == 26 && '.' !in stamp[..15] && stamp[15] == '.' && stamp[25] == 'Z'
  }

  /** Names of plugins without a dot in their id are always apart. */
  lemma DotlessNamesAreApart(a: Id, b: Id, s: string, t: string)
    requires '.' !in a && '.' !in b && Stamp(s) && Stamp(t)
    requires a + "-" + s <= b + "-" + t
    ensures a == b && s == t
  {
    var m, n := a + "-" + s, b + "-" + t;
    assert m[|a| + 16] == '.';
    assert n[|a| + 16] == '.';
    assert |a| == |b|;
    assert a == m[..|a|] == n[..|b|] == b;
    assert s == m[|a| + 1..] == n[|a| + 1..] == t;
  }

  /** With dots they may not be: a plugin may be named as another one's trash entry is, and then something. */
  lemma DottedNamesMayMeet(a: Id, s: string, t: string)
    requires Stamp(s) && Stamp(t)
    ensures var b := a + "-" + s + ".x"; a + "-" + s <= b + "-" + t && a != b
  {
  }

  ghost predicate Ours(s: Store, id: Id, name: string) {
    name in s.names && s.names[name] == id
  }

  /** The marker holds the whole line for this name. */
  predicate Marked(s: Store, id: Id, name: string) {
    MarkerOf(id) in s.disk && s.disk[MarkerOf(id)] == Text(Marker.Line(name))
  }

  /** A plugin's marker holds some of the line for a name drawn for that plugin. */
  ghost predicate MarkerOk(s: Store, id: Id) {
    MarkerOf(id) in s.disk ==>
      s.disk[MarkerOf(id)].Text? && exists n :: Ours(s, id, n) && s.disk[MarkerOf(id)].text <= Marker.Line(n)
  }

  // ---------------------------------------------------------------- what a job knows

  /** The incumbent is in the trash under this name, the marker says so, and it is not at the name. */
  ghost predicate Aside(s: Store, id: Id, was: Option<nat>, name: string) {
    Ours(s, id, name) && Marked(s, id, name) && was.Some? && Ino(s.disk, Trash(name)) == was
    && Ino(s.disk, Plugin(id)) != was
  }

  ghost predicate Standing(s: Store, id: Id, was: Option<nat>, name: string) {
    Ours(s, id, name) && Trash(name) !in s.disk && was.Some? && Ino(s.disk, Plugin(id)) == was
  }

  ghost predicate JobOk(s: Store, id: Id, j: Job) {
    && (j.was.Some? ==> j.was.value < s.next)
    && match j.call
       case CreateMarker(_, name) => Standing(s, id, j.was, name)
       case WriteMarker(_, name) => Standing(s, id, j.was, name)
       case MoveAside(_, name) => Standing(s, id, j.was, name) && Marked(s, id, name)
       case Commit(_, trash) => if trash.Some? then Aside(s, id, j.was, trash.value) else j.was == None
       case LookAgain(name) => Aside(s, id, j.was, name)
       case PutBack(name) => Aside(s, id, j.was, name)
       case Unmark(report) => report.Missing? || report.Removed? || Plugin(id) in s.disk
       case LookRestore(name) => Names(s, id, name)
       case Restore(name) => Names(s, id, name) && Ours(s, id, name) && IsFolder(s.disk, Trash(name))
       case _ => true
  }

  /** The marker reads back as this trash name. */
  ghost predicate Names(s: Store, id: Id, name: string) {
    MarkerOf(id) in s.disk && s.disk[MarkerOf(id)].Text? && Marker.Read(s.disk[MarkerOf(id)].text) == Some(name)
  }

  /** What a marker reads back as is, if it is in the trash at all, a tree of the marker's own plugin. */
  lemma ReadsOurs(s: Store, id: Id, name: string)
    requires Sound(s) && NamesFit(s.names) && NamesApart(s.names) && MarkerOk(s, id)
    requires Names(s, id, name) && Trash(name) in s.disk
    ensures Ours(s, id, name)
  {
    var n :| Ours(s, id, n) && s.disk[MarkerOf(id)].text <= Marker.Line(n);
    Marker.TornMarkerReadsPrefix(n, s.disk[MarkerOf(id)].text);
  }

  /** What a recovery goes to put back is a tree of the marker's own plugin. */
  predicate TakesOwn(s: Store, id: Id, j: Job) {
    j.call.LookRestore? && Plugin(id) !in s.disk && IsFolder(s.disk, Trash(j.call.name)) ==>
      j.call.name in s.names && s.names[j.call.name] == id
  }

  /** It is when the names drawn are apart. */
  lemma ApartTakesOwn(s: Store, id: Id, j: Job)
    requires Sound(s) && NamesFit(s.names) && NamesApart(s.names) && MarkerOk(s, id) && JobOk(s, id, j)
    ensures TakesOwn(s, id, j)
  {
    if j.call.LookRestore? && IsFolder(s.disk, Trash(j.call.name)) {
      ReadsOurs(s, id, j.call.name);
    }
  }

  // ---------------------------------------------------------------- a job's own call

  lemma SwapOutKnows(s: Store, id: Id, j: Job, io: Io)
    requires Sound(s) && JobOk(s, id, j) && Possible(s, id, j, io)
    requires j.call.Look? || j.call.CreateMarker? || j.call.WriteMarker? || j.call.MoveAside?
    ensures var r := SwapOut(s, id, j, io); JobOk(r.store, id, r.job)
  {
  }

  lemma SwapInKnows(s: Store, id: Id, j: Job, io: Io)
    requires Sound(s) && JobOk(s, id, j) && Possible(s, id, j, io)
    requires j.call.Commit? || j.call.LookAgain? || j.call.PutBack?
    ensures var r := SwapIn(s, id, j, io); JobOk(r.store, id, r.job)
  {
  }

  lemma RecoveryKnows(s: Store, id: Id, j: Job, io: Io)
    requires Sound(s) && JobOk(s, id, j) && Possible(s, id, j, io) && TakesOwn(s, id, j)
    requires j.call.ReadBack? || j.call.LookRestore? || j.call.Restore? || j.call.ToTrash? || j.call.Unmark?
    ensures var r := Recovery(s, id, j, io); JobOk(r.store, id, r.job)
  {
  }

  lemma OwnCall(s: Store, id: Id, j: Job, io: Io)
    requires Sound(s) && JobOk(s, id, j) && Possible(s, id, j, io) && TakesOwn(s, id, j)
    ensures var r := Advance(s, id, j, io); JobOk(r.store, id, r.job)
  {
    if j.call.Look? || j.call.CreateMarker? || j.call.WriteMarker? || j.call.MoveAside? {
      SwapOutKnows(s, id, j, io);
    } else if j.call.Commit? || j.call.LookAgain? || j.call.PutBack? {
      SwapInKnows(s, id, j, io);
    } else {
      RecoveryKnows(s, id, j, io);
    }
  }

  // ---------------------------------------------------------------- everybody else's calls

  /** Nothing of plugin `id`'s has changed: its name, its marker, its trees in the trash. */
  ghost predicate Untouched(s: Store, t: Store, id: Id) {
    && s.next <= t.next
    && SameAt(s.disk, t.disk, Plugin(id)) && SameAt(s.disk, t.disk, MarkerOf(id))
    && (forall n | Ours(s, id, n) :: Ours(t, id, n) && SameAt(s.disk, t.disk, Trash(n)))
  }

  lemma UntouchedKnows(s: Store, t: Store, id: Id, j: Job)
    requires Untouched(s, t, id)
    ensures JobOk(s, id, j) ==> JobOk(t, id, j)
    ensures MarkerOk(s, id) ==> MarkerOk(t, id)
  {
    if MarkerOk(s, id) && MarkerOf(id) in s.disk {
      var n :| Ours(s, id, n) && s.disk[MarkerOf(id)].text <= Marker.Line(n);
      assert Ours(t, id, n);
    }
  }

  /** The places a call may change. */
  predicate Touches(s: Store, id: Id, j: Job, io: Io, p: Place) {
    p.Staging? || p == Plugin(id) || p == MarkerOf(id)
    || (j.call.MoveAside? && p == Trash(j.call.name))
    || (j.call.PutBack? && p == Trash(j.call.name))
    || (j.call.Restore? && io.ok && p == Trash(j.call.name))
    || (j.call.ToTrash? && io.ok && IsFolder(s.disk, Plugin(id)) && p == Trash(io.name))
  }

  lemma TouchesOnly(s: Store, id: Id, j: Job, io: Io, p: Place)
    requires Possible(s, id, j, io) && !Touches(s, id, j, io, p)
    ensures SameAt(s.disk, Advance(s, id, j, io).store.disk, p)
  {
    CallMoves(s, id, j, io);
    OtherMarkers(s, id, j, io);
  }

  /** A call on one plugin leaves every other plugin's things alone. */
  lemma OtherCall(s: Store, id: Id, j: Job, io: Io, other: Id)
    requires Sound(s) && JobOk(s, id, j) && Possible(s, id, j, io) && other != id
    ensures Untouched(s, Advance(s, id, j, io).store, other)
  {
    var t := Advance(s, id, j, io).store;
    TouchesOnly(s, id, j, io, Plugin(other));
    TouchesOnly(s, id, j, io, MarkerOf(other));
    NamesOnlyGrow(s, id, j, io);
    forall n | Ours(s, other, n)
      ensures Ours(t, other, n) && SameAt(s.disk, t.disk, Trash(n))
    {
      TouchesOnly(s, id, j, io, Trash(n));
    }
  }

  lemma OwnMarker(s: Store, id: Id, j: Job, io: Io)
    requires MarkerOk(s, id) && JobOk(s, id, j) && Possible(s, id, j, io)
    ensures MarkerOk(Advance(s, id, j, io).store, id)
  {
    var t := Advance(s, id, j, io).store;
    NamesOnlyGrow(s, id, j, io);
    if j.call.CreateMarker? || j.call.WriteMarker? {
      assert Ours(t, id, j.call.name);
    }
    if MarkerOf(id) in s.disk {
      var n :| Ours(s, id, n) && s.disk[MarkerOf(id)].text <= Marker.Line(n);
      assert Ours(t, id, n);
    }
  }

  lemma FitCall(s: Store, id: Id, j: Job, io: Io)
    requires NamesFit(s.names) && Possible(s, id, j, io)
    ensures NamesFit(Advance(s, id, j, io).store.names)
  {
    NamesOnlyGrow(s, id, j, io);
  }
}
