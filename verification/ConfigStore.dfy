/**
 The atomic config writer and its backups (crates/openalpaca_core/src/config_io.rs).

 `Disk` is what a crash would leave behind, and `seen` every disk there was between two steps.
 */
module ConfigStore {
  import opened Wrappers
  import opened Ordered

  /** The config file, the temporary file beside it, its backups and its unparseable copies, by their stamps. */
  datatype Disk = Disk(file: Option<string>, temp: Option<string>, backups: map<nat, string>, copies: map<nat, string>)

  const BACKUPS_KEPT := 5

  /** How one write ends: well, with only some of it written, or with nothing done. */
  datatype Wrote = Whole | Cut(n: nat) | Nothing

  function Written(w: Wrote, text: string): Option<string> {
    match w
    case Whole => Some(text)
    case Cut(n) => Some(if n <= |text| then text[..n] else text)
    case Nothing => None
  }

  /** What the machine answers to each call of one replacement. */
  datatype Io = Io(
    locks: bool, readable: bool, hasParent: bool, temp: Wrote, hasBackups: bool, backup: Wrote,
    unlisted: set<nat>, listsBackups: bool, stuck: set<nat>, renames: bool)

  predicate NoBackupError(io: Io) {
    io.hasBackups && io.backup == Whole && io.listsBackups && io.unlisted == {} && io.stuck == {}
  }

  datatype Error = LockError | ReadError | ParseError | EditError | ReparseError | WriteError

  // ---------------------------------------------------------------- which backups are kept

  function Elements(q: seq<nat>): set<nat> {
    set x | x in q
  }

  /** How many of `n` backups are too many. */
  function Excess(n: nat): nat {
    if n <= BACKUPS_KEPT then 0 else n - BACKUPS_KEPT
  }

  /** The oldest stamps, all but the five newest of them. */
  function Oldest(s: set<nat>): set<nat> {
    Elements(Ascending(s)[..Excess(|s|)])
  }

  function Without(m: map<nat, string>, gone: set<nat>): map<nat, string> {
    map k | k in m && k !in gone :: m[k]
  }

  /** The backups after one more: the text kept, then the oldest that are listed and can be removed gone. */
  function Rotated(backups: map<nat, string>, stamp: nat, text: string, io: Io): map<nat, string> {
    if !io.hasBackups || io.backup == Nothing then backups
    else
      var more := backups[stamp := Written(io.backup, text).value];
      if io.backup != Whole || !io.listsBackups then more
      else Without(more, Oldest(more.Keys - io.unlisted) - io.stuck)
  }

  /** How the tail of a replacement ends, and with what on disk: the backup is taken before the rename,
      so it stays when the rename fails. */
  predicate Lands(io: Io) {
    io.hasParent && io.temp == Whole && io.renames
  }

  function Replaced(d: Disk, text: string, stamp: nat, io: Io): Disk {
    if !io.hasParent || io.temp == Nothing then d
    else if io.temp != Whole then d.(temp := None)
    else
      var backups := if d.file.Some? then Rotated(d.backups, stamp, d.file.value, io) else d.backups;
      Disk(if io.renames then Some(text) else d.file, None, backups, d.copies)
  }

  /** What a change to a document asks for: how it is read, changed and printed, and what its reader accepts. */
  datatype Change<!Doc> = Change(parse: string -> Option<Doc>, edit: Doc -> Option<Doc>, render: Doc -> string,
                                 accepts: string -> bool)

  /** What is parsed of a file: a missing one is an empty document. */
  function TextOf(file: Option<string>): string {
    if file.Some? then file.value else ""
  }

  /** A file its reader can start from: none at all, or one it accepts. */
  predicate Acceptable(file: Option<string>, accepts: string -> bool) {
    file.Some? ==> accepts(file.value)
  }

  /** What the machine answers while an unparseable file is copied. */
  datatype CopyIo = CopyIo(readable: bool, hasBackups: bool, lists: bool, unreadable: set<nat>, copy: Wrote)

  /** No content is kept twice. */
  ghost predicate Distinct(copies: map<nat, string>) {
    forall a, b | a in copies && b in copies && copies[a] == copies[b] :: a == b
  }

  // ---------------------------------------------------------------- the store

  class Store {
    var disk: Disk
    ghost var seen: seq<Disk>

    ghost predicate Valid()
      reads this
    {
      seen != [] && seen[|seen| - 1] == disk
    }

    /** Since `before` disks had been seen, the file was always the old one or `text`, whole. */
    twostate predicate OldOrNew(before: nat, text: string)
      reads this
    {
      before <= |seen| && forall k | before <= k < |seen| :: seen[k].file == old(disk.file) || seen[k].file == Some(text)
    }

    constructor (file: Option<string>)
      ensures Valid() && disk == Disk(file, None, map[], map[]) && seen == [disk]
    {
      disk := Disk(file, None, map[], map[]);
      seen := [Disk(file, None, map[], map[])];
    }

    /** Any change of the disk is one a crash may come after. */
    method Put(now: Disk)
      requires Valid()
      modifies this
      ensures Valid() && disk == now && seen == old(seen) + [now]
    {
      disk := now;
      seen := seen + [now];
    }

    /** The loop of `rotate_backup`: the oldest go, one by one, those that can be removed. */
    method RemoveOldest(listed: seq<nat>, stuck: set<nat>)
      requires Valid()
      modifies this
      ensures Valid() && old(seen) <= seen
      ensures disk == old(disk).(backups := Without(old(disk.backups), Elements(listed[..Excess(|listed|)]) - stuck))
      ensures forall k | |old(seen)| <= k < |seen| :: seen[k].file == old(disk.file)
    {
      var existing := listed;
      ghost var k := 0;
      NoneGone(disk.backups, listed, stuck);
      while |existing| > BACKUPS_KEPT
        invariant Valid() && old(seen) <= seen
        invariant k <= Excess(|listed|) && existing == listed[k..]
        invariant disk == old(disk).(backups := Without(old(disk.backups), Elements(listed[..k]) - stuck))
        invariant forall j | |old(seen)| <= j < |seen| :: seen[j].file == old(disk.file)
      {
        var oldest := existing[0];
        existing := existing[1..];
        OneMoreGone(old(disk.backups), listed, k, stuck);
        if oldest !in stuck {
          Put(disk.(backups := disk.backups - {oldest}));
        }
        k := k + 1;
      }
    }

    /** `rotate_backup`: never an error, whatever happens to it. */
    method RotateBackup(stamp: nat, text: string, io: Io)
      requires Valid()
      modifies this
      ensures Valid() && old(seen) <= seen
      ensures disk == old(disk).(backups := Rotated(old(disk.backups), stamp, text, io))
      ensures forall k | |old(seen)| <= k < |seen| :: seen[k].file == old(disk.file)
    {
      if !io.hasBackups || io.backup.Nothing? {
        return;
      }
      Put(disk.(backups := disk.backups[stamp := Written(io.backup, text).value]));
      if !io.backup.Whole? || !io.listsBackups {
        return;
      }
      RemoveOldest(Ascending(disk.backups.Keys - io.unlisted), io.stuck);
    }

    /** `write_locked`: temporary file, backup, rename. Between any two steps the file is whole, old or new. */
    method WriteLocked(text: string, original: Option<string>, stamp: nat, io: Io) returns (r: Result<(), Error>)
      requires Valid() && original == disk.file
      modifies this
      ensures Valid() && old(seen) <= seen && disk == Replaced(old(disk), text, stamp, io)
      ensures r == if Lands(io) then Ok(()) else Err(WriteError)
      ensures OldOrNew(|old(seen)|, text)
    {
      if !io.hasParent || io.temp.Nothing? {
        return Err(WriteError);
      }
      Put(disk.(temp := Some("")));
      Put(disk.(temp := Written(io.temp, text)));
      if !io.temp.Whole? {
        Put(disk.(temp := None));
        return Err(WriteError);
      }
      if original.Some? {
        RotateBackup(stamp, original.value, io);
      }
      if !io.renames {
        Put(disk.(temp := None));
        return Err(WriteError);
      }
      Put(disk.(file := Some(text), temp := None));
      return Ok(());
    }

    /** `atomic_write_toml`: what is refused changes nothing, and what its reader would refuse never lands. */
    method AtomicWriteToml<Doc(!new)>(change: Change<Doc>, stamp: nat, io: Io) returns (r: Result<(), Error>)
      requires Valid()
      modifies this
      ensures Valid() && old(seen) <= seen
      ensures r == Err(LockError) <==> !io.locks
      ensures r == Err(ReadError) <==> io.locks && !io.readable
      ensures r == Err(ParseError) <==> io.locks && io.readable && change.parse(TextOf(old(disk.file))) == None
      ensures r == Err(EditError)
              <==> io.locks && io.readable
                   && exists doc :: change.parse(TextOf(old(disk.file))) == Some(doc) && change.edit(doc) == None
      ensures r == Err(ReparseError)
              <==> io.locks && io.readable
                   && exists doc, edited :: change.parse(TextOf(old(disk.file))) == Some(doc)
                                            && change.edit(doc) == Some(edited) && !change.accepts(change.render(edited))
      ensures r.Err? && r.error != WriteError ==> disk == old(disk) && seen == old(seen)
      ensures r.Ok? || r.error == WriteError ==>
                exists doc, edited :: change.parse(TextOf(old(disk.file))) == Some(doc) && change.edit(doc) == Some(edited)
                  && change.accepts(change.render(edited)) && OldOrNew(|old(seen)|, change.render(edited))
                  && disk == Replaced(old(disk), change.render(edited), stamp, io)
                  && (r.Ok? ==> disk.file == Some(change.render(edited)))
      ensures r.Ok? ==> Lands(io)
      ensures r == Err(WriteError) ==> !Lands(io)
      ensures r.Err? ==> disk.file == old(disk.file)
      ensures old((forall k | 0 <= k < |seen| :: Acceptable(seen[k].file, change.accepts)))
              ==> forall k | 0 <= k < |seen| :: Acceptable(seen[k].file, change.accepts)
    {
      if !io.locks { return Err(LockError); }
      if !io.readable { return Err(ReadError); }
      var original := disk.file;
      var doc := change.parse(TextOf(original));
      if doc.None? { return Err(ParseError); }
      var before := doc.value;
      var edited := change.edit(before);
      if edited.None? { return Err(EditError); }
      var edit := edited.value;
      assert change.parse(TextOf(old(disk.file))) == Some(before) && change.edit(before) == Some(edit);
      var rendered := change.render(edit);
      if !change.accepts(rendered) { return Err(ReparseError); }
      r := WriteLocked(rendered, original, stamp, io);
    }

    /** `copy_unparseable_once`: the copy there is already, or a new one. */
    method CopyUnparseableOnce(order: seq<nat>, stamp: nat, io: CopyIo) returns (r: Option<nat>)
      requires Valid() && stamp !in disk.copies
      requires forall k :: k in order <==> k in disk.copies
      modifies this
      ensures Valid() && disk == old(disk).(copies := disk.copies)
      ensures r.Some? ==> disk.file.Some? && r.value in disk.copies && disk.copies[r.value] == disk.file.value
      ensures forall k | k in old(disk.copies) :: k in disk.copies && disk.copies[k] == old(disk.copies)[k]
      ensures (exists k | k in old(disk.copies) && k !in io.unreadable :: Some(old(disk.copies)[k]) == disk.file)
              ==> disk == old(disk)
      ensures r.None? && io.copy.Whole? && io.hasBackups && io.lists && io.readable ==> disk.file.None?
      ensures old(Distinct(disk.copies)) && io.unreadable == {} && !io.copy.Cut? ==> Distinct(disk.copies)
    {
      if !io.readable || disk.file.None? || !io.hasBackups || !io.lists {
        return None;
      }
      var bytes := disk.file.value;
      for j := 0 to |order|
        invariant disk == old(disk) && seen == old(seen)
        invariant forall i | 0 <= i < j && order[i] !in io.unreadable :: disk.copies[order[i]] != bytes
      {
        assert order[j] in order;
        if order[j] !in io.unreadable && disk.copies[order[j]] == bytes {
          return Some(order[j]);
        }
      }
      if io.copy.Nothing? {
        return None;
      }
      Put(disk.(copies := disk.copies[stamp := Written(io.copy, bytes).value]));
      return if io.copy.Whole? then Some(stamp) else None;
    }
  }

  lemma NoneGone(m: map<nat, string>, listed: seq<nat>, stuck: set<nat>)
    ensures Without(m, Elements(listed[..0]) - stuck) == m
  {
  }

  lemma OneMoreGone(m: map<nat, string>, listed: seq<nat>, k: nat, stuck: set<nat>)
    requires k < |listed|
    ensures var now, next := Without(m, Elements(listed[..k]) - stuck), Without(m, Elements(listed[..k + 1]) - stuck);
            next == if listed[k] in stuck then now else now - {listed[k]}
  {
    assert listed[..k + 1] == listed[..k] + [listed[k]];
    assert forall x :: x in listed[..k + 1] <==> x in listed[..k] || x == listed[k];
  }

  // ---------------------------------------------------------------- which versions are kept

  /** A replacement that lands, no backup error in it. */
  datatype Landed = Landed(stamp: nat, text: string, io: Io)

  predicate Well(w: Landed) {
    Lands(w.io) && NoBackupError(w.io)
  }

  function After(d: Disk, ws: seq<Landed>): Disk {
    if ws == [] then d
    else
      var w := ws[|ws| - 1];
      Replaced(After(d, ws[..|ws| - 1]), w.text, w.stamp, w.io)
  }

  datatype Version = Version(stamp: nat, text: string)

  /** The file the write at `k` finds. */
  function Found(file: Option<string>, ws: seq<Landed>, k: nat): Option<string>
    requires k <= |ws|
  {
    if k == 0 then file else Some(ws[k - 1].text)
  }

  /** The write at `k` replaces what it finds, under its own stamp. */
  function ReplacedAt(file: Option<string>, ws: seq<Landed>, k: nat): Version
    requires k < |ws| && Found(file, ws, k).Some?
  {
    Version(ws[k].stamp, Found(file, ws, k).value)
  }

  /** The versions the writes replaced, oldest first; creating the file replaces none. */
  function Versions(file: Option<string>, ws: seq<Landed>): (r: seq<Version>)
    ensures var first := if file.Some? then 0 else 1;
            && |r| == (if |ws| <= first then 0 else |ws| - first)
            && forall k | 0 <= k < |r| :: r[k] == ReplacedAt(file, ws, first + k)
  {
    var first := if file.Some? then 0 else 1;
    if |ws| <= first then []
    else seq(|ws| - first, k requires 0 <= k < |ws| - first => ReplacedAt(file, ws, first + k))
  }

  function LastFive(q: seq<Version>): seq<Version> {
    q[Excess(|q|)..]
  }

  function Stamps(q: seq<Version>): (r: seq<nat>)
    ensures |r| == |q|
  {
    seq(|q|, k requires 0 <= k < |q| => q[k].stamp)
  }

  ghost predicate InOrder(ws: seq<Landed>) {
    forall j, k | 0 <= j < k < |ws| :: ws[j].stamp < ws[k].stamp
  }

  /** The backups are these versions, and no other. */
  ghost predicate Are(backups: map<nat, string>, q: seq<Version>) {
    && (forall k :: k in backups <==> k in Stamps(q))
    && forall j | 0 <= j < |q| :: q[j].stamp in backups && backups[q[j].stamp] == q[j].text
  }

  lemma Added(backups: map<nat, string>, q: seq<Version>, v: Version)
    requires Are(backups, q) && Ascends(Stamps(q + [v]))
    ensures Are(backups[v.stamp := v.text], q + [v])
  {
    var stamps := Stamps(q + [v]);
    assert stamps == Stamps(q) + [v.stamp];
    forall j | 0 <= j < |q| ensures q[j].stamp != v.stamp {
      assert stamps[j] < stamps[|q|];
    }
  }

  lemma OldestAre(more: map<nat, string>, all: seq<Version>)
    requires Are(more, all) && Ascends(Stamps(all))
    ensures Oldest(more.Keys) == Elements(Stamps(all)[..Excess(|all|)])
  {
    OneAscendingOrder(Stamps(all), Ascending(more.Keys));
  }

  lemma OldestGone(more: map<nat, string>, all: seq<Version>)
    requires Are(more, all) && Ascends(Stamps(all))
    ensures Are(Without(more, Oldest(more.Keys)), LastFive(all))
  {
    var n, stamps := Excess(|all|), Stamps(all);
    OldestAre(more, all);
    CutInTwo(stamps, n);
    assert Stamps(LastFive(all)) == stamps[n..];
    forall j | 0 <= j < |LastFive(all)| ensures LastFive(all)[j].stamp !in stamps[..n] {
      assert LastFive(all)[j].stamp == stamps[n..][j];
    }
  }

  /** One more version pushes the oldest out, if there were five. */
  lemma OneMoreVersion(backups: map<nat, string>, q: seq<Version>, v: Version, io: Io)
    requires Are(backups, q) && Ascends(Stamps(q + [v])) && NoBackupError(io)
    ensures Are(Rotated(backups, v.stamp, v.text, io), LastFive(q + [v]))
  {
    var more := backups[v.stamp := v.text];
    Added(backups, q, v);
    OldestGone(more, q + [v]);
    assert more.Keys - {} == more.Keys && Oldest(more.Keys) - {} == Oldest(more.Keys);
  }

  lemma {:induction false} FileAfter(d: Disk, ws: seq<Landed>)
    requires forall w | w in ws :: Well(w)
    ensures After(d, ws).file == Found(d.file, ws, |ws|)
  {
    if ws != [] {
      assert Well(ws[|ws| - 1]);
    }
  }

  lemma OneMoreReplaced(file: Option<string>, ws: seq<Landed>, w: Landed)
    requires InOrder(ws + [w])
    ensures var found := Found(file, ws, |ws|);
            Versions(file, ws + [w]) == Versions(file, ws) + if found.Some? then [Version(w.stamp, found.value)] else []
    ensures Ascends(Stamps(Versions(file, ws + [w])))
  {
    var first := if file.Some? then 0 else 1;
    var all := Versions(file, ws + [w]);
    var vs, more := Versions(file, ws), ws + [w];
    forall k | 0 <= k < |vs| ensures all[k] == vs[k] {
      assert Found(file, more, first + k) == Found(file, ws, first + k);
    }
    if ws != [] || file.Some? {
      assert Found(file, more, |ws|) == Found(file, ws, |ws|);
    }
  }

  /** Of versions in order, the last five of all are the last five of the last five and one more. */
  lemma LastFiveOfMore(q: seq<Version>, v: Version)
    requires Ascends(Stamps(q + [v]))
    ensures LastFive(LastFive(q) + [v]) == LastFive(q + [v]) && Ascends(Stamps(LastFive(q) + [v]))
  {
    var n := Excess(|q|);
    assert LastFive(q) + [v] == (q + [v])[n..];
    assert Excess(|q| + 1) >= n && LastFive(q + [v]) == (q + [v])[n..][Excess(|q| + 1) - n..];
    assert Stamps(LastFive(q) + [v]) == Stamps(q + [v])[n..];
  }

  lemma KeptAfterOneMore(file: Option<string>, before: Disk, ws: seq<Landed>, w: Landed)
    requires InOrder(ws + [w]) && Well(w)
    requires before.file == Found(file, ws, |ws|) && Are(before.backups, LastFive(Versions(file, ws)))
    ensures Are(Replaced(before, w.text, w.stamp, w.io).backups, LastFive(Versions(file, ws + [w])))
  {
    OneMoreReplaced(file, ws, w);
    if before.file.Some? {
      var v := Version(w.stamp, before.file.value);
      LastFiveOfMore(Versions(file, ws), v);
      OneMoreVersion(before.backups, LastFive(Versions(file, ws)), v, w.io);
    }
  }

  /** From no backup, replacements with rising stamps leave exactly the last five versions replaced, or all of fewer. */
  lemma {:induction false} LastFiveVersionsAreKept(d: Disk, ws: seq<Landed>)
    requires d.backups == map[] && InOrder(ws) && forall w | w in ws :: Well(w)
    ensures Are(After(d, ws).backups, LastFive(Versions(d.file, ws)))
    decreases |ws|
  {
    if ws != [] {
      var n := |ws| - 1;
      LastFiveVersionsAreKept(d, ws[..n]);
      FileAfter(d, ws[..n]);
      assert ws == ws[..n] + [ws[n]] && Well(ws[n]);
      KeptAfterOneMore(d.file, After(d, ws[..n]), ws[..n], ws[n]);
    }
  }
}
