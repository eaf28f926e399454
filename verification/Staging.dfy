/**
 The sweep of stale staging copies (crates/openalpaca_plugins/src/install.rs): which entries of `.staging/` are
 an earlier process's. A name is its UTF-8 bytes, one character each.
 */
module Staging {
  import opened Wrappers

  const U32: nat := 0x1_0000_0000

  // ---------------------------------------------------------------- numbers

  predicate IsDigit(c: char) { '0' <= c <= '9' }

  function Decimal(n: nat): (s: string)
    ensures s != "" && forall k | 0 <= k < |s| :: IsDigit(s[k])
  {
    var last := ['0' + (n % 10) as char];
    if n < 10 then last else Decimal(n / 10) + last
  }

  /** The number some digits stand for. */
  function Value(s: string): nat
    requires forall k | 0 <= k < |s| :: IsDigit(s[k])
  {
    if s == "" then 0
    else
      assert IsDigit(s[|s| - 1]);
      Value(s[..|s| - 1]) * 10 + (s[|s| - 1] - '0') as nat
  }

  lemma {:induction false} ValueOfDecimal(n: nat)
    ensures Value(Decimal(n)) == n
  {
    var s := Decimal(n);
    assert s[|s| - 1] == '0' + (n % 10) as char;
    if n < 10 {
      assert s[..|s| - 1] == "";
    } else {
      ValueOfDecimal(n / 10);
      assert s[..|s| - 1] == Decimal(n / 10);
    }
  }

  /** `parse::<u32>`, which allows a plus sign. */
  function ParseU32(s: string): Option<nat> {
    var digits := if s != "" && s[0] == '+' then s[1..] else s;
    if digits != "" && (forall k | 0 <= k < |digits| :: IsDigit(digits[k])) && Value(digits) < U32 then Some(Value(digits))
    else None
  }

  // ---------------------------------------------------------------- names

  datatype Parts = Parts(before: string, after: string)

  /** What stands before and after the last dot. */
  function LastDot(s: string): Option<Parts> {
    if s == "" then None
    else
      var n := |s| - 1;
      if s[n] == '.' then Some(Parts(s[..n], ""))
      else
        var r := LastDot(s[..n]);
        if r.None? then None else Some(Parts(r.value.before, r.value.after + [s[n]]))
  }

  lemma {:induction false} LastDotIs(before: string, after: string)
    requires '.' !in after
    ensures LastDot(before + "." + after) == Some(Parts(before, after))
    decreases |after|
  {
    var s := before + "." + after;
    if after == "" {
      assert s[..|s| - 1] == before;
    } else {
      var m := |after| - 1;
      LastDotIs(before, after[..m]);
      assert s[..|s| - 1] == before + "." + after[..m];
      assert after[..m] + [after[m]] == after;
    }
  }

  predicate Nanos(s: string) {
    s != "" && s[|s| - 1] == 'Z' && forall k | 0 <= k < |s| - 1 :: IsDigit(s[k])
  }

  /** Which process staged the copy of this name, if that is what the name is. */
  function StagingPid(name: string): Option<nat> {
    match LastDot(name)
    case None => None
    case Some(Parts(rest, nanos)) =>
      match LastDot(rest)
      case None => None
      case Some(Parts(rest', date)) =>
        match LastDot(rest')
        case None => None
        case Some(Parts(plugin, pid)) =>
          if Nanos(nanos) && |date| == 15 && date[8] == 'T' && plugin != "" then ParseU32(pid) else None
  }

  /** A stamp's two halves: date and time, and the nanoseconds. */
  predicate Stamp(date: string, nanos: string) {
    |date| == 15 && date[8] == 'T' && '.' !in date && |nanos| == 10 && Nanos(nanos)
  }

  /** What a copy is staged as: the plugin, the process and the stamp. */
  function StagedName(plugin: string, pid: nat, date: string, nanos: string): string {
    plugin + "." + Decimal(pid) + "." + date + "." + nanos
  }

  /** Every name a copy is staged as reads back as its process, dots in the plugin's name or not. */
  lemma StagedNameReads(plugin: string, pid: nat, date: string, nanos: string)
    requires plugin != "" && pid < U32 && Stamp(date, nanos)
    ensures StagingPid(StagedName(plugin, pid, date, nanos)) == Some(pid)
  {
    assert '.' !in nanos by {
      assert forall k | 0 <= k < |nanos| :: nanos[k] != '.';
    }
    LastDotIs(plugin + "." + Decimal(pid) + "." + date, nanos);
    LastDotIs(plugin + "." + Decimal(pid), date);
    LastDotIs(plugin, Decimal(pid));
    ValueOfDecimal(pid);
  }

  /** A swap marker's name never reads as a staging copy's. */
  lemma MarkerIsNoCopy(id: string)
    ensures StagingPid(id + ".swap") == None
  {
    assert id + ".swap" == id + "." + "swap";
    LastDotIs(id, "swap");
    assert !Nanos("swap");
  }

  // ---------------------------------------------------------------- the sweep

  datatype Kind = Directory | Other

  /** A directory named as another process would have, that can be removed. */
  predicate Goes(kind: Kind, name: string, ours: nat, stuck: set<string>) {
    kind == Directory && StagingPid(name).Some? && StagingPid(name).value != ours && name !in stuck
  }

  function Swept(entries: map<string, Kind>, ours: nat, stuck: set<string>): set<string> {
    set n | n in entries && Goes(entries[n], n, ours, stuck)
  }

  function Among(all: set<string>, listed: seq<string>): set<string> {
    set n | n in all && n in listed
  }

  lemma OneMoreAmong(all: set<string>, listed: seq<string>, k: nat)
    requires k < |listed| && forall i, j | 0 <= i < j < |listed| :: listed[i] != listed[j]
    ensures listed[k] !in Among(all, listed[..k])
    ensures Among(all, listed[..k + 1]) == Among(all, listed[..k]) + if listed[k] in all then {listed[k]} else {}
  {
    assert listed[..k + 1] == listed[..k] + [listed[k]];
    forall i | 0 <= i < k ensures listed[..k][i] != listed[k] {
      assert listed[..k][i] == listed[i];
    }
  }

  class StagingDir {
    var entries: map<string, Kind>

    constructor (entries: map<string, Kind>)
      ensures this.entries == entries
    {
      this.entries := entries;
    }

    /** One entry of the sweep: whether it went. */
    method SweepOne(name: string, ours: nat, stuck: set<string>) returns (gone: bool)
      requires name in entries
      modifies this
      ensures gone == Goes(old(entries)[name], name, ours, stuck)
      ensures entries == if gone then old(entries) - {name} else old(entries)
    {
      if entries[name] != Directory {
        return false;
      }
      var pid := StagingPid(name);
      if pid.None? || pid.value == ours || name in stuck {
        return false;
      }
      entries := entries - {name};
      return true;
    }

    /** `sweep_stale_staging`, in whatever order the entries come: how many went, `stuck` being those that would not. */
    method SweepStaleStaging(listed: seq<string>, ours: nat, stuck: set<string>) returns (swept: nat)
      requires forall n :: n in listed <==> n in entries
      requires forall j, k | 0 <= j < k < |listed| :: listed[j] != listed[k]
      modifies this
      ensures entries == old(entries) - Swept(old(entries), ours, stuck)
      ensures swept == |Swept(old(entries), ours, stuck)|
    {
      swept := 0;
      ghost var was, all := entries, Swept(entries, ours, stuck);
      for k := 0 to |listed|
        invariant entries == was - Among(all, listed[..k]) && swept == |Among(all, listed[..k])|
      {
        assert listed[k] in listed;
        OneMoreAmong(all, listed, k);
        StillThere(was, all, listed, k);
        var gone := SweepOne(listed[k], ours, stuck);
        if gone {
          swept := swept + 1;
        }
      }
      assert listed[..|listed|] == listed;
      assert Among(all, listed) == all;
    }
  }

  lemma StillThere(was: map<string, Kind>, all: set<string>, listed: seq<string>, k: nat)
    requires k < |listed| && listed[k] in was && listed[k] !in Among(all, listed[..k])
    ensures var now := was - Among(all, listed[..k]);
            && listed[k] in now && now[listed[k]] == was[listed[k]]
            && now - {listed[k]} == was - (Among(all, listed[..k]) + {listed[k]})
  {
  }

  /** So a copy goes exactly when another process staged it: never one this process is making. */
  lemma SweepsOtherProcesses(entries: map<string, Kind>, ours: nat, plugin: string, pid: nat, date: string, nanos: string)
    requires plugin != "" && pid < U32 && Stamp(date, nanos)
    requires StagedName(plugin, pid, date, nanos) in entries && entries[StagedName(plugin, pid, date, nanos)] == Directory
    ensures StagedName(plugin, pid, date, nanos) in Swept(entries, ours, {}) <==> pid != ours
  {
    StagedNameReads(plugin, pid, date, nanos);
  }
}
