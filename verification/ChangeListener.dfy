/**
 The change subscription of a connection (crates/openalpaca_mcp/src/client.rs): opened at most twice, and
 forwarding what each stream says in order, after one refresh of the tools.
 */
module ChangeListener {

  datatype Change = ToolList | ResourceList | PromptList

  datatype Notification = ListChanged(change: Change) | SomethingElse

  /** How a stream stops: with an end, or with an error on it. */
  datatype End = Ended | Failed

  /** What comes of asking for a stream: the connection is gone, or the stream was cut before it was acknowledged,
      or refused; or it opened, said this, and stopped, `closed` when the connection had gone by then. */
  datatype Attempt =
    | ConnectionGone
    | CutBefore
    | Refused
    | Opened(said: seq<Notification>, end: End, closed: bool)

  /** What the server says it announces. */
  datatype Filter = Filter(tools: bool, prompts: bool, resources: bool)

  function ListChanges(said: seq<Notification>): seq<Change> {
    if said == [] then []
    else
      var last := said[|said| - 1];
      ListChanges(said[..|said| - 1]) + if last.ListChanged? then [last.change] else []
  }

  /** What one stream is worth to the client: a refresh on the acknowledgment, then its list changes. */
  function Worth(a: Attempt, wanted: Filter): seq<Change> {
    if a.Opened? then (if wanted.tools then [ToolList] else []) + ListChanges(a.said) else []
  }

  /** The stream ended, and the connection did not. */
  predicate EndsAlive(a: Attempt) {
    a.CutBefore? || (a.Opened? && a.end.Ended? && !a.closed)
  }

  /** What a connection is worth: its first stream, and a second after it when the first ended alive. */
  function WorthOf(first: Attempt, second: Attempt, wanted: Filter): seq<Change> {
    Worth(first, wanted) + if EndsAlive(first) then Worth(second, wanted) else []
  }

  /** As much of it as is sent before the client is gone. */
  function Cut(changes: seq<Change>, room: nat): seq<Change> {
    if |changes| <= room then changes else changes[..room]
  }

  datatype Drained = ClientGone | StreamFailed | StreamEnded

  class Listener {
    /** What comes of each request for a stream, in turn, and how often the channel can be reached. */
    const attempt: nat -> Attempt
    const room: nat
    var opens: nat
    var channel: seq<Change>

    constructor (attempt: nat -> Attempt, room: nat)
      ensures this.attempt == attempt && this.room == room && opens == 0 && channel == []
    {
      this.attempt, this.room := attempt, room;
      opens, channel := 0, [];
    }

    /** `forward`: whether the client was still there. */
    method Forward(change: Change) returns (there: bool)
      requires |channel| <= room
      modifies this`channel
      ensures there == (|old(channel)| < room)
      ensures channel == Cut(old(channel) + [change], room)
    {
      if |channel| == room {
        return false;
      }
      channel := channel + [change];
      return true;
    }

    /** `drain`: a stream's list changes, until it stops or the client is gone. */
    method Drain(said: seq<Notification>, end: End) returns (r: Drained)
      requires |channel| <= room
      modifies this`channel
      ensures channel == Cut(old(channel) + ListChanges(said), room)
      ensures r == if |old(channel)| + |ListChanges(said)| > room then ClientGone
                   else if end.Ended? then StreamEnded else StreamFailed
    {
      assert old(channel) + [] == old(channel);
      for k := 0 to |said|
        invariant channel == old(channel) + ListChanges(said[..k]) && |channel| <= room
      {
        OneMoreSaid(said, k);
        if said[k].ListChanged? {
          var there := Forward(said[k].change);
          if !there {
            MoreIsCut(old(channel), said, k, room);
            return ClientGone;
          }
        }
      }
      assert said[..|said|] == said;
      return if end.Ended? then StreamEnded else StreamFailed;
    }

    /** `reopen_once`. */
    method ReopenOnce(reopened: bool) returns (again: bool, reopened': bool)
      ensures again == !reopened && reopened'
    {
      return !reopened, true;
    }

    /** One stream, from the request to its end: whether the loop goes on. */
    method OneStream(wanted: Filter) returns (alive: bool)
      requires |channel| <= room
      modifies this
      ensures opens == old(opens) + 1
      ensures channel == Cut(old(channel) + Worth(attempt(old(opens)), wanted), room)
      ensures alive == (EndsAlive(attempt(old(opens))) && |old(channel)| + |Worth(attempt(old(opens)), wanted)| <= room)
    {
      var a := attempt(opens);
      opens := opens + 1;
      match a
      case ConnectionGone => return false;
      case CutBefore => return true;
      case Refused => return false;
      case Opened(said, end, closed) =>
        if wanted.tools {
          var there := Forward(ToolList);
          if !there {
            return false;
          }
        }
        var drained := Drain(said, end);
        assert old(channel) + (if wanted.tools then [ToolList] else []) + ListChanges(said)
            == old(channel) + Worth(a, wanted);
        return drained == StreamEnded && !closed;
    }

    /** `listen`, for a listener with a sender: never more than two streams, and exactly what they are worth. */
    method Listen(wanted: Filter)
      requires opens == 0 && channel == []
      modifies this
      ensures opens <= 2
      ensures channel == if wanted == Filter(false, false, false) then []
                         else Cut(WorthOf(attempt(0), attempt(1), wanted), room)
      ensures opens == if wanted == Filter(false, false, false) then 0
                       else match attempt(0)
                         case ConnectionGone => 1
                         case CutBefore => 2
                         case Refused => 1
                         case Opened(said, end, closed) =>
                           if end == Ended && !closed && (if wanted.tools then 1 else 0) + |ListChanges(said)| <= room
                           then 2 else 1
      ensures wanted.tools && room > 0 && attempt(0).Opened? ==> channel != [] && channel[0] == ToolList
      ensures wanted.tools && room > 0 && attempt(0) == CutBefore && attempt(1).Opened? ==> channel != [] && channel[0] == ToolList
      ensures wanted.tools && opens == 2 && attempt(0).Opened? && attempt(1).Opened? ==>
                var n := 1 + |ListChanges(attempt(0).said)|; n < room ==> n < |channel| && channel[n] == ToolList
      ensures !attempt(0).Opened? && (opens < 2 || !attempt(1).Opened?) ==> channel == []
    {
      if wanted == Filter(false, false, false) {
        return;
      }
      var reopened := false;
      while true
        invariant opens == (if reopened then 1 else 0) && |channel| <= room
        invariant !reopened ==> channel == []
        invariant reopened ==> EndsAlive(attempt(0)) && channel == Worth(attempt(0), wanted)
        decreases !reopened
      {
        var alive := OneStream(wanted);
        if !alive {
          return;
        }
        var again;
        again, reopened := ReopenOnce(reopened);
        if !again {
          return;
        }
      }
    }
  }

  lemma OneMoreSaid(said: seq<Notification>, k: nat)
    requires k < |said|
    ensures ListChanges(said[..k + 1]) == ListChanges(said[..k]) + if said[k].ListChanged? then [said[k].change] else []
  {
    assert said[..k + 1][..k] == said[..k];
  }

  /** Every list change is heard in its place, and nothing else is. */
  lemma {:induction false} EachIsHeard(a: seq<Notification>, n: Notification, b: seq<Notification>)
    ensures ListChanges(a + [n] + b) == ListChanges(a) + (if n.ListChanged? then [n.change] else []) + ListChanges(b)
    decreases |b|
  {
    if b == [] {
      assert (a + [n] + b)[..|a|] == a && (a + [n] + b)[|a|] == n;
    } else {
      var k := |b| - 1;
      EachIsHeard(a, n, b[..k]);
      assert (a + [n] + b)[..|a| + 1 + k] == a + [n] + b[..k];
    }
  }

  lemma {:induction false} PrefixSays(said: seq<Notification>, k: nat)
    requires k <= |said|
    ensures ListChanges(said[..k]) <= ListChanges(said)
    decreases |said| - k
  {
    if k < |said| {
      OneMoreSaid(said, k);
      PrefixSays(said, k + 1);
    } else {
      assert said[..k] == said;
    }
  }

  lemma MoreIsCut(channel: seq<Change>, said: seq<Notification>, k: nat, room: nat)
    requires k < |said| && said[k].ListChanged? && |channel + ListChanges(said[..k])| == room
    ensures channel + ListChanges(said[..k]) == Cut(channel + ListChanges(said), room)
    ensures |channel| + |ListChanges(said)| > room
  {
    OneMoreSaid(said, k);
    PrefixSays(said, k);
    PrefixSays(said, k + 1);
  }
}
