/**
 Assembling a streamed response, and printing one as a stream
 (crates/openalpaca_llm/src/streaming.rs, crates/openalpaca_llm/src/lib.rs).

 `Assemble` says what a stream means channel by channel; `CollectStream`, the loop over its events, computes it.
 */
module LlmStream {
  import opened Wrappers
  import opened Ordered
  import opened ToolArguments

  /** Token counters are 32 bits wide, and added with wrap-around. */
  newtype U32 = x: int | 0 <= x < 0x1_0000_0000

  function Plus(a: U32, b: U32): U32 {
    var sum := a as int + b as int;
    (if sum < 0x1_0000_0000 then sum else sum - 0x1_0000_0000) as U32
  }

  datatype Usage = Usage(input: U32, output: U32, cacheCreation: U32, cacheRead: U32) {
    function Add(u: Usage): Usage {
      Usage(Plus(input, u.input), Plus(output, u.output), Plus(cacheCreation, u.cacheCreation), Plus(cacheRead, u.cacheRead))
    }
  }

  const NO_USAGE := Usage(0, 0, 0, 0)

  datatype FinishReason = Stop | ToolUse | MaxTokens | Error

  datatype Event =
    | TextDelta(text: string)
    | ThinkingDelta(thinking: string)
    | ToolUseStart(index: nat, id: string, name: string)
    | InputJsonDelta(index: nat, json: string)
    | UsageOf(usage: Usage)
    | Done(reason: FinishReason)
    | Failure(message: string)

  datatype ToolCall = ToolCall(id: string, name: string, arguments: Value)

  /** A content part is only carried along, so a text stands for it. */
  datatype Response = Response(
    content: string, calls: seq<ToolCall>, model: string, usage: Usage, finish: FinishReason,
    thinking: Option<string>, parts: Option<seq<string>>)

  /** What the stream yields: an event, the transport's error, or nothing for 90 seconds. */
  datatype Item = Got(event: Event) | Broken(error: string) | Stalled

  // ---------------------------------------------------------------- the channels of a stream

  function TextOf(es: seq<Event>): string {
    if es == [] then ""
    else
      var e := es[|es| - 1];
      TextOf(es[..|es| - 1]) + if e.TextDelta? then e.text else ""
  }

  function Onto(thinking: Option<string>, more: string): Option<string> {
    Some((if thinking.Some? then thinking.value else "") + more)
  }

  function ThinkingOf(es: seq<Event>): Option<string> {
    if es == [] then None
    else
      var e, r := es[|es| - 1], ThinkingOf(es[..|es| - 1]);
      if e.ThinkingDelta? then Onto(r, e.thinking) else r
  }

  function JsonOf(es: seq<Event>, i: nat): string {
    if es == [] then ""
    else
      var e := es[|es| - 1];
      JsonOf(es[..|es| - 1], i) + if e.InputJsonDelta? && e.index == i then e.json else ""
  }

  /** The id and the name a tool call was last started with. */
  datatype Meta = Meta(id: string, name: string)

  function StartOf(es: seq<Event>, i: nat): Option<Meta> {
    if es == [] then None
    else
      var e := es[|es| - 1];
      if e.ToolUseStart? && e.index == i then Some(Meta(e.id, e.name)) else StartOf(es[..|es| - 1], i)
  }

  function Started(es: seq<Event>): (r: set<nat>)
    ensures forall i: nat :: i in r <==> StartOf(es, i).Some?
  {
    if es == [] then {}
    else
      var e := es[|es| - 1];
      Started(es[..|es| - 1]) + if e.ToolUseStart? then {e.index} else {}
  }

  function UsageSum(es: seq<Event>): Usage {
    if es == [] then NO_USAGE
    else
      var e, r := es[|es| - 1], UsageSum(es[..|es| - 1]);
      if e.UsageOf? then r.Add(e.usage) else r
  }

  function LastDone(es: seq<Event>): Option<FinishReason> {
    if es == [] then None
    else
      var e := es[|es| - 1];
      if e.Done? then Some(e.reason) else LastDone(es[..|es| - 1])
  }

  function FinishOf(es: seq<Event>): FinishReason {
    var last := LastDone(es);
    if last.Some? then last.value else Stop
  }

  // ---------------------------------------------------------------- what a stream means

  function CallOf(codec: Codec, es: seq<Event>, i: nat): ToolCall
    requires i in Started(es)
  {
    var m := StartOf(es, i).value;
    ToolCall(m.id, m.name, ReadToolArguments(codec, JsonOf(es, i)))
  }

  function CallsOf(codec: Codec, es: seq<Event>, indices: seq<nat>): (r: seq<ToolCall>)
    requires forall k | 0 <= k < |indices| :: indices[k] in Started(es)
    ensures |r| == |indices|
  {
    seq(|indices|, k requires 0 <= k < |indices| => CallOf(codec, es, indices[k]))
  }

  /** The response a stream of events means, each part from its own channel. */
  function Assemble(codec: Codec, es: seq<Event>, model: string): Response {
    Response(TextOf(es), CallsOf(codec, es, Ascending(Started(es))), model, UsageSum(es), FinishOf(es), ThinkingOf(es), None)
  }

  /** How a stream fails, if an item of it does: with the first that does. */
  function FailureOf(item: Item): Option<string> {
    match item
    case Got(Failure(message)) => Some(message)
    case Got(_) => None
    case Broken(error) => Some(error)
    case Stalled => Some("SSE stream idle timeout (90s)")
  }

  function FirstFailure(items: seq<Item>): Option<string> {
    if items == [] then None
    else if FailureOf(items[0]).Some? then FailureOf(items[0])
    else FirstFailure(items[1..])
  }

  function EventsIn(items: seq<Item>): (r: seq<Event>)
    requires FirstFailure(items).None?
    ensures |r| == |items|
  {
    if items == [] then [] else [items[0].event] + EventsIn(items[1..])
  }

  // ---------------------------------------------------------------- the collector

  /** What the loop has gathered. */
  datatype Gathered = Gathered(
    content: string, thinking: Option<string>, json: map<nat, string>, meta: map<nat, Meta>,
    usage: Usage, finish: FinishReason)

  ghost predicate GathersCalls(json: map<nat, string>, meta: map<nat, Meta>, es: seq<Event>) {
    && (forall i: nat :: (if i in json then json[i] else "") == JsonOf(es, i))
    && (forall i: nat :: (if i in meta then Some(meta[i]) else None) == StartOf(es, i))
    && (forall i | i in meta :: i in json)
  }

  ghost predicate Gathers(g: Gathered, es: seq<Event>) {
    && g.content == TextOf(es) && g.thinking == ThinkingOf(es)
    && g.usage == UsageSum(es) && g.finish == FinishOf(es)
    && GathersCalls(g.json, g.meta, es)
  }

  function Entry(json: map<nat, string>, i: nat): string {
    if i in json then json[i] else ""
  }

  /** What one more event adds to each channel. */
  lemma OneMoreOfEach(es: seq<Event>, e: Event)
    ensures TextOf(es + [e]) == if e.TextDelta? then TextOf(es) + e.text else TextOf(es)
    ensures ThinkingOf(es + [e]) == if e.ThinkingDelta? then Onto(ThinkingOf(es), e.thinking) else ThinkingOf(es)
    ensures UsageSum(es + [e]) == if e.UsageOf? then UsageSum(es).Add(e.usage) else UsageSum(es)
    ensures LastDone(es + [e]) == if e.Done? then Some(e.reason) else LastDone(es)
  {
    assert (es + [e])[..|es|] == es;
  }

  lemma OneMoreOfCall(es: seq<Event>, e: Event, i: nat)
    ensures JsonOf(es + [e], i) == if e.InputJsonDelta? && e.index == i then JsonOf(es, i) + e.json else JsonOf(es, i)
    ensures StartOf(es + [e], i) == if e.ToolUseStart? && e.index == i then Some(Meta(e.id, e.name)) else StartOf(es, i)
  {
    assert (es + [e])[..|es|] == es;
  }

  /** What an event leaves of the two maps. */
  function MoreJson(json: map<nat, string>, e: Event): map<nat, string> {
    match e
    case ToolUseStart(index, _, _) => json[index := Entry(json, index)]
    case InputJsonDelta(index, pj) => json[index := Entry(json, index) + pj]
    case _ => json
  }

  function MoreMeta(meta: map<nat, Meta>, e: Event): map<nat, Meta> {
    match e
    case ToolUseStart(index, id, name) => meta[index := Meta(id, name)]
    case _ => meta
  }

  lemma MoreCalls(json: map<nat, string>, meta: map<nat, Meta>, es: seq<Event>, e: Event)
    requires GathersCalls(json, meta, es)
    ensures GathersCalls(MoreJson(json, e), MoreMeta(meta, e), es + [e])
  {
    var json', meta' := MoreJson(json, e), MoreMeta(meta, e);
    forall i: nat
      ensures (if i in json' then json'[i] else "") == JsonOf(es + [e], i)
      ensures (if i in meta' then Some(meta'[i]) else None) == StartOf(es + [e], i)
    {
      assert (if i in json then json[i] else "") == JsonOf(es, i);
      OneMoreOfCall(es, e, i);
    }
  }

  /** One turn of the loop: an event that is no failure, gathered. */
  method Gather(g: Gathered, event: Event, ghost seen: seq<Event>) returns (r: Gathered)
    requires Gathers(g, seen) && !event.Failure?
    ensures Gathers(r, seen + [event])
  {
    OneMoreOfEach(seen, event);
    MoreCalls(g.json, g.meta, seen, event);
    match event
    case TextDelta(text) => r := g.(content := g.content + text);
    case ThinkingDelta(t) => r := g.(thinking := Onto(g.thinking, t));
    case ToolUseStart(index, id, name) =>
      r := g.(meta := g.meta[index := Meta(id, name)], json := g.json[index := Entry(g.json, index)]);
    case InputJsonDelta(index, pj) => r := g.(json := g.json[index := Entry(g.json, index) + pj]);
    case UsageOf(u) => r := g.(usage := g.usage.Add(u));
    case Done(reason) => r := g.(finish := reason);
  }

  lemma {:induction false} PrefixFails(items: seq<Item>, n: nat)
    requires n <= |items|
    ensures FirstFailure(items[..n]).Some? ==> FirstFailure(items) == FirstFailure(items[..n])
    ensures (FirstFailure(items[..n]).None? && n < |items| && FailureOf(items[n]).Some?)
            ==> FirstFailure(items) == FailureOf(items[n])
  {
    if n == 0 {
      assert items[..0] == [];
    } else {
      assert items[..n][1..] == items[1..][..n - 1];
      PrefixFails(items[1..], n - 1);
    }
  }

  lemma {:induction false} OneMoreEvent(items: seq<Item>, item: Item)
    requires FirstFailure(items).None? && FailureOf(item).None?
    ensures FirstFailure(items + [item]).None? && EventsIn(items + [item]) == EventsIn(items) + [item.event]
  {
    if items != [] {
      assert (items + [item])[1..] == items[1..] + [item];
      OneMoreEvent(items[1..], item);
    } else {
      assert [item][1..] == [];
      assert items + [item] == [item];
    }
  }

  predicate Fails(item: Item) {
    item.Stalled? || item.Broken? || item.event.Failure?
  }

  /** The item at `k` is the first that fails, and this is what it says. */
  ghost predicate FailsFirst(items: seq<Item>, k: nat, message: string) {
    && k < |items| && Fails(items[k]) && (forall j | 0 <= j < k :: !Fails(items[j]))
    && (items[k].Got? ==> message == items[k].event.message)
    && (items[k].Broken? ==> message == items[k].error)
    && (items[k].Stalled? ==> message == "SSE stream idle timeout (90s)")
  }

  ghost predicate FailsWith(items: seq<Item>, message: string) {
    exists k: nat :: FailsFirst(items, k, message)
  }

  /** A stream fails as its first failing item says, and does not where none fails. */
  lemma {:induction false} FirstFailureSays(items: seq<Item>)
    ensures match FirstFailure(items)
            case Some(message) => FailsWith(items, message)
            case None => forall k | 0 <= k < |items| :: !Fails(items[k])
    decreases |items|
  {
    if items != [] {
      if Fails(items[0]) {
        var message := FailureOf(items[0]).value;
        assert FirstFailure(items) == Some(message) && FailsFirst(items, 0, message);
      } else {
        var rest := items[1..];
        FirstFailureSays(rest);
        if FirstFailure(rest).Some? {
          var message := FirstFailure(rest).value;
          var k: nat :| FailsFirst(rest, k, message);
          FailsLater(items, k, message);
        }
      }
    }
  }

  lemma FailsLater(items: seq<Item>, k: nat, message: string)
    requires items != [] && !Fails(items[0]) && FailsFirst(items[1..], k, message)
    ensures FailsFirst(items, k + 1, message)
  {
    var rest := items[1..];
    forall j | 0 < j < k + 1 ensures !Fails(items[j]) {
      assert rest[j - 1] == items[j];
    }
  }

  /** The loop: the response its events mean, or the first failure. */
  method CollectStream(codec: Codec, items: seq<Item>, model: string) returns (r: Result<Response, string>)
    ensures r.Err? ==> FailsWith(items, r.error)
    ensures r.Ok? ==> forall k | 0 <= k < |items| :: !Fails(items[k])
    ensures r == match FirstFailure(items)
                 case Some(message) => Err(message)
                 case None => Ok(Assemble(codec, EventsIn(items), model))
  {
    FirstFailureSays(items);
    var g := Gathered("", None, map[], map[], NO_USAGE, Stop);
    for k := 0 to |items|
      invariant FirstFailure(items[..k]).None? && Gathers(g, EventsIn(items[..k]))
    {
      assert items[..k + 1] == items[..k] + [items[k]];
      PrefixFails(items, k);
      match items[k]
      case Stalled => return Err("SSE stream idle timeout (90s)");
      case Broken(error) => return Err(error);
      case Got(Failure(message)) => return Err(message);
      case Got(event) =>
        g := Gather(g, event, EventsIn(items[..k]));
        OneMoreEvent(items[..k], items[k]);
    }
    assert items[..|items|] == items;
    GatheredIsReady(codec, g.json, g.meta, EventsIn(items));
    var calls := TakeCalls(codec, g.json, g.meta, EventsIn(items));
    return Ok(Response(g.content, calls, model, g.usage, g.finish, g.thinking, None));
  }

  function Kept(indices: seq<nat>, of: set<nat>): (r: seq<nat>)
    ensures forall i :: i in r <==> i in indices && i in of
  {
    if indices == [] then []
    else
      var i := indices[|indices| - 1];
      Kept(indices[..|indices| - 1], of) + if i in of then [i] else []
  }

  lemma {:induction false} KeptAscends(indices: seq<nat>, of: set<nat>)
    requires Ascends(indices)
    ensures Ascends(Kept(indices, of))
    decreases |indices|
  {
    if indices != [] {
      var n := |indices| - 1;
      KeptAscends(indices[..n], of);
      var kept := Kept(indices[..n], of);
      forall j | 0 <= j < |kept| ensures kept[j] < indices[n] {
        assert kept[j] in indices[..n];
      }
    }
  }

  /** The maps still hold what the loop has not come to. */
  ghost predicate Left<V>(now: map<nat, V>, was: map<nat, V>, indices: seq<nat>, k: nat) {
    forall j | k <= j < |indices| ::
      (indices[j] in now <==> indices[j] in was) && (indices[j] in was ==> now[indices[j]] == was[indices[j]])
  }

  lemma LeftOf<V>(now: map<nat, V>, was: map<nat, V>, indices: seq<nat>, k: nat)
    requires Ascends(indices) && k < |indices| && Left(now, was, indices, k)
    ensures Left(now, was, indices, k + 1) && Left(now - {indices[k]}, was, indices, k + 1)
  {
    var less := now - {indices[k]};
    forall j | k + 1 <= j < |indices|
      ensures (indices[j] in less <==> indices[j] in was) && (indices[j] in was ==> less[indices[j]] == was[indices[j]])
    {
      assert indices[k] < indices[j];
    }
  }

  lemma OneMoreCall(codec: Codec, es: seq<Event>, indices: seq<nat>, k: nat)
    requires k < |indices|
    ensures var kept := Kept(indices[..k], Started(es));
            CallsOf(codec, es, Kept(indices[..k + 1], Started(es)))
              == CallsOf(codec, es, kept) + if indices[k] in Started(es) then [CallOf(codec, es, indices[k])] else []
  {
    assert indices[..k + 1][..k] == indices[..k];
  }

  /** Every call that was started can be made from the maps. */
  ghost predicate Ready(codec: Codec, json: map<nat, string>, meta: map<nat, Meta>, es: seq<Event>) {
    && meta.Keys == Started(es) && meta.Keys <= json.Keys
    && forall i | i in Started(es) ::
         ToolCall(meta[i].id, meta[i].name, ReadToolArguments(codec, json[i])) == CallOf(codec, es, i)
  }

  lemma GatheredIsReady(codec: Codec, json: map<nat, string>, meta: map<nat, Meta>, es: seq<Event>)
    requires GathersCalls(json, meta, es)
    ensures Ready(codec, json, meta, es)
  {
    assert forall i: nat :: i in meta <==> i in Started(es);
  }

  lemma AllCalls(codec: Codec, es: seq<Event>, indices: seq<nat>, mentioned: set<nat>)
    requires Started(es) <= mentioned && indices == Ascending(mentioned)
    ensures Kept(indices[..|indices|], Started(es)) == Ascending(Started(es))
  {
    assert indices[..|indices|] == indices;
    KeptAscends(indices, Started(es));
    OneAscendingOrder(Kept(indices, Started(es)), Ascending(Started(es)));
  }

  /** The tail: the indices in ascending order, those that were started made into calls. */
  method TakeCalls(codec: Codec, json: map<nat, string>, meta: map<nat, Meta>, ghost es: seq<Event>)
    returns (calls: seq<ToolCall>)
    requires Ready(codec, json, meta, es)
    ensures calls == CallsOf(codec, es, Ascending(Started(es)))
  {
    calls := [];
    var toolMeta, partialJson := meta, json;
    var indices := Ascending(json.Keys);
    for k := 0 to |indices|
      invariant Left(toolMeta, meta, indices, k) && Left(partialJson, json, indices, k)
      invariant calls == CallsOf(codec, es, Kept(indices[..k], Started(es)))
    {
      var index := indices[k];
      assert index in indices;
      OneMoreCall(codec, es, indices, k);
      LeftOf(toolMeta, meta, indices, k);
      LeftOf(partialJson, json, indices, k);
      if index in toolMeta {
        calls := calls + [ToolCall(toolMeta[index].id, toolMeta[index].name,
                                   ReadToolArguments(codec, partialJson[index]))];
        toolMeta, partialJson := toolMeta - {index}, partialJson - {index};
      }
    }
    AllCalls(codec, es, indices, json.Keys);
  }

  // ---------------------------------------------------------------- the printer

  function CallEvents(codec: Codec, calls: seq<ToolCall>): seq<Event> {
    if calls == [] then []
    else
      var i := |calls| - 1;
      CallEvents(codec, calls[..i])
      + [ToolUseStart(i, calls[i].id, calls[i].name), InputJsonDelta(i, codec.write(calls[i].arguments))]
  }

  /** A response as events: its thinking, its text, its calls in turn, its usage, and why it finished. */
  function Events(codec: Codec, r: Response): seq<Event> {
    (if r.thinking.Some? then [ThinkingDelta(r.thinking.value)] else [])
    + (if r.content != "" then [TextDelta(r.content)] else [])
    + CallEvents(codec, r.calls) + [UsageOf(r.usage), Done(r.finish)]
  }

  method ResponseToEvents(codec: Codec, response: Response) returns (events: seq<Event>)
    ensures events == Events(codec, response)
  {
    events := [];
    if response.thinking.Some? {
      events := events + [ThinkingDelta(response.thinking.value)];
    }
    if response.content != "" {
      events := events + [TextDelta(response.content)];
    }
    ghost var before := events;
    for i := 0 to |response.calls|
      invariant events == before + CallEvents(codec, response.calls[..i])
    {
      var tc := response.calls[i];
      assert response.calls[..i + 1][..i] == response.calls[..i];
      events := events + [ToolUseStart(i, tc.id, tc.name)];
      events := events + [InputJsonDelta(i, codec.write(tc.arguments))];
    }
    assert response.calls[..|response.calls|] == response.calls;
    events := events + [UsageOf(response.usage)];
    events := events + [Done(response.finish)];
  }
}
