/** What an assembled response depends on, and what printing and collecting one gives back. */
module LlmStreamMeaning {
  import opened Wrappers
  import opened Ordered
  import opened ToolArguments
  import opened LlmStream

  // ---------------------------------------------------------------- channels

  datatype Channel = Text | Thinking | Starts(i: nat) | Json(i: nat) | Usages | Finish | Failures

  function ChannelOf(e: Event): Channel {
    match e
    case TextDelta(_) => Text
    case ThinkingDelta(_) => Thinking
    case ToolUseStart(i, _, _) => Starts(i)
    case InputJsonDelta(i, _) => Json(i)
    case UsageOf(_) => Usages
    case Done(_) => Finish
    case Failure(_) => Failures
  }

  /** What is sent on one channel, in order. */
  function On(es: seq<Event>, c: Channel): seq<Event> {
    if es == [] then []
    else
      var e := es[|es| - 1];
      On(es[..|es| - 1], c) + if ChannelOf(e) == c then [e] else []
  }

  ghost predicate Heard(es: seq<Event>) {
    && TextOf(es) == TextOf(On(es, Text)) && ThinkingOf(es) == ThinkingOf(On(es, Thinking))
    && UsageSum(es) == UsageSum(On(es, Usages)) && LastDone(es) == LastDone(On(es, Finish))
  }

  lemma HeardNext(es: seq<Event>, e: Event)
    requires Heard(es)
    ensures Heard(es + [e])
  {
    var c := ChannelOf(e);
    OneMoreHeard(es, e);
    OneMoreOfEach(es, e);
    if c == Text || c == Thinking || c == Usages || c == Finish {
      OneMoreOfEach(On(es, c), e);
    }
  }

  /** Nothing is lost by listening to one channel at a time. */
  lemma {:induction false} HeardOnChannels(es: seq<Event>)
    ensures Heard(es)
    decreases |es|
  {
    if es != [] {
      var n := |es| - 1;
      HeardOnChannels(es[..n]);
      HeardNext(es[..n], es[n]);
      assert es == es[..n] + [es[n]];
    }
  }

  lemma OneMoreHeard(es: seq<Event>, e: Event)
    ensures forall c :: On(es + [e], c) == if ChannelOf(e) == c then On(es, c) + [e] else On(es, c)
  {
    assert (es + [e])[..|es|] == es;
  }

  lemma {:induction false} JsonHeardOnChannel(es: seq<Event>, i: nat)
    ensures JsonOf(es, i) == JsonOf(On(es, Json(i)), i)
    decreases |es|
  {
    if es != [] {
      var init, e := es[..|es| - 1], es[|es| - 1];
      JsonHeardOnChannel(init, i);
      OneMoreHeard(init, e);
      assert es == init + [e];
      OneMoreOfCall(init, e, i);
      OneMoreOfCall(On(init, Json(i)), e, i);
    }
  }

  lemma StartHeardNext(es: seq<Event>, e: Event, i: nat)
    requires StartOf(es, i) == StartOf(On(es, Starts(i)), i)
    ensures StartOf(es + [e], i) == StartOf(On(es + [e], Starts(i)), i)
  {
    var heard := On(es, Starts(i));
    OneMoreHeard(es, e);
    OneMoreOfCall(es, e, i);
    if ChannelOf(e) == Starts(i) {
      OneMoreOfCall(heard, e, i);
    }
  }

  lemma {:induction false} StartHeardOnChannel(es: seq<Event>, i: nat)
    ensures StartOf(es, i) == StartOf(On(es, Starts(i)), i)
    decreases |es|
  {
    if es != [] {
      var n := |es| - 1;
      StartHeardOnChannel(es[..n], i);
      StartHeardNext(es[..n], es[n], i);
      assert es == es[..n] + [es[n]];
    }
  }

  /** Every projection the two streams have alike. */
  ghost predicate Alike(a: seq<Event>, b: seq<Event>) {
    && TextOf(a) == TextOf(b) && ThinkingOf(a) == ThinkingOf(b)
    && UsageSum(a) == UsageSum(b) && LastDone(a) == LastDone(b)
    && forall i: nat :: JsonOf(a, i) == JsonOf(b, i) && StartOf(a, i) == StartOf(b, i)
  }

  lemma AlikeMeansTheSame(codec: Codec, a: seq<Event>, b: seq<Event>, model: string)
    requires Alike(a, b)
    ensures Assemble(codec, a, model) == Assemble(codec, b, model)
  {
    assert forall i: nat :: StartOf(a, i) == StartOf(b, i);
    assert Started(a) == Started(b);
  }

  /** However the channels are interleaved, the response is the same. */
  lemma InterleavingChangesNothing(codec: Codec, a: seq<Event>, b: seq<Event>, model: string)
    requires forall c :: On(a, c) == On(b, c)
    ensures Assemble(codec, a, model) == Assemble(codec, b, model)
  {
    HeardOnChannels(a);
    HeardOnChannels(b);
    forall i: nat ensures JsonOf(a, i) == JsonOf(b, i) && StartOf(a, i) == StartOf(b, i) {
      JsonHeardOnChannel(a, i);
      JsonHeardOnChannel(b, i);
      StartHeardOnChannel(a, i);
      StartHeardOnChannel(b, i);
    }
    AlikeMeansTheSame(codec, a, b, model);
  }

  // ---------------------------------------------------------------- chunks

  function Joined(a: Option<string>, b: Option<string>): Option<string> {
    if b.Some? then Onto(a, b.value) else a
  }

  function Later<T>(a: Option<T>, b: Option<T>): Option<T> {
    if b.Some? then b else a
  }

  /** A stream after another adds to each channel what it has on it. */
  lemma {:induction false} OneAfterAnother(a: seq<Event>, b: seq<Event>)
    ensures TextOf(a + b) == TextOf(a) + TextOf(b)
    ensures ThinkingOf(a + b) == Joined(ThinkingOf(a), ThinkingOf(b))
    ensures LastDone(a + b) == Later(LastDone(a), LastDone(b))
    decreases |b|
  {
    if b == [] {
      assert a + b == a;
    } else {
      var init, e := b[..|b| - 1], b[|b| - 1];
      var ab := a + init;
      OneAfterAnother(a, init);
      assert a + b == ab + [e] && b == init + [e];
      OneMoreOfEach(ab, e);
      OneMoreOfEach(init, e);
      if e.TextDelta? { Assoc(TextOf(a), TextOf(init), e.text); }
      if e.ThinkingDelta? { JoinedOnto(ThinkingOf(a), ThinkingOf(init), e.thinking); }
    }
  }

  lemma Assoc(a: string, b: string, c: string)
    ensures a + (b + c) == a + b + c
  {
  }

  lemma JoinedOnto(a: Option<string>, b: Option<string>, c: string)
    ensures Joined(a, Onto(b, c)) == Onto(Joined(a, b), c)
  {
    var x, y := if a.Some? then a.value else "", if b.Some? then b.value else "";
    Assoc(x, y, c);
    assert "" + c == c;
  }

  lemma PlusLaws(a: U32, b: U32, c: U32)
    ensures Plus(Plus(a, b), c) == Plus(a, Plus(b, c)) && Plus(a, 0) == a && Plus(0, a) == a
  {
  }

  lemma PlusWraps(a: U32, b: U32)
    ensures Plus(a, b) as int == (a as int + b as int) % 0x1_0000_0000
  {
  }

  /** All that the usage events of a stream count, each counter summed without a bound. */
  datatype Tokens = Tokens(input: nat, output: nat, cacheCreation: nat, cacheRead: nat)

  function TokensIn(es: seq<Event>): Tokens {
    if es == [] then Tokens(0, 0, 0, 0)
    else
      var e, n := es[|es| - 1], TokensIn(es[..|es| - 1]);
      if !e.UsageOf? then n
      else Tokens(n.input + e.usage.input as nat, n.output + e.usage.output as nat,
                  n.cacheCreation + e.usage.cacheCreation as nat, n.cacheRead + e.usage.cacheRead as nat)
  }

  predicate CountsModulo(u: Usage, n: Tokens) {
    && u.input as int == n.input % 0x1_0000_0000 && u.output as int == n.output % 0x1_0000_0000
    && u.cacheCreation as int == n.cacheCreation % 0x1_0000_0000 && u.cacheRead as int == n.cacheRead % 0x1_0000_0000
  }

  lemma CounterStep(sum: U32, n: nat, more: U32)
    requires sum as int == n % 0x1_0000_0000
    ensures Plus(sum, more) as int == (n + more as nat) % 0x1_0000_0000
  {
    PlusWraps(sum, more);
  }

  /** A response's usage is, counter by counter, the sum of what its stream reports, modulo 2^32. */
  lemma {:induction false} UsageIsTheSum(es: seq<Event>)
    ensures CountsModulo(UsageSum(es), TokensIn(es))
    decreases |es|
  {
    if es != [] {
      var init, e := es[..|es| - 1], es[|es| - 1];
      UsageIsTheSum(init);
      if e.UsageOf? {
        var u, n := UsageSum(init), TokensIn(init);
        CounterStep(u.input, n.input, e.usage.input);
        CounterStep(u.output, n.output, e.usage.output);
        CounterStep(u.cacheCreation, n.cacheCreation, e.usage.cacheCreation);
        CounterStep(u.cacheRead, n.cacheRead, e.usage.cacheRead);
      }
    }
  }

  lemma AddLaws(a: Usage, b: Usage, c: Usage)
    ensures a.Add(b).Add(c) == a.Add(b.Add(c)) && a.Add(NO_USAGE) == a && NO_USAGE.Add(a) == a
  {
    PlusLaws(a.input, b.input, c.input);
    PlusLaws(a.output, b.output, c.output);
    PlusLaws(a.cacheCreation, b.cacheCreation, c.cacheCreation);
    PlusLaws(a.cacheRead, b.cacheRead, c.cacheRead);
  }

  lemma {:induction false} UsageOneAfterAnother(a: seq<Event>, b: seq<Event>)
    ensures UsageSum(a + b) == UsageSum(a).Add(UsageSum(b))
    decreases |b|
  {
    if b == [] {
      assert a + b == a;
      AddLaws(UsageSum(a), NO_USAGE, NO_USAGE);
    } else {
      var init, e := b[..|b| - 1], b[|b| - 1];
      UsageOneAfterAnother(a, init);
      assert a + b == a + init + [e] && b == init + [e];
      OneMoreOfEach(a + init, e);
      OneMoreOfEach(init, e);
      if e.UsageOf? { AddLaws(UsageSum(a), UsageSum(init), e.usage); }
    }
  }

  lemma {:induction false} JsonOneAfterAnother(a: seq<Event>, b: seq<Event>, i: nat)
    ensures JsonOf(a + b, i) == JsonOf(a, i) + JsonOf(b, i)
    decreases |b|
  {
    if b == [] {
      assert a + b == a;
    } else {
      var init, e := b[..|b| - 1], b[|b| - 1];
      JsonOneAfterAnother(a, init, i);
      Snoc(a, b);
      OneMoreOfCall(a + init, e, i);
      OneMoreOfCall(init, e, i);
      if e.InputJsonDelta? { Assoc(JsonOf(a, i), JsonOf(init, i), e.json); }
    }
  }

  lemma {:induction false} StartOneAfterAnother(a: seq<Event>, b: seq<Event>, i: nat)
    ensures StartOf(a + b, i) == Later(StartOf(a, i), StartOf(b, i))
    decreases |b|
  {
    if b == [] {
      assert a + b == a;
    } else {
      var init, e := b[..|b| - 1], b[|b| - 1];
      StartOneAfterAnother(a, init, i);
      Snoc(a, b);
      OneMoreOfCall(a + init, e, i);
      OneMoreOfCall(init, e, i);
    }
  }

  lemma Snoc(a: seq<Event>, b: seq<Event>)
    requires b != []
    ensures b == b[..|b| - 1] + [b[|b| - 1]] && a + b == a + b[..|b| - 1] + [b[|b| - 1]]
  {
  }

  lemma CallsOneAfterAnother(a: seq<Event>, b: seq<Event>, i: nat)
    ensures JsonOf(a + b, i) == JsonOf(a, i) + JsonOf(b, i)
    ensures StartOf(a + b, i) == Later(StartOf(a, i), StartOf(b, i))
  {
    JsonOneAfterAnother(a, b, i);
    StartOneAfterAnother(a, b, i);
  }

  lemma AlikeInContext(p: seq<Event>, a: seq<Event>, b: seq<Event>, q: seq<Event>)
    requires Alike(a, b)
    ensures Alike(p + a + q, p + b + q)
  {
    OneAfterAnother(p, a);
    OneAfterAnother(p, b);
    OneAfterAnother(p + a, q);
    OneAfterAnother(p + b, q);
    UsageOneAfterAnother(p, a);
    UsageOneAfterAnother(p, b);
    UsageOneAfterAnother(p + a, q);
    UsageOneAfterAnother(p + b, q);
    forall i: nat
      ensures JsonOf(p + a + q, i) == JsonOf(p + b + q, i) && StartOf(p + a + q, i) == StartOf(p + b + q, i)
    {
      CallsOneAfterAnother(p, a, i);
      CallsOneAfterAnother(p, b, i);
      CallsOneAfterAnother(p + a, q, i);
      CallsOneAfterAnother(p + b, q, i);
    }
  }

  /** Two deltas of one channel in one: what two texts, thoughts or pieces of JSON, or two usages, come to. */
  function Merged(x: Event, y: Event): Option<Event> {
    match (x, y)
    case (TextDelta(s), TextDelta(t)) => Some(TextDelta(s + t))
    case (ThinkingDelta(s), ThinkingDelta(t)) => Some(ThinkingDelta(s + t))
    case (InputJsonDelta(i, s), InputJsonDelta(j, t)) => if i == j then Some(InputJsonDelta(i, s + t)) else None
    case (UsageOf(u), UsageOf(v)) => Some(UsageOf(u.Add(v)))
    case _ => None
  }

  lemma Single(e: Event)
    ensures TextOf([e]) == if e.TextDelta? then e.text else ""
    ensures ThinkingOf([e]) == if e.ThinkingDelta? then Some(e.thinking) else None
    ensures UsageSum([e]) == if e.UsageOf? then e.usage else NO_USAGE
    ensures LastDone([e]) == if e.Done? then Some(e.reason) else None
  {
    assert [e] == [] + [e];
    OneMoreOfEach([], e);
    assert e.TextDelta? ==> "" + e.text == e.text;
    assert e.ThinkingDelta? ==> "" + e.thinking == e.thinking;
    if e.UsageOf? { AddLaws(e.usage, NO_USAGE, NO_USAGE); }
  }

  lemma SingleCall(e: Event, i: nat)
    ensures JsonOf([e], i) == if e.InputJsonDelta? && e.index == i then e.json else ""
    ensures StartOf([e], i) == if e.ToolUseStart? && e.index == i then Some(Meta(e.id, e.name)) else None
  {
    assert [e] == [] + [e];
    OneMoreOfCall([], e, i);
  }

  lemma MergedAlike(x: Event, y: Event)
    requires Merged(x, y).Some?
    ensures Alike([x, y], [Merged(x, y).value])
  {
    var z := Merged(x, y).value;
    assert [x, y] == [x] + [y];
    Single(x);
    Single(z);
    OneMoreOfEach([x], y);
    forall i: nat ensures JsonOf([x, y], i) == JsonOf([z], i) && StartOf([x, y], i) == StartOf([z], i) {
      SingleCall(x, i);
      SingleCall(z, i);
      OneMoreOfCall([x], y, i);
    }
  }

  /** However the deltas are cut, the response is the same. */
  lemma RechunkingChangesNothing(codec: Codec, p: seq<Event>, x: Event, y: Event, q: seq<Event>, model: string)
    requires Merged(x, y).Some?
    ensures Assemble(codec, p + [x, y] + q, model) == Assemble(codec, p + [Merged(x, y).value] + q, model)
  {
    MergedAlike(x, y);
    AlikeInContext(p, [x, y], [Merged(x, y).value], q);
    AlikeMeansTheSame(codec, p + [x, y] + q, p + [Merged(x, y).value] + q, model);
  }

  // ---------------------------------------------------------------- there and back

  lemma {:induction false} CallChannels(codec: Codec, calls: seq<ToolCall>)
    ensures var es := CallEvents(codec, calls);
            TextOf(es) == "" && ThinkingOf(es) == None && UsageSum(es) == NO_USAGE && LastDone(es) == None
    decreases |calls|
  {
    if calls != [] {
      var i := |calls| - 1;
      var es := CallEvents(codec, calls[..i]);
      var x, y := ToolUseStart(i, calls[i].id, calls[i].name), InputJsonDelta(i, codec.write(calls[i].arguments));
      CallChannels(codec, calls[..i]);
      assert es + [x, y] == es + [x] + [y];
      OneMoreOfEach(es, x);
      OneMoreOfEach(es + [x], y);
    }
  }

  lemma CallAdds(es: seq<Event>, i: nat, id: string, name: string, json: string, k: nat)
    ensures var more := es + [ToolUseStart(i, id, name), InputJsonDelta(i, json)];
            && StartOf(more, k) == (if i == k then Some(Meta(id, name)) else StartOf(es, k))
            && JsonOf(more, k) == if i == k then JsonOf(es, k) + json else JsonOf(es, k)
  {
    var x, y := ToolUseStart(i, id, name), InputJsonDelta(i, json);
    EndsInTurn(es, x, y);
    OneMoreOfCall(es, x, k);
    OneMoreOfCall(es + [x], y, k);
  }

  lemma {:induction false} CallsOnTheirOwn(codec: Codec, calls: seq<ToolCall>, k: nat)
    ensures var es := CallEvents(codec, calls);
            if k < |calls| then StartOf(es, k) == Some(Meta(calls[k].id, calls[k].name))
                                && JsonOf(es, k) == codec.write(calls[k].arguments)
            else StartOf(es, k) == None && JsonOf(es, k) == ""
    decreases |calls|
  {
    if calls != [] {
      var i := |calls| - 1;
      CallsOnTheirOwn(codec, calls[..i], k);
      CallAdds(CallEvents(codec, calls[..i]), i, calls[i].id, calls[i].name, codec.write(calls[i].arguments), k);
    }
  }

  function Spoken(r: Response): seq<Event> {
    (if r.thinking.Some? then [ThinkingDelta(r.thinking.value)] else [])
    + (if r.content != "" then [TextDelta(r.content)] else [])
  }

  lemma SpokenSays(r: Response)
    ensures var es := Spoken(r);
            && TextOf(es) == r.content && ThinkingOf(es) == r.thinking && UsageSum(es) == NO_USAGE && LastDone(es) == None
  {
    var a := if r.thinking.Some? then [ThinkingDelta(r.thinking.value)] else [];
    if r.thinking.Some? { Single(ThinkingDelta(r.thinking.value)); }
    if r.content != "" {
      OneMoreOfEach(a, TextDelta(r.content));
    } else {
      assert Spoken(r) == a;
    }
  }

  lemma SpokenAndCalledSays(codec: Codec, r: Response)
    ensures var es := Spoken(r) + CallEvents(codec, r.calls);
            && TextOf(es) == r.content && ThinkingOf(es) == r.thinking && UsageSum(es) == NO_USAGE && LastDone(es) == None
  {
    SpokenSays(r);
    CallChannels(codec, r.calls);
    OneAfterAnother(Spoken(r), CallEvents(codec, r.calls));
    UsageOneAfterAnother(Spoken(r), CallEvents(codec, r.calls));
    AddLaws(NO_USAGE, NO_USAGE, NO_USAGE);
    assert r.content + "" == r.content;
  }

  /** A response's events say the response, channel by channel. */
  lemma EventsSay(codec: Codec, r: Response)
    ensures var es := Events(codec, r);
            && TextOf(es) == r.content && ThinkingOf(es) == r.thinking
            && UsageSum(es) == r.usage && LastDone(es) == Some(r.finish)
  {
    var d := Spoken(r) + CallEvents(codec, r.calls);
    SpokenAndCalledSays(codec, r);
    AddLaws(r.usage, NO_USAGE, NO_USAGE);
    OneMoreOfEach(d, UsageOf(r.usage));
    OneMoreOfEach(d + [UsageOf(r.usage)], Done(r.finish));
    EndsInTurn(d, UsageOf(r.usage), Done(r.finish));
  }

  lemma EndsInTurn(d: seq<Event>, x: Event, y: Event)
    ensures d + [x, y] == d + [x] + [y]
  {
  }

  lemma EventsSayCalls(codec: Codec, r: Response, k: nat)
    ensures var es := Events(codec, r);
            if k < |r.calls| then StartOf(es, k) == Some(Meta(r.calls[k].id, r.calls[k].name))
                                  && JsonOf(es, k) == codec.write(r.calls[k].arguments)
            else StartOf(es, k) == None
  {
    var a := if r.thinking.Some? then [ThinkingDelta(r.thinking.value)] else [];
    var b := if r.content != "" then [TextDelta(r.content)] else [];
    var c := CallEvents(codec, r.calls);
    var d := [UsageOf(r.usage)];
    assert Events(codec, r) == a + b + c + d + [Done(r.finish)];
    CallsOneAfterAnother(a, b, k);
    CallsOneAfterAnother(a + b, c, k);
    CallsOnTheirOwn(codec, r.calls, k);
    OneMoreOfCall(a + b + c, UsageOf(r.usage), k);
    OneMoreOfCall(a + b + c + d, Done(r.finish), k);
  }

  /** The calls come back in their places, each with what its printed arguments are read as. */
  lemma CallsComeBack(codec: Codec, r: Response)
    ensures var calls := Assemble(codec, Events(codec, r), r.model).calls;
            |calls| == |r.calls|
            && forall k | 0 <= k < |calls| ::
                 calls[k] == r.calls[k].(arguments := ReadToolArguments(codec, codec.write(r.calls[k].arguments)))
  {
    var es := Events(codec, r);
    StartedInTurn(codec, r);
    forall k: nat | k < |r.calls|
      ensures CallOf(codec, es, k)
           == r.calls[k].(arguments := ReadToolArguments(codec, codec.write(r.calls[k].arguments)))
    {
      EventsSayCalls(codec, r, k);
    }
  }

  lemma StartedInTurn(codec: Codec, r: Response)
    ensures Ascending(Started(Events(codec, r))) == seq(|r.calls|, k => k)
    ensures forall k: nat | k < |r.calls| :: k in Started(Events(codec, r))
  {
    var started := Started(Events(codec, r));
    var inTurn := seq(|r.calls|, k => k);
    forall i: nat ensures i in started <==> i < |r.calls| { EventsSayCalls(codec, r, i); }
    forall i ensures i in inTurn <==> i in started {
      if 0 <= i < |r.calls| { assert inTurn[i] == i; }
    }
    OneAscendingOrder(Ascending(started), inTurn);
  }

  /** Collecting the events of a response gives it back, parts apart, exactly when its calls carry objects. */
  lemma ComesBack(codec: Codec, r: Response)
    requires Lawful(codec)
    ensures Assemble(codec, Events(codec, r), r.model) == r.(parts := None)
       <==> forall k | 0 <= k < |r.calls| :: r.calls[k].arguments.Object?
  {
    var back := Assemble(codec, Events(codec, r), r.model);
    EventsSay(codec, r);
    CallsComeBack(codec, r);
    forall k | 0 <= k < |r.calls| ensures back.calls[k] == r.calls[k] <==> r.calls[k].arguments.Object? {
      ReadsBack(codec, r.calls[k].arguments);
    }
  }

  /** What was collected once is collected again: the stand-in for unreadable arguments is an object too. */
  lemma CollectedComesBack(codec: Codec, es: seq<Event>, model: string)
    requires Lawful(codec)
    ensures var r := Assemble(codec, es, model); Assemble(codec, Events(codec, r), model) == r
  {
    var r := Assemble(codec, es, model);
    forall k | 0 <= k < |r.calls| ensures r.calls[k].arguments.Object? {
      AlwaysAnObject(codec, JsonOf(es, Ascending(Started(es))[k]));
    }
    ComesBack(codec, r);
  }
}
