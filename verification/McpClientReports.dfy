/**
 What a client can still be made to report, and how far its counter can be driven: statements about the runs that
 go on from a state.
 */
module McpClientReports {
  import opened Wrappers
  import opened McpClient
  import opened McpClientAttempts
  import opened McpClientContinuations
  import opened McpClientRespawns
  import opened McpClientRuns
  import opened McpClientSafety

  // ---------------------------------------------------------------- what a sealed client reports

  /** Left alone, a task that will write the state gets to do it. */
  lemma {:induction false} WriterWrites(s: State, t: nat, max: nat) returns (es: seq<Event>)
    requires s.tasks.Keys == {t} && WillWrite(s.tasks[t].pc)
    ensures Plays(s, es, max) && After(s, es, max).inner.conn != Disconnected
    decreases match s.tasks[t].pc case TakeOld(_) => 3 case CloseOld(_, _) => 2 case _ => 1, !s.tasks[t].granted
  {
    var k := s.tasks[t];
    var e := if Ready(k) then Go(t, Good) else Grant(t);
    var s' := Apply(s, e, max);
    var more: seq<Event> := [];
    if t in s'.tasks && WillWrite(s'.tasks[t].pc) {
      more := WriterWrites(s', t, max);
    } else {
      assert Plays(s', [], max) && After(s', [], max) == s';
    }
    PlaysOne(s, e, more, max);
    es := [e] + more;
  }

  lemma WriterCanBeHeard(s: State, t: nat, max: nat) returns (es: seq<Event>)
    requires t in s.tasks && WillWrite(s.tasks[t].pc)
    ensures Plays(s, es, max) && After(s, es, max).inner.conn != Disconnected
  {
    var a := DropTheOthers(s, t, max);
    var b := WriterWrites(After(s, a, max), t, max);
    PlaysOn(s, a, b, max);
    es := a + b;
  }

  lemma {:induction false} QuietIsHeardOf(s: State, es: seq<Event>, max: nat)
    requires max < U32 && Inv(s, max) && Quiet(s) && Plays(s, es, max)
    ensures After(s, es, max).inner.conn == Disconnected
    decreases |es|
  {
    if es != [] {
      InvStep(s, es[0], max);
      QuietStep(s, es[0], max);
      QuietIsHeardOf(Apply(s, es[0], max), es[1..], max);
    }
  }

  /**
   A client put down and reporting so can be made to report something else exactly when a reconnect is past its look
   at the state and has yet to write it: that write takes no service guard, so it lands over the disconnect's.
   */
  lemma ReportsOtherwiseExactlyWhen(tr: seq<State>, es: seq<Event>, max: nat, i: nat)
    requires max < U32 && IsRun(tr, es, max) && i < |tr|
    requires tr[i].inner.past.down && tr[i].inner.conn == Disconnected
    ensures (exists more :: Plays(tr[i], more, max) && After(tr[i], more, max).inner.conn != Disconnected)
       <==> (exists t :: t in tr[i].tasks && WillWrite(tr[i].tasks[t].pc))
  {
    var s := tr[i];
    EveryState(tr, es, max, i);
    if t :| t in s.tasks && WillWrite(s.tasks[t].pc) {
      var more := WriterCanBeHeard(s, t, max);
    } else {
      forall more | Plays(s, more, max) ensures After(s, more, max).inner.conn == Disconnected {
        QuietIsHeardOf(s, more, max);
      }
    }
  }

  // ---------------------------------------------------------------- runs that get there

  /** A connected client with a service. */
  predicate IsUp(c: Inner) {
    c.open && !c.closed && c.conn == Connected && c.service.Some?
  }

  function Connecting(pc: Pc): Task {
    Task(Connect, pc, false, 0, 0, 0)
  }

  lemma Handshaken(max: nat)
    ensures LeadsBy(Initial(), Lone(Initial().inner.(live := {0}, next := 1), 0, Connecting(Install(0))), 0, max)
  {
    var s0, c := Initial(), Initial().inner;
    LeadsByNothing(s0, 0, max);
    LoneGoes(s0, c, 0, Connecting(Dial), Good, max);
    LoneGoes(s0, c, 0, Connecting(CloneTx), Good, max);
    ServeInstalls(c, Connecting(Serve), max);
    LoneGoes(s0, c, 0, Connecting(Serve), Good, max);
  }

  lemma ConnectSucceeds(max: nat) returns (s: State)
    ensures Leads(Initial(), s, max) && s.tasks == map[] && IsUp(s.inner) && s.inner.past.asked == 0
  {
    var s0, c := Initial(), Initial().inner.(live := {0}, next := 1);
    Handshaken(max);
    s := ConnectPublishes(s0, c, max);
    LeadsByIsLeads(s0, s, 0, max);
  }

  lemma ConnectPublishes(s0: State, c: Inner, max: nat) returns (s: State)
    requires LeadsBy(s0, Lone(c, 0, Connecting(Install(0))), 0, max) && !c.closed
    ensures LeadsBy(s0, s, 0, max) && s.tasks == map[] && IsUp(s.inner) && s.inner.past.asked == c.past.asked
  {
    LoneGoes(s0, c, 0, Connecting(Install(0)), Good, max);
    LoneGoes(s0, PublishService(c, 0), 0, Connecting(Publish), Good, max);
    s := State(PublishService(c, 0).(conn := Connected, open := true), map[]);
  }

  lemma ServeInstalls(c: Inner, k: Task, max: nat)
    requires k.pc == Serve && c.live == {} && c.next == 0 && !k.granted
    ensures Run(c, k, Good, max) == To(c.(live := {0}, next := 1), k, Install(0))
  {
    assert {} + {0} == {0};
  }

  function Listing(pc: Pc, sent: nat, epoch: nat): Task {
    Task(ListTools, pc, false, sent, 0, epoch)
  }

  /** A list begins, and waits for its answer. */
  lemma ListBegins(s0: State, c: Inner, others: map<nat, Task>, t: nat, max: nat)
    requires Leads(s0, State(c, others), max) && IsUp(c) && t !in others && Waiting(others)
    ensures Leads(s0, Among(c, others, t, Listing(Request(c.service.value), 1, c.past.resets)), max)
  {
    var n := c.past.resets;
    LeadsByOneMore(s0, State(c, others), Spawn(t, ListTools), max);
    assert Apply(State(c, others), Spawn(t, ListTools), max) == Among(c, others, t, Listing(GetPeer, 0, n));
    BusyGoes(s0, c, others, t, Listing(GetPeer, 0, n), Good, max);
  }

  /** A list whose request fails asks for a reconnect, and is on its way to write the state. */
  lemma ListAsks(s0: State, c: Inner, others: map<nat, Task>, t: nat, k: Task, max: nat) returns (c': Inner, k': Task)
    requires Leads(s0, Among(c, others, t, k), max) && IsUp(c) && t !in others && Waiting(others)
    requires k.op == ListTools && k.pc.Request? && !k.granted
    ensures Leads(s0, Among(c', others, t, k'), max)
    ensures c' == c.(attempts := (c.attempts + 1) % U32, past := c'.past)
    ensures c'.past.asked == c.past.asked + 1 && c'.past.resets == c.past.resets
    ensures k' == k.(pc := k'.pc, mine := k'.mine)
    ensures k'.pc == if c'.attempts <= max then TakeOld(c'.attempts) else FailState
  {
    BusyGoes(s0, c, others, t, k, Retriable, max);
    var reading := k.(pc := ReadState, granted := false);
    BusyGoes(s0, c, others, t, reading, Good, max);
    var r := CountAttempt(c, reading.(granted := true), max);
    c', k' := r.inner, r.task.value;
  }

  /** A disconnect beside a list that waits to write the state, and holds nothing. */
  predicate Overtaking(s: State, k: Task, pc: Pc) {
    && s.tasks == map[1 := k, 2 := Task(Disconnect, pc, false, 0, 0, s.inner.past.resets)]
    && k.op == ListTools && !k.granted && (k.pc.TakeOld? || k.pc.FailState?)
  }

  lemma DisconnectGoesOn(s0: State, s: State, k: Task, pc: Pc, max: nat) returns (s': State)
    requires Leads(s0, s, max) && Overtaking(s, k, pc)
    requires pc.TakeService? || pc.TakeTx? || (pc.MarkDisconnected? && pc.taken.Some?)
    ensures Leads(s0, s', max)
    ensures var r := RunDisconnect(s.inner, s.tasks[2].(granted := true));
            r.task.Some? && s'.inner == r.inner && s'.tasks == map[1 := k, 2 := r.task.value]
  {
    assert forall u | u in s.tasks && u != 2 :: u == 1;
    GrantAndGo(s0, s, 2, Good, max);
    s' := Onward(s, 2, Good, max);
  }

  /** A disconnect that takes the service, the channel and the state while a list waits to write it. */
  lemma DisconnectOvertakes(s0: State, c: Inner, k: Task, max: nat) returns (s: State)
    requires Leads(s0, Lone(c, 1, k), max) && c.open && c.service.Some?
    requires k.op == ListTools && !k.granted && (k.pc.TakeOld? || k.pc.FailState?)
    ensures Leads(s0, s, max) && s.inner.past.down && s.inner.conn == Disconnected
    ensures 1 in s.tasks && s.tasks[1] == k
  {
    LeadsByOneMore(s0, Lone(c, 1, k), Spawn(2, Disconnect), max);
    s := Apply(Lone(c, 1, k), Spawn(2, Disconnect), max);
    s := DisconnectGoesOn(s0, s, k, TakeService, max);
    s := DisconnectGoesOn(s0, s, k, TakeTx(c.service), max);
    s := DisconnectGoesOn(s0, s, k, MarkDisconnected(c.service), max);
  }

  /** There is such a client: a run in which a disconnect has written its state, and the client reports otherwise after. */
  lemma SealedClientReportsOtherwise(max: nat) returns (tr: seq<State>, es: seq<Event>, i: nat)
    requires max < U32
    ensures IsRun(tr, es, max) && i < |es|
    ensures tr[i].inner.past.down && tr[i].inner.conn == Disconnected
    ensures tr[|es|].inner.past.down && tr[|es|].inner.conn != Disconnected
  {
    var up := ConnectSucceeds(max);
    ListBegins(Initial(), up.inner, map[], 1, max);
    var c, k := ListAsks(Initial(), up.inner, map[], 1, Listing(Request(up.inner.service.value), 1, up.inner.past.resets), max);
    var down := DisconnectOvertakes(Initial(), c, k, max);
    var tr0, es0 := Reached(down, max);
    var more := WriterCanBeHeard(down, 1, max);
    tr := RunGoesOn(tr0, es0, more, max);
    es, i := es0 + more, |es0|;
    SealKeptLater(tr, es, max, i, |es|);
  }

  // ---------------------------------------------------------------- what a disconnect leaves

  /** What a disconnect that has not ended still has to write: nothing any more once it closes what it took. */
  predicate DownOnceClosing(c: Inner, k: Task) {
    k.pc.Close? ==> c.past.down
  }

  ghost predicate AllDownOnceClosing(s: State) {
    forall t | t in s.tasks :: DownOnceClosing(s.inner, s.tasks[t])
  }

  predicate KeepsDown(c: Inner, r: Stretch) {
    (r.task.Some? ==> DownOnceClosing(r.inner, r.task.value)) && (c.past.down ==> r.inner.past.down)
  }

  lemma DownStretch(c: Inner, k: Task, reply: Reply, max: nat)
    requires DownOnceClosing(c, k)
    ensures KeepsDown(c, Run(c, k, reply, max))
  {
    if Reconnects(k.pc) {
      assert KeepsDown(c, RunReconnect(c, k, max));
    } else if Handshakes(k.pc) {
      assert KeepsDown(c, RunHandshake(c, k, reply));
    } else if Disconnecting(k.pc) {
      assert KeepsDown(c, RunDisconnect(c, k));
    } else {
      assert KeepsDown(c, RunCall(c, k, reply));
    }
  }

  lemma DownStep(s: State, e: Event, max: nat)
    requires Enabled(s, e) && AllDownOnceClosing(s)
    ensures AllDownOnceClosing(Apply(s, e, max))
  {
    if e.Go? {
      DownStretch(s.inner, s.tasks[e.t], e.reply, max);
    }
  }

  lemma {:induction false} EveryStateDownOnceClosing(tr: seq<State>, es: seq<Event>, max: nat, i: nat)
    requires IsRun(tr, es, max) && i < |tr|
    ensures AllDownOnceClosing(tr[i])
  {
    if i > 0 {
      EveryStateDownOnceClosing(tr, es, max, i - 1);
      assert StepAt(tr, es, max, i - 1);
      DownStep(tr[i - 1], es[i - 1], max);
    }
  }

  lemma DisconnectEndsDown(c: Inner, k: Task)
    requires Disconnecting(k.pc) && DownOnceClosing(c, k) && RunDisconnect(c, k).task == None
    ensures RunDisconnect(c, k).inner.past.down
  {
  }

  /** A disconnect that was not dropped has sealed the client, emptied its slot, cut its channel and left it not connected. */
  lemma EndedDisconnectLeaves(tr: seq<State>, es: seq<Event>, max: nat, i: nat, t: nat, reply: Reply)
    requires max < U32 && IsRun(tr, es, max) && i < |es| && es[i] == Go(t, reply)
    requires t in tr[i].tasks && tr[i].tasks[t].op == Disconnect && t !in tr[i + 1].tasks
    ensures var c := tr[i + 1].inner; c.closed && c.service == None && !c.tx && c.conn != Connected && c.past.down
  {
    EveryState(tr, es, max, i);
    EveryState(tr, es, max, i + 1);
    EveryStateDownOnceClosing(tr, es, max, i);
    assert StepAt(tr, es, max, i) && Fits(tr[i].tasks[t]) && DownOnceClosing(tr[i].inner, tr[i].tasks[t]);
    DisconnectEndsDown(tr[i].inner, tr[i].tasks[t]);
  }

  lemma {:induction false} DisconnectEnds(s0: State, c: Inner, t: nat, k: Task, max: nat) returns (c': Inner)
    requires LeadsBy(s0, Lone(c, t, k), t, max) && Disconnecting(k.pc) && DownOnceClosing(c, k)
    ensures LeadsBy(s0, State(c', map[]), t, max) && c'.past.down
    ensures c'.conn == if k.pc.Close? then c.conn else Disconnected
    decreases match k.pc case TakeService => 3 case TakeTx(_) => 2 case MarkDisconnected(_) => 1 case _ => 0
  {
    var r := RunDisconnect(c, if Waits(k.pc).Some? then k.(granted := true) else k);
    LoneGoes(s0, c, t, k, Good, max);
    if r.task.Some? {
      c' := DisconnectEnds(s0, r.inner, t, r.task.value, max);
    } else {
      c' := r.inner;
    }
  }

  /** What is left when a disconnect is done and nobody else is about. */
  predicate PutDown(c: Inner) {
    c.closed && c.service == None && c.live == {} && !c.tx && c.conn != Connected
  }

  /** Left to itself a disconnect gets there, with no transport left alive. */
  lemma DisconnectTakesDown(tr: seq<State>, es: seq<Event>, max: nat, t: nat) returns (s: State)
    requires max < U32 && IsRun(tr, es, max) && t in tr[|es|].tasks && tr[|es|].tasks[t].op == Disconnect
    ensures LeadsBy(tr[|es|], s, t, max) && s.tasks == map[] && PutDown(s.inner)
    ensures !tr[|es|].tasks[t].pc.Close? ==> s.inner.conn == Disconnected
  {
    EveryState(tr, es, max, |es|);
    EveryStateDownOnceClosing(tr, es, max, |es|);
    assert Fits(tr[|es|].tasks[t]) && DownOnceClosing(tr[|es|].inner, tr[|es|].tasks[t]);
    var first := DropTheOthers(tr[|es|], t, max);
    var c := After(tr[|es|], first, max).inner;
    assert After(tr[|es|], first, max) == Lone(c, t, tr[|es|].tasks[t]);
    var c' := DisconnectEnds(tr[|es|], c, t, tr[|es|].tasks[t], max);
    s := State(c', map[]);
    LeavesPutDown(tr, es, max, s, t);
  }

  lemma LeavesPutDown(tr: seq<State>, es: seq<Event>, max: nat, s: State, t: nat)
    requires max < U32 && IsRun(tr, es, max) && LeadsBy(tr[|es|], s, t, max) && s.tasks == map[] && s.inner.past.down
    ensures PutDown(s.inner)
  {
    var more :| Plays(tr[|es|], more, max) && After(tr[|es|], more, max) == s && AllOwn(more, t);
    var tr' := RunGoesOn(tr, es, more, max);
    EveryState(tr', es + more, max, |es + more|);
    NoOrphan(tr', es + more, max, |es + more|);
  }

  // ---------------------------------------------------------------- as many reconnects as one likes

  /** A list whose request fails, and which is dropped then: the counter is one further, and that is all. */
  lemma AskOnce(s0: State, s: State, t: nat, max: nat) returns (s': State)
    requires Leads(s0, s, max) && IsUp(s.inner) && t !in s.tasks && Waiting(s.tasks)
    ensures Leads(s0, s', max) && IsUp(s'.inner) && s'.tasks == s.tasks
    ensures s'.inner.past.asked == s.inner.past.asked + 1 && s'.inner.past.resets == s.inner.past.resets
    ensures s'.inner.service == s.inner.service
  {
    var x, n := s.inner.service.value, s.inner.past.resets;
    ListBegins(s0, s.inner, s.tasks, t, max);
    var c, k := ListAsks(s0, s.inner, s.tasks, t, Listing(Request(x), 1, n), max);
    LeadsByOneMore(s0, Among(c, s.tasks, t, k), Drop(t), max);
    s' := Apply(Among(c, s.tasks, t, k), Drop(t), max);
    assert s.tasks[t := k] - {t} == s.tasks;
  }

  lemma {:induction false} AskOften(s0: State, s: State, t: nat, n: nat, max: nat) returns (s': State)
    requires Leads(s0, s, max) && IsUp(s.inner) && t !in s.tasks && Waiting(s.tasks)
    ensures Leads(s0, s', max) && IsUp(s'.inner) && s'.tasks == s.tasks
    ensures s'.inner.past.asked == s.inner.past.asked + n && s'.inner.past.resets == s.inner.past.resets
    ensures s'.inner.service == s.inner.service
    decreases n
  {
    s' := s;
    if n > 0 {
      s' := AskOften(s0, s, t, n - 1, max);
      s' := AskOnce(s0, s', t, max);
    }
  }

  /** The configured bound is not one for ever: some run grants more reconnects between two resets. */
  lemma BoundIsPassed(max: nat) returns (tr: seq<State>, es: seq<Event>)
    requires max < U32
    ensures IsRun(tr, es, max) && tr[|es|].inner.past.asked == U32 && tr[|es|].inner.past.grants > max
  {
    var up := ConnectSucceeds(max);
    var s := AskOften(Initial(), up, 1, U32, max);
    tr, es := Reached(s, max);
    ReconnectsAreBounded(tr, es, max, |es|);
  }

  // ---------------------------------------------------------------- one list, on and on

  /** A list loop, waiting for its answer, no other task about and the counter not reset since it began. */
  predicate Looping(s: State, sent: nat, asked: nat) {
    && IsUp(s.inner) && s.inner.past.asked == asked && s.tasks.Keys == {1}
    && var k := s.tasks[1];
       k.op == ListTools && k.pc == Request(s.inner.service.value) && !k.granted && k.sent == sent && k.epoch == s.inner.past.resets
  }

  lemma AttemptsAreAsked(s: State, max: nat)
    requires max < U32 && Leads(Initial(), s, max)
    ensures s.inner.attempts == s.inner.past.asked % U32
  {
    var tr, es := Reached(s, max);
    EveryState(tr, es, max, |es|);
  }

  /** Once more round the loop, if the reconnect it asks for is granted. */
  lemma LoopsOnce(s: State, sent: nat, asked: nat, max: nat) returns (s': State)
    requires max < U32 && Leads(Initial(), s, max) && Looping(s, sent, asked) && (asked + 1) % U32 <= max
    ensures Leads(Initial(), s', max) && Looping(s', sent + 1, asked + 1)
  {
    var k := s.tasks[1];
    assert s == Lone(s.inner, 1, k);
    AttemptsAreAsked(s, max);
    var c1, k1 := ListAsks(Initial(), s.inner, map[], 1, k, max);
    assert c1.attempts == (asked + 1) % U32 by {
      GrantedNext(asked, max);
    }
    var before := Lone(c1, 1, k1);
    LeadsByNothing(before, 1, max);
    var c2, y := ReconnectSucceeds(before, c1, 1, k1, max);
    s' := Lone(c2, 1, k1.(pc := Request(y), sent := k1.sent + 1));
    LeadsByIsLeads(before, s', 1, max);
    LeadsOn(Initial(), before, s', max);
  }

  lemma {:induction false} LoopsOn(n: nat, max: nat) returns (s: State)
    requires n <= max < U32
    ensures Leads(Initial(), s, max) && Looping(s, n + 1, n)
    decreases n
  {
    if n == 0 {
      var up := ConnectSucceeds(max);
      ListBegins(Initial(), up.inner, map[], 1, max);
      s := Lone(up.inner, 1, Listing(Request(up.inner.service.value), 1, up.inner.past.resets));
    } else {
      s := LoopsOn(n - 1, max);
      s := LoopsOnce(s, n, n - 1, max);
    }
  }

  /** Nor is it one on a list loop: past the wrap a list sends a request more than `max + 1`. */
  lemma ListBoundIsPassed(max: nat) returns (tr: seq<State>, es: seq<Event>)
    requires max < U32
    ensures IsRun(tr, es, max) && tr[|es|].inner.past.asked == U32 && 1 in tr[|es|].tasks
    ensures var k := tr[|es|].tasks[1]; k.op == ListTools && k.epoch == tr[|es|].inner.past.resets && k.sent == max + 2
  {
    var s := LoopsOn(max, max);
    s := AskOften(Initial(), s, 2, U32 - 1 - max, max);
    s := LoopsOnce(s, max + 1, U32 - 1, max);
    tr, es := Reached(s, max);
  }
}
