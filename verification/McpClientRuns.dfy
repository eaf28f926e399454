/** The theorems over whole runs: sealed for good, one child at a time, a bounded number of attempts. */
module McpClientRuns {
  import opened Wrappers
  import opened McpClient
  import opened McpClientSafety
  import opened McpClientAttempts

  // ---------------------------------------------------------------- one child at a time

  predicate NoLists(s: State) {
    forall t | t in s.tasks :: s.tasks[t].op != ListTools
  }

  /** Between the decision to respawn and the handshake's success. */
  predicate Spawning(pc: Pc) {
    Reconnects(pc) || pc.Dial? || pc.CloneTx? || pc.Serve?
  }

  /** With no list loop about, a respawning task is the only one, and no transport lives but its own. */
  predicate AloneWith(c: Inner, k: Task) {
    && (Spawning(k.pc) ==> c.live == {})
    && (k.pc.Install? || k.pc.CloseLate? ==> c.live <= {k.pc.svc})
    && (k.pc.Publish? ==> forall x | x in c.live :: c.service == Some(x))
  }

  ghost predicate OneChild(s: State) {
    && (forall t | t in s.tasks :: AloneWith(s.inner, s.tasks[t]))
    && (forall x, y | x in s.inner.live && y in s.inner.live :: x == y)
  }

  /** A respawning call holds the reconnect lock, so no other task is respawning. */
  lemma OneRespawner(s: State, t: nat, u: nat)
    requires NoLists(s) && Shaped(s) && Exclusive(s)
    requires t in s.tasks && u in s.tasks && t != u && Respawning(s.tasks[t].pc)
    ensures !Respawning(s.tasks[u].pc) && !s.tasks[u].pc.RecheckLive?
  {
    assert Fits(s.tasks[t]) && Fits(s.tasks[u]);
    if s.tasks[t].op == CallTool {
      assert Holds(s.tasks[t], ReconnectLock);
    }
  }

  /** A respawn starts only when every transport the client ever opened is dead. */
  lemma RespawnFindsNothingLive(s: State, t: nat)
    requires NoLists(s) && Shaped(s) && Exclusive(s) && Sealed(s) && Accounted(s)
    requires t in s.tasks && s.tasks[t].pc.RecheckLive? && !s.inner.closed && !ServiceIsLive(s.inner)
    ensures s.inner.live == {}
  {
    forall x | x in s.inner.live
      ensures false
    {
      var u :| u in s.tasks && Owned(s.tasks[u].pc) == Some(x);
      assert SealedTask(s.inner, s.tasks[u]);
      OneRespawner(s, u, t);
    }
  }

  predicate Alone(c: Inner, r: Stretch) {
    && (r.task.Some? ==> AloneWith(r.inner, r.task.value))
    && (r.inner.live <= c.live || (c.live == {} && r.inner.live == {c.next}))
  }

  lemma AloneReconnect(c: Inner, k: Task, max: nat)
    requires AloneWith(c, k) && Reconnects(k.pc)
    ensures Alone(c, RunReconnect(c, k, max))
  {
  }

  lemma AloneHandshake(c: Inner, k: Task, reply: Reply)
    requires AloneWith(c, k) && Handshakes(k.pc)
    ensures Alone(c, RunHandshake(c, k, reply))
  {
  }

  lemma AloneCall(c: Inner, k: Task, reply: Reply)
    requires k.op == CallTool && !Reconnects(k.pc) && !Handshakes(k.pc) && !Disconnecting(k.pc)
    requires k.pc.RecheckLive? && !c.closed && !ServiceIsLive(c) ==> c.live == {}
    ensures Alone(c, RunCall(c, k, reply))
  {
  }

  lemma AloneStretch(s: State, t: nat, reply: Reply, max: nat)
    requires NoLists(s) && Shaped(s) && Exclusive(s) && Sealed(s) && Accounted(s) && OneChild(s)
    requires t in s.tasks
    ensures Alone(s.inner, Run(s.inner, s.tasks[t], reply, max))
  {
    var c, k := s.inner, s.tasks[t];
    assert Fits(k);
    if Reconnects(k.pc) {
      AloneReconnect(c, k, max);
    } else if Handshakes(k.pc) {
      AloneHandshake(c, k, reply);
    } else if Disconnecting(k.pc) {
      assert Alone(c, RunDisconnect(c, k));
    } else {
      if k.pc.RecheckLive? && !c.closed && !ServiceIsLive(c) {
        RespawnFindsNothingLive(s, t);
      }
      AloneCall(c, k, reply);
    }
  }

  /** Only the holder of the service lock changes the slot. */
  lemma SlotNeedsLock(c: Inner, k: Task, reply: Reply, max: nat)
    requires Ready(k) && Run(c, k, reply, max).inner.service != c.service
    ensures Holds(k, ServiceLock)
  {
  }

  /** Only a handshake brings a transport to life. */
  lemma LiveOnlyFromHandshake(c: Inner, k: Task, reply: Reply, max: nat)
    requires !k.pc.Serve?
    ensures Run(c, k, reply, max).inner.live <= c.live
  {
    if Reconnects(k.pc) {
      assert RunReconnect(c, k, max).inner.live <= c.live;
    } else if Handshakes(k.pc) {
      assert RunHandshake(c, k, reply).inner.live <= c.live;
    } else if Disconnecting(k.pc) {
      assert RunDisconnect(c, k).inner.live <= c.live;
    }
  }

  predicate AddsNoList(e: Event) {
    e.Spawn? ==> e.op != ListTools
  }

  lemma OneChildOthers(s: State, e: Event, max: nat, u: nat)
    requires NoLists(s) && Shaped(s) && Exclusive(s) && Sealed(s) && Accounted(s) && OneChild(s)
    requires Enabled(s, e) && !e.Die? && u in s.tasks && u != e.t
    ensures AloneWith(Apply(s, e, max).inner, s.tasks[u])
  {
    var k, d := s.tasks[u], Effect(s, e, max).inner;
    if e.Go? && d.service != s.inner.service && k.pc.Publish? {
      SlotNeedsLock(s.inner, s.tasks[e.t], e.reply, max);
    }
    if e.Go? && s.tasks[e.t].pc.Serve? {
      if Respawning(k.pc) {
        OneRespawner(s, u, e.t);
      }
    } else if e.Go? {
      LiveOnlyFromHandshake(s.inner, s.tasks[e.t], e.reply, max);
    }
    assert AloneWith(s.inner, k);
    assert !Respawning(k.pc) || d.live <= s.inner.live;
    assert !k.pc.Publish? || d.service == s.inner.service;
  }

  lemma OneChildStep(s: State, e: Event, max: nat)
    requires NoLists(s) && Shaped(s) && Exclusive(s) && Sealed(s) && Accounted(s) && OneChild(s)
    requires Enabled(s, e) && AddsNoList(e)
    ensures NoLists(Apply(s, e, max)) && OneChild(Apply(s, e, max))
  {
    var s' := Apply(s, e, max);
    if e.Go? {
      AloneStretch(s, e.t, e.reply, max);
      FitsStretch(s.inner, s.tasks[e.t], e.reply, max);
    }
    if !e.Die? {
      forall t | t in s'.tasks
        ensures AloneWith(s'.inner, s'.tasks[t]) && s'.tasks[t].op != ListTools
      {
        if t != e.t {
          OneChildOthers(s, e, max, t);
        }
      }
    }
  }

  // ---------------------------------------------------------------- every state of every run

  ghost predicate Inv(s: State, max: nat) {
    Exclusive(s) && Shaped(s) && Sealed(s) && Accounted(s) && Counted(s, max)
  }

  lemma InvStep(s: State, e: Event, max: nat)
    requires max < U32 && Inv(s, max) && Enabled(s, e)
    ensures Inv(Apply(s, e, max), max)
  {
    ExclusiveStep(s, e, max);
    ShapedStep(s, e, max);
    SealedStep(s, e, max);
    AccountedStep(s, e, max);
    CountedStep(s, e, max);
  }

  lemma {:induction false} EveryState(tr: seq<State>, es: seq<Event>, max: nat, i: nat)
    requires max < U32 && IsRun(tr, es, max) && i < |tr|
    ensures Inv(tr[i], max)
  {
    if i > 0 {
      EveryState(tr, es, max, i - 1);
      assert StepAt(tr, es, max, i - 1);
      InvStep(tr[i - 1], es[i - 1], max);
    }
  }

  /** No list loop is ever started. */
  ghost predicate CallsOnly(es: seq<Event>) {
    forall i | 0 <= i < |es| :: AddsNoList(es[i])
  }

  lemma {:induction false} EveryStateOfCalls(tr: seq<State>, es: seq<Event>, max: nat, i: nat)
    requires max < U32 && IsRun(tr, es, max) && CallsOnly(es) && i < |tr|
    ensures NoLists(tr[i]) && OneChild(tr[i])
  {
    if i > 0 {
      EveryState(tr, es, max, i - 1);
      EveryStateOfCalls(tr, es, max, i - 1);
      assert AddsNoList(es[i - 1]) && StepAt(tr, es, max, i - 1);
      OneChildStep(tr[i - 1], es[i - 1], max);
    }
  }

  // ---------------------------------------------------------------- the theorems

  lemma SealKeptNext(tr: seq<State>, es: seq<Event>, max: nat, i: nat)
    requires max < U32 && IsRun(tr, es, max) && i < |es|
    ensures SealKept(tr[i].inner, tr[i + 1].inner)
  {
    EveryState(tr, es, max, i);
    assert StepAt(tr, es, max, i);
    SealedStep(tr[i], es[i], max);
  }

  lemma {:induction false} SealKeptLater(tr: seq<State>, es: seq<Event>, max: nat, i: nat, j: nat)
    requires max < U32 && IsRun(tr, es, max) && i <= j < |tr|
    ensures SealKept(tr[i].inner, tr[j].inner)
  {
    if i < j {
      SealKeptLater(tr, es, max, i, j - 1);
      SealKeptNext(tr, es, max, j - 1);
    }
  }

  /**
   From the instant a client is sealed no service is published or installed; once a disconnect has taken the
   service the slot is empty; once one has written its state, the client is never again `Connected` and its
   change channel stays cut.
   */
  lemma SealedForGood(tr: seq<State>, es: seq<Event>, max: nat, i: nat, j: nat)
    requires max < U32 && IsRun(tr, es, max) && i <= j < |tr| && tr[i].inner.closed
    ensures tr[j].inner.closed && tr[j].inner.past.published == tr[i].inner.past.published
    ensures tr[j].inner.service == tr[i].inner.service || tr[j].inner.service == None
    ensures tr[i].inner.past.taken ==> tr[j].inner.service == None
    ensures tr[i].inner.past.down ==> tr[j].inner.conn != Connected && !tr[j].inner.tx
  {
    SealKeptLater(tr, es, max, i, j);
    EveryState(tr, es, max, j);
  }

  /**
   A service handshaken under the seal is never published: while it lives, it is in the hands of the very task
   that handshook it, about to be refused or being closed.
   */
  lemma LateServiceIsClosed(tr: seq<State>, es: seq<Event>, max: nat, i: nat, j: nat, x: Service)
    requires max < U32 && IsRun(tr, es, max) && i <= j < |tr|
    requires tr[i].inner.closed && x >= tr[i].inner.next
    ensures x !in tr[j].inner.past.published
    ensures x in tr[j].inner.live ==>
              exists t :: t in tr[j].tasks && (tr[j].tasks[t].pc == Install(x) || tr[j].tasks[t].pc == CloseLate(x))
  {
    EveryState(tr, es, max, i);
    EveryState(tr, es, max, j);
    SealedForGood(tr, es, max, i, j);
    if x in tr[j].inner.live {
      var t :| t in tr[j].tasks && Owned(tr[j].tasks[t].pc) == Some(x);
      assert NewTask(tr[j].inner, tr[j].tasks[t]);
    }
  }

  /** No live child stays attached to a sealed client: when its tasks are done, no transport lives. */
  lemma NoOrphan(tr: seq<State>, es: seq<Event>, max: nat, i: nat)
    requires max < U32 && IsRun(tr, es, max) && i < |tr|
    requires tr[i].inner.past.taken && tr[i].tasks == map[]
    ensures tr[i].inner.live == {}
  {
    EveryState(tr, es, max, i);
    if x :| x in tr[i].inner.live {
      assert false;
    }
  }

  /** Between two resets of the counter at most `max` reconnects are granted, until the counter wraps. */
  lemma ReconnectsAreBounded(tr: seq<State>, es: seq<Event>, max: nat, i: nat)
    requires max < U32 && IsRun(tr, es, max) && i < |tr|
    ensures tr[i].inner.past.grants <= max <==> tr[i].inner.past.asked < U32
  {
    EveryState(tr, es, max, i);
    GrantsBounded(tr[i].inner.past.asked, max);
  }

  /** A list loop during which nobody resets the counter sends one list request more than the reconnects granted at
      most: `max + 1`, until the counter wraps. */
  lemma ListLoopIsBounded(tr: seq<State>, es: seq<Event>, max: nat, i: nat, t: nat)
    requires max < U32 && IsRun(tr, es, max) && i < |tr| && t in tr[i].tasks
    requires tr[i].tasks[t].op == ListTools && tr[i].tasks[t].epoch == tr[i].inner.past.resets
    ensures tr[i].tasks[t].sent <= Granted(tr[i].inner.past.asked, max) + 1
    ensures tr[i].inner.past.asked < U32 ==> tr[i].tasks[t].sent <= max + 1
  {
    EveryState(tr, es, max, i);
    assert CountedTask(tr[i].inner, tr[i].tasks[t]);
    ReconnectsAreBounded(tr, es, max, i);
  }

  /** With calls only, as long as a respawn is under way nothing the client ever opened is alive. */
  lemma RespawnsOnlyTheDead(tr: seq<State>, es: seq<Event>, max: nat, i: nat, t: nat)
    requires max < U32 && IsRun(tr, es, max) && CallsOnly(es) && i < |tr|
    requires t in tr[i].tasks && Spawning(tr[i].tasks[t].pc)
    ensures tr[i].inner.live == {}
    ensures forall u | u in tr[i].tasks && u != t :: !Respawning(tr[i].tasks[u].pc)
  {
    EveryState(tr, es, max, i);
    EveryStateOfCalls(tr, es, max, i);
    assert AloneWith(tr[i].inner, tr[i].tasks[t]);
    forall u | u in tr[i].tasks && u != t
      ensures !Respawning(tr[i].tasks[u].pc)
    {
      OneRespawner(tr[i], t, u);
    }
  }

  /** The event is the success of a handshake. */
  predicate Handshook(s: State, e: Event) {
    Enabled(s, e) && e.Go? && s.tasks[e.t].pc.Serve? && e.reply.Good?
  }

  /** With calls only, the service of one successful handshake is dead before the next succeeds. */
  lemma OneHandshakePerDeath(tr: seq<State>, es: seq<Event>, max: nat, i: nat, j: nat)
    requires max < U32 && IsRun(tr, es, max) && CallsOnly(es) && i < j < |es|
    requires Handshook(tr[i], es[i]) && Handshook(tr[j], es[j])
    ensures tr[i].inner.next in tr[i + 1].inner.live
    ensures tr[j].inner.live == {}
  {
    assert StepAt(tr, es, max, i);
    EveryStateOfCalls(tr, es, max, j);
    assert AloneWith(tr[j].inner, tr[j].tasks[es[j].t]);
  }

  /** With calls only, no step takes a live service out of the slot, but a disconnect's. */
  lemma LiveServiceIsNeverReplaced(tr: seq<State>, es: seq<Event>, max: nat, i: nat)
    requires max < U32 && IsRun(tr, es, max) && CallsOnly(es) && i < |es|
    requires ServiceIsLive(tr[i].inner) && tr[i + 1].inner.service != tr[i].inner.service
    ensures es[i].Go? && es[i].t in tr[i].tasks && tr[i].tasks[es[i].t].op == Disconnect
  {
    var s, e := tr[i], es[i];
    EveryState(tr, es, max, i);
    EveryStateOfCalls(tr, es, max, i);
    assert StepAt(tr, es, max, i);
    assert e.Go?;
    assert AloneWith(s.inner, s.tasks[e.t]) && NewTask(s.inner, s.tasks[e.t]) && Fits(s.tasks[e.t]);
    SlotChangers(s.inner, s.tasks[e.t], e.reply, max);
  }

  lemma SlotChangers(c: Inner, k: Task, reply: Reply, max: nat)
    requires Run(c, k, reply, max).inner.service != c.service
    ensures k.pc.TakeOld? || k.pc.Install? || k.pc.TakeService?
  {
  }

  // ---------------------------------------------------------------- what a sealed client reports

  /** A reconnect that is past its look at the state and has yet to write it. */
  predicate WillWrite(pc: Pc) {
    pc.FailState? || pc.TakeOld? || pc.CloseOld? || pc.MarkReconnecting?
  }

  ghost predicate Quiet(s: State) {
    && s.inner.past.down && s.inner.conn == Disconnected
    && forall t | t in s.tasks :: !WillWrite(s.tasks[t].pc)
  }

  predicate KeepsQuiet(r: Stretch) {
    r.inner.conn == Disconnected && (r.task.Some? ==> !WillWrite(r.task.value.pc))
  }

  lemma QuietStretch(c: Inner, k: Task, reply: Reply, max: nat)
    requires c.conn == Disconnected && !WillWrite(k.pc) && !k.pc.Publish?
    ensures KeepsQuiet(Run(c, k, reply, max))
  {
    if Reconnects(k.pc) {
      assert KeepsQuiet(RunReconnect(c, k, max));
    } else if Handshakes(k.pc) {
      assert KeepsQuiet(RunHandshake(c, k, reply));
    } else if Disconnecting(k.pc) {
      assert KeepsQuiet(RunDisconnect(c, k));
    } else {
      assert KeepsQuiet(RunCall(c, k, reply));
    }
  }

  lemma QuietStep(s: State, e: Event, max: nat)
    requires Exclusive(s) && Shaped(s) && Sealed(s) && Quiet(s) && Enabled(s, e)
    ensures Quiet(Apply(s, e, max))
  {
    SealedStep(s, e, max);
    if e.Go? {
      assert SealedTask(s.inner, s.tasks[e.t]);
      QuietStretch(s.inner, s.tasks[e.t], e.reply, max);
    }
  }

  /** A disconnected client reports `Disconnected` for good once no reconnect is left to write over it. */
  lemma {:induction false} QuietStaysDisconnected(tr: seq<State>, es: seq<Event>, max: nat, i: nat, j: nat)
    requires max < U32 && IsRun(tr, es, max) && i <= j < |tr| && Quiet(tr[i])
    ensures Quiet(tr[j])
  {
    if i < j {
      QuietStaysDisconnected(tr, es, max, i, j - 1);
      EveryState(tr, es, max, j - 1);
      assert StepAt(tr, es, max, j - 1);
      QuietStep(tr[j - 1], es[j - 1], max);
    }
  }
}
