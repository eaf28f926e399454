/**
 The respawn of a dead child: a call sends its request once, and a call or a list can bring the connection back by
 itself exactly when the guards of `reconnect` let it.
 */
module McpClientRespawns {
  import opened Wrappers
  import opened McpClient
  import opened McpClientSafety
  import opened McpClientRuns
  import opened McpClientContinuations

  // ---------------------------------------------------------------- a call is sent once

  /** A request goes over a service that was published, and a call has sent one once it waits for the answer. */
  predicate SendsOnce(c: Inner, k: Task) {
    && (k.pc.Request? ==> k.pc.svc in c.past.published)
    && (k.op == CallTool ==> k.sent == if k.pc.Request? then 1 else 0)
  }

  ghost predicate AllSendOnce(s: State) {
    forall u | u in s.tasks :: SendsOnce(s.inner, s.tasks[u])
  }

  predicate KeepsSendingOnce(c: Inner, r: Stretch) {
    (r.task.Some? ==> SendsOnce(r.inner, r.task.value)) && c.past.published <= r.inner.past.published
  }

  lemma SendsOnceStretch(c: Inner, k: Task, reply: Reply, max: nat)
    requires Catalogued(c) && SendsOnce(c, k)
    ensures KeepsSendingOnce(c, Run(c, k, reply, max))
  {
    if Reconnects(k.pc) {
      assert KeepsSendingOnce(c, RunReconnect(c, k, max));
    } else if Handshakes(k.pc) {
      assert KeepsSendingOnce(c, RunHandshake(c, k, reply));
    } else if Disconnecting(k.pc) {
      assert KeepsSendingOnce(c, RunDisconnect(c, k));
    } else {
      SendsOnceCall(c, k, reply);
    }
  }

  lemma SendsOnceCall(c: Inner, k: Task, reply: Reply)
    requires Catalogued(c) && SendsOnce(c, k)
    requires !Reconnects(k.pc) && !Handshakes(k.pc) && !Disconnecting(k.pc)
    ensures KeepsSendingOnce(c, RunCall(c, k, reply))
  {
  }

  lemma SendsOnceStep(s: State, e: Event, max: nat)
    requires Enabled(s, e) && Accounted(s) && AllSendOnce(s)
    ensures AllSendOnce(Apply(s, e, max))
  {
    if e.Go? {
      SendsOnceStretch(s.inner, s.tasks[e.t], e.reply, max);
    }
  }

  lemma {:induction false} EveryStateSendsOnce(tr: seq<State>, es: seq<Event>, max: nat, i: nat)
    requires max < U32 && IsRun(tr, es, max) && i < |tr|
    ensures AllSendOnce(tr[i])
  {
    if i > 0 {
      EveryState(tr, es, max, i - 1);
      EveryStateSendsOnce(tr, es, max, i - 1);
      assert StepAt(tr, es, max, i - 1);
      SendsOnceStep(tr[i - 1], es[i - 1], max);
    }
  }

  /** Whatever becomes of a call's request, it is never sent again, and it went over a service that was published. */
  lemma CallIsSentOnce(tr: seq<State>, es: seq<Event>, max: nat, i: nat, t: nat)
    requires max < U32 && IsRun(tr, es, max) && i < |tr| && t in tr[i].tasks && tr[i].tasks[t].op == CallTool
    ensures tr[i].tasks[t].sent == if tr[i].tasks[t].pc.Request? then 1 else 0
    ensures tr[i].tasks[t].pc.Request? ==> tr[i].tasks[t].pc.svc in tr[i].inner.past.published
  {
    EveryStateSendsOnce(tr, es, max, i);
    assert SendsOnce(tr[i].inner, tr[i].tasks[t]);
  }

  // ---------------------------------------------------------------- a reconnect that succeeds

  /** A granted reconnect closes the old service, if there is one, and says so. */
  lemma OldIsClosed(s0: State, c: Inner, t: nat, k: Task, max: nat) returns (c': Inner)
    requires LeadsBy(s0, Lone(c, t, k), t, max) && k.pc.TakeOld? && !k.granted
    ensures LeadsBy(s0, Lone(c', t, k.(pc := Sleep)), t, max)
    ensures c' == c.(service := None, live := Without(c.live, c.service), conn := Reconnecting(k.pc.attempt))
  {
    var a, c1 := k.pc.attempt, c.(service := None);
    LoneGoes(s0, c, t, k, Good, max);
    if c.service.Some? {
      LoneGoes(s0, c1, t, k.(pc := CloseOld(a, c.service.value)), Good, max);
    }
    c1 := c1.(live := Without(c.live, c.service));
    LoneGoes(s0, c1, t, k.(pc := MarkReconnecting(a)), Good, max);
    c' := c1.(conn := Reconnecting(a));
  }

  /** It waits, dials and shakes hands. */
  lemma HandshakeSucceeds(s0: State, c: Inner, t: nat, k: Task, max: nat) returns (c': Inner)
    requires LeadsBy(s0, Lone(c, t, k), t, max) && k.pc == Sleep && !k.granted
    ensures LeadsBy(s0, Lone(c', t, k.(pc := Install(c.next))), t, max)
    ensures c' == c.(live := c.live + {c.next}, next := c.next + 1)
  {
    c' := c.(live := c.live + {c.next}, next := c.next + 1);
    LoneGoesTo(s0, c, t, k, Good, max, c, k.(pc := Dial));
    LoneGoesTo(s0, c, t, k.(pc := Dial), Good, max, c, k.(pc := CloneTx));
    LoneGoesTo(s0, c, t, k.(pc := CloneTx), Good, max, c, k.(pc := Serve));
    LoneGoesTo(s0, c, t, k.(pc := Serve), Good, max, c', k.(pc := Install(c.next)));
  }

  /** It publishes the service, and its task sends its request there. */
  lemma RequestIsSent(s0: State, c: Inner, t: nat, k: Task, y: Service, max: nat) returns (c': Inner)
    requires LeadsBy(s0, Lone(c, t, k), t, max) && k.pc == Install(y) && k.op != Connect && !k.granted && !c.closed
    ensures LeadsBy(s0, Lone(c', t, k.(pc := Request(y), sent := k.sent + 1)), t, max)
    ensures c' == PublishService(c, y).(conn := Connected)
  {
    c' := ServiceIsPublished(s0, c, t, k, y, max);
    LoneGoesTo(s0, c', t, k.(pc := GetPeer), Good, max, c', k.(pc := Request(y), sent := k.sent + 1));
  }

  lemma ServiceIsPublished(s0: State, c: Inner, t: nat, k: Task, y: Service, max: nat) returns (c': Inner)
    requires LeadsBy(s0, Lone(c, t, k), t, max) && k.pc == Install(y) && k.op != Connect && !k.granted && !c.closed
    ensures LeadsBy(s0, Lone(c', t, k.(pc := GetPeer)), t, max)
    ensures c' == PublishService(c, y).(conn := Connected)
  {
    var c1 := PublishService(c, y);
    LoneGoes(s0, c, t, k, Good, max);
    LoneGoes(s0, c1, t, k.(pc := Publish), Good, max);
    c' := c1.(conn := Connected);
  }

  /** A granted reconnect that succeeds, up to the next request. */
  lemma ReconnectSucceeds(s0: State, c: Inner, t: nat, k: Task, max: nat) returns (c': Inner, y: Service)
    requires LeadsBy(s0, Lone(c, t, k), t, max) && k.pc.TakeOld? && k.op != Connect && !k.granted && !c.closed
    ensures LeadsBy(s0, Lone(c', t, k.(pc := Request(y), sent := k.sent + 1)), t, max)
    ensures y == c.next && y in c'.live && c'.service == Some(y) && c'.conn == Connected
    ensures c'.open == c.open && !c'.closed && c'.past.asked == c.past.asked && c'.past.resets == c.past.resets
  {
    var c1 := ChildIsReplaced(s0, c, t, k, max);
    y := c.next;
    c' := RequestIsSent(s0, c1, t, k.(pc := Install(y)), y, max);
  }

  lemma ChildIsReplaced(s0: State, c: Inner, t: nat, k: Task, max: nat) returns (c': Inner)
    requires LeadsBy(s0, Lone(c, t, k), t, max) && k.pc.TakeOld? && !k.granted
    ensures LeadsBy(s0, Lone(c', t, k.(pc := Install(c.next))), t, max)
    ensures c' == c.(service := None, conn := c'.conn, live := Without(c.live, c.service) + {c.next}, next := c.next + 1)
  {
    c' := OldIsClosed(s0, c, t, k, max);
    c' := HandshakeSucceeds(s0, c', t, k.(pc := Sleep), max);
  }

  // ---------------------------------------------------------------- who can bring the connection back

  /** The guards of `reconnect`: the seal, the state and the counter. */
  predicate MayReconnect(c: Inner, max: nat) {
    !c.closed && !c.conn.Disconnected? && !c.conn.Failed? && (c.attempts + 1) % U32 <= max
  }

  /** From `s` to `s'` the task has sent one request, over a connection handshaken since, which is up and in the slot. */
  predicate Respawned(s: State, s': State, t: nat) {
    && t in s.tasks && t in s'.tasks
    && var k, k' := s.tasks[t], s'.tasks[t];
       && k'.op == k.op && k'.pc.Request? && k'.sent == k.sent + 1
       && s.inner.next <= k'.pc.svc && k'.pc.svc in s'.inner.live
       && s'.inner.service == Some(k'.pc.svc) && s'.inner.conn == Connected
  }

  /** Before the pre-send check is done. */
  predicate YetToLook(k: Task) {
    k.op == CallTool && (k.pc.CheckLive? || k.pc.LockReconnect? || k.pc.RecheckLive?)
  }

  /** With the others out of the way, a task at the look at the state gets through. */
  lemma ReaderRespawns(s0: State, c: Inner, t: nat, k: Task, max: nat) returns (s': State)
    requires LeadsBy(s0, Lone(c, t, k), t, max) && k.pc == ReadState && k.op != Connect && MayReconnect(c, max)
    requires t in s0.tasks && s0.tasks[t].op == k.op && s0.tasks[t].sent == k.sent && s0.inner.next <= c.next
    ensures LeadsBy(s0, s', t, max) && Respawned(s0, s', t)
  {
    LoneGoes(s0, c, t, k, Good, max);
    var r := CountAttempt(c, k.(granted := true), max);
    var c', y := ReconnectSucceeds(s0, r.inner, t, r.task.value, max);
    s' := Lone(c', t, r.task.value.(pc := Request(y), sent := k.sent + 1));
  }

  lemma {:induction false} CallGetsThere(s: State, c: Inner, t: nat, k: Task, max: nat)
    requires LeadsBy(s, Lone(c, t, k), t, max) && YetToLook(k) && !c.closed && !ServiceIsLive(c)
    ensures LeadsBy(s, Lone(c, t, k.(pc := ReadState, granted := false)), t, max)
    decreases match k.pc case CheckLive => 2 case LockReconnect => 1 case _ => 0
  {
    LoneGoes(s, c, t, k, Good, max);
    if k.pc.CheckLive? {
      CallGetsThere(s, c, t, k.(pc := LockReconnect, granted := false), max);
    } else if k.pc.LockReconnect? {
      CallGetsThere(s, c, t, k.(pc := RecheckLive, granted := false), max);
    }
  }

  lemma CallCanRespawn(s: State, t: nat, max: nat) returns (s': State)
    requires t in s.tasks && YetToLook(s.tasks[t]) && MayReconnect(s.inner, max) && !ServiceIsLive(s.inner)
    ensures LeadsBy(s, s', t, max) && Respawned(s, s', t)
  {
    var es := DropTheOthers(s, t, max);
    var c, k := After(s, es, max).inner, s.tasks[t];
    assert After(s, es, max) == Lone(c, t, k);
    CallGetsThere(s, c, t, k, max);
    s' := ReaderRespawns(s, c, t, k.(pc := ReadState, granted := false), max);
  }

  lemma ListCanRespawn(s: State, t: nat, max: nat) returns (s': State)
    requires t in s.tasks && s.tasks[t].op == ListTools && s.tasks[t].pc.Request? && MayReconnect(s.inner, max)
    ensures LeadsBy(s, s', t, max) && Respawned(s, s', t)
  {
    var es := DropTheOthers(s, t, max);
    var c, k := After(s, es, max).inner, s.tasks[t];
    assert After(s, es, max) == Lone(c, t, k);
    LoneGoes(s, c, t, k, Retriable, max);
    s' := ReaderRespawns(s, c, t, k.(pc := ReadState, granted := false), max);
  }

  // ---------------------------------------------------------------- and who cannot

  /** The task cannot by itself send a request over a service numbered `n` or later. */
  predicate Hopeless(c: Inner, k: Task, n: nat, max: nat) {
    && (c.service.Some? ==> c.service.value < n)
    && match k.pc
       case CheckLive | LockReconnect | RecheckLive => !MayReconnect(c, max) || ServiceIsLive(c)
       case ReadState => !MayReconnect(c, max)
       case FailState => true
       case GetPeer => k.op == CallTool || !MayReconnect(c, max)
       case Request(y) => y < n && (k.op == CallTool || !MayReconnect(c, max))
       case Publish => false
       case _ => c.closed
  }

  ghost predicate Doomed(s: State, t: nat, n: nat, max: nat) {
    t in s.tasks ==>
      && (s.tasks[t].op == CallTool || s.tasks[t].op == ListTools) && Fits(s.tasks[t])
      && Hopeless(s.inner, s.tasks[t], n, max)
  }

  predicate StaysHopeless(r: Stretch, n: nat, max: nat) {
    r.task.Some? ==> Hopeless(r.inner, r.task.value, n, max)
  }

  lemma HopelessReconnect(c: Inner, k: Task, n: nat, max: nat)
    requires Hopeless(c, k, n, max) && Reconnects(k.pc)
    ensures StaysHopeless(RunReconnect(c, k, max), n, max)
  {
  }

  lemma HopelessHandshake(c: Inner, k: Task, reply: Reply, n: nat, max: nat)
    requires Hopeless(c, k, n, max) && Handshakes(k.pc)
    ensures StaysHopeless(RunHandshake(c, k, reply), n, max)
  {
  }

  lemma HopelessCall(c: Inner, k: Task, reply: Reply, n: nat, max: nat)
    requires Hopeless(c, k, n, max) && (k.op == CallTool || k.op == ListTools) && Fits(k)
    requires !Reconnects(k.pc) && !Handshakes(k.pc) && !Disconnecting(k.pc)
    ensures StaysHopeless(RunCall(c, k, reply), n, max)
  {
  }

  lemma HopelessStretch(c: Inner, k: Task, reply: Reply, n: nat, max: nat)
    requires Hopeless(c, k, n, max) && (k.op == CallTool || k.op == ListTools) && Fits(k)
    ensures StaysHopeless(Run(c, k, reply, max), n, max)
  {
    if Reconnects(k.pc) {
      HopelessReconnect(c, k, n, max);
    } else if Handshakes(k.pc) {
      HopelessHandshake(c, k, reply, n, max);
    } else {
      HopelessCall(c, k, reply, n, max);
    }
  }

  /** Nobody holds what is in the slot, so dropping the others changes nothing of it. */
  lemma DoomedDrop(s: State, u: nat, t: nat, n: nat, max: nat)
    requires Accounted(s) && Doomed(s, t, n, max) && u in s.tasks && u != t
    ensures Doomed(Apply(s, Drop(u), max), t, n, max)
  {
    assert NewTask(s.inner, s.tasks[u]);
    assert ServiceIsLive(Apply(s, Drop(u), max).inner) == ServiceIsLive(s.inner);
  }

  lemma DoomedStep(s: State, e: Event, t: nat, n: nat, max: nat)
    requires Accounted(s) && Doomed(s, t, n, max) && Enabled(s, e) && Own(e, t)
    ensures Doomed(Apply(s, e, max), t, n, max)
  {
    if e.Drop? {
      DoomedDrop(s, e.t, t, n, max);
    } else if e.Go? {
      HopelessStretch(s.inner, s.tasks[t], e.reply, n, max);
      FitsStretch(s.inner, s.tasks[t], e.reply, max);
    }
  }

  lemma {:induction false} DoomedForGood(s: State, es: seq<Event>, t: nat, n: nat, max: nat)
    requires Accounted(s) && Doomed(s, t, n, max) && Plays(s, es, max) && AllOwn(es, t)
    ensures Doomed(After(s, es, max), t, n, max)
    decreases |es|
  {
    if es != [] {
      assert Own(es[0], t);
      AccountedStep(s, es[0], max);
      DoomedStep(s, es[0], t, n, max);
      assert AllOwn(es[1..], t);
      DoomedForGood(Apply(s, es[0], max), es[1..], t, n, max);
    }
  }

  lemma DoomedCannot(s: State, t: nat, max: nat)
    requires Accounted(s) && Doomed(s, t, s.inner.next, max)
    ensures forall s' | LeadsBy(s, s', t, max) :: !Respawned(s, s', t)
  {
    forall s' | LeadsBy(s, s', t, max) ensures !Respawned(s, s', t) {
      var es :| Plays(s, es, max) && After(s, es, max) == s' && AllOwn(es, t);
      DoomedForGood(s, es, t, s.inner.next, max);
    }
  }

  ghost predicate CanRespawn(s: State, t: nat, max: nat) {
    exists s' :: LeadsBy(s, s', t, max) && Respawned(s, s', t)
  }

  lemma CallCanExactlyWhen(s: State, t: nat, max: nat)
    requires Accounted(s) && t in s.tasks && YetToLook(s.tasks[t])
    ensures CanRespawn(s, t, max) <==> MayReconnect(s.inner, max) && !ServiceIsLive(s.inner)
  {
    if MayReconnect(s.inner, max) && !ServiceIsLive(s.inner) {
      var s' := CallCanRespawn(s, t, max);
    } else {
      assert Doomed(s, t, s.inner.next, max);
      DoomedCannot(s, t, max);
    }
  }

  lemma ListCanExactlyWhen(s: State, t: nat, max: nat)
    requires Accounted(s) && t in s.tasks && SendsOnce(s.inner, s.tasks[t])
    requires s.tasks[t].op == ListTools && s.tasks[t].pc.Request?
    ensures CanRespawn(s, t, max) <==> MayReconnect(s.inner, max)
  {
    if MayReconnect(s.inner, max) {
      var s' := ListCanRespawn(s, t, max);
    } else {
      assert Doomed(s, t, s.inner.next, max);
      DoomedCannot(s, t, max);
    }
  }

  // ---------------------------------------------------------------- the theorems

  /**
   In every state of every run a call whose pre-send check is not done, left to itself, can bring the connection
   back, and send its one request over it, exactly when the service is absent or dead, the client is not sealed,
   reports neither `Disconnected` nor `Failed`, and has an attempt left.
   */
  lemma CallRespawnsExactlyWhen(tr: seq<State>, es: seq<Event>, max: nat, i: nat, t: nat)
    requires max < U32 && IsRun(tr, es, max) && i < |tr| && t in tr[i].tasks && YetToLook(tr[i].tasks[t])
    ensures (exists s' :: LeadsBy(tr[i], s', t, max) && Respawned(tr[i], s', t))
       <==> var c := tr[i].inner;
            && !(exists x :: c.service == Some(x) && x in c.live) && !c.closed
            && c.conn != Disconnected && c.conn != Failed && (c.attempts + 1) % U32 <= max
    ensures tr[i].tasks[t].sent == 0
  {
    EveryState(tr, es, max, i);
    CallIsSentOnce(tr, es, max, i, t);
    CallCanExactlyWhen(tr[i], t, max);
  }

  /** So can a list that waits for an answer, whose request may fail as retriable, whether the service lives or not. */
  lemma ListRespawnsExactlyWhen(tr: seq<State>, es: seq<Event>, max: nat, i: nat, t: nat)
    requires max < U32 && IsRun(tr, es, max) && i < |tr| && t in tr[i].tasks
    requires tr[i].tasks[t].op == ListTools && tr[i].tasks[t].pc.Request?
    ensures (exists s' :: LeadsBy(tr[i], s', t, max) && Respawned(tr[i], s', t))
       <==> var c := tr[i].inner;
            && !c.closed && c.conn != Disconnected && c.conn != Failed && (c.attempts + 1) % U32 <= max
  {
    EveryState(tr, es, max, i);
    EveryStateSendsOnce(tr, es, max, i);
    assert SendsOnce(tr[i].inner, tr[i].tasks[t]);
    ListCanExactlyWhen(tr[i], t, max);
  }
}
