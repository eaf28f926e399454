/** What every interleaving of `McpClient`'s operations keeps, and what that means over whole runs. */
module McpClientSafety {
  import opened Wrappers
  import opened McpClient

  // ---------------------------------------------------------------- mutual exclusion

  /** No two tasks hold one lock, except readers of the state. */
  ghost predicate Exclusive(s: State) {
    forall t, u, l | t in s.tasks && u in s.tasks && t != u && Holds(s.tasks[t], l) ::
      !Blocks(s.tasks[u], s.tasks[t], l)
  }

  predicate TakesNoLock(k: Task, r: Stretch, l: Lock) {
    r.task.Some? && Holds(r.task.value, l) ==> Holds(k, l) && l != StateLock
  }

  /** Running on never takes a lock: only a grant does. */
  lemma RunningTakesNoLock(c: Inner, k: Task, reply: Reply, max: nat, l: Lock)
    requires Ready(k)
    ensures TakesNoLock(k, Run(c, k, reply, max), l)
  {
    if Reconnects(k.pc) {
      assert TakesNoLock(k, RunReconnect(c, k, max), l);
    } else if Handshakes(k.pc) {
      assert TakesNoLock(k, RunHandshake(c, k, reply), l);
    } else if Disconnecting(k.pc) {
      assert TakesNoLock(k, RunDisconnect(c, k), l);
    } else {
      assert TakesNoLock(k, RunCall(c, k, reply), l);
    }
  }

  lemma ExclusiveStep(s: State, e: Event, max: nat)
    requires Exclusive(s) && Enabled(s, e)
    ensures Exclusive(Apply(s, e, max))
  {
    var s' := Apply(s, e, max);
    forall t, u, l | t in s'.tasks && u in s'.tasks && t != u && Holds(s'.tasks[t], l)
      ensures !Blocks(s'.tasks[u], s'.tasks[t], l)
    {
      if e.Go? {
        RunningTakesNoLock(s.inner, s.tasks[e.t], e.reply, max, l);
      }
    }
  }

  // ---------------------------------------------------------------- no deadlock

  /** Each task takes the locks in one order: what it holds ranks below what it waits for. */
  lemma AcquiresUpwards(k: Task, l: Lock)
    requires !Ready(k) && Holds(k, l)
    ensures Rank(l) < Rank(Waits(k.pc).value)
  {
  }

  /** `u` keeps from `t` the lock `t` waits for. */
  predicate KeptFrom(s: State, t: nat, u: nat) {
    t in s.tasks && u in s.tasks && !Ready(s.tasks[t]) && Blocks(s.tasks[u], s.tasks[t], Waits(s.tasks[t].pc).value)
  }

  /** A closed chain of tasks, each waiting for a lock that the next one keeps from it. */
  ghost predicate CircularWait(s: State, ring: seq<nat>) {
    && |ring| > 0
    && (forall i | 0 < i < |ring| :: KeptFrom(s, ring[i - 1], ring[i]))
    && KeptFrom(s, ring[|ring| - 1], ring[0])
  }

  /** The rank of the lock a task waits for; above them all when it waits for none. */
  function Wanted(s: State, t: nat): nat
  {
    if t in s.tasks && !Ready(s.tasks[t]) then Rank(Waits(s.tasks[t].pc).value) else 4
  }

  lemma KeeperWantsMore(s: State, t: nat, u: nat)
    requires KeptFrom(s, t, u)
    ensures Wanted(s, u) > Wanted(s, t)
  {
    if !Ready(s.tasks[u]) {
      AcquiresUpwards(s.tasks[u], Waits(s.tasks[t].pc).value);
    }
  }

  lemma {:induction false} RingClimbs(s: State, ring: seq<nat>, i: nat)
    requires CircularWait(s, ring) && i < |ring|
    ensures Wanted(s, ring[i]) >= Wanted(s, ring[0]) + i
  {
    if i > 0 {
      RingClimbs(s, ring, i - 1);
      KeeperWantsMore(s, ring[i - 1], ring[i]);
    }
  }

  lemma NoCircularWait(s: State, ring: seq<nat>)
    ensures !CircularWait(s, ring)
  {
    if CircularWait(s, ring) {
      var last := |ring| - 1;
      RingClimbs(s, ring, last);
      KeeperWantsMore(s, ring[last], ring[0]);
    }
  }

  /** While a task is in flight, some task can go on without a drop or a deadline. */
  lemma {:induction false} Progress(s: State, t: nat) returns (e: Event)
    requires t in s.tasks
    ensures Enabled(s, e) && (e.Go? || e.Grant?)
    decreases 4 - Wanted(s, t)
  {
    if Ready(s.tasks[t]) {
      e := Go(t, Good);
    } else if u :| u in s.tasks && u != t && KeptFrom(s, t, u) {
      KeeperWantsMore(s, t, u);
      e := Progress(s, u);
    } else {
      e := Grant(t);
    }
  }

  // ---------------------------------------------------------------- the close seal

  /** Each operation is only ever at an await of its own. */
  predicate Fits(k: Task) {
    match k.op
    case Connect => Handshakes(k.pc)
    case CallTool => !Disconnecting(k.pc)
    case ListTools => Respawning(k.pc) || k.pc.GetPeer? || k.pc.Request?
    case Disconnect => Disconnecting(k.pc)
  }

  /** The first handshake runs alone: there is nothing to clone until it has succeeded. */
  ghost predicate Shaped(s: State) {
    && (forall t | t in s.tasks :: Fits(s.tasks[t]))
    && (s.inner.open ==> forall t | t in s.tasks :: s.tasks[t].op != Connect)
    && (!s.inner.open ==> s.tasks.Keys <= {0} && forall t | t in s.tasks :: s.tasks[t].op == Connect)
  }

  lemma ShapedStep(s: State, e: Event, max: nat)
    requires Shaped(s) && Enabled(s, e)
    ensures Shaped(Apply(s, e, max))
  {
    if e.Go? {
      FitsStretch(s.inner, s.tasks[e.t], e.reply, max);
    }
  }

  predicate KeepsFit(c: Inner, k: Task, r: Stretch) {
    && (r.task.Some? ==> Fits(r.task.value) && r.task.value.op == k.op)
    && (r.inner.open == c.open || (k.op == Connect && r.inner.open && r.task == None))
  }

  lemma FitsReconnect(c: Inner, k: Task, max: nat)
    requires Fits(k) && Reconnects(k.pc)
    ensures KeepsFit(c, k, RunReconnect(c, k, max))
  {
  }

  lemma FitsHandshake(c: Inner, k: Task, reply: Reply)
    requires Fits(k) && Handshakes(k.pc)
    ensures KeepsFit(c, k, RunHandshake(c, k, reply))
  {
  }

  lemma FitsStretch(c: Inner, k: Task, reply: Reply, max: nat)
    requires Fits(k)
    ensures KeepsFit(c, k, Run(c, k, reply, max))
  {
    if Reconnects(k.pc) {
      FitsReconnect(c, k, max);
    } else if Handshakes(k.pc) {
      FitsHandshake(c, k, reply);
    } else if Disconnecting(k.pc) {
      assert KeepsFit(c, k, RunDisconnect(c, k));
    } else {
      assert KeepsFit(c, k, RunCall(c, k, reply));
    }
  }

  /** What a suspended task says about the seal. */
  predicate SealedTask(c: Inner, k: Task) {
    && (Disconnecting(k.pc) ==> c.closed)
    && (k.pc.TakeTx? || k.pc.MarkDisconnected? || k.pc.Close? ==> c.past.taken)
    && (k.pc.MarkDisconnected? ==> !c.tx)
    && (c.past.taken ==> !k.pc.Publish?)
  }

  predicate SealedInner(c: Inner) {
    && (c.past.taken ==> c.closed && c.service == None)
    && (c.past.down ==> c.past.taken && !c.tx && c.conn != Connected)
  }

  ghost predicate Sealed(s: State) {
    SealedInner(s.inner) && forall t | t in s.tasks :: SealedTask(s.inner, s.tasks[t])
  }

  predicate KeepsSeal(r: Stretch) {
    SealedInner(r.inner) && (r.task.Some? ==> SealedTask(r.inner, r.task.value))
  }

  lemma SealedReconnect(c: Inner, k: Task, max: nat)
    requires SealedInner(c) && SealedTask(c, k) && Reconnects(k.pc)
    ensures KeepsSeal(RunReconnect(c, k, max))
  {
  }

  lemma SealedHandshake(c: Inner, k: Task, reply: Reply)
    requires SealedInner(c) && SealedTask(c, k) && Handshakes(k.pc)
    ensures KeepsSeal(RunHandshake(c, k, reply))
  {
  }

  /** One stretch keeps the seal for the task that makes it. */
  lemma SealedStretch(c: Inner, k: Task, reply: Reply, max: nat)
    requires SealedInner(c) && SealedTask(c, k)
    ensures KeepsSeal(Run(c, k, reply, max))
  {
    if Reconnects(k.pc) {
      SealedReconnect(c, k, max);
    } else if Handshakes(k.pc) {
      SealedHandshake(c, k, reply);
    } else if Disconnecting(k.pc) {
      assert KeepsSeal(RunDisconnect(c, k));
    } else {
      assert KeepsSeal(RunCall(c, k, reply));
    }
  }

  /** From one shared state to a later one: the seal is never broken, and under it the slot is only ever emptied. */
  predicate SealKept(c: Inner, d: Inner) {
    && (c.closed ==> d.closed && d.past.published == c.past.published && (d.service == c.service || d.service == None))
    && (c.past.taken ==> d.past.taken)
    && (c.past.down ==> d.past.down)
  }

  predicate KeepsPast(c: Inner, k: Task, d: Inner) {
    && SealKept(c, d)
    && (!c.tx ==> !d.tx)
    && (d.past.taken != c.past.taken ==> k.pc.TakeService?)
  }

  lemma SealIsForGood(c: Inner, k: Task, reply: Reply, max: nat)
    requires SealedInner(c) && SealedTask(c, k)
    ensures KeepsPast(c, k, Run(c, k, reply, max).inner)
  {
    if Reconnects(k.pc) {
      assert KeepsPast(c, k, RunReconnect(c, k, max).inner);
    } else if Handshakes(k.pc) {
      assert KeepsPast(c, k, RunHandshake(c, k, reply).inner);
    } else if Disconnecting(k.pc) {
      assert KeepsPast(c, k, RunDisconnect(c, k).inner);
    } else {
      assert KeepsPast(c, k, RunCall(c, k, reply).inner);
    }
  }

  lemma SealedStep(s: State, e: Event, max: nat)
    requires Exclusive(s) && Shaped(s) && Sealed(s) && Enabled(s, e)
    ensures Sealed(Apply(s, e, max))
    ensures SealKept(s.inner, Apply(s, e, max).inner)
  {
    if e.Go? {
      SealedStretch(s.inner, s.tasks[e.t], e.reply, max);
      SealIsForGood(s.inner, s.tasks[e.t], e.reply, max);
      if s.tasks[e.t].pc.TakeService? {
        assert Holds(s.tasks[e.t], ServiceLock);
        assert forall u | u in s.tasks && s.tasks[u].pc.Publish? :: Holds(s.tasks[u], ServiceLock);
      }
    }
  }

  // ---------------------------------------------------------------- no orphan

  ghost predicate InHand(s: State, x: Service) {
    exists t :: t in s.tasks && Owned(s.tasks[t].pc) == Some(x)
  }

  /** The slot holds a published service, and what is published has been handshaken. */
  ghost predicate Catalogued(c: Inner) {
    && (c.service.Some? ==> c.service.value in c.past.published)
    && forall x | x in c.past.published :: x < c.next
  }

  predicate NewTask(c: Inner, k: Task) {
    && (Owned(k.pc).Some? ==> Owned(k.pc).value < c.next)
    && (Owned(k.pc).Some? ==> Owned(k.pc) != c.service)
    && (Owned(k.pc).Some? ==> (k.pc.Install? || k.pc.CloseLate? <==> Owned(k.pc).value !in c.past.published))
  }

  /** Every live service is in the slot or in the hands of a task, and a service to publish is new. */
  ghost predicate Accounted(s: State) {
    && (forall x | x in s.inner.live :: s.inner.service == Some(x) || InHand(s, x))
    && Catalogued(s.inner)
    && (forall t | t in s.tasks :: NewTask(s.inner, s.tasks[t]))
    && (forall t, u | t in s.tasks && u in s.tasks && t != u && Owned(s.tasks[t].pc).Some? ::
          Owned(s.tasks[t].pc) != Owned(s.tasks[u].pc))
  }

  function Holding(r: Stretch): Option<Service> {
    if r.task.Some? then Owned(r.task.value.pc) else None
  }

  /** Where a service `x` live after the stretch can be: the slot, the task's hands, or elsewhere as before. */
  predicate Accounts(c: Inner, k: Task, r: Stretch, x: Service) {
    x in r.inner.live ==> r.inner.service == Some(x) || Holding(r) == Some(x)
                          || (x in c.live && c.service != Some(x) && Owned(k.pc) != Some(x))
  }

  /** A service changes hands only between the slot and the task, or is new. */
  ghost predicate HandsOver(c: Inner, k: Task, r: Stretch) {
    && Catalogued(r.inner)
    && c.next <= r.inner.next
    && (r.task.Some? ==> NewTask(r.inner, r.task.value))
    && (Holding(r) == None || Holding(r) == Owned(k.pc) || Holding(r) == c.service || Holding(r) == Some(c.next))
    && (r.inner.service == c.service || r.inner.service == None || (r.inner.service == Owned(k.pc) && Holding(r) == None))
    && (r.inner.past.published == c.past.published
        || (k.pc.Install? && r.inner.past.published == c.past.published + {k.pc.svc}))
  }

  lemma AccountedStretch(c: Inner, k: Task, reply: Reply, max: nat, x: Service)
    requires Catalogued(c) && NewTask(c, k)
    ensures HandsOver(c, k, Run(c, k, reply, max)) && Accounts(c, k, Run(c, k, reply, max), x)
  {
    if Reconnects(k.pc) {
      AccountedReconnect(c, k, max, x);
    } else if Handshakes(k.pc) {
      AccountedHandshake(c, k, reply, x);
    } else if Disconnecting(k.pc) {
      AccountedDisconnect(c, k, x);
    } else {
      assert HandsOver(c, k, RunCall(c, k, reply)) && Accounts(c, k, RunCall(c, k, reply), x);
    }
  }

  lemma AccountedReconnect(c: Inner, k: Task, max: nat, x: Service)
    requires Catalogued(c) && NewTask(c, k) && Reconnects(k.pc)
    ensures HandsOver(c, k, RunReconnect(c, k, max)) && Accounts(c, k, RunReconnect(c, k, max), x)
  {
  }

  lemma AccountedHandshake(c: Inner, k: Task, reply: Reply, x: Service)
    requires Catalogued(c) && NewTask(c, k) && Handshakes(k.pc)
    ensures HandsOver(c, k, RunHandshake(c, k, reply)) && Accounts(c, k, RunHandshake(c, k, reply), x)
  {
  }

  lemma AccountedDisconnect(c: Inner, k: Task, x: Service)
    requires Catalogued(c) && NewTask(c, k) && Disconnecting(k.pc)
    ensures HandsOver(c, k, RunDisconnect(c, k)) && Accounts(c, k, RunDisconnect(c, k), x)
  {
  }

  /** The task an event moves, as it was. */
  function Moved(s: State, e: Event): Task
    requires Enabled(s, e) && !e.Die?
  {
    if e.Spawn? then Task(e.op, Start(e.op), false, 0, 0, 0) else s.tasks[e.t]
  }

  lemma AccountedEffect(s: State, e: Event, max: nat, x: Service)
    requires Accounted(s) && Enabled(s, e) && !e.Die?
    ensures HandsOver(s.inner, Moved(s, e), Effect(s, e, max))
    ensures Accounts(s.inner, Moved(s, e), Effect(s, e, max), x)
  {
    if e.Go? {
      AccountedStretch(s.inner, s.tasks[e.t], e.reply, max, x);
    }
  }

  lemma StillFound(s: State, e: Event, max: nat, x: Service)
    requires Accounted(s) && Enabled(s, e) && x in Apply(s, e, max).inner.live
    ensures var s' := Apply(s, e, max); s'.inner.service == Some(x) || InHand(s', x)
  {
    var s' := Apply(s, e, max);
    if e.Die? {
      assert s'.tasks == s.tasks;
    } else {
      AccountedEffect(s, e, max, x);
      if Holding(Effect(s, e, max)) == Some(x) {
        assert e.t in s'.tasks && Owned(s'.tasks[e.t].pc) == Some(x);
      } else if s'.inner.service != Some(x) {
        var u :| u in s.tasks && Owned(s.tasks[u].pc) == Some(x);
        assert u in s'.tasks && s'.tasks[u] == s.tasks[u];
      }
    }
  }

  lemma HandsStayApart(s: State, e: Event, max: nat)
    requires Accounted(s) && Enabled(s, e)
    ensures Catalogued(Apply(s, e, max).inner)
    ensures var s' := Apply(s, e, max);
            && (forall t | t in s'.tasks :: NewTask(s'.inner, s'.tasks[t]))
            && (forall t, u | t in s'.tasks && u in s'.tasks && t != u && Owned(s'.tasks[t].pc).Some? ::
                  Owned(s'.tasks[t].pc) != Owned(s'.tasks[u].pc))
  {
    if !e.Die? {
      AccountedEffect(s, e, max, 0);
    }
  }

  lemma AccountedStep(s: State, e: Event, max: nat)
    requires Accounted(s) && Enabled(s, e)
    ensures Accounted(Apply(s, e, max))
  {
    forall x | x in Apply(s, e, max).inner.live
      ensures Apply(s, e, max).inner.service == Some(x) || InHand(Apply(s, e, max), x)
    {
      StillFound(s, e, max, x);
    }
    HandsStayApart(s, e, max);
  }
}
