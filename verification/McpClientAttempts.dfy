/** The attempt counter: how many reconnects are granted between two resets, and how long a list loop runs. */
module McpClientAttempts {
  import opened Wrappers
  import opened McpClient

  function Min(a: nat, b: nat): nat {
    if a <= b then a else b
  }

  /**
   How many of the first `asked` reconnects after a reset are granted. The counter is a `u32`, so
   the request numbered 2^32 finds it back at 0 and is granted again.
   */
  function Granted(asked: nat, max: nat): nat {
    (asked / U32) * (max + 1) + Min(asked % U32, max)
  }

  lemma GrantedNext(asked: nat, max: nat)
    requires max < U32
    ensures Granted(asked + 1, max) == Granted(asked, max) + if (asked + 1) % U32 <= max then 1 else 0
    ensures (asked % U32 + 1) % U32 == (asked + 1) % U32
  {
    var q, r := asked / U32, asked % U32;
    if r + 1 < U32 {
      assert (asked + 1) / U32 == q && (asked + 1) % U32 == r + 1;
    } else {
      assert (asked + 1) / U32 == q + 1 && (asked + 1) % U32 == 0;
      assert (q + 1) * (max + 1) == q * (max + 1) + max + 1;
    }
  }

  /** The bound the configuration promises holds exactly until the counter wraps. */
  lemma GrantsBounded(asked: nat, max: nat)
    requires max < U32
    ensures Granted(asked, max) <= max <==> asked < U32
  {
    if asked >= U32 {
      assert (asked / U32) * (max + 1) >= 1 * (max + 1);
    }
  }

  predicate CountedInner(c: Inner, max: nat) {
    c.attempts == c.past.asked % U32 && c.past.grants == Granted(c.past.asked, max)
  }

  /** A list loop has sent at most one request more than the reconnects it was granted. */
  predicate CountedTask(c: Inner, k: Task) {
    k.op == ListTools ==>
      && k.epoch <= c.past.resets
      && (k.epoch == c.past.resets ==> k.mine <= c.past.grants)
      && k.sent <= k.mine + if k.pc.Request? || k.pc.ReadState? || k.pc.FailState? then 1 else 0
  }

  ghost predicate Counted(s: State, max: nat) {
    CountedInner(s.inner, max) && forall t | t in s.tasks :: CountedTask(s.inner, s.tasks[t])
  }

  /** A stretch either resets the counter, or only raises what was granted. */
  predicate Counts(c: Inner, k: Task, r: Stretch, max: nat) {
    && CountedInner(r.inner, max)
    && (r.task.Some? ==> CountedTask(r.inner, r.task.value))
    && (r.inner.past.resets > c.past.resets
        || (r.inner.past.resets == c.past.resets && r.inner.past.grants >= c.past.grants))
  }

  lemma CountedAttempt(c: Inner, k: Task, max: nat)
    requires max < U32 && CountedInner(c, max)
    ensures CountedInner(CountAttempt(c, k, max).inner, max)
  {
    GrantedNext(c.past.asked, max);
  }

  lemma CountedReconnect(c: Inner, k: Task, max: nat)
    requires max < U32 && CountedInner(c, max) && CountedTask(c, k) && Reconnects(k.pc)
    ensures Counts(c, k, RunReconnect(c, k, max), max)
  {
    CountedAttempt(c, k, max);
  }

  lemma CountedHandshake(c: Inner, k: Task, reply: Reply, max: nat)
    requires CountedInner(c, max) && CountedTask(c, k) && Handshakes(k.pc)
    ensures Counts(c, k, RunHandshake(c, k, reply), max)
  {
  }

  lemma CountedCall(c: Inner, k: Task, reply: Reply, max: nat)
    requires CountedInner(c, max) && CountedTask(c, k)
    requires !Reconnects(k.pc) && !Handshakes(k.pc) && !Disconnecting(k.pc)
    ensures Counts(c, k, RunCall(c, k, reply), max)
  {
  }

  lemma CountedStretch(c: Inner, k: Task, reply: Reply, max: nat)
    requires max < U32 && CountedInner(c, max) && CountedTask(c, k)
    ensures Counts(c, k, Run(c, k, reply, max), max)
  {
    if Reconnects(k.pc) {
      CountedReconnect(c, k, max);
    } else if Handshakes(k.pc) {
      CountedHandshake(c, k, reply, max);
    } else if Disconnecting(k.pc) {
      assert Counts(c, k, RunDisconnect(c, k), max);
    } else {
      CountedCall(c, k, reply, max);
    }
  }

  lemma CountedStep(s: State, e: Event, max: nat)
    requires max < U32 && Counted(s, max) && Enabled(s, e)
    ensures Counted(Apply(s, e, max), max)
  {
    if e.Go? {
      CountedStretch(s.inner, s.tasks[e.t], e.reply, max);
    }
  }
}
