/** What can follow a state of `McpClient`: sequences of events that can happen from it, and where they lead. */
module McpClientContinuations {
  import opened Wrappers
  import opened McpClient

  // ---------------------------------------------------------------- going on from a state

  /** These events can happen, one after another, from here on. */
  ghost predicate Plays(s: State, es: seq<Event>, max: nat)
    decreases |es|
  {
    es == [] || (Enabled(s, es[0]) && Plays(Apply(s, es[0], max), es[1..], max))
  }

  ghost function After(s: State, es: seq<Event>, max: nat): State
    requires Plays(s, es, max)
    decreases |es|
  {
    if es == [] then s else After(Apply(s, es[0], max), es[1..], max)
  }

  lemma PlaysOne(s: State, e: Event, es: seq<Event>, max: nat)
    requires Enabled(s, e) && Plays(Apply(s, e, max), es, max)
    ensures Plays(s, [e] + es, max) && After(s, [e] + es, max) == After(Apply(s, e, max), es, max)
  {
    assert ([e] + es)[1..] == es;
  }

  lemma {:induction false} PlaysOn(s: State, a: seq<Event>, b: seq<Event>, max: nat)
    requires Plays(s, a, max) && Plays(After(s, a, max), b, max)
    ensures Plays(s, a + b, max) && After(s, a + b, max) == After(After(s, a, max), b, max)
    decreases |a|
  {
    if a == [] {
      assert a + b == b;
    } else {
      PlaysOn(Apply(s, a[0], max), a[1..], b, max);
      assert (a + b)[1..] == a[1..] + b;
    }
  }

  /** Some events lead from one state to the other. */
  ghost predicate Leads(s: State, s': State, max: nat) {
    exists es :: Plays(s, es, max) && After(s, es, max) == s'
  }

  lemma LeadsByOne(s: State, e: Event, max: nat)
    requires Enabled(s, e)
    ensures Leads(s, Apply(s, e, max), max)
  {
    var s' := Apply(s, e, max);
    assert Plays(s', [], max) && After(s', [], max) == s';
    PlaysOne(s, e, [], max);
  }

  lemma LeadsOn(s: State, s': State, s'': State, max: nat)
    requires Leads(s, s', max) && Leads(s', s'', max)
    ensures Leads(s, s'', max)
  {
    var a :| Plays(s, a, max) && After(s, a, max) == s';
    var b :| Plays(s', b, max) && After(s', b, max) == s'';
    PlaysOn(s, a, b, max);
  }

  /** A run goes on with any events that can happen from its last state. */
  lemma {:induction false} RunGoesOn(tr: seq<State>, es: seq<Event>, more: seq<Event>, max: nat)
    returns (tr': seq<State>)
    requires IsRun(tr, es, max) && Plays(tr[|es|], more, max)
    ensures IsRun(tr', es + more, max) && tr <= tr' && tr'[|es + more|] == After(tr[|es|], more, max)
    decreases |more|
  {
    if more == [] {
      tr' := tr;
      assert es + more == es;
    } else {
      var next := Apply(tr[|es|], more[0], max);
      var tr1, es1 := tr + [next], es + [more[0]];
      forall i: nat | i < |es1| ensures StepAt(tr1, es1, max, i) {
        if i < |es| { assert StepAt(tr, es, max, i); }
      }
      tr' := RunGoesOn(tr1, es1, more[1..], max);
      assert es1 + more[1..] == es + more;
    }
  }

  /** What leads on from the beginning is the last state of a run. */
  lemma Reached(s: State, max: nat) returns (tr: seq<State>, es: seq<Event>)
    requires Leads(Initial(), s, max)
    ensures IsRun(tr, es, max) && tr[|es|] == s
  {
    es :| Plays(Initial(), es, max) && After(Initial(), es, max) == s;
    tr := RunGoesOn([Initial()], [], es, max);
    assert [] + es == es;
  }

  lemma LeadsByOneMore(s: State, s': State, e: Event, max: nat)
    requires Leads(s, s', max) && Enabled(s', e)
    ensures Leads(s, Apply(s', e, max), max)
  {
    LeadsByOne(s', e, max);
    LeadsOn(s, s', Apply(s', e, max), max);
  }

  /** What `t` can do by itself: go on, run out of time, and see the others dropped. */
  predicate Own(e: Event, t: nat) {
    if e.Drop? then e.t != t else (e.Grant? || e.Go? || e.Deadline?) && e.t == t
  }

  ghost predicate AllOwn(es: seq<Event>, t: nat) {
    forall i | 0 <= i < |es| :: Own(es[i], t)
  }

  /** Events of `t`'s own lead from one state to the other. */
  ghost predicate LeadsBy(s: State, s': State, t: nat, max: nat) {
    exists es :: Plays(s, es, max) && After(s, es, max) == s' && AllOwn(es, t)
  }

  lemma LeadsByIsLeads(s: State, s': State, t: nat, max: nat)
    requires LeadsBy(s, s', t, max)
    ensures Leads(s, s', max)
  {
    var es :| Plays(s, es, max) && After(s, es, max) == s' && AllOwn(es, t);
  }

  lemma LeadsByOn(s: State, s': State, s'': State, t: nat, max: nat)
    requires LeadsBy(s, s', t, max) && LeadsBy(s', s'', t, max)
    ensures LeadsBy(s, s'', t, max)
  {
    var a :| Plays(s, a, max) && After(s, a, max) == s' && AllOwn(a, t);
    var b :| Plays(s', b, max) && After(s', b, max) == s'' && AllOwn(b, t);
    PlaysOn(s, a, b, max);
    assert AllOwn(a + b, t);
  }

  /** Every other task can be dropped: what the others held is gone, and the rest is as it was. */
  lemma {:induction false} DropTheOthers(s: State, t: nat, max: nat) returns (es: seq<Event>)
    requires t in s.tasks
    ensures Plays(s, es, max) && AllOwn(es, t) && After(s, es, max).tasks == map[t := s.tasks[t]]
    ensures var s' := After(s, es, max);
            s'.inner == s.inner.(live := s'.inner.live) && s'.inner.live <= s.inner.live
    decreases |s.tasks|
  {
    if u :| u in s.tasks && u != t {
      var s' := Apply(s, Drop(u), max);
      assert s'.tasks == s.tasks - {u};
      assert s'.tasks.Keys < s.tasks.Keys;
      es := DropTheOthers(s', t, max);
      PlaysOne(s, Drop(u), es, max);
      es := [Drop(u)] + es;
    } else {
      assert s.tasks == map[t := s.tasks[t]];
      es := [];
    }
  }

  /** The state after a task has been handed its lock and has run on. */
  function Onward(s: State, t: nat, reply: Reply, max: nat): State
    requires t in s.tasks
  {
    var r := Run(s.inner, s.tasks[t].(granted := true), reply, max);
    State(r.inner, if r.task.Some? then s.tasks[t := r.task.value] else s.tasks - {t})
  }

  lemma GrantAndGo(s0: State, s: State, t: nat, reply: Reply, max: nat)
    requires Leads(s0, s, max) && Enabled(s, Grant(t))
    ensures Leads(s0, Onward(s, t, reply, max), max)
  {
    var s1 := Apply(s, Grant(t), max);
    LeadsByOneMore(s0, s, Grant(t), max);
    LeadsByOneMore(s0, s1, Go(t, reply), max);
    var r := Run(s.inner, s1.tasks[t], reply, max);
    if r.task.Some? {
      assert s1.tasks[t := r.task.value] == s.tasks[t := r.task.value];
    } else {
      assert s1.tasks - {t} == s.tasks - {t};
    }
    assert Apply(s1, Go(t, reply), max) == Onward(s, t, reply, max);
  }

  /** Lists waiting for an answer: they hold nothing and wait for nobody. */
  predicate Waiting(others: map<nat, Task>) {
    forall u | u in others :: others[u].op == ListTools && others[u].pc.Request? && !others[u].granted
  }

  function Among(c: Inner, others: map<nat, Task>, t: nat, k: Task): State {
    State(c, others[t := k])
  }

  function Left(r: Stretch, others: map<nat, Task>, t: nat): State {
    if r.task.Some? then Among(r.inner, others, t, r.task.value) else State(r.inner, others)
  }

  /** One stretch of a task, handed the lock it waits for if it waits for one. */
  function Goes(c: Inner, k: Task, reply: Reply, max: nat): Stretch {
    Run(c, if Waits(k.pc).Some? then k.(granted := true) else k, reply, max)
  }

  /** The only busy task can always go on. */
  lemma BusyPlays(c: Inner, others: map<nat, Task>, t: nat, k: Task, reply: Reply, max: nat) returns (es: seq<Event>)
    requires t !in others && Waiting(others)
    ensures Plays(Among(c, others, t, k), es, max) && AllOwn(es, t)
    ensures After(Among(c, others, t, k), es, max) == Left(Goes(c, k, reply, max), others, t)
  {
    var s, r := Among(c, others, t, k), Goes(c, k, reply, max);
    var s' := Left(r, others, t);
    assert Plays(s', [], max) && After(s', [], max) == s';
    if Ready(k) {
      assert k == if Waits(k.pc).Some? then k.(granted := true) else k;
      GoLeaves(c, others, t, k, reply, max);
      PlaysOne(s, Go(t, reply), [], max);
      es := [Go(t, reply)];
    } else {
      var k1 := k.(granted := true);
      GoLeaves(c, others, t, k1, reply, max);
      PlaysOne(Among(c, others, t, k1), Go(t, reply), [], max);
      assert others[t := k][t := k1] == others[t := k1];
      PlaysOne(s, Grant(t), [Go(t, reply)], max);
      es := [Grant(t), Go(t, reply)];
    }
  }

  lemma GoLeaves(c: Inner, others: map<nat, Task>, t: nat, k: Task, reply: Reply, max: nat)
    requires t !in others && Ready(k)
    ensures Enabled(Among(c, others, t, k), Go(t, reply))
    ensures Apply(Among(c, others, t, k), Go(t, reply), max) == Left(Run(c, k, reply, max), others, t)
  {
    var r := Run(c, k, reply, max);
    if r.task.Some? {
      assert others[t := k][t := r.task.value] == others[t := r.task.value];
    } else {
      assert others[t := k] - {t} == others;
    }
  }

  lemma BusyGoes(s0: State, c: Inner, others: map<nat, Task>, t: nat, k: Task, reply: Reply, max: nat)
    requires Leads(s0, Among(c, others, t, k), max) && t !in others && Waiting(others)
    ensures Leads(s0, Left(Goes(c, k, reply, max), others, t), max)
  {
    var es := BusyPlays(c, others, t, k, reply, max);
    LeadsOn(s0, Among(c, others, t, k), Left(Goes(c, k, reply, max), others, t), max);
  }

  function Lone(c: Inner, t: nat, k: Task): State {
    Among(c, map[], t, k)
  }

  lemma LoneGoes(s0: State, c: Inner, t: nat, k: Task, reply: Reply, max: nat)
    requires LeadsBy(s0, Lone(c, t, k), t, max)
    ensures LeadsBy(s0, Left(Goes(c, k, reply, max), map[], t), t, max)
  {
    var es := BusyPlays(c, map[], t, k, reply, max);
    LeadsByOn(s0, Lone(c, t, k), Left(Goes(c, k, reply, max), map[], t), t, max);
  }

  lemma LoneGoesTo(s0: State, c: Inner, t: nat, k: Task, reply: Reply, max: nat, c': Inner, k': Task)
    requires LeadsBy(s0, Lone(c, t, k), t, max) && Goes(c, k, reply, max) == Stretch(c', Some(k'))
    ensures LeadsBy(s0, Lone(c', t, k'), t, max)
  {
    LoneGoes(s0, c, t, k, reply, max);
  }

  lemma LeadsByNothing(s: State, t: nat, max: nat)
    ensures LeadsBy(s, s, t, max)
  {
    assert Plays(s, [], max) && After(s, [], max) == s && AllOwn([], t);
  }
}
