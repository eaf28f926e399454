/**
 The connection protocol of the MCP client (crates/openalpaca_mcp/src/client.rs).

 Any number of clones share one `ClientInner`. An operation on a clone is a *task*: it runs
 without interruption from one `.await` to the next, and at every `.await` it may be delayed,
 overtaken, or dropped for good. `State` is the shared inner plus the tasks in flight; an `Event`
 is one such stretch of one task, a lock being handed to a waiter, a deadline, a drop, or a
 transport dying. A run is any sequence of enabled events, so a fact about all runs is a fact
 about all interleavings.
 */
module McpClient {
  import opened Wrappers

  const U32: nat := 0x1_0000_0000

  /** The four locks, in the order every task takes them. */
  datatype Lock = ReconnectLock | ServiceLock | ChangesLock | StateLock

  function Rank(l: Lock): nat {
    match l
    case ReconnectLock => 0
    case ServiceLock => 1
    case ChangesLock => 2
    case StateLock => 3
  }

  datatype Conn = Connecting | Connected | Reconnecting(attempt: nat) | Disconnected | Failed

  datatype Op = Connect | CallTool | ListTools | Disconnect

  /** A handshaken service, named by the order of its handshake. */
  type Service = nat

  /** Where a task is suspended: the `.await` it will resume from. */
  datatype Pc =
    // reconnect
    | ReadState                                    // state.read()
    | FailState                                    // state.write(), to say Failed
    | TakeOld(attempt: nat)                        // service.lock(), to take the old service
    | CloseOld(attempt: nat, svc: Service)         // closing what was taken
    | MarkReconnecting(attempt: nat)               // state.write(), to say Reconnecting
    | Sleep                                        // the backoff
    // do_handshake and install_service
    | Dial                                         // transport.connect()
    | CloneTx                                      // changes_tx.lock()
    | Serve                                        // the handshake itself
    | Install(svc: Service)                        // service.lock(), to publish
    | Publish                                      // state.write(), under the service guard
    | CloseLate(svc: Service)                      // closing a service a sealed client refused
    // call_tool and list_tools
    | CheckLive                                    // service.lock(), in service_is_live
    | LockReconnect                                // reconnect_lock.lock()
    | RecheckLive                                  // service.lock(), under the reconnect lock
    | GetPeer                                      // service.lock(), in current_peer
    | Request(svc: Service)                        // the request on the cloned peer
    // disconnect
    | TakeService                                  // service.lock()
    | TakeTx(taken: Option<Service>)               // changes_tx.lock(), under the service guard
    | MarkDisconnected(taken: Option<Service>)     // state.write(), under the service guard
    | Close(svc: Service)                          // the close, under the service guard

  /**
   One operation in flight. `granted`: the lock it waits for has been handed to it and it has not
   run since. The last three fields are history: list requests sent, reconnects granted to this
   task, and how often the attempt counter had been reset when it began.
   */
  datatype Task = Task(op: Op, pc: Pc, granted: bool, sent: nat, mine: nat, epoch: nat)

  /**
   What happened, for stating properties: whether a `disconnect` has taken the service and whether
   one has written its state; every service ever published; and, since the attempt counter was
   last reset, the reconnects asked for and granted.
   */
  datatype History = History(
    taken: bool, down: bool, published: set<Service>, asked: nat, grants: nat, resets: nat)

  /**
   The shared `ClientInner`. `open`: `connect` has returned a client that can be cloned. `live`:
   the services whose transport has not closed. `next` names the next handshake's service.
   */
  datatype Inner = Inner(
    open: bool, closed: bool, service: Option<Service>, live: set<Service>, conn: Conn,
    attempts: nat, tx: bool, next: Service, past: History)

  datatype State = State(inner: Inner, tasks: map<nat, Task>)

  /** One stretch of a task: the shared state it leaves, and where it is suspended next, if at all. */
  datatype Stretch = Stretch(inner: Inner, task: Option<Task>)

  datatype Reply = Good | Retriable | Fatal

  datatype Event =
    | Spawn(t: nat, op: Op)
    | Grant(t: nat)
    | Go(t: nat, reply: Reply)
    | Deadline(t: nat)
    | Drop(t: nat)
    | Die(svc: Service)

  // ---------------------------------------------------------------- locks

  function Waits(pc: Pc): Option<Lock> {
    match pc
    case ReadState | FailState | MarkReconnecting(_) | Publish | MarkDisconnected(_) => Some(StateLock)
    case TakeOld(_) | Install(_) | CheckLive | RecheckLive | GetPeer | TakeService => Some(ServiceLock)
    case LockReconnect => Some(ReconnectLock)
    case CloneTx | TakeTx(_) => Some(ChangesLock)
    case _ => None
  }

  predicate Reconnects(pc: Pc) {
    pc.ReadState? || pc.FailState? || pc.TakeOld? || pc.CloseOld? || pc.MarkReconnecting? || pc.Sleep?
  }

  predicate Handshakes(pc: Pc) {
    pc.Dial? || pc.CloneTx? || pc.Serve? || pc.Install? || pc.Publish? || pc.CloseLate?
  }

  /** Inside `reconnect`, handshake included, which `call_tool` enters under the reconnect lock. */
  predicate Respawning(pc: Pc) {
    Reconnects(pc) || Handshakes(pc)
  }

  predicate Disconnecting(pc: Pc) {
    pc.TakeService? || pc.TakeTx? || pc.MarkDisconnected? || pc.Close?
  }

  /** The lock's guard is a live local of the suspended task. */
  predicate Keeps(k: Task, l: Lock) {
    match l
    case ServiceLock => k.pc.Publish? || k.pc.TakeTx? || k.pc.MarkDisconnected? || k.pc.Close?
    case ReconnectLock => k.op == CallTool && (k.pc.RecheckLive? || Respawning(k.pc))
    case _ => false
  }

  predicate Holds(k: Task, l: Lock) {
    Keeps(k, l) || (k.granted && Waits(k.pc) == Some(l))
  }

  /** The state lock is a reader-writer lock; `reconnect`'s look at the state is its one reader. */
  predicate Shared(k: Task, l: Lock) {
    l == StateLock && k.pc.ReadState?
  }

  predicate Blocks(u: Task, k: Task, l: Lock) {
    Holds(u, l) && !(Shared(u, l) && Shared(k, l))
  }

  // ---------------------------------------------------------------- one stretch of a task

  /** The service a task owns: dropping the task drops it, which ends its transport. */
  function Owned(pc: Pc): Option<Service> {
    match pc
    case CloseOld(_, x) => Some(x)
    case Install(x) => Some(x)
    case CloseLate(x) => Some(x)
    case TakeTx(had) => had
    case MarkDisconnected(had) => had
    case Close(x) => Some(x)
    case _ => None
  }

  /** The transports left once `svc` is dropped or closed. */
  function Without(live: set<Service>, svc: Option<Service>): set<Service> {
    if svc.Some? then live - {svc.value} else live
  }

  predicate ServiceIsLive(c: Inner) {
    c.service.Some? && c.service.value in c.live
  }

  function To(c: Inner, k: Task, pc: Pc): Stretch {
    Stretch(c, Some(k.(pc := pc, granted := false)))
  }

  function End(c: Inner, k: Task): Stretch {
    Stretch(c.(live := Without(c.live, Owned(k.pc))), None)
  }

  /** `reconnect` up to its first await: a sealed client refuses at the door. */
  function EnterReconnect(c: Inner, k: Task): Stretch {
    if c.closed then End(c, k) else To(c, k, ReadState)
  }

  /** `reconnect` between its look at the state and its next await; the counter is a `u32`. */
  function CountAttempt(c: Inner, k: Task, max: nat): Stretch {
    var attempt := (c.attempts + 1) % U32;
    var granted := attempt <= max;
    var past := c.past.(asked := c.past.asked + 1, grants := c.past.grants + if granted then 1 else 0);
    var c1 := c.(attempts := attempt, past := past);
    if granted then To(c1, k.(mine := k.mine + 1), TakeOld(attempt)) else To(c1, k, FailState)
  }

  function RunReconnect(c: Inner, k: Task, max: nat): Stretch
    requires Reconnects(k.pc)
  {
    match k.pc
    case ReadState =>
      if c.conn.Disconnected? || c.conn.Failed? then End(c, k) else CountAttempt(c, k, max)
    case FailState => End(c.(conn := Failed), k)
    case TakeOld(a) =>
      To(c.(service := None), k, if c.service.Some? then CloseOld(a, c.service.value) else MarkReconnecting(a))
    case CloseOld(a, x) => To(c.(live := c.live - {x}), k, MarkReconnecting(a))
    case MarkReconnecting(a) => To(c.(conn := Reconnecting(a)), k, Sleep)
    case Sleep => To(c, k, Dial)
  }

  /** Publish a service: overwriting the slot drops, and so ends, whatever was in it. */
  function PublishService(c: Inner, x: Service): Inner {
    c.(live := Without(c.live, c.service), service := Some(x), past := c.past.(published := c.past.published + {x}))
  }

  function RunHandshake(c: Inner, k: Task, reply: Reply): Stretch
    requires Handshakes(k.pc)
  {
    match k.pc
    case Dial => if reply.Good? then To(c, k, CloneTx) else End(c, k)
    case CloneTx => To(c, k, Serve)
    case Serve =>
      if reply.Good? then To(c.(live := c.live + {c.next}, next := c.next + 1), k, Install(c.next)) else End(c, k)
    case Install(x) =>
      if c.closed then To(c, k, CloseLate(x)) else To(PublishService(c, x), k, Publish)
    case Publish =>
      // Back to connect's caller, to the request, or to the list loop.
      if k.op == Connect then End(c.(conn := Connected, open := true), k) else To(c.(conn := Connected), k, GetPeer)
    case CloseLate(_) => End(c, k)
  }

  function RunCall(c: Inner, k: Task, reply: Reply): Stretch
    requires k.pc.CheckLive? || k.pc.LockReconnect? || k.pc.RecheckLive? || k.pc.GetPeer? || k.pc.Request?
  {
    match k.pc
    case CheckLive => To(c, k, if ServiceIsLive(c) then GetPeer else LockReconnect)
    case LockReconnect => To(c, k, RecheckLive)
    case RecheckLive => if ServiceIsLive(c) then To(c, k, GetPeer) else EnterReconnect(c, k)
    case GetPeer =>
      if c.service.Some? then To(c, k.(sent := k.sent + 1), Request(c.service.value))
      else if k.op == ListTools then EnterReconnect(c, k)
      else End(c, k)
    case Request(_) =>
      if reply.Good? then
        var past := c.past.(asked := 0, grants := 0, resets := c.past.resets + 1);
        End(c.(attempts := 0, past := past), k)
      else if reply.Retriable? && k.op == ListTools then EnterReconnect(c, k)
      else End(c, k)
  }

  function RunDisconnect(c: Inner, k: Task): Stretch
    requires Disconnecting(k.pc)
  {
    match k.pc
    case TakeService => To(c.(service := None, past := c.past.(taken := true)), k, TakeTx(c.service))
    case TakeTx(had) => To(c.(tx := false), k, MarkDisconnected(had))
    case MarkDisconnected(had) =>
      var c1 := c.(conn := Disconnected, past := c.past.(down := true));
      if had.Some? then To(c1, k, Close(had.value)) else End(c1, k)
    case Close(_) => End(c, k)
  }

  function Run(c: Inner, k: Task, reply: Reply, max: nat): Stretch {
    if Reconnects(k.pc) then RunReconnect(c, k, max)
    else if Handshakes(k.pc) then RunHandshake(c, k, reply)
    else if Disconnecting(k.pc) then RunDisconnect(c, k)
    else RunCall(c, k, reply)
  }

  function Start(op: Op): Pc {
    match op
    case Connect => Dial
    case CallTool => CheckLive
    case ListTools => GetPeer
    case Disconnect => TakeService
  }

  // ---------------------------------------------------------------- events and runs

  function Initial(): State {
    State(Inner(false, false, None, {}, Connecting, 0, true, 0, History(false, false, {}, 0, 0, 0)),
          map[0 := Task(Connect, Dial, false, 0, 0, 0)])
  }

  /** Can the task run on: it waits for no lock, or has been handed the one it waits for. */
  predicate Ready(k: Task) {
    Waits(k.pc).None? || k.granted
  }

  /** with_cancel_and_timeout wraps the whole of a call, but only the request of a list. */
  predicate Timed(k: Task) {
    k.op == CallTool || (k.op == ListTools && (k.pc.GetPeer? || k.pc.Request?))
  }

  predicate Enabled(s: State, e: Event) {
    match e
    case Spawn(t, op) => s.inner.open && t !in s.tasks && op != Connect
    case Grant(t) =>
      t in s.tasks && !Ready(s.tasks[t])
      && forall u | u in s.tasks && u != t :: !Blocks(s.tasks[u], s.tasks[t], Waits(s.tasks[t].pc).value)
    case Go(t, _) => t in s.tasks && Ready(s.tasks[t])
    case Deadline(t) => t in s.tasks && Timed(s.tasks[t])
    case Drop(t) => t in s.tasks
    case Die(x) => x in s.inner.live
  }

  /** What an event does to the shared state and to the one task it moves. */
  function Effect(s: State, e: Event, max: nat): Stretch
    requires Enabled(s, e) && !e.Die?
  {
    var c := s.inner;
    match e
    case Spawn(t, op) =>
      Stretch(c.(closed := c.closed || op == Disconnect), Some(Task(op, Start(op), false, 0, 0, c.past.resets)))
    case Grant(t) => Stretch(c, Some(s.tasks[t].(granted := true)))
    case Go(t, reply) => Run(c, s.tasks[t], reply, max)
    case Deadline(t) => if s.tasks[t].op == ListTools then EnterReconnect(c, s.tasks[t]) else End(c, s.tasks[t])
    case Drop(t) => End(c, s.tasks[t])
  }

  function Apply(s: State, e: Event, max: nat): State
    requires Enabled(s, e)
  {
    if e.Die? then s.(inner := s.inner.(live := s.inner.live - {e.svc}))
    else
      var r := Effect(s, e, max);
      State(r.inner, if r.task.Some? then s.tasks[e.t := r.task.value] else s.tasks - {e.t})
  }

  ghost predicate StepAt(tr: seq<State>, es: seq<Event>, max: nat, i: nat) {
    i < |es| < |tr| && Enabled(tr[i], es[i]) && tr[i + 1] == Apply(tr[i], es[i], max)
  }

  /** `tr` is a run of the client driven by `es`, from the moment `connect` begins. */
  ghost predicate IsRun(tr: seq<State>, es: seq<Event>, max: nat) {
    && |tr| == |es| + 1
    && tr[0] == Initial()
    && forall i: nat | i < |es| :: StepAt(tr, es, max, i)
  }
}
