/** The turn dispatcher as a state machine. One step is what the event loop runs
    between two suspension points, so the runs of this machine are the interleavings
    of the run loop, of any number of dispatch tasks and direct calls, and of the outside
    world. */
module TurnDispatch {
  const PENDING_QUEUE_SIZE := 20

  type Session = string
  type TaskId = nat
  type LockId = nat

  /** A tracked subagent result comes with a one-shot token; an automation turn waits
      for an idle session. */
  datatype Kind = Ordinary | SubagentResult(token: nat) | AutomationTurn

  /** An inbound message under its effective session key. The flags say how the run
      loop treats it on its way. */
  datatype Msg = Msg(
    id: nat, session: Session, kind: Kind,
    control: bool, requireExisting: bool, priority: bool, command: bool)

  /** What became of a message that left the system. */
  datatype Fate = Rejected | Inline | Injected | Consumed | Cancelled | Stopped

  datatype Outcome = Outcome(msg: Msg, fate: Fate)

  /** Where a task is. A dispatch task holds its session's lock from `Locked` to `Releasing`;
      `Leaving` is the exit of one that never registered a queue. A direct call shares the
      lock, but has no message on the bus, no queue, and nothing to publish at its end. */
  datatype Phase =
    | Created | Waiting | Locked | Running | Draining | Releasing | Leaving
    | DirectWaiting | DirectRunning
    | Done

  datatype Task = Task(msg: Msg, phase: Phase, lock: LockId, queue: seq<Msg>)

  /** The run loop's hand: empty, a message that was accepted, or one that was also
      screened for controls and vanished sessions. */
  datatype Hand = Empty | Accepted(msg: Msg) | Screened(msg: Msg)

  datatype State = State(
    published: seq<Msg>,                 // everything ever admitted to the bus from outside
    bus: seq<Msg>,
    hand: Hand,
    tasks: seq<Task>,
    pending: map<Session, TaskId>,       // `_pending_queues`, by the task that owns the queue
    deferred: map<Session, seq<Msg>>,    // `_deferred_automation_turns`
    locks: map<Session, LockId>,         // `_session_locks`
    holders: map<LockId, TaskId>,
    nextLock: LockId,
    tokens: set<nat>,                    // results that may still be accepted
    cached: set<Session>,                // sessions the session manager has at hand
    outcomes: seq<Outcome>)

  function Initial(): State {
    State([], [], Empty, [], map[], map[], map[], map[], 0, {}, {}, [])
  }

  predicate Accepts(st: State, m: Msg) {
    m.kind.SubagentResult? ==> m.kind.token in st.tokens
  }

  predicate Holds(p: Phase) {
    p.Locked? || p.Running? || p.Draining? || p.Releasing? || p.DirectRunning?
  }

  /** Phases in which a task refers to its lock object. */
  predicate RefersToLock(p: Phase) {
    p.Waiting? || Holds(p) || p.Leaving? || p.DirectWaiting?
  }

  /** Phases in which the task still carries the message it was created for. */
  predicate Carries(p: Phase) {
    p.Created? || p.Waiting? || p.Locked? || p.Running?
  }

  function Log(st: State, m: Msg, fate: Fate): State {
    st.(outcomes := st.outcomes + [Outcome(m, fate)])
  }

  function Spawn(st: State, m: Msg): State {
    st.(tasks := st.tasks + [Task(m, Created, 0, [])])
  }

  function SetTask(st: State, t: TaskId, task: Task): State
    requires t < |st.tasks|
  {
    st.(tasks := st.tasks[t := task])
  }

  function Deferred(st: State, s: Session): seq<Msg> {
    if s in st.deferred then st.deferred[s] else []
  }

  function Without<K, V>(m: map<K, V>, k: K): map<K, V> {
    map x | x in m && x != k :: m[x]
  }

  // ------------------------------------------------------------------ the outside

  predicate CanPublish(st: State, m: Msg) {
    m.id == |st.published| && (m.kind.SubagentResult? ==> m.kind.token !in st.tokens)
  }

  function Publish(st: State, m: Msg): State {
    st.(published := st.published + [m], bus := st.bus + [m],
        tokens := st.tokens + if m.kind.SubagentResult? then {m.kind.token} else {})
  }

  /** A cancelled session: some results will never be accepted any more. */
  function DropTokens(st: State, dropped: set<nat>): State {
    st.(tokens := st.tokens - dropped)
  }

  function ChangeCache(st: State, cached: set<Session>): State {
    st.(cached := cached)
  }

  /** The weak lock table forgets a lock that no task refers to. */
  predicate CanCollect(st: State, s: Session) {
    s in st.locks &&
    forall t | 0 <= t < |st.tasks| :: RefersToLock(st.tasks[t].phase) ==> st.tasks[t].lock != st.locks[s]
  }

  function Collect(st: State, s: Session): State {
    st.(locks := Without(st.locks, s))
  }

  // ------------------------------------------------------------------ the run loop

  predicate CanConsume(st: State) {
    st.hand.Empty? && st.bus != []
  }

  function Consume(st: State): State
    requires CanConsume(st)
  {
    var m, rest := st.bus[0], st.(bus := st.bus[1..]);
    if Accepts(st, m) then rest.(hand := Accepted(m)) else Log(rest, m, Rejected)
  }

  function Screen(st: State): State
    requires st.hand.Accepted?
  {
    var m, rest := st.hand.msg, st.(hand := Empty);
    if m.control then Log(rest, m, Inline)
    else if m.requireExisting && m.session !in st.cached then Log(rest, m, Rejected)
    else rest.(hand := Screened(m))
  }

  function Defer(st: State, m: Msg): State {
    st.(deferred := st.deferred[m.session := Deferred(st, m.session) + [m]])
  }

  /** The routing decision. */
  function Route(st: State): State
    requires st.hand.Screened?
    requires st.hand.msg.session in st.pending ==> st.pending[st.hand.msg.session] < |st.tasks|
  {
    var m, rest := st.hand.msg, st.(hand := Empty);
    var s := m.session;
    if m.priority then Log(rest, m, Inline)
    else if m.kind.AutomationTurn? && s in st.pending then Defer(rest, m)
    else if s in st.pending then
      if m.command then Log(rest, m, Inline)
      else
        var owner := st.tasks[st.pending[s]];
        if |owner.queue| < PENDING_QUEUE_SIZE
        then SetTask(rest, st.pending[s], owner.(queue := owner.queue + [m]))
        else Spawn(rest, m)
    else Spawn(rest, m)
  }

  function Dropped(queue: seq<Msg>): seq<Outcome> {
    if queue == [] then [] else [Outcome(queue[0], Stopped)] + Dropped(queue[1..])
  }

  /** `/stop` takes the session's queue out of the table and drops what is in it. */
  function Stop(st: State, s: Session): State
    requires s in st.pending && st.pending[s] < |st.tasks|
  {
    var t := st.pending[s];
    SetTask(st, t, st.tasks[t].(queue := []))
      .(pending := Without(st.pending, s), outcomes := st.outcomes + Dropped(st.tasks[t].queue))
  }

  // --------------------------------------------------------------- a dispatch task

  predicate InPhase(st: State, t: TaskId, p: Phase) {
    t < |st.tasks| && st.tasks[t].phase == p
  }

  /** A task that is cancelled before its first step never runs, not even its cleanup. */
  function CancelStart(st: State, t: TaskId): State
    requires InPhase(st, t, Created)
  {
    Log(SetTask(st, t, st.tasks[t].(phase := Done)), st.tasks[t].msg, Cancelled)
  }

  /** The first check, then a reference to the session's shared lock. */
  function Begin(st: State, t: TaskId): State
    requires InPhase(st, t, Created)
  {
    var task := st.tasks[t];
    var s := task.msg.session;
    if !Accepts(st, task.msg) then Log(SetTask(st, t, task.(phase := Done)), task.msg, Rejected)
    else if s in st.locks then SetTask(st, t, task.(phase := Waiting, lock := st.locks[s]))
    else
      SetTask(st, t, task.(phase := Waiting, lock := st.nextLock))
        .(locks := st.locks[s := st.nextLock], nextLock := st.nextLock + 1)
  }

  predicate CanAcquire(st: State, t: TaskId) {
    InPhase(st, t, Waiting) && st.tasks[t].lock !in st.holders
  }

  function Acquire(st: State, t: TaskId): State
    requires CanAcquire(st, t)
  {
    SetTask(st, t, st.tasks[t].(phase := Locked)).(holders := st.holders[st.tasks[t].lock := t])
  }

  /** Past the concurrency gate: the second check; then the turn consumes its token
      and publishes its queue. */
  function Admit(st: State, t: TaskId): State
    requires InPhase(st, t, Locked)
  {
    var task := st.tasks[t];
    if !Accepts(st, task.msg) then
      Log(SetTask(st, t, task.(phase := Leaving)), task.msg, Rejected).(holders := Without(st.holders, task.lock))
    else
      SetTask(st, t, task.(phase := Running, queue := []))
        .(pending := st.pending[task.msg.session := t], tokens := Spent(st, task.msg))
  }

  function Spent(st: State, m: Msg): set<nat> {
    if m.kind.SubagentResult? then st.tokens - {m.kind.token} else st.tokens
  }

  predicate CanCancelWait(st: State, t: TaskId) {
    InPhase(st, t, Waiting) || InPhase(st, t, Locked)
  }

  function CancelWait(st: State, t: TaskId): State
    requires CanCancelWait(st, t)
  {
    var task := st.tasks[t];
    var left := Log(SetTask(st, t, task.(phase := Leaving)), task.msg, Cancelled);
    if task.phase.Locked? then left.(holders := Without(st.holders, task.lock)) else left
  }

  predicate CanInject(st: State, t: TaskId) {
    InPhase(st, t, Running) && st.tasks[t].queue != []
  }

  /** A running turn takes the next follow-up out of its queue. */
  function Inject(st: State, t: TaskId): State
    requires CanInject(st, t)
  {
    var task := st.tasks[t];
    var m, rest := task.queue[0], SetTask(st, t, task.(queue := task.queue[1..]));
    if Accepts(st, m) then Log(rest.(tokens := Spent(st, m)), m, Injected) else Log(rest, m, Rejected)
  }

  /** The turn ends, in whatever way, and takes its own queue out of the table. */
  function Finish(st: State, t: TaskId): State
    requires InPhase(st, t, Running)
  {
    var task := st.tasks[t];
    var s := task.msg.session;
    var ended := Log(SetTask(st, t, task.(phase := Draining)), task.msg, Consumed);
    if s in st.pending && st.pending[s] == t then ended.(pending := Without(st.pending, s)) else ended
  }

  /** One leftover goes back to the bus; when none is left the task moves on. */
  function Drain(st: State, t: TaskId): State
    requires InPhase(st, t, Draining)
  {
    var task := st.tasks[t];
    if task.queue == [] then SetTask(st, t, task.(phase := Releasing))
    else SetTask(st, t, task.(queue := task.queue[1..])).(bus := st.bus + [task.queue[0]])
  }

  function PublishNextDeferred(st: State, s: Session): State {
    var queue := Deferred(st, s);
    if queue == [] then st
    else
      st.(bus := st.bus + [queue[0]],
          deferred := if |queue| == 1 then Without(st.deferred, s) else st.deferred[s := queue[1..]])
  }

  predicate CanExit(st: State, t: TaskId) {
    InPhase(st, t, Releasing) || InPhase(st, t, Leaving)
  }

  /** Both exits publish the session's next deferred turn. */
  function Exit(st: State, t: TaskId): State
    requires CanExit(st, t)
  {
    var task := st.tasks[t];
    var done := SetTask(PublishNextDeferred(st, task.msg.session), t, task.(phase := Done));
    if task.phase.Releasing? then done.(holders := Without(st.holders, task.lock)) else done
  }

  // ------------------------------------------------------------------- a direct call

  function DirectMessage(s: Session): Msg { Msg(0, s, Ordinary, false, false, false, false) }

  /** `process_direct` takes a reference to the session's shared lock. */
  function Direct(st: State, s: Session): State {
    if s in st.locks then st.(tasks := st.tasks + [Task(DirectMessage(s), DirectWaiting, st.locks[s], [])])
    else
      st.(tasks := st.tasks + [Task(DirectMessage(s), DirectWaiting, st.nextLock, [])],
          locks := st.locks[s := st.nextLock], nextLock := st.nextLock + 1)
  }

  predicate CanAcquireDirect(st: State, t: TaskId) {
    InPhase(st, t, DirectWaiting) && st.tasks[t].lock !in st.holders
  }

  function AcquireDirect(st: State, t: TaskId): State
    requires CanAcquireDirect(st, t)
  {
    SetTask(st, t, st.tasks[t].(phase := DirectRunning)).(holders := st.holders[st.tasks[t].lock := t])
  }

  predicate CanEndDirect(st: State, t: TaskId) {
    InPhase(st, t, DirectWaiting) || InPhase(st, t, DirectRunning)
  }

  /** It ends, in its turn or while it waits. */
  function EndDirect(st: State, t: TaskId): State
    requires CanEndDirect(st, t)
  {
    var task := st.tasks[t];
    var done := SetTask(st, t, task.(phase := Done));
    if task.phase.DirectRunning? then done.(holders := Without(st.holders, task.lock)) else done
  }

  // ---------------------------------------------------------------------- the runs

  datatype Step =
    | SPublish(msg: Msg) | SDropTokens(dropped: set<nat>)
    | SChangeCache(cached: set<Session>) | SCollect(session: Session)
    | SConsume | SScreen | SRoute | SStop(session: Session)
    | SBegin(task: TaskId) | SAcquire(task: TaskId) | SAdmit(task: TaskId) | SCancelWait(task: TaskId)
    | SInject(task: TaskId) | SFinish(task: TaskId) | SDrain(task: TaskId) | SExit(task: TaskId)
    | SCancelStart(task: TaskId) | SDirect(session: Session) | SAcquireDirect(task: TaskId) | SEndDirect(task: TaskId)

  /** Steps of a dispatch task; the others belong to the run loop or to the outside. */
  predicate IsTaskStep(step: Step) {
    || step.SBegin? || step.SAcquire? || step.SAdmit? || step.SCancelWait? || step.SInject? || step.SFinish?
    || step.SDrain? || step.SExit? || step.SCancelStart? || step.SAcquireDirect? || step.SEndDirect?
  }

  predicate Enabled(st: State, step: Step) {
    match step
    case SPublish(m) => CanPublish(st, m)
    case SDropTokens(_) => true
    case SChangeCache(_) => true
    case SCollect(s) => CanCollect(st, s)
    case SConsume => CanConsume(st)
    case SScreen => st.hand.Accepted?
    case SRoute =>
      st.hand.Screened? &&
      (st.hand.msg.session in st.pending ==> st.pending[st.hand.msg.session] < |st.tasks|)
    case SStop(s) => s in st.pending && st.pending[s] < |st.tasks|
    case SBegin(t) => InPhase(st, t, Created)
    case SAcquire(t) => CanAcquire(st, t)
    case SAdmit(t) => InPhase(st, t, Locked)
    case SCancelWait(t) => CanCancelWait(st, t)
    case SInject(t) => CanInject(st, t)
    case SFinish(t) => InPhase(st, t, Running)
    case SDrain(t) => InPhase(st, t, Draining)
    case SExit(t) => CanExit(st, t)
    case SCancelStart(t) => InPhase(st, t, Created)
    case SDirect(_) => true
    case SAcquireDirect(t) => CanAcquireDirect(st, t)
    case SEndDirect(t) => CanEndDirect(st, t)
  }

  function After(st: State, step: Step): State
    requires Enabled(st, step)
  {
    match step
    case SPublish(m) => Publish(st, m)
    case SDropTokens(dropped) => DropTokens(st, dropped)
    case SChangeCache(cached) => ChangeCache(st, cached)
    case SCollect(s) => Collect(st, s)
    case SConsume => Consume(st)
    case SScreen => Screen(st)
    case SRoute => Route(st)
    case SStop(s) => Stop(st, s)
    case SBegin(t) => Begin(st, t)
    case SAcquire(t) => Acquire(st, t)
    case SAdmit(t) => Admit(st, t)
    case SCancelWait(t) => CancelWait(st, t)
    case SInject(t) => Inject(st, t)
    case SFinish(t) => Finish(st, t)
    case SDrain(t) => Drain(st, t)
    case SExit(t) => Exit(st, t)
    case SCancelStart(t) => CancelStart(st, t)
    case SDirect(s) => Direct(st, s)
    case SAcquireDirect(t) => AcquireDirect(st, t)
    case SEndDirect(t) => EndDirect(st, t)
  }

  /** A run: every step is enabled where it is taken. */
  predicate Runs(st: State, steps: seq<Step>)
    decreases |steps|
  {
    steps == [] || (Enabled(st, steps[0]) && Runs(After(st, steps[0]), steps[1..]))
  }

  function RunOf(st: State, steps: seq<Step>): State
    requires Runs(st, steps)
    decreases |steps|
  {
    if steps == [] then st else RunOf(After(st, steps[0]), steps[1..])
  }

  lemma {:induction false} RunHead(st: State, step: Step, rest: seq<Step>)
    requires Enabled(st, step) && Runs(After(st, step), rest)
    ensures Runs(st, [step] + rest) && RunOf(st, [step] + rest) == RunOf(After(st, step), rest)
  {
    assert ([step] + rest)[1..] == rest;
  }
}
