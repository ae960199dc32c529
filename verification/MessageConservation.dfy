/** No message is lost or duplicated: whatever the interleaving, every message that was
    published is in exactly one place. The places are the bus, the run loop's hand, a
    task that carries it, the pending queue of a task, the deferred queue of its
    session, and the log of what became of it. */
module MessageConservation {
  import opened Sequences
  import opened TurnDispatch

  function Count(s: seq<Msg>, x: Msg): nat {
    if s == [] then 0 else Count(Init(s), x) + Is(Last(s), x)
  }

  function Is(m: Msg, x: Msg): nat { if m == x then 1 else 0 }

  function InHand(h: Hand, x: Msg): nat {
    if h.Empty? then 0 else Is(h.msg, x)
  }

  /** What one task accounts for: the message it was created for, until it is through
      with it, and its queue. */
  function InTask(task: Task, x: Msg): nat {
    (if Carries(task.phase) then Is(task.msg, x) else 0) + Count(task.queue, x)
  }

  function InTasks(tasks: seq<Task>, x: Msg): nat {
    if tasks == [] then 0 else InTasks(Init(tasks), x) + InTask(Last(tasks), x)
  }

  function InOutcomes(outcomes: seq<Outcome>, x: Msg): nat {
    if outcomes == [] then 0 else InOutcomes(Init(outcomes), x) + Is(Last(outcomes).msg, x)
  }

  /** In how many places a message is. */
  function Places(st: State, x: Msg): nat {
    Count(st.bus, x) + InHand(st.hand, x) + InTasks(st.tasks, x)
    + Count(Deferred(st, x.session), x) + InOutcomes(st.outcomes, x)
  }

  /** A message is in as many places as it was published times. */
  predicate Balanced(st: State, x: Msg) {
    Count(st.published, x) == Places(st, x)
  }

  // ------------------------------------------------------------ the counts, one step

  lemma {:induction false} CountSnoc(s: seq<Msg>, m: Msg, x: Msg)
    ensures Count(s + [m], x) == Count(s, x) + Is(m, x)
  {
    InitSnoc(s, m);
  }

  lemma {:induction false} CountHead(s: seq<Msg>, x: Msg)
    requires s != []
    ensures Count(s, x) == Is(s[0], x) + Count(s[1..], x)
  {
    if |s| > 1 {
      CountHead(Init(s), x);
      assert Init(s)[1..] == Init(s[1..]);
    }
  }

  lemma {:induction false} InTasksUpdate(tasks: seq<Task>, t: TaskId, task: Task, x: Msg)
    requires t < |tasks|
    ensures InTasks(tasks[t := task], x) + InTask(tasks[t], x) == InTasks(tasks, x) + InTask(task, x)
  {
    if t == |tasks| - 1 {
      assert Init(tasks[t := task]) == Init(tasks);
    } else {
      InTasksUpdate(Init(tasks), t, task, x);
      assert Init(tasks[t := task]) == Init(tasks)[t := task];
    }
  }

  lemma {:induction false} InTasksSnoc(tasks: seq<Task>, task: Task, x: Msg)
    ensures InTasks(tasks + [task], x) == InTasks(tasks, x) + InTask(task, x)
  {
    InitSnoc(tasks, task);
  }

  lemma {:induction false} OutcomesSnoc(outcomes: seq<Outcome>, m: Msg, fate: Fate, x: Msg)
    ensures InOutcomes(outcomes + [Outcome(m, fate)], x) == InOutcomes(outcomes, x) + Is(m, x)
  {
    InitSnoc(outcomes, Outcome(m, fate));
  }

  lemma {:induction false} DroppedCount(outcomes: seq<Outcome>, queue: seq<Msg>, x: Msg)
    ensures InOutcomes(outcomes + Dropped(queue), x) == InOutcomes(outcomes, x) + Count(queue, x)
    decreases |queue|
  {
    if queue == [] {
      assert outcomes + Dropped(queue) == outcomes;
    } else {
      var o := Outcome(queue[0], Stopped);
      assert outcomes + Dropped(queue) == (outcomes + [o]) + Dropped(queue[1..]);
      DroppedCount(outcomes + [o], queue[1..], x);
      OutcomesSnoc(outcomes, queue[0], Stopped, x);
      CountHead(queue, x);
    }
  }

  // ------------------------------------------------------------------ the run loop

  lemma {:induction false} PublishAdds(st: State, m: Msg, x: Msg)
    ensures Places(Publish(st, m), x) == Places(st, x) + Is(m, x)
  {
    CountSnoc(st.bus, m, x);
  }

  lemma {:induction false} ConsumeMoves(st: State, x: Msg)
    requires CanConsume(st)
    ensures Consume(st).published == st.published
    ensures Places(Consume(st), x) == Places(st, x)
  {
    CountHead(st.bus, x);
    if !Accepts(st, st.bus[0]) { OutcomesSnoc(st.outcomes, st.bus[0], Rejected, x); }
  }

  lemma {:induction false} ScreenMoves(st: State, x: Msg)
    requires st.hand.Accepted?
    ensures Screen(st).published == st.published
    ensures Places(Screen(st), x) == Places(st, x)
  {
    if st.hand.msg.control {
      OutcomesSnoc(st.outcomes, st.hand.msg, Inline, x);
    } else {
      OutcomesSnoc(st.outcomes, st.hand.msg, Rejected, x);
    }
  }

  lemma {:induction false} EnqueueMoves(st: State, t: TaskId, x: Msg)
    requires st.hand.Screened? && t < |st.tasks|
    ensures SetTask(st.(hand := Empty), t, st.tasks[t].(queue := st.tasks[t].queue + [st.hand.msg])).published ==
        st.published
    ensures Places(SetTask(st.(hand := Empty), t, st.tasks[t].(queue := st.tasks[t].queue + [st.hand.msg])), x) ==
        Places(st, x)
  {
    CountSnoc(st.tasks[t].queue, st.hand.msg, x);
    InTasksUpdate(st.tasks, t, st.tasks[t].(queue := st.tasks[t].queue + [st.hand.msg]), x);
  }

  lemma {:induction false} DeferMoves(st: State, x: Msg)
    requires st.hand.Screened?
    ensures Defer(st.(hand := Empty), st.hand.msg).published == st.published
    ensures Places(Defer(st.(hand := Empty), st.hand.msg), x) == Places(st, x)
  {
    CountSnoc(Deferred(st, st.hand.msg.session), st.hand.msg, x);
  }

  lemma {:induction false} AnswerMoves(st: State, x: Msg)
    requires st.hand.Screened?
    ensures Places(Log(st.(hand := Empty), st.hand.msg, Inline), x) == Places(st, x)
  {
    OutcomesSnoc(st.outcomes, st.hand.msg, Inline, x);
  }

  lemma {:induction false} SpawnMoves(st: State, x: Msg)
    requires st.hand.Screened?
    ensures Places(Spawn(st.(hand := Empty), st.hand.msg), x) == Places(st, x)
  {
    InTasksSnoc(st.tasks, Task(st.hand.msg, Created, 0, []), x);
    assert Count([], x) == 0;
  }

  lemma {:induction false} RouteMoves(st: State, x: Msg)
    requires Enabled(st, SRoute)
    ensures Route(st).published == st.published
    ensures Places(Route(st), x) == Places(st, x)
  {
    var m := st.hand.msg;
    var s := m.session;
    if m.priority || (s in st.pending && !m.kind.AutomationTurn? && m.command) {
      AnswerMoves(st, x);
    } else if s in st.pending && m.kind.AutomationTurn? {
      DeferMoves(st, x);
    } else if s in st.pending && |st.tasks[st.pending[s]].queue| < PENDING_QUEUE_SIZE {
      EnqueueMoves(st, st.pending[s], x);
    } else {
      SpawnMoves(st, x);
    }
  }

  lemma {:induction false} StopMoves(st: State, s: Session, x: Msg)
    requires Enabled(st, SStop(s))
    ensures Stop(st, s).published == st.published
    ensures Places(Stop(st, s), x) == Places(st, x)
  {
    var t := st.pending[s];
    InTasksUpdate(st.tasks, t, st.tasks[t].(queue := []), x);
    DroppedCount(st.outcomes, st.tasks[t].queue, x);
  }

  // --------------------------------------------------------------- a dispatch task

  /** A task that only changes its phase or its lock keeps what it has. */
  lemma {:induction false} KeepsAll(tasks: seq<Task>, t: TaskId, phase: Phase, lock: LockId, x: Msg)
    requires t < |tasks| && (Carries(phase) <==> Carries(tasks[t].phase))
    ensures InTasks(tasks[t := tasks[t].(phase := phase, lock := lock)], x) == InTasks(tasks, x)
  {
    InTasksUpdate(tasks, t, tasks[t].(phase := phase, lock := lock), x);
  }

  /** A task that puts its own message down records what became of it. */
  lemma {:induction false} PutsDown(
      tasks: seq<Task>, t: TaskId, phase: Phase, outcomes: seq<Outcome>, fate: Fate, x: Msg)
    requires t < |tasks| && Carries(tasks[t].phase) && !Carries(phase)
    ensures InTasks(tasks[t := tasks[t].(phase := phase)], x) + InOutcomes(outcomes + [Outcome(tasks[t].msg, fate)], x)
         == InTasks(tasks, x) + InOutcomes(outcomes, x)
  {
    InTasksUpdate(tasks, t, tasks[t].(phase := phase), x);
    OutcomesSnoc(outcomes, tasks[t].msg, fate, x);
  }

  /** What a step that touches only the tasks and the outcomes has to show. */
  lemma {:induction false} Rearranges(st: State, after: State, x: Msg)
    requires after.bus == st.bus && after.hand == st.hand && after.deferred == st.deferred
    requires InTasks(after.tasks, x) + InOutcomes(after.outcomes, x)
          == InTasks(st.tasks, x) + InOutcomes(st.outcomes, x)
    ensures Places(after, x) == Places(st, x)
  {
  }

  lemma {:induction false} BeginMoves(st: State, t: TaskId, x: Msg)
    requires InPhase(st, t, Created)
    ensures Begin(st, t).published == st.published
    ensures Places(Begin(st, t), x) == Places(st, x)
  {
    var s := st.tasks[t].msg.session;
    if !Accepts(st, st.tasks[t].msg) {
      PutsDown(st.tasks, t, Done, st.outcomes, Rejected, x);
    } else if s in st.locks {
      KeepsAll(st.tasks, t, Waiting, st.locks[s], x);
    } else {
      KeepsAll(st.tasks, t, Waiting, st.nextLock, x);
    }
    Rearranges(st, Begin(st, t), x);
  }

  lemma {:induction false} AcquireMoves(st: State, t: TaskId, x: Msg)
    requires CanAcquire(st, t)
    ensures Acquire(st, t).published == st.published
    ensures Places(Acquire(st, t), x) == Places(st, x)
  {
    KeepsAll(st.tasks, t, Locked, st.tasks[t].lock, x);
  }

  lemma {:induction false} AdmitMoves(st: State, t: TaskId, x: Msg)
    requires InPhase(st, t, Locked) && st.tasks[t].queue == []
    ensures Admit(st, t).published == st.published
    ensures Places(Admit(st, t), x) == Places(st, x)
  {
    if Accepts(st, st.tasks[t].msg) {
      KeepsAll(st.tasks, t, Running, st.tasks[t].lock, x);
    } else {
      PutsDown(st.tasks, t, Leaving, st.outcomes, Rejected, x);
    }
    Rearranges(st, Admit(st, t), x);
  }

  lemma {:induction false} CancelWaitMoves(st: State, t: TaskId, x: Msg)
    requires CanCancelWait(st, t)
    ensures CancelWait(st, t).published == st.published
    ensures Places(CancelWait(st, t), x) == Places(st, x)
  {
    PutsDown(st.tasks, t, Leaving, st.outcomes, Cancelled, x);
    Rearranges(st, CancelWait(st, t), x);
  }

  lemma {:induction false} CancelStartMoves(st: State, t: TaskId, x: Msg)
    requires InPhase(st, t, Created)
    ensures CancelStart(st, t).published == st.published
    ensures Places(CancelStart(st, t), x) == Places(st, x)
  {
    PutsDown(st.tasks, t, Done, st.outcomes, Cancelled, x);
  }

  /** A direct call carries no message of the bus. */
  lemma {:induction false} DirectMoves(st: State, s: Session, x: Msg)
    ensures Direct(st, s).published == st.published
    ensures Places(Direct(st, s), x) == Places(st, x)
  {
    InTasksSnoc(st.tasks, Direct(st, s).tasks[|st.tasks|], x);
    assert Count([], x) == 0;
  }

  lemma {:induction false} AcquireDirectMoves(st: State, t: TaskId, x: Msg)
    requires CanAcquireDirect(st, t)
    ensures AcquireDirect(st, t).published == st.published
    ensures Places(AcquireDirect(st, t), x) == Places(st, x)
  {
    KeepsAll(st.tasks, t, DirectRunning, st.tasks[t].lock, x);
  }

  lemma {:induction false} EndDirectMoves(st: State, t: TaskId, x: Msg)
    requires CanEndDirect(st, t)
    ensures EndDirect(st, t).published == st.published
    ensures Places(EndDirect(st, t), x) == Places(st, x)
  {
    KeepsAll(st.tasks, t, Done, st.tasks[t].lock, x);
  }

  lemma {:induction false} InjectMoves(st: State, t: TaskId, x: Msg)
    requires CanInject(st, t)
    ensures Inject(st, t).published == st.published
    ensures Places(Inject(st, t), x) == Places(st, x)
  {
    var m := st.tasks[t].queue[0];
    CountHead(st.tasks[t].queue, x);
    InTasksUpdate(st.tasks, t, st.tasks[t].(queue := st.tasks[t].queue[1..]), x);
    if Accepts(st, m) {
      OutcomesSnoc(st.outcomes, m, Injected, x);
    } else {
      OutcomesSnoc(st.outcomes, m, Rejected, x);
    }
  }

  lemma {:induction false} FinishMoves(st: State, t: TaskId, x: Msg)
    requires InPhase(st, t, Running)
    ensures Finish(st, t).published == st.published
    ensures Places(Finish(st, t), x) == Places(st, x)
  {
    PutsDown(st.tasks, t, Draining, st.outcomes, Consumed, x);
  }

  lemma {:induction false} LeftoverMoves(tasks: seq<Task>, t: TaskId, bus: seq<Msg>, x: Msg)
    requires t < |tasks| && tasks[t].queue != []
    ensures InTasks(tasks[t := tasks[t].(queue := tasks[t].queue[1..])], x) + Count(bus + [tasks[t].queue[0]], x)
         == InTasks(tasks, x) + Count(bus, x)
  {
    InTasksUpdate(tasks, t, tasks[t].(queue := tasks[t].queue[1..]), x);
    CountHead(tasks[t].queue, x);
    CountSnoc(bus, tasks[t].queue[0], x);
  }

  lemma {:induction false} DrainMoves(st: State, t: TaskId, x: Msg)
    requires InPhase(st, t, Draining)
    ensures Drain(st, t).published == st.published
    ensures Places(Drain(st, t), x) == Places(st, x)
  {
    if st.tasks[t].queue == [] {
      KeepsAll(st.tasks, t, Releasing, st.tasks[t].lock, x);
    } else {
      LeftoverMoves(st.tasks, t, st.bus, x);
    }
  }

  /** The message taken from a session's deferred queue belongs to that session. */
  predicate DeferredAtHome(st: State) {
    forall s :: s in st.deferred ==> AtHome(st.deferred[s], s)
  }

  predicate AtHome(queue: seq<Msg>, s: Session) {
    forall i :: 0 <= i < |queue| ==> queue[i].session == s
  }

  lemma {:induction false} PublishNextMoves(st: State, s: Session, x: Msg)
    requires DeferredAtHome(st)
    ensures PublishNextDeferred(st, s).published == st.published
    ensures Places(PublishNextDeferred(st, s), x) == Places(st, x)
  {
    var queue := Deferred(st, s);
    if queue != [] {
      assert queue[0].session == s;
      CountHead(queue, x);
      CountSnoc(st.bus, queue[0], x);
    }
  }

  lemma {:induction false} ExitMoves(st: State, t: TaskId, x: Msg)
    requires DeferredAtHome(st) && CanExit(st, t)
    ensures Exit(st, t).published == st.published
    ensures Places(Exit(st, t), x) == Places(st, x)
  {
    PublishNextMoves(st, st.tasks[t].msg.session, x);
    InTasksUpdate(st.tasks, t, st.tasks[t].(phase := Done), x);
  }

  // ---------------------------------------------------------------------- the runs

  /** A task that has not run yet has an empty queue. */
  predicate FreshQueues(st: State) {
    forall t :: 0 <= t < |st.tasks| && !st.tasks[t].phase.Running? && !st.tasks[t].phase.Draining? ==>
      st.tasks[t].queue == []
  }

  lemma {:induction false} TaskStepMoves(st: State, step: Step, x: Msg)
    requires DeferredAtHome(st) && FreshQueues(st) && Enabled(st, step) && IsTaskStep(step)
    ensures After(st, step).published == st.published
    ensures Places(After(st, step), x) == Places(st, x)
  {
    match step
    case SBegin(t) => BeginMoves(st, t, x);
    case SAcquire(t) => AcquireMoves(st, t, x);
    case SAdmit(t) => AdmitMoves(st, t, x);
    case SCancelWait(t) => CancelWaitMoves(st, t, x);
    case SInject(t) => InjectMoves(st, t, x);
    case SFinish(t) => FinishMoves(st, t, x);
    case SDrain(t) => DrainMoves(st, t, x);
    case SExit(t) => ExitMoves(st, t, x);
    case SCancelStart(t) => CancelStartMoves(st, t, x);
    case SAcquireDirect(t) => AcquireDirectMoves(st, t, x);
    case SEndDirect(t) => EndDirectMoves(st, t, x);
  }

  lemma {:induction false} LoopStepMoves(st: State, step: Step, x: Msg)
    requires Enabled(st, step) && !IsTaskStep(step) && !step.SPublish?
    ensures After(st, step).published == st.published
    ensures Places(After(st, step), x) == Places(st, x)
  {
    match step
    case SDropTokens(_) =>
    case SChangeCache(_) =>
    case SCollect(_) =>
    case SConsume => ConsumeMoves(st, x);
    case SScreen => ScreenMoves(st, x);
    case SRoute => RouteMoves(st, x);
    case SStop(s) => StopMoves(st, s, x);
    case SDirect(s) => DirectMoves(st, s, x);
  }

  /** Every step takes a message from one place to one place, and only publishing adds. */
  lemma {:induction false} StepBalances(st: State, step: Step, x: Msg)
    requires Balanced(st, x) && DeferredAtHome(st) && FreshQueues(st) && Enabled(st, step)
    ensures Balanced(After(st, step), x)
  {
    if step.SPublish? {
      PublishAdds(st, step.msg, x);
      CountSnoc(st.published, step.msg, x);
    } else if IsTaskStep(step) {
      TaskStepMoves(st, step, x);
    } else {
      LoopStepMoves(st, step, x);
    }
  }
}
