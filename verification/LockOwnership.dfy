/** Who owns what: a session's pending queue always belongs to the one task that holds
    the session's lock. The lock table is weak, so this is not just one lock object per
    session: the entry must survive as long as any task refers to the lock. */
module LockOwnership {
  import opened TurnDispatch

  /** `_pending_queues[s]` is the queue of a running task of session `s`. */
  predicate QueueOwned(tasks: seq<Task>, pending: map<Session, TaskId>) {
    forall s :: s in pending ==>
      pending[s] < |tasks| && tasks[pending[s]].phase.Running? && tasks[pending[s]].msg.session == s
  }

  /** A lock has a holder exactly while one task, the recorded one, is in a holding phase. */
  predicate HeldOnce(tasks: seq<Task>, holders: map<LockId, TaskId>) {
    && (forall l :: l in holders ==>
          holders[l] < |tasks| && Holds(tasks[holders[l]].phase) && tasks[holders[l]].lock == l)
    && (forall t :: 0 <= t < |tasks| && Holds(tasks[t].phase) ==>
          tasks[t].lock in holders && holders[tasks[t].lock] == t)
  }

  /** All tasks that refer to a lock for a session refer to the one in the table, and no
      two sessions share a lock. */
  predicate SharedLocks(tasks: seq<Task>, locks: map<Session, LockId>, nextLock: LockId) {
    && (forall t :: 0 <= t < |tasks| && RefersToLock(tasks[t].phase) ==>
          tasks[t].msg.session in locks && locks[tasks[t].msg.session] == tasks[t].lock)
    && (forall s :: s in locks ==> locks[s] < nextLock)
    && (forall r, s :: r in locks && s in locks && locks[r] == locks[s] ==> r == s)
  }

  /** A queue with messages in it belongs to a turn that still reads it: one that is
      registered for its session, or one that is draining. It is bounded, and all its
      messages are follow-ups of that session. */
  predicate QueuesRead(tasks: seq<Task>, pending: map<Session, TaskId>) {
    forall t :: 0 <= t < |tasks| ==> QueueRead(tasks[t], t, pending)
  }

  predicate QueueRead(task: Task, t: TaskId, pending: map<Session, TaskId>) {
    && |task.queue| <= PENDING_QUEUE_SIZE
    && (task.queue != [] ==> task.phase.Draining? || (task.msg.session in pending && pending[task.msg.session] == t))
    && (forall i :: 0 <= i < |task.queue| ==>
          task.queue[i].session == task.msg.session && !task.queue[i].kind.AutomationTurn?)
  }

  predicate Owned(st: State) {
    && QueueOwned(st.tasks, st.pending)
    && HeldOnce(st.tasks, st.holders)
    && SharedLocks(st.tasks, st.locks, st.nextLock)
    && QueuesRead(st.tasks, st.pending)
  }

  /** The owner of the queue holds the lock, and nobody else of that session does. */
  lemma {:induction false} OwnerHoldsTheLock(st: State, s: Session)
    requires Owned(st) && s in st.pending
    ensures s in st.locks && st.locks[s] in st.holders && st.holders[st.locks[s]] == st.pending[s]
    ensures forall t :: 0 <= t < |st.tasks| && Holds(st.tasks[t].phase) && st.tasks[t].msg.session == s ==>
      t == st.pending[s]
  {
  }

  lemma {:induction false} TurnsOfASessionExclude(st: State, t: TaskId, u: TaskId)
    requires Owned(st) && t < |st.tasks| && u < |st.tasks|
    requires Holds(st.tasks[t].phase) && Holds(st.tasks[u].phase)
    ensures st.tasks[t].msg.session == st.tasks[u].msg.session <==> t == u
  {
  }

  // ------------------------------------------------------ one task changes its state

  lemma {:induction false} QueueOwnedUpdate(tasks: seq<Task>, t: TaskId, task: Task, pending: map<Session, TaskId>)
    requires QueueOwned(tasks, pending) && t < |tasks| && task.msg == tasks[t].msg
    requires task.phase.Running? || forall s :: s in pending ==> pending[s] != t
    ensures QueueOwned(tasks[t := task], pending)
  {
  }

  lemma {:induction false} HeldOnceUpdate(tasks: seq<Task>, t: TaskId, task: Task, holders: map<LockId, TaskId>)
    requires HeldOnce(tasks, holders) && t < |tasks|
    requires Holds(task.phase) <==> Holds(tasks[t].phase)
    requires Holds(task.phase) ==> task.lock == tasks[t].lock
    ensures HeldOnce(tasks[t := task], holders)
  {
  }

  lemma {:induction false} HeldOnceRelease(tasks: seq<Task>, t: TaskId, task: Task, holders: map<LockId, TaskId>)
    requires HeldOnce(tasks, holders) && t < |tasks|
    requires Holds(tasks[t].phase) && !Holds(task.phase)
    ensures HeldOnce(tasks[t := task], Without(holders, tasks[t].lock))
  {
  }

  lemma {:induction false} SharedLocksUpdate(
      tasks: seq<Task>, t: TaskId, task: Task, locks: map<Session, LockId>, nextLock: LockId)
    requires SharedLocks(tasks, locks, nextLock) && t < |tasks| && task.msg == tasks[t].msg
    requires RefersToLock(task.phase) ==> task.msg.session in locks && locks[task.msg.session] == task.lock
    ensures SharedLocks(tasks[t := task], locks, nextLock)
  {
  }

  lemma {:induction false} SharedLocksGrow(tasks: seq<Task>, s: Session, locks: map<Session, LockId>, nextLock: LockId)
    requires SharedLocks(tasks, locks, nextLock) && s !in locks
    ensures SharedLocks(tasks, locks[s := nextLock], nextLock + 1)
  {
  }

  lemma {:induction false} QueuesReadUpdate(tasks: seq<Task>, t: TaskId, task: Task, pending: map<Session, TaskId>)
    requires QueuesRead(tasks, pending) && t < |tasks| && QueueRead(task, t, pending)
    ensures QueuesRead(tasks[t := task], pending)
  {
  }

  /** A task that neither gains nor gives up anything. */
  lemma {:induction false} UpdateOwns(st: State, t: TaskId, task: Task)
    requires Owned(st) && t < |st.tasks| && task.msg == st.tasks[t].msg
    requires task.phase.Running? || forall s :: s in st.pending ==> st.pending[s] != t
    requires Holds(task.phase) <==> Holds(st.tasks[t].phase)
    requires RefersToLock(task.phase) ==> RefersToLock(st.tasks[t].phase) && task.lock == st.tasks[t].lock
    requires QueueRead(task, t, st.pending)
    ensures Owned(SetTask(st, t, task))
  {
    QueueOwnedUpdate(st.tasks, t, task, st.pending);
    HeldOnceUpdate(st.tasks, t, task, st.holders);
    SharedLocksUpdate(st.tasks, t, task, st.locks, st.nextLock);
    QueuesReadUpdate(st.tasks, t, task, st.pending);
  }

  /** A task that gives up its lock and is gone from the queue table. */
  lemma {:induction false} ReleaseOwns(st: State, t: TaskId, task: Task)
    requires Owned(st) && t < |st.tasks| && task.msg == st.tasks[t].msg && task.lock == st.tasks[t].lock
    requires Holds(st.tasks[t].phase) && !Holds(task.phase)
    requires forall s :: s in st.pending ==> st.pending[s] != t
    requires QueueRead(task, t, st.pending)
    ensures Owned(SetTask(st, t, task).(holders := Without(st.holders, task.lock)))
  {
    QueueOwnedUpdate(st.tasks, t, task, st.pending);
    HeldOnceRelease(st.tasks, t, task, st.holders);
    SharedLocksUpdate(st.tasks, t, task, st.locks, st.nextLock);
    QueuesReadUpdate(st.tasks, t, task, st.pending);
  }

  // ------------------------------------------------------------------ the run loop

  lemma {:induction false} SpawnOwns(st: State, m: Msg)
    requires Owned(st)
    ensures Owned(Spawn(st, m))
  {
  }

  lemma {:induction false} RouteOwns(st: State)
    requires Owned(st) && st.hand.Screened?
    ensures Owned(Route(st))
  {
    var m, rest := st.hand.msg, st.(hand := Empty);
    SpawnOwns(rest, m);
    if m.session in st.pending && !m.kind.AutomationTurn? {
      var t := st.pending[m.session];
      if |st.tasks[t].queue| < PENDING_QUEUE_SIZE {
        UpdateOwns(rest, t, st.tasks[t].(queue := st.tasks[t].queue + [m]));
      }
    }
  }

  lemma {:induction false} QueueOwnedWithout(
      tasks: seq<Task>, t: TaskId, task: Task, pending: map<Session, TaskId>, s: Session)
    requires QueueOwned(tasks, pending) && s in pending && pending[s] == t && task.msg == tasks[t].msg
    ensures QueueOwned(tasks[t := task], Without(pending, s))
  {
  }

  lemma {:induction false} QueuesReadWithout(
      tasks: seq<Task>, t: TaskId, task: Task, pending: map<Session, TaskId>, s: Session)
    requires QueueOwned(tasks, pending) && QueuesRead(tasks, pending) && s in pending && pending[s] == t
    requires QueueRead(task, t, Without(pending, s))
    ensures QueuesRead(tasks[t := task], Without(pending, s))
  {
    forall u | 0 <= u < |tasks| && u != t ensures QueueRead(tasks[u], u, Without(pending, s)) {
      assert QueueRead(tasks[u], u, pending);
    }
  }

  lemma {:induction false} UnregisterOwns(st: State, t: TaskId, s: Session, task: Task)
    requires Owned(st) && s in st.pending && st.pending[s] == t
    requires task.msg == st.tasks[t].msg && task.lock == st.tasks[t].lock
    requires task == st.tasks[t].(queue := []) || task == st.tasks[t].(phase := Draining)
    ensures Owned(SetTask(st, t, task).(pending := Without(st.pending, s)))
  {
    assert QueueRead(st.tasks[t], t, st.pending);
    QueueOwnedWithout(st.tasks, t, task, st.pending, s);
    HeldOnceUpdate(st.tasks, t, task, st.holders);
    SharedLocksUpdate(st.tasks, t, task, st.locks, st.nextLock);
    QueuesReadWithout(st.tasks, t, task, st.pending, s);
  }

  lemma {:induction false} StopOwns(st: State, s: Session)
    requires Owned(st) && s in st.pending
    ensures Owned(Stop(st, s))
  {
    UnregisterOwns(st, st.pending[s], s, st.tasks[st.pending[s]].(queue := []));
  }

  lemma {:induction false} CollectOwns(st: State, s: Session)
    requires Owned(st) && CanCollect(st, s)
    ensures Owned(Collect(st, s))
  {
  }

  // --------------------------------------------------------------- a dispatch task

  lemma {:induction false} BeginOwns(st: State, t: TaskId)
    requires Owned(st) && InPhase(st, t, Created)
    ensures Owned(Begin(st, t))
  {
    var task, s := st.tasks[t], st.tasks[t].msg.session;
    if !Accepts(st, task.msg) {
      UpdateOwns(st, t, task.(phase := Done));
    } else {
      if s !in st.locks { SharedLocksGrow(st.tasks, s, st.locks, st.nextLock); }
      var locks, nextLock := Begin(st, t).locks, Begin(st, t).nextLock;
      var waiting := task.(phase := Waiting, lock := locks[s]);
      QueueOwnedUpdate(st.tasks, t, waiting, st.pending);
      HeldOnceUpdate(st.tasks, t, waiting, st.holders);
      SharedLocksUpdate(st.tasks, t, waiting, locks, nextLock);
      QueuesReadUpdate(st.tasks, t, waiting, st.pending);
    }
  }

  /** A task takes the lock it refers to, which nobody holds. */
  lemma {:induction false} TakeOwns(st: State, t: TaskId, phase: Phase)
    requires Owned(st) && t < |st.tasks| && st.tasks[t].lock !in st.holders
    requires RefersToLock(st.tasks[t].phase) && !st.tasks[t].phase.Running? && Holds(phase)
    requires st.tasks[t].queue == []
    ensures Owned(SetTask(st, t, st.tasks[t].(phase := phase)).(holders := st.holders[st.tasks[t].lock := t]))
  {
    var taken := st.tasks[t].(phase := phase);
    QueueOwnedUpdate(st.tasks, t, taken, st.pending);
    SharedLocksUpdate(st.tasks, t, taken, st.locks, st.nextLock);
    QueuesReadUpdate(st.tasks, t, taken, st.pending);
  }

  lemma {:induction false} WaitingQueueIsEmpty(st: State, t: TaskId)
    requires Owned(st) && t < |st.tasks| && !st.tasks[t].phase.Running? && !st.tasks[t].phase.Draining?
    ensures st.tasks[t].queue == []
  {
    assert QueueRead(st.tasks[t], t, st.pending);
  }

  lemma {:induction false} AcquireOwns(st: State, t: TaskId)
    requires Owned(st) && CanAcquire(st, t)
    ensures Owned(Acquire(st, t))
  {
    WaitingQueueIsEmpty(st, t);
    TakeOwns(st, t, Locked);
  }

  lemma {:induction false} RegisterOwns(st: State, t: TaskId)
    requires Owned(st) && InPhase(st, t, Locked) && st.tasks[t].msg.session !in st.pending
    ensures Owned(SetTask(st, t, st.tasks[t].(phase := Running, queue := []))
                  .(pending := st.pending[st.tasks[t].msg.session := t]))
  {
    var task := st.tasks[t].(phase := Running, queue := []);
    HeldOnceUpdate(st.tasks, t, task, st.holders);
    SharedLocksUpdate(st.tasks, t, task, st.locks, st.nextLock);
  }

  /** A turn that is let through does not take the queue table entry from anybody. */
  lemma {:induction false} AdmitOwns(st: State, t: TaskId)
    requires Owned(st) && InPhase(st, t, Locked)
    ensures st.tasks[t].msg.session !in st.pending
    ensures Owned(Admit(st, t))
  {
    var task, s := st.tasks[t], st.tasks[t].msg.session;
    if s in st.pending { OwnerHoldsTheLock(st, s); }
    if !Accepts(st, task.msg) {
      ReleaseOwns(st, t, task.(phase := Leaving));
    } else {
      RegisterOwns(st, t);
    }
  }

  lemma {:induction false} CancelWaitOwns(st: State, t: TaskId)
    requires Owned(st) && CanCancelWait(st, t)
    ensures Owned(CancelWait(st, t))
  {
    if st.tasks[t].phase.Locked? {
      ReleaseOwns(st, t, st.tasks[t].(phase := Leaving));
    } else {
      UpdateOwns(st, t, st.tasks[t].(phase := Leaving));
    }
  }

  lemma {:induction false} InjectOwns(st: State, t: TaskId)
    requires Owned(st) && CanInject(st, t)
    ensures Owned(Inject(st, t))
  {
    UpdateOwns(st, t, st.tasks[t].(queue := st.tasks[t].queue[1..]));
  }

  lemma {:induction false} FinishOwns(st: State, t: TaskId)
    requires Owned(st) && InPhase(st, t, Running)
    ensures Owned(Finish(st, t))
  {
    var s := st.tasks[t].msg.session;
    if s in st.pending && st.pending[s] == t {
      UnregisterOwns(st, t, s, st.tasks[t].(phase := Draining));
    } else {
      UpdateOwns(st, t, st.tasks[t].(phase := Draining));
    }
  }

  lemma {:induction false} DrainOwns(st: State, t: TaskId)
    requires Owned(st) && InPhase(st, t, Draining)
    ensures Owned(Drain(st, t))
  {
    if st.tasks[t].queue == [] {
      UpdateOwns(st, t, st.tasks[t].(phase := Releasing));
    } else {
      UpdateOwns(st, t, st.tasks[t].(queue := st.tasks[t].queue[1..]));
    }
  }

  lemma {:induction false} ExitOwns(st: State, t: TaskId)
    requires Owned(st) && CanExit(st, t)
    ensures Owned(Exit(st, t))
  {
    var next := PublishNextDeferred(st, st.tasks[t].msg.session);
    if st.tasks[t].phase.Releasing? {
      ReleaseOwns(next, t, st.tasks[t].(phase := Done));
    } else {
      UpdateOwns(next, t, st.tasks[t].(phase := Done));
    }
  }

  lemma {:induction false} CancelStartOwns(st: State, t: TaskId)
    requires Owned(st) && InPhase(st, t, Created)
    ensures Owned(CancelStart(st, t))
  {
    UpdateOwns(st, t, st.tasks[t].(phase := Done));
  }

  // ------------------------------------------------------------------- a direct call

  lemma {:induction false} JoinOwns(st: State, s: Session)
    requires Owned(st) && s in st.locks
    ensures Owned(st.(tasks := st.tasks + [Task(DirectMessage(s), DirectWaiting, st.locks[s], [])]))
  {
  }

  lemma {:induction false} GrowOwns(st: State, s: Session)
    requires Owned(st) && s !in st.locks
    ensures Owned(st.(locks := st.locks[s := st.nextLock], nextLock := st.nextLock + 1))
  {
    SharedLocksGrow(st.tasks, s, st.locks, st.nextLock);
  }

  lemma {:induction false} DirectOwns(st: State, s: Session)
    requires Owned(st)
    ensures Owned(Direct(st, s))
  {
    if s in st.locks {
      JoinOwns(st, s);
    } else {
      GrowOwns(st, s);
      JoinOwns(st.(locks := st.locks[s := st.nextLock], nextLock := st.nextLock + 1), s);
    }
  }

  lemma {:induction false} AcquireDirectOwns(st: State, t: TaskId)
    requires Owned(st) && CanAcquireDirect(st, t)
    ensures Owned(AcquireDirect(st, t))
  {
    WaitingQueueIsEmpty(st, t);
    TakeOwns(st, t, DirectRunning);
  }

  lemma {:induction false} EndDirectOwns(st: State, t: TaskId)
    requires Owned(st) && CanEndDirect(st, t)
    ensures Owned(EndDirect(st, t))
  {
    if st.tasks[t].phase.DirectRunning? {
      ReleaseOwns(st, t, st.tasks[t].(phase := Done));
    } else {
      UpdateOwns(st, t, st.tasks[t].(phase := Done));
    }
  }

  // ---------------------------------------------------------------------- the runs

  lemma {:induction false} TaskStepOwns(st: State, step: Step)
    requires Owned(st) && Enabled(st, step) && IsTaskStep(step)
    ensures Owned(After(st, step))
  {
    match step
    case SBegin(t) => BeginOwns(st, t);
    case SAcquire(t) => AcquireOwns(st, t);
    case SAdmit(t) => AdmitOwns(st, t);
    case SCancelWait(t) => CancelWaitOwns(st, t);
    case SInject(t) => InjectOwns(st, t);
    case SFinish(t) => FinishOwns(st, t);
    case SDrain(t) => DrainOwns(st, t);
    case SExit(t) => ExitOwns(st, t);
    case SCancelStart(t) => CancelStartOwns(st, t);
    case SAcquireDirect(t) => AcquireDirectOwns(st, t);
    case SEndDirect(t) => EndDirectOwns(st, t);
  }

  lemma {:induction false} LoopStepOwns(st: State, step: Step)
    requires Owned(st) && Enabled(st, step) && !IsTaskStep(step)
    ensures Owned(After(st, step))
  {
    match step
    case SPublish(_) =>
    case SDropTokens(_) =>
    case SChangeCache(_) =>
    case SCollect(s) => CollectOwns(st, s);
    case SConsume =>
    case SScreen =>
    case SRoute => RouteOwns(st);
    case SStop(s) => StopOwns(st, s);
    case SDirect(s) => DirectOwns(st, s);
  }

  lemma {:induction false} StepOwns(st: State, step: Step)
    requires Owned(st) && Enabled(st, step)
    ensures Owned(After(st, step))
  {
    if IsTaskStep(step) { TaskStepOwns(st, step); } else { LoopStepOwns(st, step); }
  }
}
