/** What the steps of a turn come to when nothing interferes: a message becomes a task, the
    task runs its turn and lets the next one go, and each way out of the ordinary leaves the
    trace it should. */
module TurnOutcomes {
  import opened TurnDispatch

  /** The token of a result is good; other messages need none. */
  predicate Good(st: State, m: Msg) {
    m.kind.SubagentResult? ==> m.kind.token in st.tokens
  }

  function TokensAfter(st: State, m: Msg): set<nat> {
    if m.kind.SubagentResult? then st.tokens - {m.kind.token} else st.tokens
  }

  // ------------------------------------------------------------------- the run loop

  /** The head of the bus is taken in hand; a result whose token is not good is rejected. */
  lemma {:induction false} TakingFromTheBus(st: State)
    requires st.hand.Empty? && st.bus != []
    ensures Enabled(st, SConsume)
    ensures
      var m, rest := st.bus[0], st.(bus := st.bus[1..]);
      After(st, SConsume) ==
        if Good(st, m) then rest.(hand := Accepted(m))
        else rest.(outcomes := st.outcomes + [Outcome(m, Rejected)])
  {
  }

  /** A control is answered; a message that insists on its session is rejected without it. */
  lemma {:induction false} Screening(st: State)
    requires st.hand.Accepted?
    ensures
      var m := st.hand.msg;
      After(st, SScreen) ==
        if m.control then st.(hand := Empty, outcomes := st.outcomes + [Outcome(m, Inline)])
        else if !m.requireExisting || m.session in st.cached then st.(hand := Screened(m))
        else st.(hand := Empty, outcomes := st.outcomes + [Outcome(m, Rejected)])
  {
  }

  /** Stopping a session ends what waits in its queue and nothing else. */
  lemma {:induction false} StoppingDropsTheQueue(st: State, s: Session)
    requires Enabled(st, SStop(s))
    ensures
      var t, after := st.pending[s], After(st, SStop(s));
      && after.tasks == st.tasks[t := st.tasks[t].(queue := [])]
      && after == st.(tasks := after.tasks, pending := after.pending, outcomes := after.outcomes)
      && s !in after.pending && after.pending.Keys == st.pending.Keys - {s}
      && (forall x :: x in after.pending ==> after.pending[x] == st.pending[x])
      && |after.outcomes| == |st.outcomes| + |st.tasks[t].queue|
      && forall i :: 0 <= i < |after.outcomes| ==>
           after.outcomes[i] == if i < |st.outcomes| then st.outcomes[i]
                                else Outcome(st.tasks[t].queue[i - |st.outcomes|], Stopped)
  {
    DroppedInOrder(st.tasks[st.pending[s]].queue);
  }

  lemma {:induction false} DroppedInOrder(queue: seq<Msg>)
    ensures |Dropped(queue)| == |queue|
    ensures forall i :: 0 <= i < |queue| ==> Dropped(queue)[i] == Outcome(queue[i], Stopped)
    decreases |queue|
  {
    if queue != [] { DroppedInOrder(queue[1..]); }
  }

  // ------------------------------------------------------------------ a turn begins

  function LockFor(st: State, s: Session): LockId {
    if s in st.locks then st.locks[s] else st.nextLock
  }

  /** A task whose message is good refers to the lock of its session, one that exists already
      or a new one, and takes it when it is free. */
  lemma {:induction false} TakingTheLock(st: State, t: TaskId)
    requires InPhase(st, t, Created) && Good(st, st.tasks[t].msg)
    requires LockFor(st, st.tasks[t].msg.session) !in st.holders
    ensures Enabled(st, SBegin(t)) && Enabled(After(st, SBegin(t)), SAcquire(t))
    ensures
      var task, s := st.tasks[t], st.tasks[t].msg.session;
      var after := After(After(st, SBegin(t)), SAcquire(t));
      && after.tasks == st.tasks[t := task.(phase := Locked, lock := LockFor(st, s))]
      && after.locks == st.locks[s := LockFor(st, s)] && after.holders == st.holders[LockFor(st, s) := t]
      && after == st.(tasks := after.tasks, locks := after.locks, holders := after.holders, nextLock := after.nextLock)
  {
    var task, s := st.tasks[t], st.tasks[t].msg.session;
    var begun := After(st, SBegin(t));
    assert begun.tasks == st.tasks[t := task.(phase := Waiting, lock := LockFor(st, s))];
  }

  /** While another task has the lock, it waits. */
  lemma {:induction false} WaitingForTheLock(st: State, t: TaskId)
    requires InPhase(st, t, Waiting) && st.tasks[t].lock in st.holders
    ensures !Enabled(st, SAcquire(t))
  {
  }

  /** Then it registers its queue and spends its token; one whose token has been revoked
      meanwhile gives the lock back instead. */
  lemma {:induction false} EnteringTheTurn(st: State, t: TaskId)
    requires InPhase(st, t, Locked)
    ensures
      var task, after := st.tasks[t], After(st, SAdmit(t));
      if Good(st, task.msg) then
        && after.tasks == st.tasks[t := task.(phase := Running, queue := [])]
        && after.pending == st.pending[task.msg.session := t] && after.tokens == TokensAfter(st, task.msg)
        && after == st.(tasks := after.tasks, pending := after.pending, tokens := after.tokens)
      else
        && after.tasks == st.tasks[t := task.(phase := Leaving)] && task.lock !in after.holders
        && after.outcomes == st.outcomes + [Outcome(task.msg, Rejected)]
        && after == st.(tasks := after.tasks, holders := after.holders, outcomes := after.outcomes)
        && (forall k :: k in st.holders && k != task.lock ==> k in after.holders && after.holders[k] == st.holders[k])
  {
  }

  /** A task with a revoked token does not even look for the lock. */
  lemma {:induction false} RevokedBeforeTheStart(st: State, t: TaskId)
    requires InPhase(st, t, Created) && !Good(st, st.tasks[t].msg)
    ensures
      After(st, SBegin(t)) ==
        st.(tasks := st.tasks[t := st.tasks[t].(phase := Done)],
            outcomes := st.outcomes + [Outcome(st.tasks[t].msg, Rejected)])
  {
  }

  /** A cancellation in the wait gives the lock back if it had been granted; the exit is still
      to come. One before the first step leaves nothing to come. */
  lemma {:induction false} CancelledBeforeTheTurn(st: State, t: TaskId)
    requires InPhase(st, t, Waiting) || InPhase(st, t, Locked)
    ensures Enabled(st, SCancelWait(t)) && Enabled(After(st, SCancelWait(t)), SExit(t))
    ensures
      var task, after := st.tasks[t], After(st, SCancelWait(t));
      && after.tasks == st.tasks[t := task.(phase := Leaving)]
      && after.outcomes == st.outcomes + [Outcome(task.msg, Cancelled)]
      && after == st.(tasks := after.tasks, holders := after.holders, outcomes := after.outcomes)
      && (task.phase.Waiting? ==> after.holders == st.holders)
      && (task.phase.Locked? ==> task.lock !in after.holders)
      && (forall k :: k in st.holders && k != task.lock ==> k in after.holders && after.holders[k] == st.holders[k])
  {
  }

  lemma {:induction false} CancelledBeforeTheStart(st: State, t: TaskId)
    requires InPhase(st, t, Created)
    ensures
      After(st, SCancelStart(t)) ==
        st.(tasks := st.tasks[t := st.tasks[t].(phase := Done)],
            outcomes := st.outcomes + [Outcome(st.tasks[t].msg, Cancelled)])
  {
  }

  // ------------------------------------------------------------------- in the turn

  /** The turn takes the oldest follow-up, if its token is good, and spends the token. */
  lemma {:induction false} TakingAFollowUp(st: State, t: TaskId)
    requires InPhase(st, t, Running) && st.tasks[t].queue != []
    ensures Enabled(st, SInject(t))
    ensures
      var m, after := st.tasks[t].queue[0], After(st, SInject(t));
      && after.tasks == st.tasks[t := st.tasks[t].(queue := st.tasks[t].queue[1..])]
      && after.outcomes == st.outcomes + [Outcome(m, if Good(st, m) then Injected else Rejected)]
      && after.tokens == (if Good(st, m) then TokensAfter(st, m) else st.tokens)
      && after == st.(tasks := after.tasks, outcomes := after.outcomes, tokens := after.tokens)
  {
  }

  // ------------------------------------------------------------------- a turn ends

  /** A turn that ends takes its own queue out of the table, but not that of another. */
  lemma {:induction false} EndingTheTurn(st: State, t: TaskId)
    requires InPhase(st, t, Running)
    ensures
      var task, s, after := st.tasks[t], st.tasks[t].msg.session, After(st, SFinish(t));
      && after.tasks == st.tasks[t := task.(phase := Draining)]
      && after.outcomes == st.outcomes + [Outcome(task.msg, Consumed)]
      && after == st.(tasks := after.tasks, pending := after.pending, outcomes := after.outcomes)
      && (s in st.pending && st.pending[s] == t ==> after.pending.Keys == st.pending.Keys - {s})
      && (s !in st.pending || st.pending[s] != t ==> after.pending == st.pending)
      && (forall x :: x in after.pending ==> x in st.pending && after.pending[x] == st.pending[x])
  {
  }

  /** What is left in its queue goes back on the bus, in order; then it lets go. */
  lemma {:induction false} LeftoversGoBack(st: State, t: TaskId) returns (steps: seq<Step>)
    requires InPhase(st, t, Draining)
    ensures Runs(st, steps)
    ensures RunOf(st, steps) ==
      st.(tasks := st.tasks[t := st.tasks[t].(phase := Releasing, queue := [])], bus := st.bus + st.tasks[t].queue)
    decreases |st.tasks[t].queue|
  {
    var after, queue := After(st, SDrain(t)), st.tasks[t].queue;
    if queue == [] {
      steps := [SDrain(t)];
      assert Runs(after, []) && steps[1..] == [];
      assert st.bus + queue == st.bus;
      assert RunOf(st, steps) == RunOf(after, []);
    } else {
      assert after.tasks[t].queue == queue[1..];
      var rest := LeftoversGoBack(after, t);
      steps := [SDrain(t)] + rest;
      assert steps[1..] == rest;
      assert (st.bus + [queue[0]]) + queue[1..] == st.bus + queue;
      assert after.tasks[t := after.tasks[t].(phase := Releasing, queue := [])] ==
        st.tasks[t := st.tasks[t].(phase := Releasing, queue := [])];
    }
  }

  /** Letting go frees the lock, if it was held, and puts the oldest deferred turn of the
      session, if there is one, on the bus. */
  lemma {:induction false} LettingGo(st: State, t: TaskId)
    requires InPhase(st, t, Releasing) || InPhase(st, t, Leaving)
    requires st.tasks[t].msg.session in st.deferred ==> st.deferred[st.tasks[t].msg.session] != []
    ensures Enabled(st, SExit(t))
    ensures
      var task, s, after := st.tasks[t], st.tasks[t].msg.session, After(st, SExit(t));
      && after.tasks == st.tasks[t := task.(phase := Done)]
      && after == st.(tasks := after.tasks, holders := after.holders, bus := after.bus, deferred := after.deferred)
      && (task.phase.Releasing? ==> task.lock !in after.holders)
      && (task.phase.Leaving? ==> after.holders == st.holders)
      && (forall k :: k in st.holders && k != task.lock ==> k in after.holders && after.holders[k] == st.holders[k])
      && after.bus == st.bus + (if s in st.deferred then [st.deferred[s][0]] else [])
      && (s in st.deferred && |st.deferred[s]| > 1 <==> s in after.deferred)
      && (s in after.deferred ==> after.deferred[s] == st.deferred[s][1..])
      && (forall x :: x != s ==> (x in after.deferred <==> x in st.deferred))
      && (forall x :: x != s && x in st.deferred ==> after.deferred[x] == st.deferred[x])
  {
    assert st.bus + [] == st.bus;
  }

  // ------------------------------------------------------------------ a direct call

  /** A direct call refers to the session's lock as a task does. */
  lemma {:induction false} ADirectCallWaits(st: State, s: Session)
    ensures
      var after := After(st, SDirect(s));
      && after.tasks == st.tasks + [Task(DirectMessage(s), DirectWaiting, LockFor(st, s), [])]
      && after.locks == st.locks[s := LockFor(st, s)]
      && after.nextLock == (if s in st.locks then st.nextLock else st.nextLock + 1)
      && after == st.(tasks := after.tasks, locks := after.locks, nextLock := after.nextLock)
  {
  }

  /** It takes the lock when it is free and gives it back, and nothing else comes of it. */
  lemma {:induction false} ADirectCallComesAndGoes(st: State, t: TaskId)
    requires InPhase(st, t, DirectWaiting) && st.tasks[t].lock !in st.holders
    ensures Enabled(st, SAcquireDirect(t)) && Enabled(After(st, SAcquireDirect(t)), SEndDirect(t))
    ensures
      After(st, SAcquireDirect(t)) ==
        st.(tasks := st.tasks[t := st.tasks[t].(phase := DirectRunning)], holders := st.holders[st.tasks[t].lock := t])
    ensures
      After(After(st, SAcquireDirect(t)), SEndDirect(t)) == st.(tasks := st.tasks[t := st.tasks[t].(phase := Done)])
  {
    var lock := st.tasks[t].lock;
    assert Without(st.holders[lock := t], lock) == st.holders;
  }

  /** One that gives up in the wait leaves the lock to whoever has it. */
  lemma {:induction false} ADirectCallGivesUp(st: State, t: TaskId)
    requires InPhase(st, t, DirectWaiting)
    ensures Enabled(st, SEndDirect(t))
    ensures After(st, SEndDirect(t)) == st.(tasks := st.tasks[t := st.tasks[t].(phase := Done)])
  {
  }

  /** What the outside changes. */
  lemma {:induction false} TheOutside(st: State, m: Msg, dropped: set<nat>, cached: set<Session>, s: Session)
    ensures After(st, SDropTokens(dropped)) == st.(tokens := st.tokens - dropped)
    ensures After(st, SChangeCache(cached)) == st.(cached := cached)
    ensures Enabled(st, SPublish(m)) ==>
      var after := After(st, SPublish(m));
      && after == st.(published := st.published + [m], bus := st.bus + [m], tokens := after.tokens)
      && after.tokens == (if m.kind.SubagentResult? then st.tokens + {m.kind.token} else st.tokens)
    ensures Enabled(st, SCollect(s)) ==>
      && After(st, SCollect(s)) == st.(locks := After(st, SCollect(s)).locks)
      && After(st, SCollect(s)).locks == map k | k in st.locks && k != s :: st.locks[k]
  {
  }
}
