/** Which messages end up where: an ordinary follow-up reaches the running turn, commands and
    controls are answered at once, automation turns wait, and nothing is rejected without a
    reason. */
module RoutedMessages {
  import opened TurnDispatch

  /** A message that a running turn takes up. */
  predicate FollowUp(m: Msg) {
    !m.control && !m.priority && !m.command && !m.kind.AutomationTurn?
  }

  predicate FollowUps(queue: seq<Msg>) {
    forall i :: 0 <= i < |queue| ==> FollowUp(queue[i])
  }

  /** Messages that may become a turn of their own. */
  predicate StartsATurn(m: Msg) {
    !m.control && !m.priority
  }

  predicate Deferrable(queue: seq<Msg>) {
    forall i :: 0 <= i < |queue| ==> queue[i].kind.AutomationTurn? && StartsATurn(queue[i])
  }

  /** What can become of which message. */
  predicate Fits(o: Outcome) {
    match o.fate
    case Inline => o.msg.control || o.msg.priority || o.msg.command
    case Rejected => o.msg.kind.SubagentResult? || o.msg.requireExisting
    case Injected => FollowUp(o.msg)
    case Stopped => FollowUp(o.msg)
    case Consumed => StartsATurn(o.msg)
    case Cancelled => StartsATurn(o.msg)
  }

  predicate TaskFits(task: Task) {
    StartsATurn(task.msg) && FollowUps(task.queue)
  }

  predicate AllFit(outcomes: seq<Outcome>) {
    forall i :: 0 <= i < |outcomes| ==> Fits(outcomes[i])
  }

  predicate TasksFit(tasks: seq<Task>) {
    forall t :: 0 <= t < |tasks| ==> TaskFits(tasks[t])
  }

  predicate Fitting(st: State) {
    && (st.hand.Screened? ==> !st.hand.msg.control)
    && TasksFit(st.tasks) && AllFit(st.outcomes)
    && (forall s :: s in st.deferred ==> Deferrable(st.deferred[s]))
  }

  lemma {:induction false} DroppedFit(outcomes: seq<Outcome>, queue: seq<Msg>)
    requires AllFit(outcomes) && FollowUps(queue)
    ensures AllFit(outcomes + Dropped(queue))
    decreases |queue|
  {
    if queue == [] {
      assert outcomes + Dropped(queue) == outcomes;
    } else {
      var o := Outcome(queue[0], Stopped);
      assert FollowUp(queue[0]);
      DroppedFit(outcomes + [o], queue[1..]);
      assert outcomes + Dropped(queue) == (outcomes + [o]) + Dropped(queue[1..]);
    }
  }

  lemma {:induction false} OneMoreFits(outcomes: seq<Outcome>, o: Outcome)
    requires AllFit(outcomes) && Fits(o)
    ensures AllFit(outcomes + [o])
  {
  }

  lemma {:induction false} OneMoreTaskFits(tasks: seq<Task>, task: Task)
    requires TasksFit(tasks) && TaskFits(task)
    ensures TasksFit(tasks + [task])
  {
  }

  /** A step that changes one task and perhaps logs something. */
  lemma {:induction false} OneTaskFits(st: State, after: State, t: TaskId, task: Task)
    requires Fitting(st) && t < |st.tasks| && TaskFits(task) && AllFit(after.outcomes)
    requires after.tasks == st.tasks[t := task] && after.hand == st.hand && after.deferred == st.deferred
    ensures Fitting(after)
  {
  }

  lemma {:induction false} DeferFits(st: State, m: Msg)
    requires Fitting(st) && m.kind.AutomationTurn? && StartsATurn(m)
    ensures Fitting(Defer(st, m))
  {
    var queue := Deferred(st, m.session);
    assert Deferrable(queue + [m]);
  }

  lemma {:induction false} EnqueueFits(st: State, t: TaskId, m: Msg)
    requires Fitting(st) && t < |st.tasks| && FollowUp(m)
    ensures Fitting(SetTask(st, t, st.tasks[t].(queue := st.tasks[t].queue + [m])))
  {
    assert TaskFits(st.tasks[t]);
    assert FollowUps(st.tasks[t].queue + [m]);
    OneTaskFits(st, SetTask(st, t, st.tasks[t].(queue := st.tasks[t].queue + [m])), t,
                st.tasks[t].(queue := st.tasks[t].queue + [m]));
  }

  lemma {:induction false} RouteFits(st: State)
    requires Fitting(st) && Enabled(st, SRoute)
    ensures Fitting(Route(st))
  {
    var m, rest := st.hand.msg, st.(hand := Empty);
    if m.priority || (m.session in st.pending && m.command) { OneMoreFits(st.outcomes, Outcome(m, Inline)); }
    if !m.priority {
      OneMoreTaskFits(st.tasks, Task(m, Created, 0, []));
      if m.kind.AutomationTurn? {
        DeferFits(rest, m);
      } else if m.session in st.pending && !m.command {
        EnqueueFits(rest, st.pending[m.session], m);
      }
    }
  }

  lemma {:induction false} StopFits(st: State, s: Session)
    requires Fitting(st) && Enabled(st, SStop(s))
    ensures Fitting(Stop(st, s))
  {
    assert TaskFits(st.tasks[st.pending[s]]);
    DroppedFit(st.outcomes, st.tasks[st.pending[s]].queue);
  }

  lemma {:induction false} ConsumeFits(st: State)
    requires Fitting(st) && CanConsume(st)
    ensures Fitting(Consume(st))
  {
    if !Accepts(st, st.bus[0]) { OneMoreFits(st.outcomes, Outcome(st.bus[0], Rejected)); }
  }

  lemma {:induction false} LoopStepFits(st: State, step: Step)
    requires Fitting(st) && Enabled(st, step) && !IsTaskStep(step)
    ensures Fitting(After(st, step))
  {
    match step
    case SPublish(_) =>
    case SDropTokens(_) =>
    case SChangeCache(_) =>
    case SCollect(_) =>
    case SConsume => ConsumeFits(st);
    case SScreen =>
    case SRoute => RouteFits(st);
    case SStop(s) => StopFits(st, s);
    case SDirect(s) => OneMoreTaskFits(st.tasks, Direct(st, s).tasks[|st.tasks|]);
  }

  lemma {:induction false} BeginFits(st: State, t: TaskId)
    requires Fitting(st) && InPhase(st, t, Created)
    ensures Fitting(Begin(st, t))
  {
    assert TaskFits(st.tasks[t]);
    if !Accepts(st, st.tasks[t].msg) { OneMoreFits(st.outcomes, Outcome(st.tasks[t].msg, Rejected)); }
    OneTaskFits(st, Begin(st, t), t, Begin(st, t).tasks[t]);
  }

  lemma {:induction false} AdmitFits(st: State, t: TaskId)
    requires Fitting(st) && InPhase(st, t, Locked)
    ensures Fitting(Admit(st, t))
  {
    assert TaskFits(st.tasks[t]);
    if !Accepts(st, st.tasks[t].msg) { OneMoreFits(st.outcomes, Outcome(st.tasks[t].msg, Rejected)); }
    OneTaskFits(st, Admit(st, t), t, Admit(st, t).tasks[t]);
  }

  lemma {:induction false} CancelFits(st: State, t: TaskId)
    requires Fitting(st) && t < |st.tasks|
    ensures CanCancelWait(st, t) ==> Fitting(CancelWait(st, t))
    ensures InPhase(st, t, Created) ==> Fitting(CancelStart(st, t))
  {
    assert TaskFits(st.tasks[t]);
    OneMoreFits(st.outcomes, Outcome(st.tasks[t].msg, Cancelled));
    if CanCancelWait(st, t) { OneTaskFits(st, CancelWait(st, t), t, st.tasks[t].(phase := Leaving)); }
    if InPhase(st, t, Created) { OneTaskFits(st, CancelStart(st, t), t, st.tasks[t].(phase := Done)); }
  }

  lemma {:induction false} FinishFits(st: State, t: TaskId)
    requires Fitting(st) && InPhase(st, t, Running)
    ensures Fitting(Finish(st, t))
  {
    assert TaskFits(st.tasks[t]);
    OneMoreFits(st.outcomes, Outcome(st.tasks[t].msg, Consumed));
    OneTaskFits(st, Finish(st, t), t, st.tasks[t].(phase := Draining));
  }

  lemma {:induction false} InjectFits(st: State, t: TaskId)
    requires Fitting(st) && CanInject(st, t)
    ensures Fitting(Inject(st, t))
  {
    assert TaskFits(st.tasks[t]);
    var m := st.tasks[t].queue[0];
    assert FollowUp(m);
    OneMoreFits(st.outcomes, Outcome(m, if Accepts(st, m) then Injected else Rejected));
    OneTaskFits(st, Inject(st, t), t, st.tasks[t].(queue := st.tasks[t].queue[1..]));
  }

  lemma {:induction false} ExitFits(st: State, t: TaskId)
    requires Fitting(st) && CanExit(st, t)
    ensures Fitting(Exit(st, t))
  {
    var next := PublishNextDeferred(st, st.tasks[t].msg.session);
    assert TaskFits(st.tasks[t]);
    OneTaskFits(next, Exit(st, t), t, st.tasks[t].(phase := Done));
  }

  lemma {:induction false} DrainFits(st: State, t: TaskId)
    requires Fitting(st) && InPhase(st, t, Draining)
    ensures Fitting(Drain(st, t))
  {
    assert TaskFits(st.tasks[t]);
    OneTaskFits(st, Drain(st, t), t, Drain(st, t).tasks[t]);
  }

  /** Taking the lock, and a direct call, change the phase of one task and log nothing. */
  lemma {:induction false} LockStepFits(st: State, t: TaskId)
    requires Fitting(st) && t < |st.tasks|
    ensures CanAcquire(st, t) ==> Fitting(Acquire(st, t))
    ensures CanAcquireDirect(st, t) ==> Fitting(AcquireDirect(st, t))
    ensures CanEndDirect(st, t) ==> Fitting(EndDirect(st, t))
  {
    assert TaskFits(st.tasks[t]);
    if CanAcquire(st, t) { OneTaskFits(st, Acquire(st, t), t, st.tasks[t].(phase := Locked)); }
    if CanAcquireDirect(st, t) { OneTaskFits(st, AcquireDirect(st, t), t, st.tasks[t].(phase := DirectRunning)); }
    if CanEndDirect(st, t) { OneTaskFits(st, EndDirect(st, t), t, st.tasks[t].(phase := Done)); }
  }

  lemma {:induction false} TaskStepFits(st: State, step: Step)
    requires Fitting(st) && Enabled(st, step) && IsTaskStep(step)
    ensures Fitting(After(st, step))
  {
    match step
    case SBegin(t) => BeginFits(st, t);
    case SAdmit(t) => AdmitFits(st, t);
    case SCancelWait(t) => CancelFits(st, t);
    case SCancelStart(t) => CancelFits(st, t);
    case SInject(t) => InjectFits(st, t);
    case SFinish(t) => FinishFits(st, t);
    case SExit(t) => ExitFits(st, t);
    case SDrain(t) => DrainFits(st, t);
    case SAcquire(t) => LockStepFits(st, t);
    case SAcquireDirect(t) => LockStepFits(st, t);
    case SEndDirect(t) => LockStepFits(st, t);
  }

  lemma {:induction false} RunFits(st: State, steps: seq<Step>)
    requires Fitting(st) && Runs(st, steps)
    ensures Fitting(RunOf(st, steps))
    decreases |steps|
  {
    if steps != [] {
      if IsTaskStep(steps[0]) { TaskStepFits(st, steps[0]); } else { LoopStepFits(st, steps[0]); }
      RunFits(After(st, steps[0]), steps[1..]);
    }
  }

  /** In every reachable state: what was answered inline is a control, a priority message or a
      command; what was rejected is a subagent result or insisted on its session; only
      follow-ups wait in the queue of a turn or were injected into one; only automation turns
      are deferred. */
  lemma {:induction false} EverythingGoesWhereItShould(steps: seq<Step>)
    requires Runs(Initial(), steps)
    ensures
      var st := RunOf(Initial(), steps);
      && (forall i :: 0 <= i < |st.outcomes| ==> Fits(st.outcomes[i]))
      && (forall t :: 0 <= t < |st.tasks| ==> FollowUps(st.tasks[t].queue) && StartsATurn(st.tasks[t].msg))
      && (forall s :: s in st.deferred ==> Deferrable(st.deferred[s]))
  {
    RunFits(Initial(), steps);
    var st := RunOf(Initial(), steps);
    forall t | 0 <= t < |st.tasks| ensures FollowUps(st.tasks[t].queue) && StartsATurn(st.tasks[t].msg) {
      assert TaskFits(st.tasks[t]);
    }
  }

  // --------------------------------------------------------------------- one message

  /** What routing leaves alone: everything but the hand and the one place it puts the
      message in. */
  predicate OnlyTasks(st: State, after: State) {
    after == st.(hand := Empty, tasks := after.tasks)
  }

  /** A follow-up of a session with a registered turn reaches that turn while there are fewer
      than 20 in front of it, and becomes a turn of its own when there are not. */
  lemma {:induction false} FollowUpReachesTheTurn(st: State)
    requires Enabled(st, SRoute) && FollowUp(st.hand.msg) && st.hand.msg.session in st.pending
    ensures
      var m, t, after := st.hand.msg, st.pending[st.hand.msg.session], After(st, SRoute);
      && OnlyTasks(st, after)
      && (|st.tasks[t].queue| < 20 ==>
           && |after.tasks| == |st.tasks| && after.tasks[t].queue == st.tasks[t].queue + [m]
           && forall u :: 0 <= u < |st.tasks| && u != t ==> after.tasks[u] == st.tasks[u])
      && (|st.tasks[t].queue| >= 20 ==>
           && |after.tasks| == |st.tasks| + 1 && st.tasks <= after.tasks
           && after.tasks[|st.tasks|].msg == m && after.tasks[|st.tasks|].phase.Created?)
  {
  }

  /** A message of a session without a registered turn becomes a turn, automation turns and
      commands included, unless it has priority. */
  lemma {:induction false} IdleSessionGetsATurn(st: State)
    requires Enabled(st, SRoute) && !st.hand.msg.priority && st.hand.msg.session !in st.pending
    ensures
      var after := After(st, SRoute);
      && OnlyTasks(st, after) && |after.tasks| == |st.tasks| + 1 && st.tasks <= after.tasks
      && after.tasks[|st.tasks|].msg == st.hand.msg && after.tasks[|st.tasks|].phase.Created?
  {
  }

  /** Priority messages, and commands to a session with a registered turn, are answered at
      once; an automation turn waits behind the turn, last of those that wait. */
  lemma {:induction false} TheRestDoesNotStartATurn(st: State)
    requires Enabled(st, SRoute)
    requires
      var m := st.hand.msg;
      m.priority || (m.session in st.pending && !FollowUp(m) && !m.control)
    ensures
      var m, after := st.hand.msg, After(st, SRoute);
      if m.priority || !m.kind.AutomationTurn? then
        after == st.(hand := Empty, outcomes := st.outcomes + [Outcome(m, Inline)])
      else
        && m.session in after.deferred && after == st.(hand := Empty, deferred := after.deferred)
        && after.deferred[m.session] == (if m.session in st.deferred then st.deferred[m.session] else []) + [m]
        && forall s :: s != m.session ==>
             (s in after.deferred <==> s in st.deferred) && (s in st.deferred ==> after.deferred[s] == st.deferred[s])
  {
  }
}
