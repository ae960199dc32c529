/** No deferred automation turn is stranded: while a session has deferred turns, there
    is something on its way whose completion publishes the next one. Two kinds of steps
    can break this, and it is characterised below exactly when they do. */
module DeferredTurns {
  import opened LockOwnership
  import opened TurnDispatch

  /** An automation turn of session `s` that routing will defer or start. */
  predicate Automation(m: Msg, s: Session) {
    m.session == s && m.kind.AutomationTurn? && !m.control && !m.priority
  }

  /** A dispatch task past its first check ends by publishing the session's next deferred
      turn; one before the check gets there unless its message is a revocable result. A
      direct call publishes nothing. */
  predicate WillPublish(task: Task, s: Session) {
    && task.msg.session == s
    && !task.phase.Done? && !task.phase.DirectWaiting? && !task.phase.DirectRunning?
    && (task.phase.Created? ==> !task.msg.kind.SubagentResult?)
  }

  predicate InFlight(tasks: seq<Task>, s: Session) {
    exists t :: 0 <= t < |tasks| && WillPublish(tasks[t], s)
  }

  predicate OnBus(bus: seq<Msg>, s: Session) {
    exists i :: 0 <= i < |bus| && Automation(bus[i], s)
  }

  predicate InHand(h: Hand, s: Session) {
    !h.Empty? && Automation(h.msg, s)
  }

  predicate Carried(st: State, s: Session) {
    InFlight(st.tasks, s) || OnBus(st.bus, s) || InHand(st.hand, s)
  }

  predicate NoneStranded(st: State) {
    forall s :: s in st.deferred ==> Carried(st, s)
  }

  /** Deferred queues are not empty and hold automation turns of their session; a
      screened message is no runtime control. */
  predicate Tidy(st: State) {
    && (forall s :: s in st.deferred ==> st.deferred[s] != [] && AllAutomation(st.deferred[s], s))
    && (st.hand.Screened? ==> !st.hand.msg.control)
  }

  predicate AllAutomation(queue: seq<Msg>, s: Session) {
    forall i :: 0 <= i < |queue| ==> Automation(queue[i], s)
  }

  /** The run loop drops a message whose session has vanished from the cache
      (loop.py:1779-1783), and nothing else is on its way for the session. */
  predicate DropsByScreening(st: State) {
    && st.hand.Accepted?
    && !st.hand.msg.control && st.hand.msg.requireExisting && st.hand.msg.session !in st.cached
    && st.hand.msg.session in st.deferred
    && !InFlight(st.tasks, st.hand.msg.session) && !OnBus(st.bus, st.hand.msg.session)
  }

  /** A task is cancelled before its first step, so that not even its cleanup runs
      (loop.py:1230-1232), and nothing else is on its way for its session. */
  predicate DropsByCancelling(st: State, t: TaskId) {
    && InPhase(st, t, Created) && !st.tasks[t].msg.kind.SubagentResult?
    && st.tasks[t].msg.session in st.deferred
    && !InFlight(st.tasks[t := st.tasks[t].(phase := Done)], st.tasks[t].msg.session)
    && !OnBus(st.bus, st.tasks[t].msg.session) && !InHand(st.hand, st.tasks[t].msg.session)
  }

  /** The step drops the last carrier of session `s`. */
  predicate DropsFor(st: State, step: Step, s: Session) {
    match step
    case SScreen => DropsByScreening(st) && st.hand.msg.session == s
    case SCancelStart(t) => DropsByCancelling(st, t) && st.tasks[t].msg.session == s
    case _ => false
  }

  predicate DropsLastCarrier(st: State, step: Step) {
    match step
    case SScreen => DropsByScreening(st)
    case SCancelStart(t) => DropsByCancelling(st, t)
    case _ => false
  }

  // ------------------------------------------ what a task's own steps leave alone

  lemma {:induction false} BeginFrame(st: State, t: TaskId)
    requires InPhase(st, t, Created)
    ensures Begin(st, t).deferred == st.deferred && Begin(st, t).hand == st.hand && Begin(st, t).bus == st.bus
  {
  }

  lemma {:induction false} AdmitFrame(st: State, t: TaskId)
    requires InPhase(st, t, Locked)
    ensures Admit(st, t).deferred == st.deferred && Admit(st, t).hand == st.hand && Admit(st, t).bus == st.bus
  {
  }

  lemma {:induction false} CancelWaitFrame(st: State, t: TaskId)
    requires CanCancelWait(st, t)
    ensures CancelWait(st, t).deferred == st.deferred && CancelWait(st, t).hand == st.hand
    ensures CancelWait(st, t).bus == st.bus
  {
  }

  lemma {:induction false} InjectFrame(st: State, t: TaskId)
    requires CanInject(st, t)
    ensures Inject(st, t).deferred == st.deferred && Inject(st, t).hand == st.hand && Inject(st, t).bus == st.bus
  {
  }

  lemma {:induction false} FinishFrame(st: State, t: TaskId)
    requires InPhase(st, t, Running)
    ensures Finish(st, t).deferred == st.deferred && Finish(st, t).hand == st.hand && Finish(st, t).bus == st.bus
  {
  }

  lemma {:induction false} TaskStepFrame(st: State, step: Step)
    requires Enabled(st, step) && IsTaskStep(step) && !step.SExit?
    ensures After(st, step).deferred == st.deferred && After(st, step).hand == st.hand
  {
    match step
    case SBegin(t) => BeginFrame(st, t);
    case SAcquire(_) =>
    case SAdmit(t) => AdmitFrame(st, t);
    case SCancelWait(t) => CancelWaitFrame(st, t);
    case SInject(t) => InjectFrame(st, t);
    case SFinish(t) => FinishFrame(st, t);
    case SDrain(_) =>
    case SCancelStart(_) =>
    case SAcquireDirect(_) =>
    case SEndDirect(_) =>
  }

  // ----------------------------------------------------------- tidiness, every step

  lemma {:induction false} TaskStepKeepsTidy(st: State, step: Step)
    requires Tidy(st) && Enabled(st, step) && IsTaskStep(step)
    ensures Tidy(After(st, step))
  {
    if step.SExit? { PublishKeepsTidy(st, st.tasks[step.task].msg.session); } else { TaskStepFrame(st, step); }
  }

  lemma {:induction false} LoopStepKeepsTidy(st: State, step: Step)
    requires Tidy(st) && Enabled(st, step) && !IsTaskStep(step)
    ensures Tidy(After(st, step))
  {
    match step
    case SScreen => ScreenKeepsTidy(st);
    case SRoute => RouteKeepsTidy(st);
    case _ =>
  }

  lemma {:induction false} ScreenKeepsTidy(st: State)
    requires Tidy(st) && st.hand.Accepted?
    ensures Tidy(Screen(st))
  {
  }

  lemma {:induction false} RouteKeepsTidy(st: State)
    requires Tidy(st) && Enabled(st, SRoute)
    ensures Tidy(Route(st))
  {
  }

  lemma {:induction false} PublishKeepsTidy(st: State, s: Session)
    requires Tidy(st)
    ensures Tidy(PublishNextDeferred(st, s))
  {
  }

  // ------------------------------------------------------------- carriers, one step

  lemma {:induction false} InFlightUpdate(tasks: seq<Task>, t: TaskId, task: Task, s: Session)
    requires t < |tasks| && InFlight(tasks, s) && (WillPublish(tasks[t], s) ==> WillPublish(task, s))
    ensures InFlight(tasks[t := task], s)
  {
    var u :| 0 <= u < |tasks| && WillPublish(tasks[u], s);
    assert WillPublish(tasks[t := task][u], s);
  }

  lemma {:induction false} OnBusSnoc(bus: seq<Msg>, m: Msg, s: Session)
    requires OnBus(bus, s) || Automation(m, s)
    ensures OnBus(bus + [m], s)
  {
    if OnBus(bus, s) {
      var i :| 0 <= i < |bus| && Automation(bus[i], s);
      assert Automation((bus + [m])[i], s);
    } else {
      assert Automation((bus + [m])[|bus|], s);
    }
  }

  lemma {:induction false} OnBusHead(bus: seq<Msg>, s: Session)
    requires OnBus(bus, s)
    ensures Automation(bus[0], s) || OnBus(bus[1..], s)
  {
    var i :| 0 <= i < |bus| && Automation(bus[i], s);
    if i > 0 { assert Automation(bus[1..][i - 1], s); }
  }

  lemma {:induction false} PublishCarries(st: State, m: Msg, s: Session)
    requires Carried(st, s)
    ensures Carried(Publish(st, m), s)
  {
    if OnBus(st.bus, s) { OnBusSnoc(st.bus, m, s); }
  }

  lemma {:induction false} ConsumeCarries(st: State, s: Session)
    requires CanConsume(st) && Carried(st, s)
    ensures Carried(Consume(st), s)
  {
    if OnBus(st.bus, s) { OnBusHead(st.bus, s); }
  }

  /** Screening drops a carrier exactly in the one case. */
  lemma {:induction false} ScreenCarries(st: State, s: Session)
    requires st.hand.Accepted? && Carried(st, s) && s in st.deferred
    ensures Carried(Screen(st), s) <==> !DropsFor(st, SScreen, s)
  {
  }

  lemma {:induction false} RouteKeepsTasks(st: State, s: Session)
    requires Enabled(st, SRoute) && InFlight(st.tasks, s)
    ensures InFlight(Route(st).tasks, s)
  {
    var t :| 0 <= t < |st.tasks| && WillPublish(st.tasks[t], s);
    assert WillPublish(Route(st).tasks[t], s);
  }

  lemma {:induction false} RouteFrame(st: State, s: Session)
    requires Enabled(st, SRoute) && s !in st.pending
    ensures Route(st).bus == st.bus
    ensures s in Route(st).deferred ==> s in st.deferred
  {
  }

  lemma {:induction false} RouteSpawns(st: State)
    requires Enabled(st, SRoute) && st.hand.msg.session !in st.pending && !st.hand.msg.priority
    requires !st.hand.msg.kind.SubagentResult?
    ensures InFlight(Route(st).tasks, st.hand.msg.session)
  {
    assert WillPublish(Route(st).tasks[|st.tasks|], st.hand.msg.session);
  }

  lemma {:induction false} OwnerIsInFlight(st: State, s: Session)
    requires Owned(st) && s in st.pending
    ensures InFlight(st.tasks, s)
  {
    assert WillPublish(st.tasks[st.pending[s]], s);
  }

  /** A turn is only deferred behind a running turn, which will publish it. */
  lemma {:induction false} RouteCarries(st: State, s: Session)
    requires Owned(st) && st.hand.Screened? && s in Route(st).deferred
    requires s in st.deferred ==> Carried(st, s)
    ensures Carried(Route(st), s)
  {
    if s in st.pending {
      OwnerIsInFlight(st, s);
      RouteKeepsTasks(st, s);
    } else {
      RouteFrame(st, s);
      if InFlight(st.tasks, s) {
        RouteKeepsTasks(st, s);
      } else if InHand(st.hand, s) {
        RouteSpawns(st);
      }
    }
  }

  lemma {:induction false} LoopStepCarries(st: State, step: Step, s: Session)
    requires Owned(st) && Tidy(st) && Enabled(st, step) && !IsTaskStep(step)
    requires s in st.deferred ==> Carried(st, s)
    requires s in After(st, step).deferred && !step.SScreen?
    ensures Carried(After(st, step), s)
  {
    match step
    case SPublish(m) => PublishCarries(st, m, s);
    case SDropTokens(_) =>
    case SChangeCache(_) =>
    case SCollect(_) =>
    case SConsume => ConsumeCarries(st, s);
    case SRoute => RouteCarries(st, s);
    case SStop(r) => StopCarries(st, r, s);
    case SDirect(r) => DirectCarries(st, r, s);
  }

  lemma {:induction false} DirectCarries(st: State, r: Session, s: Session)
    requires Carried(st, s)
    ensures Carried(Direct(st, r), s)
  {
    if InFlight(st.tasks, s) {
      var t :| 0 <= t < |st.tasks| && WillPublish(st.tasks[t], s);
      assert WillPublish(Direct(st, r).tasks[t], s);
    }
  }

  lemma {:induction false} StopCarries(st: State, r: Session, s: Session)
    requires Enabled(st, SStop(r)) && Carried(st, s)
    ensures Carried(Stop(st, r), s)
  {
    var t := st.pending[r];
    if InFlight(st.tasks, s) { InFlightUpdate(st.tasks, t, st.tasks[t].(queue := []), s); }
  }

  /** A task that does not end keeps what is on its way. */
  lemma {:induction false} UpdateCarries(st: State, after: State, t: TaskId, task: Task, s: Session)
    requires t < |st.tasks| && Carried(st, s)
    requires after.tasks == st.tasks[t := task] && after.bus == st.bus && after.hand == st.hand
    requires WillPublish(st.tasks[t], s) ==> WillPublish(task, s)
    ensures Carried(after, s)
  {
    if InFlight(st.tasks, s) { InFlightUpdate(st.tasks, t, task, s); }
  }

  lemma {:induction false} DrainCarries(st: State, t: TaskId, s: Session)
    requires InPhase(st, t, Draining) && Carried(st, s)
    ensures Carried(Drain(st, t), s)
  {
    if InFlight(st.tasks, s) { InFlightUpdate(st.tasks, t, Drain(st, t).tasks[t], s); }
    if OnBus(st.bus, s) && st.tasks[t].queue != [] { OnBusSnoc(st.bus, st.tasks[t].queue[0], s); }
  }

  /** A task that ends puts the next deferred turn on the bus: it becomes the carrier. */
  lemma {:induction false} ExitCarries(st: State, t: TaskId, s: Session)
    requires Tidy(st) && CanExit(st, t) && Carried(st, s) && s in st.deferred
    ensures Carried(Exit(st, t), s)
  {
    var r := st.tasks[t].msg.session;
    if r == s {
      OnBusSnoc(st.bus, st.deferred[s][0], s);
    } else {
      if InFlight(st.tasks, s) { InFlightUpdate(st.tasks, t, st.tasks[t].(phase := Done), s); }
      if OnBus(st.bus, s) && Deferred(st, r) != [] { OnBusSnoc(st.bus, Deferred(st, r)[0], s); }
    }
  }

  /** Cancelling a task before it starts drops a carrier exactly in the one case. */
  lemma {:induction false} CancelStartCarries(st: State, t: TaskId, s: Session)
    requires InPhase(st, t, Created) && Carried(st, s) && s in st.deferred
    ensures Carried(CancelStart(st, t), s) <==> !DropsFor(st, SCancelStart(t), s)
  {
    var done := st.tasks[t].(phase := Done);
    if InFlight(st.tasks, s) && !WillPublish(st.tasks[t], s) { InFlightUpdate(st.tasks, t, done, s); }
  }

  lemma {:induction false} DirectStepCarries(st: State, step: Step, s: Session)
    requires Enabled(st, step) && (step.SAcquireDirect? || step.SEndDirect?) && Carried(st, s)
    ensures Carried(After(st, step), s)
  {
    match step
    case SAcquireDirect(t) => UpdateCarries(st, AcquireDirect(st, t), t, st.tasks[t].(phase := DirectRunning), s);
    case SEndDirect(t) => UpdateCarries(st, EndDirect(st, t), t, st.tasks[t].(phase := Done), s);
  }

  lemma {:induction false} BeginCarries(st: State, t: TaskId, s: Session)
    requires InPhase(st, t, Created) && Carried(st, s)
    ensures Carried(Begin(st, t), s)
  {
    BeginFrame(st, t);
    UpdateCarries(st, Begin(st, t), t, Begin(st, t).tasks[t], s);
  }

  lemma {:induction false} AdmitCarries(st: State, t: TaskId, s: Session)
    requires InPhase(st, t, Locked) && Carried(st, s)
    ensures Carried(Admit(st, t), s)
  {
    AdmitFrame(st, t);
    UpdateCarries(st, Admit(st, t), t, Admit(st, t).tasks[t], s);
  }

  lemma {:induction false} EntryCarries(st: State, step: Step, s: Session)
    requires Enabled(st, step) && Carried(st, s)
    requires step.SBegin? || step.SAcquire? || step.SAdmit? || step.SCancelWait?
    ensures Carried(After(st, step), s)
  {
    match step
    case SBegin(t) => BeginCarries(st, t, s);
    case SAcquire(t) => UpdateCarries(st, Acquire(st, t), t, st.tasks[t].(phase := Locked), s);
    case SAdmit(t) => AdmitCarries(st, t, s);
    case SCancelWait(t) =>
      CancelWaitFrame(st, t);
      UpdateCarries(st, CancelWait(st, t), t, st.tasks[t].(phase := Leaving), s);
  }

  lemma {:induction false} TurnCarries(st: State, step: Step, s: Session)
    requires Enabled(st, step) && Carried(st, s)
    requires step.SInject? || step.SFinish? || step.SDrain?
    ensures Carried(After(st, step), s)
  {
    match step
    case SInject(t) =>
      InjectFrame(st, t);
      UpdateCarries(st, Inject(st, t), t, st.tasks[t].(queue := st.tasks[t].queue[1..]), s);
    case SFinish(t) =>
      FinishFrame(st, t);
      UpdateCarries(st, Finish(st, t), t, st.tasks[t].(phase := Draining), s);
    case SDrain(t) => DrainCarries(st, t, s);
  }

  lemma {:induction false} OnlyRoutingDefers(st: State, step: Step, s: Session)
    requires Enabled(st, step) && !step.SRoute? && s in After(st, step).deferred
    ensures s in st.deferred
  {
    if step.SExit? {
      ExitDefersNothing(st, step.task, s);
    } else if IsTaskStep(step) {
      TaskStepFrame(st, step);
    } else {
      LoopDefersNothing(st, step);
    }
  }

  lemma {:induction false} ExitDefersNothing(st: State, t: TaskId, s: Session)
    requires CanExit(st, t) && s in Exit(st, t).deferred
    ensures s in st.deferred
  {
  }

  lemma {:induction false} LoopDefersNothing(st: State, step: Step)
    requires Enabled(st, step) && !IsTaskStep(step) && !step.SRoute?
    ensures After(st, step).deferred == st.deferred
  {
    match step
    case SConsume => assert Consume(st).deferred == st.deferred;
    case SScreen => assert Screen(st).deferred == st.deferred;
    case SStop(s) => assert Stop(st, s).deferred == st.deferred;
    case SDirect(s) => assert Direct(st, s).deferred == st.deferred;
    case _ =>
  }

  lemma {:induction false} TaskStepCarries(st: State, step: Step, s: Session)
    requires Tidy(st) && Enabled(st, step) && IsTaskStep(step) && Carried(st, s) && s in st.deferred
    ensures Carried(After(st, step), s) <==> !DropsFor(st, step, s)
  {
    if step.SExit? {
      ExitCarries(st, step.task, s);
    } else if step.SCancelStart? {
      CancelStartCarries(st, step.task, s);
    } else if step.SAcquireDirect? || step.SEndDirect? {
      DirectStepCarries(st, step, s);
    } else if step.SInject? || step.SFinish? || step.SDrain? {
      TurnCarries(st, step, s);
    } else {
      EntryCarries(st, step, s);
    }
  }

  lemma {:induction false} StepCarries(st: State, step: Step, s: Session)
    requires Owned(st) && Tidy(st) && Enabled(st, step)
    requires s in st.deferred ==> Carried(st, s)
    requires s in After(st, step).deferred
    ensures Carried(After(st, step), s) <==> !DropsFor(st, step, s)
  {
    if !step.SRoute? { OnlyRoutingDefers(st, step, s); }
    if step.SScreen? {
      ScreenCarries(st, s);
    } else if IsTaskStep(step) {
      TaskStepCarries(st, step, s);
    } else {
      LoopStepCarries(st, step, s);
    }
  }

  /** From a state without stranded turns, a step strands one exactly when it drops the last
      carrier of a session: a screened message of a vanished session, or a task that is
      cancelled before it starts. */
  lemma {:induction false} StepStrandsOnlyByDropping(st: State, step: Step)
    requires Owned(st) && Tidy(st) && NoneStranded(st) && Enabled(st, step)
    ensures NoneStranded(After(st, step)) <==> !DropsLastCarrier(st, step)
  {
    var after := After(st, step);
    forall s | s in after.deferred ensures Carried(after, s) <==> !DropsFor(st, step, s) {
      StepCarries(st, step, s);
    }
    if DropsLastCarrier(st, step) { DroppingKeepsDeferred(st, step); }
  }

  lemma {:induction false} DroppingKeepsDeferred(st: State, step: Step)
    requires Enabled(st, step) && DropsLastCarrier(st, step)
    ensures exists s :: s in After(st, step).deferred && DropsFor(st, step, s)
  {
    match step
    case SScreen => assert DropsFor(st, step, st.hand.msg.session);
    case SCancelStart(t) => assert DropsFor(st, step, st.tasks[t].msg.session);
  }
}
