/** What every interleaving of the run loop and the dispatch tasks keeps. */
module DispatchTheorems {
  import opened DeferredTurns
  import opened LockOwnership
  import opened MessageConservation
  import opened Sequences
  import opened TurnDispatch

  predicate Sound(st: State) {
    Owned(st) && Tidy(st)
  }

  lemma {:induction false} SoundQueues(st: State)
    requires Sound(st)
    ensures FreshQueues(st) && DeferredAtHome(st)
  {
    forall s | s in st.deferred ensures AtHome(st.deferred[s], s) {
      assert AllAutomation(st.deferred[s], s);
    }
    forall t | 0 <= t < |st.tasks| && !st.tasks[t].phase.Running? && !st.tasks[t].phase.Draining?
      ensures st.tasks[t].queue == []
    {
      assert QueueRead(st.tasks[t], t, st.pending);
    }
  }

  lemma {:induction false} StepKeepsSound(st: State, step: Step)
    requires Sound(st) && Enabled(st, step)
    ensures Sound(After(st, step))
  {
    StepOwns(st, step);
    if IsTaskStep(step) { TaskStepKeepsTidy(st, step); } else { LoopStepKeepsTidy(st, step); }
  }

  lemma {:induction false} RunKeepsSound(st: State, steps: seq<Step>)
    requires Sound(st) && Runs(st, steps)
    ensures Sound(RunOf(st, steps))
    decreases |steps|
  {
    if steps != [] {
      StepKeepsSound(st, steps[0]);
      RunKeepsSound(After(st, steps[0]), steps[1..]);
    }
  }

  // ------------------------------------------------------------------ single owner

  /** In every reachable state a session's queue is the queue of the one task that holds
      the session's lock. */
  lemma {:induction false} QueueBelongsToTheHolder(steps: seq<Step>, s: Session)
    requires Runs(Initial(), steps) && s in RunOf(Initial(), steps).pending
    ensures
      var st := RunOf(Initial(), steps);
      && st.pending[s] < |st.tasks| && st.tasks[st.pending[s]].phase.Running?
      && st.tasks[st.pending[s]].msg.session == s
      && s in st.locks && st.locks[s] in st.holders && st.holders[st.locks[s]] == st.pending[s]
      && forall t :: 0 <= t < |st.tasks| && Holds(st.tasks[t].phase) && st.tasks[t].msg.session == s ==>
           t == st.pending[s]
  {
    RunKeepsSound(Initial(), steps);
    OwnerHoldsTheLock(RunOf(Initial(), steps), s);
  }

  /** Turns of one session never overlap, dispatched or direct. */
  lemma {:induction false} TurnsNeverOverlap(steps: seq<Step>, t: TaskId, u: TaskId)
    requires Runs(Initial(), steps)
    requires t < |RunOf(Initial(), steps).tasks| && u < |RunOf(Initial(), steps).tasks|
    requires Holds(RunOf(Initial(), steps).tasks[t].phase) && Holds(RunOf(Initial(), steps).tasks[u].phase)
    requires RunOf(Initial(), steps).tasks[t].msg.session == RunOf(Initial(), steps).tasks[u].msg.session
    ensures t == u
  {
    RunKeepsSound(Initial(), steps);
    TurnsOfASessionExclude(RunOf(Initial(), steps), t, u);
  }

  // ------------------------------------------------------------------ conservation

  lemma {:induction false} RunBalances(st: State, steps: seq<Step>, x: Msg)
    requires Sound(st) && Balanced(st, x) && Runs(st, steps)
    ensures Balanced(RunOf(st, steps), x)
    decreases |steps|
  {
    if steps != [] {
      SoundQueues(st);
      StepBalances(st, steps[0], x);
      StepKeepsSound(st, steps[0]);
      RunBalances(After(st, steps[0]), steps[1..], x);
    }
  }

  predicate Numbered(published: seq<Msg>) {
    forall i :: 0 <= i < |published| ==> published[i].id == i
  }

  lemma {:induction false} StepKeepsNumbered(st: State, step: Step)
    requires Sound(st) && Numbered(st.published) && Enabled(st, step)
    ensures Numbered(After(st, step).published)
  {
    SoundQueues(st);
    var any := Msg(0, "", Ordinary, false, false, false, false);
    if IsTaskStep(step) {
      TaskStepMoves(st, step, any);
    } else if !step.SPublish? {
      LoopStepMoves(st, step, any);
    }
  }

  lemma {:induction false} RunKeepsNumbered(st: State, steps: seq<Step>)
    requires Sound(st) && Numbered(st.published) && Runs(st, steps)
    ensures Numbered(RunOf(st, steps).published)
    decreases |steps|
  {
    if steps != [] {
      StepKeepsNumbered(st, steps[0]);
      StepKeepsSound(st, steps[0]);
      RunKeepsNumbered(After(st, steps[0]), steps[1..]);
    }
  }

  lemma {:induction false} CountOfNumbered(published: seq<Msg>, x: Msg)
    requires Numbered(published)
    ensures Count(published, x) == if x in published then 1 else 0
    ensures x in published ==> x.id < |published|
  {
    if published != [] {
      CountOfNumbered(Init(published), x);
      Split(published);
      assert x in published <==> x in Init(published) || x == Last(published);
    }
  }

  /** Every admitted message is in exactly one place, in every reachable state; nothing
      else is anywhere. */
  lemma {:induction false} EveryMessageIsInOnePlace(steps: seq<Step>, x: Msg)
    requires Runs(Initial(), steps)
    ensures Places(RunOf(Initial(), steps), x) == if x in RunOf(Initial(), steps).published then 1 else 0
  {
    RunBalances(Initial(), steps, x);
    RunKeepsNumbered(Initial(), steps);
    CountOfNumbered(RunOf(Initial(), steps).published, x);
  }

  // ------------------------------------------------------------ nothing is stranded

  /** No step of the run drops the last carrier of a session with deferred turns. */
  predicate NeverDrops(st: State, steps: seq<Step>)
    requires Runs(st, steps)
    decreases |steps|
  {
    steps == [] || (!DropsLastCarrier(st, steps[0]) && NeverDrops(After(st, steps[0]), steps[1..]))
  }

  lemma {:induction false} RunStrandsNothing(st: State, steps: seq<Step>)
    requires Sound(st) && NoneStranded(st) && Runs(st, steps) && NeverDrops(st, steps)
    ensures NoneStranded(RunOf(st, steps))
    decreases |steps|
  {
    if steps != [] {
      StepStrandsOnlyByDropping(st, steps[0]);
      StepKeepsSound(st, steps[0]);
      RunStrandsNothing(After(st, steps[0]), steps[1..]);
    }
  }

  /** An automation turn that does not insist on a cached session is never dropped by
      screening. The submitters of cron and local-trigger turns leave the flag unset. */
  predicate Lasting(m: Msg) {
    m.kind.AutomationTurn? ==> !m.requireExisting
  }

  predicate AllLasting(queue: seq<Msg>) {
    forall i :: 0 <= i < |queue| ==> Lasting(queue[i])
  }

  predicate OnlyLasting(st: State) {
    && AllLasting(st.bus)
    && (!st.hand.Empty? ==> Lasting(st.hand.msg))
    && (forall s :: s in st.deferred ==> AllLasting(st.deferred[s]))
  }

  lemma {:induction false} StepKeepsLasting(st: State, step: Step)
    requires Sound(st) && OnlyLasting(st) && Enabled(st, step)
    requires step.SPublish? ==> Lasting(step.msg)
    ensures OnlyLasting(After(st, step))
  {
    if IsTaskStep(step) {
      if step.SExit? {
        ExitKeepsLasting(st, step.task);
      } else if step.SDrain? {
        DrainKeepsLasting(st, step.task);
      } else {
        TaskStepFrame(st, step);
        TaskStepBus(st, step);
      }
    } else if step.SRoute? {
      RouteKeepsLasting(st);
    } else {
      LoopKeepsLasting(st, step);
    }
  }

  lemma {:induction false} LoopKeepsLasting(st: State, step: Step)
    requires OnlyLasting(st) && Enabled(st, step) && !IsTaskStep(step) && !step.SRoute?
    requires step.SPublish? ==> Lasting(step.msg)
    ensures OnlyLasting(After(st, step))
  {
    match step
    case SPublish(_) =>
    case SConsume =>
    case SScreen =>
    case _ =>
  }

  lemma {:induction false} TaskStepBus(st: State, step: Step)
    requires Enabled(st, step) && IsTaskStep(step) && !step.SExit? && !step.SDrain?
    ensures After(st, step).bus == st.bus
  {
    match step
    case SBegin(t) => BeginFrame(st, t);
    case SAcquire(_) =>
    case SAdmit(t) => AdmitFrame(st, t);
    case SCancelWait(t) => CancelWaitFrame(st, t);
    case SInject(t) => InjectFrame(st, t);
    case SFinish(t) => FinishFrame(st, t);
    case SCancelStart(_) =>
    case SAcquireDirect(_) =>
    case SEndDirect(_) =>
  }

  lemma {:induction false} ExitKeepsLasting(st: State, t: TaskId)
    requires OnlyLasting(st) && CanExit(st, t)
    ensures OnlyLasting(Exit(st, t))
  {
  }

  lemma {:induction false} DrainKeepsLasting(st: State, t: TaskId)
    requires Owned(st) && OnlyLasting(st) && InPhase(st, t, Draining)
    ensures OnlyLasting(Drain(st, t))
  {
    assert QueueRead(st.tasks[t], t, st.pending);
  }

  lemma {:induction false} RouteKeepsLasting(st: State)
    requires OnlyLasting(st) && Enabled(st, SRoute)
    ensures OnlyLasting(Route(st))
  {
  }

  predicate PublishesLasting(steps: seq<Step>) {
    forall i :: 0 <= i < |steps| && steps[i].SPublish? ==> Lasting(steps[i].msg)
  }

  /** No task is cancelled before its first step. */
  predicate StartsEveryTask(steps: seq<Step>) {
    forall i :: 0 <= i < |steps| ==> !steps[i].SCancelStart?
  }

  lemma {:induction false} LastingIsNotDropped(st: State, step: Step)
    requires NoneStranded(st) && OnlyLasting(st) && !step.SCancelStart?
    ensures !DropsLastCarrier(st, step)
  {
  }

  lemma {:induction false} LastingRunNeverDrops(st: State, steps: seq<Step>)
    requires Sound(st) && NoneStranded(st) && OnlyLasting(st)
    requires Runs(st, steps) && PublishesLasting(steps) && StartsEveryTask(steps)
    ensures NeverDrops(st, steps)
    decreases |steps|
  {
    if steps != [] {
      LastingIsNotDropped(st, steps[0]);
      StepStrandsOnlyByDropping(st, steps[0]);
      StepKeepsSound(st, steps[0]);
      StepKeepsLasting(st, steps[0]);
      LastingRunNeverDrops(After(st, steps[0]), steps[1..]);
    }
  }

  /** With automation turns as the repository submits them, only cancelling a task before
      its first step can strand a deferred turn. */
  lemma {:induction false} NoDeferredTurnIsStranded(steps: seq<Step>)
    requires Runs(Initial(), steps) && PublishesLasting(steps) && StartsEveryTask(steps)
    ensures NoneStranded(RunOf(Initial(), steps))
  {
    LastingRunNeverDrops(Initial(), steps);
    RunStrandsNothing(Initial(), steps);
  }
}
