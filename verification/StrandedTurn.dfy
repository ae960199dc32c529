/** Neither hypothesis of `NoDeferredTurnIsStranded` can be dropped: two runs, each breaking
    one of them and keeping the other, end with a deferred automation turn for which nothing
    is on its way. Two automation turns wait for a running turn of their session, and the
    first is on the bus again. In one run it insists on a cached session, which leaves the
    cache, so the run loop drops it. In the other it does not insist, and becomes a task
    that is cancelled before its first step. */
module StrandedTurn {
  import opened DeferredTurns
  import opened DispatchTheorems
  import opened TurnDispatch

  lemma {:induction false} RunSnoc(st: State, steps: seq<Step>, step: Step)
    requires Runs(st, steps) && Enabled(RunOf(st, steps), step)
    ensures Runs(st, steps + [step])
    ensures RunOf(st, steps + [step]) == After(RunOf(st, steps), step)
    decreases |steps|
  {
    if steps == [] {
      assert [step][1..] == [];
      assert steps + [step] == [step];
    } else {
      RunSnoc(After(st, steps[0]), steps[1..], step);
      assert (steps + [step])[1..] == steps[1..] + [step];
    }
  }

  /** A run to `st` that starts every task and, unless `insists`, publishes lasting turns. */
  predicate Reaches(steps: seq<Step>, st: State, insists: bool) {
    && Runs(Initial(), steps) && RunOf(Initial(), steps) == st
    && StartsEveryTask(steps) && (insists || PublishesLasting(steps))
  }

  lemma {:induction false} Take(steps: seq<Step>, st: State, step: Step, after: State, insists: bool)
    requires Reaches(steps, st, insists) && Enabled(st, step) && After(st, step) == after
    requires !step.SCancelStart? && (step.SPublish? ==> insists || Lasting(step.msg))
    ensures Reaches(steps + [step], after, insists)
  {
    RunSnoc(Initial(), steps, step);
  }

  function First(s: Session): Msg { Msg(0, s, Ordinary, false, false, false, false) }
  function Second(s: Session, insists: bool): Msg { Msg(1, s, AutomationTurn, false, insists, false, false) }
  function Third(s: Session): Msg { Msg(2, s, AutomationTurn, false, false, false, false) }

  function TurnCreated(s: Session): State {
    State([First(s)], [], Empty, [Task(First(s), Created, 0, [])], map[], map[], map[], map[], 0, {}, {s}, [])
  }

  lemma {:induction false} ReachCreated(s: Session, insists: bool) returns (steps: seq<Step>)
    ensures Reaches(steps, TurnCreated(s), insists)
  {
    var st0 := Initial();
    var st1 := ChangeCache(st0, {s});
    var st2 := Publish(st1, First(s));
    var st3 := Consume(st2);
    var st4 := Screen(st3);
    Take([], st0, SChangeCache({s}), st1, insists);
    Take([SChangeCache({s})], st1, SPublish(First(s)), st2, insists);
    steps := [SChangeCache({s})] + [SPublish(First(s))];
    Take(steps, st2, SConsume, st3, insists);
    steps := steps + [SConsume];
    Take(steps, st3, SScreen, st4, insists);
    steps := steps + [SScreen];
    Take(steps, st4, SRoute, TurnCreated(s), insists);
    steps := steps + [SRoute];
  }

  function TurnRuns(s: Session): State {
    State([First(s)], [], Empty, [Task(First(s), Running, 0, [])],
          map[s := 0], map[], map[s := 0], map[0 := 0], 1, {}, {s}, [])
  }

  lemma {:induction false} ReachRunning(s: Session, insists: bool) returns (steps: seq<Step>)
    ensures Reaches(steps, TurnRuns(s), insists)
  {
    var st0 := TurnCreated(s);
    var st1 := Begin(st0, 0);
    assert st1.tasks == [Task(First(s), Waiting, 0, [])];
    var st2 := Acquire(st1, 0);
    assert st2.tasks == [Task(First(s), Locked, 0, [])];
    steps := ReachCreated(s, insists);
    Take(steps, st0, SBegin(0), st1, insists);
    steps := steps + [SBegin(0)];
    Take(steps, st1, SAcquire(0), st2, insists);
    steps := steps + [SAcquire(0)];
    Take(steps, st2, SAdmit(0), TurnRuns(s), insists);
    steps := steps + [SAdmit(0)];
  }

  /** The running turn with a queue of deferred turns behind it. */
  function Behind(s: Session, queue: seq<Msg>): State {
    TurnRuns(s).(published := [First(s)] + queue, deferred := if queue == [] then map[] else map[s := queue])
  }

  lemma {:induction false} ReachDeferred(
      steps: seq<Step>, s: Session, queue: seq<Msg>, m: Msg, insists: bool) returns (more: seq<Step>)
    requires Reaches(steps, Behind(s, queue), insists) && m.id == |queue| + 1
    requires Automation(m, s) && (insists || Lasting(m))
    ensures Reaches(more, Behind(s, queue + [m]), insists)
  {
    var st0 := Behind(s, queue);
    var st1 := Publish(st0, m);
    var st2 := Consume(st1);
    var st3 := Screen(st2);
    assert [First(s)] + queue + [m] == [First(s)] + (queue + [m]);
    Take(steps, st0, SPublish(m), st1, insists);
    more := steps + [SPublish(m)];
    Take(more, st1, SConsume, st2, insists);
    more := more + [SConsume];
    Take(more, st2, SScreen, st3, insists);
    more := more + [SScreen];
    Take(more, st3, SRoute, Behind(s, queue + [m]), insists);
    more := more + [SRoute];
  }

  function Republished(s: Session, insists: bool): State {
    State([First(s), Second(s, insists), Third(s)], [Second(s, insists)], Empty, [Task(First(s), Done, 0, [])],
          map[], map[s := [Third(s)]], map[s := 0], map[], 1, {}, {s}, [Outcome(First(s), Consumed)])
  }

  lemma {:induction false} ReachBothDeferred(s: Session, insists: bool) returns (steps: seq<Step>)
    ensures Reaches(steps, Behind(s, [Second(s, insists), Third(s)]), insists)
  {
    steps := ReachRunning(s, insists);
    assert TurnRuns(s) == Behind(s, []) by { assert [First(s)] + [] == [First(s)]; }
    assert [] + [Second(s, insists)] == [Second(s, insists)];
    steps := ReachDeferred(steps, s, [], Second(s, insists), insists);
    assert [Second(s, insists)] + [Third(s)] == [Second(s, insists), Third(s)];
    steps := ReachDeferred(steps, s, [Second(s, insists)], Third(s), insists);
  }

  function Ended(s: Session, insists: bool): State {
    Behind(s, [Second(s, insists), Third(s)])
      .(tasks := [Task(First(s), Releasing, 0, [])], pending := map[], outcomes := [Outcome(First(s), Consumed)])
  }

  lemma {:induction false} ReachEnded(s: Session, insists: bool) returns (steps: seq<Step>)
    ensures Reaches(steps, Ended(s, insists), insists)
  {
    steps := ReachBothDeferred(s, insists);
    var st0 := Behind(s, [Second(s, insists), Third(s)]);
    var st1 := Finish(st0, 0);
    assert st1.tasks == [Task(First(s), Draining, 0, [])];
    Take(steps, st0, SFinish(0), st1, insists);
    steps := steps + [SFinish(0)];
    Take(steps, st1, SDrain(0), Ended(s, insists), insists);
    steps := steps + [SDrain(0)];
  }

  lemma {:induction false} ReachRepublished(s: Session, insists: bool) returns (steps: seq<Step>)
    ensures Reaches(steps, Republished(s, insists), insists)
  {
    steps := ReachEnded(s, insists);
    assert Exit(Ended(s, insists), 0) == Republished(s, insists);
    Take(steps, Ended(s, insists), SExit(0), Republished(s, insists), insists);
    steps := steps + [SExit(0)];
  }

  /** With a turn that insists, a run that starts every task can strand the turn behind it. */
  lemma {:induction false} AnInsistingTurnStrandsTheNext(s: Session)
    ensures exists steps ::
      Runs(Initial(), steps) && StartsEveryTask(steps) && !NoneStranded(RunOf(Initial(), steps))
  {
    var steps := ReachRepublished(s, true);
    var st0 := Republished(s, true);
    var st1 := ChangeCache(st0, {});
    var st2 := Consume(st1);
    var st3 := Screen(st2);
    Take(steps, st0, SChangeCache({}), st1, true);
    steps := steps + [SChangeCache({})];
    Take(steps, st1, SConsume, st2, true);
    steps := steps + [SConsume];
    Take(steps, st2, SScreen, st3, true);
    steps := steps + [SScreen];
    assert s in st3.deferred && !Carried(st3, s);
    assert Runs(Initial(), steps) && !NoneStranded(RunOf(Initial(), steps));
  }

  function Restarted(s: Session, insists: bool): State {
    Republished(s, insists)
      .(bus := [], tasks := [Task(First(s), Done, 0, []), Task(Second(s, insists), Created, 0, [])])
  }

  lemma {:induction false} ReachRestarted(s: Session, insists: bool) returns (steps: seq<Step>)
    ensures Reaches(steps, Restarted(s, insists), insists)
  {
    steps := ReachRepublished(s, insists);
    var st0 := Republished(s, insists);
    var st1 := Consume(st0);
    var st2 := Screen(st1);
    Take(steps, st0, SConsume, st1, insists);
    steps := steps + [SConsume];
    Take(steps, st1, SScreen, st2, insists);
    steps := steps + [SScreen];
    assert st0.tasks + [Task(Second(s, insists), Created, 0, [])] == Restarted(s, insists).tasks;
    Take(steps, st2, SRoute, Restarted(s, insists), insists);
    steps := steps + [SRoute];
  }

  /** With lasting turns only, a run that cancels a task before its first step can. */
  lemma {:induction false} AnEarlyCancellationStrandsTheNext(s: Session)
    ensures exists steps ::
      Runs(Initial(), steps) && PublishesLasting(steps) && !NoneStranded(RunOf(Initial(), steps))
  {
    var steps := ReachRestarted(s, false);
    var st0 := Restarted(s, false);
    var st1 := CancelStart(st0, 1);
    RunSnoc(Initial(), steps, SCancelStart(1));
    steps := steps + [SCancelStart(1)];
    assert st1.tasks == [Task(First(s), Done, 0, []), Task(Second(s, false), Done, 0, [])];
    assert s in st1.deferred && !Carried(st1, s);
    assert Runs(Initial(), steps) && !NoneStranded(RunOf(Initial(), steps));
  }
}
