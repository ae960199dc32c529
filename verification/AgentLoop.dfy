/** The agent loop object: the fields that the run loop and the dispatch tasks update in
    place, and the pieces of code that update them, each proved to do the step or the
    steps of the state machine that stand for it. */
module AgentLoop {
  import opened LockOwnership
  import opened Sequences
  import T = TurnDispatch
  import opened Wrappers

  type Session = T.Session
  type Msg = T.Msg

  // ------------------------------------------------------ several steps in one piece

  /** A task's leftovers are all back on the bus, in order, behind what was there. */
  function Republished(st: T.State, t: T.TaskId): T.State
    requires T.InPhase(st, t, T.Draining)
  {
    T.SetTask(st, t, st.tasks[t].(queue := [], phase := T.Releasing)).(bus := st.bus + st.tasks[t].queue)
  }

  function DrainSteps(t: T.TaskId, n: nat): seq<T.Step> {
    if n == 0 then [] else [T.SDrain(t)] + DrainSteps(t, n - 1)
  }

  lemma RepublishedStep(st: T.State, t: T.TaskId)
    requires T.InPhase(st, t, T.Draining) && st.tasks[t].queue != []
    ensures Republished(T.Drain(st, t), t) == Republished(st, t)
  {
    var queue := st.tasks[t].queue;
    assert st.bus + [queue[0]] + queue[1..] == st.bus + queue;
  }

  /** Republishing is a run of single drains, between which anything may happen. */
  lemma {:induction false} RepublishingIsDraining(st: T.State, t: T.TaskId)
    requires T.InPhase(st, t, T.Draining)
    ensures T.Runs(st, DrainSteps(t, |st.tasks[t].queue| + 1))
    ensures T.RunOf(st, DrainSteps(t, |st.tasks[t].queue| + 1)) == Republished(st, t)
    decreases |st.tasks[t].queue|
  {
    var steps := DrainSteps(t, |st.tasks[t].queue| + 1);
    assert steps[0] == T.SDrain(t) && steps[1..] == DrainSteps(t, |st.tasks[t].queue|);
    if st.tasks[t].queue == [] {
      assert st.bus + [] == st.bus;
    } else {
      RepublishingIsDraining(T.Drain(st, t), t);
      RepublishedStep(st, t);
    }
  }

  /** The state after a running turn took up to `limit` acceptable follow-ups. */
  function Drained(st: T.State, t: T.TaskId, limit: nat): T.State
    requires T.InPhase(st, t, T.Running)
    decreases |st.tasks[t].queue|
  {
    if limit == 0 || st.tasks[t].queue == [] then st
    else Drained(T.Inject(st, t), t, if T.Accepts(st, st.tasks[t].queue[0]) then limit - 1 else limit)
  }

  /** The follow-ups it took. */
  function Injected(st: T.State, t: T.TaskId, limit: nat): seq<Msg>
    requires T.InPhase(st, t, T.Running)
    decreases |st.tasks[t].queue|
  {
    if limit == 0 || st.tasks[t].queue == [] then []
    else if T.Accepts(st, st.tasks[t].queue[0]) then [st.tasks[t].queue[0]] + Injected(T.Inject(st, t), t, limit - 1)
    else Injected(T.Inject(st, t), t, limit)
  }

  /** A subagent result is injected only while its token is good, and spends it: within
      one batch no token is used twice, and afterwards none of them is good. */
  lemma {:induction false} InjectedTokensAreSpent(st: T.State, t: T.TaskId, limit: nat)
    requires T.InPhase(st, t, T.Running)
    ensures |Injected(st, t, limit)| <= limit
    ensures Drained(st, t, limit).tokens <= st.tokens
    ensures forall i :: 0 <= i < |Injected(st, t, limit)| && Injected(st, t, limit)[i].kind.SubagentResult? ==>
              Injected(st, t, limit)[i].kind.token in st.tokens - Drained(st, t, limit).tokens
    ensures forall i, j :: 0 <= i < j < |Injected(st, t, limit)| && Injected(st, t, limit)[i].kind.SubagentResult? ==>
              Injected(st, t, limit)[i].kind != Injected(st, t, limit)[j].kind
    decreases |st.tasks[t].queue|
  {
    if limit > 0 && st.tasks[t].queue != [] {
      var m := st.tasks[t].queue[0];
      InjectedTokensAreSpent(T.Inject(st, t), t, if T.Accepts(st, m) then limit - 1 else limit);
    }
  }

  predicate CameOutAs(o: T.Outcome, m: Msg) {
    o.msg == m && (o.fate.Injected? || (o.fate.Rejected? && m.kind.SubagentResult?))
  }

  /** The oldest `|log|` follow-ups have left the queue and are accounted for in `log`; nothing
      but queue, outcomes and tokens has changed. */
  predicate Took(st: T.State, after: T.State, t: T.TaskId, log: seq<T.Outcome>)
    requires t < |st.tasks|
  {
    && |log| <= |st.tasks[t].queue|
    && after == st.(tasks := st.tasks[t := st.tasks[t].(queue := st.tasks[t].queue[|log|..])],
                    outcomes := st.outcomes + log, tokens := after.tokens)
    && forall i :: 0 <= i < |log| ==> CameOutAs(log[i], st.tasks[t].queue[i])
  }

  lemma {:induction false} TookNothing(st: T.State, t: T.TaskId)
    requires t < |st.tasks|
    ensures Took(st, st, t, [])
  {
    assert st.tasks[t].queue[0..] == st.tasks[t].queue && st.outcomes + [] == st.outcomes;
  }

  lemma {:induction false} TookMore(
      st: T.State, next: T.State, after: T.State, t: T.TaskId, o: T.Outcome, rest: seq<T.Outcome>)
    requires t < |st.tasks| && Took(st, next, t, [o]) && Took(next, after, t, rest)
    ensures Took(st, after, t, [o] + rest)
  {
    var queue := st.tasks[t].queue;
    assert queue[1..][|rest|..] == queue[|[o] + rest|..];
    assert (st.outcomes + [o]) + rest == st.outcomes + ([o] + rest);
    forall i | 0 <= i < |rest| ensures CameOutAs(rest[i], queue[i + 1]) {
      assert CameOutAs(rest[i], next.tasks[t].queue[i]);
    }
  }

  /** Follow-ups are taken in order, each injected, or rejected if it is a subagent result,
      until the limit is reached or the queue is empty. */
  lemma {:induction false} FollowUpsAreTakenInOrder(st: T.State, t: T.TaskId, limit: nat)
      returns (log: seq<T.Outcome>)
    requires T.InPhase(st, t, T.Running)
    ensures Took(st, Drained(st, t, limit), t, log)
    ensures |Injected(st, t, limit)| <= limit
    ensures |Injected(st, t, limit)| < limit ==> |log| == |st.tasks[t].queue|
    decreases |st.tasks[t].queue|
  {
    var queue := st.tasks[t].queue;
    if limit == 0 || queue == [] {
      log := [];
      TookNothing(st, t);
    } else {
      var ok := T.Accepts(st, queue[0]);
      var o := T.Outcome(queue[0], if ok then T.Injected else T.Rejected);
      var rest := FollowUpsAreTakenInOrder(T.Inject(st, t), t, if ok then limit - 1 else limit);
      log := [o] + rest;
      assert CameOutAs(o, queue[0]);
      TookMore(st, T.Inject(st, t), Drained(st, t, limit), t, o, rest);
    }
  }

  /** Follow-ups that are no subagent results are all taken, as far as the limit goes. */
  lemma {:induction false} PlainFollowUpsAreInjected(st: T.State, t: T.TaskId, limit: nat)
    requires T.InPhase(st, t, T.Running)
    requires forall i :: 0 <= i < |st.tasks[t].queue| ==> !st.tasks[t].queue[i].kind.SubagentResult?
    ensures
      var queue := st.tasks[t].queue;
      Injected(st, t, limit) == queue[..if limit < |queue| then limit else |queue|]
    decreases |st.tasks[t].queue|
  {
    if limit > 0 && st.tasks[t].queue != [] { PlainFollowUpsAreInjected(T.Inject(st, t), t, limit - 1); }
  }

  /** What is left of the limit. */
  function Left(limit: nat, taken: seq<Msg>): nat {
    if |taken| <= limit then limit - |taken| else 0
  }

  function InjectSteps(st: T.State, t: T.TaskId, limit: nat): seq<T.Step>
    requires T.InPhase(st, t, T.Running)
    decreases |st.tasks[t].queue|
  {
    if limit == 0 || st.tasks[t].queue == [] then []
    else
      var left := if T.Accepts(st, st.tasks[t].queue[0]) then limit - 1 else limit;
      [T.SInject(t)] + InjectSteps(T.Inject(st, t), t, left)
  }

  /** Draining for injection is a run of single takes. */
  lemma {:induction false} InjectingIsARun(st: T.State, t: T.TaskId, limit: nat)
    requires T.InPhase(st, t, T.Running)
    ensures T.Runs(st, InjectSteps(st, t, limit))
    ensures T.RunOf(st, InjectSteps(st, t, limit)) == Drained(st, t, limit)
    decreases |st.tasks[t].queue|
  {
    if limit > 0 && st.tasks[t].queue != [] {
      var left := if T.Accepts(st, st.tasks[t].queue[0]) then limit - 1 else limit;
      InjectingIsARun(T.Inject(st, t), t, left);
      T.RunHead(st, T.SInject(t), InjectSteps(T.Inject(st, t), t, left));
    }
  }

  class Loop {
    var bus: seq<Msg>
    var hand: T.Hand
    var tasks: seq<T.Task>
    var pendingQueues: map<Session, T.TaskId>
    var deferredQueues: map<Session, seq<Msg>>
    var sessionLocks: map<Session, T.LockId>
    var holders: map<T.LockId, T.TaskId>
    var nextLock: T.LockId
    var tokens: set<nat>
    var cached: set<Session>
    ghost var published: seq<Msg>
    ghost var outcomes: seq<T.Outcome>

    ghost function View(): T.State
      reads this
    {
      T.State(published, bus, hand, tasks, pendingQueues, deferredQueues,
              sessionLocks, holders, nextLock, tokens, cached, outcomes)
    }

    constructor ()
      ensures View() == T.Initial()
    {
      bus, hand, tasks := [], T.Empty, [];
      pendingQueues, deferredQueues, sessionLocks, holders, nextLock := map[], map[], map[], map[], 0;
      tokens, cached, published, outcomes := {}, {}, [], [];
    }

    /** `accept_result` without consuming. */
    method AcceptResult(m: Msg) returns (ok: bool)
      ensures ok == T.Accepts(View(), m)
    {
      ok := true;
      if m.kind.SubagentResult? { ok := m.kind.token in tokens; }
    }

    method ConsumeInbound()
      requires T.CanConsume(View())
      modifies this
      ensures View() == T.Consume(old(View()))
    {
      var m := bus[0];
      bus := bus[1..];
      var ok := AcceptResult(m);
      if ok { hand := T.Accepted(m); } else { outcomes := outcomes + [T.Outcome(m, T.Rejected)]; }
    }

    method DeferIfActive(m: Msg) returns (deferred: bool)
      modifies this
      ensures deferred == (m.kind.AutomationTurn? && m.session in old(pendingQueues))
      ensures View() == if deferred then T.Defer(old(View()), m) else old(View())
    {
      deferred := m.kind.AutomationTurn? && m.session in pendingQueues;
      if deferred {
        if m.session !in deferredQueues { deferredQueues := deferredQueues[m.session := []]; }
        deferredQueues := deferredQueues[m.session := deferredQueues[m.session] + [m]];
      }
    }

    /** `put_nowait`: refuses when the queue is full. */
    method PutNowait(t: T.TaskId, m: Msg) returns (ok: bool)
      requires t < |tasks|
      modifies this
      ensures ok == (|old(tasks)[t].queue| < T.PENDING_QUEUE_SIZE)
      ensures View() == if ok then T.SetTask(old(View()), t, old(tasks)[t].(queue := old(tasks)[t].queue + [m]))
              else old(View())
    {
      ok := |tasks[t].queue| < T.PENDING_QUEUE_SIZE;
      if ok { tasks := tasks[t := tasks[t].(queue := tasks[t].queue + [m])]; }
    }

    method Route()
      requires hand.Screened? && Owned(View())
      modifies this
      ensures View() == T.Route(old(View()))
    {
      var m := hand.msg;
      hand := T.Empty;
      if m.priority {
        outcomes := outcomes + [T.Outcome(m, T.Inline)];
        return;
      }
      var deferred := DeferIfActive(m);
      if deferred { return; }
      if m.session in pendingQueues {
        if m.command {
          outcomes := outcomes + [T.Outcome(m, T.Inline)];
          return;
        }
        var ok := PutNowait(pendingQueues[m.session], m);
        if ok { return; }
      }
      tasks := tasks + [T.Task(m, T.Created, 0, [])];
    }

    method GetSessionLock(s: Session) returns (lock: T.LockId)
      modifies this
      ensures s in sessionLocks && lock == sessionLocks[s]
      ensures if s in old(sessionLocks) then View() == old(View())
              else View() == old(View()).(locks := old(sessionLocks)[s := old(nextLock)], nextLock := old(nextLock) + 1)
    {
      if s !in sessionLocks {
        sessionLocks := sessionLocks[s := nextLock];
        nextLock := nextLock + 1;
      }
      lock := sessionLocks[s];
    }

    method BeginDispatch(t: T.TaskId)
      requires T.InPhase(View(), t, T.Created)
      modifies this
      ensures View() == T.Begin(old(View()), t)
    {
      var m := tasks[t].msg;
      var ok := AcceptResult(m);
      if !ok {
        tasks := tasks[t := tasks[t].(phase := T.Done)];
        outcomes := outcomes + [T.Outcome(m, T.Rejected)];
        return;
      }
      var lock := GetSessionLock(m.session);
      tasks := tasks[t := tasks[t].(phase := T.Waiting, lock := lock)];
    }

    method PublishNextDeferredTurn(s: Session) returns (published: bool)
      modifies this
      ensures published == (T.Deferred(old(View()), s) != [])
      ensures View() == T.PublishNextDeferred(old(View()), s)
    {
      if s !in deferredQueues || deferredQueues[s] == [] { return false; }
      var queue := deferredQueues[s];
      var m := queue[0];
      deferredQueues := deferredQueues[s := queue[1..]];
      if |queue| == 1 { deferredQueues := map x | x in deferredQueues && x != s :: deferredQueues[x]; }
      bus := bus + [m];
      published := true;
    }

    /** The `finally` clause of a turn: unregister, republish leftovers. */
    method Unregister(t: T.TaskId)
      requires T.InPhase(View(), t, T.Running)
      modifies this
      ensures View() == T.Finish(old(View()), t)
    {
      var s := tasks[t].msg.session;
      outcomes := outcomes + [T.Outcome(tasks[t].msg, T.Consumed)];
      if s in pendingQueues && pendingQueues[s] == t {
        pendingQueues := map x | x in pendingQueues && x != s :: pendingQueues[x];
      }
      tasks := tasks[t := tasks[t].(phase := T.Draining)];
    }

    method RepublishLeftovers(t: T.TaskId) returns (leftover: nat)
      requires T.InPhase(View(), t, T.Draining)
      modifies this
      ensures View() == Republished(old(View()), t)
      ensures leftover == |old(tasks)[t].queue|
    {
      leftover := 0;
      ghost var queue := tasks[t].queue;
      while tasks[t].queue != []
        invariant t < |tasks| && leftover <= |queue|
        invariant View() == T.SetTask(old(View()), t, old(tasks)[t].(queue := queue[leftover..]))
                .(bus := old(bus) + queue[..leftover])
        decreases |tasks[t].queue|
      {
        var item := tasks[t].queue[0];
        tasks := tasks[t := tasks[t].(queue := tasks[t].queue[1..])];
        bus := bus + [item];
        leftover := leftover + 1;
      }
      tasks := tasks[t := tasks[t].(phase := T.Releasing)];
    }

    /** Mid-turn injection: rejected results do not count against the limit. */
    method DrainPending(t: T.TaskId, limit: nat) returns (items: seq<Msg>)
      requires T.InPhase(View(), t, T.Running)
      modifies this
      ensures View() == Drained(old(View()), t, limit)
      ensures items == Injected(old(View()), t, limit)
    {
      items := DrainMore(t, limit, []);
    }

    /** The terminal wait hands over the message it waited for; it is taken whatever the
        limit, and the rest of the limit is drained behind it. */
    method DrainAfterWait(t: T.TaskId, limit: nat) returns (items: seq<Msg>)
      requires T.CanInject(View(), t)
      modifies this
      ensures
        var head, first := old(tasks)[t].queue[0], T.Inject(old(View()), t);
        var taken := if T.Accepts(old(View()), head) then [head] else [];
        View() == Drained(first, t, Left(limit, taken)) && items == taken + Injected(first, t, Left(limit, taken))
      ensures limit > 0 ==> View() == Drained(old(View()), t, limit) && items == Injected(old(View()), t, limit)
    {
      var first := TakeHead(t);
      items := DrainMore(t, limit, if first.Some? then [first.value] else []);
    }

    method DrainMore(t: T.TaskId, limit: nat, taken: seq<Msg>) returns (items: seq<Msg>)
      requires T.InPhase(View(), t, T.Running)
      modifies this
      ensures View() == Drained(old(View()), t, Left(limit, taken))
      ensures items == taken + Injected(old(View()), t, Left(limit, taken))
    {
      items := taken;
      while |items| < limit && tasks[t].queue != []
        invariant T.InPhase(View(), t, T.Running)
        invariant Drained(View(), t, Left(limit, items)) == Drained(old(View()), t, Left(limit, taken))
        invariant items + Injected(View(), t, Left(limit, items)) ==
            taken + Injected(old(View()), t, Left(limit, taken))
        decreases |tasks[t].queue|
      {
        var m := TakeHead(t);
        if m.Some? { items := items + [m.value]; }
      }
    }

    method TakeHead(t: T.TaskId) returns (taken: Option<Msg>)
      requires T.CanInject(View(), t)
      modifies this
      ensures View() == T.Inject(old(View()), t)
      ensures taken == if T.Accepts(old(View()), old(tasks)[t].queue[0]) then Some(old(tasks)[t].queue[0]) else None
    {
      var m := tasks[t].queue[0];
      tasks := tasks[t := tasks[t].(queue := tasks[t].queue[1..])];
      var ok := AcceptResult(m);
      if !ok {
        outcomes := outcomes + [T.Outcome(m, T.Rejected)];
        return None;
      }
      if m.kind.SubagentResult? { tokens := tokens - {m.kind.token}; }
      outcomes := outcomes + [T.Outcome(m, T.Injected)];
      taken := Some(m);
    }

    /** `/stop`, after the tasks it cancelled are gone: the queue of whatever turn is
        registered now is taken out of the table and emptied. */
    method StopSession(s: Session) returns (dropped: nat)
      requires Owned(View())
      modifies this
      ensures View() == if s in old(pendingQueues) then T.Stop(old(View()), s) else old(View())
      ensures dropped == if s in old(pendingQueues) then |old(tasks)[old(pendingQueues)[s]].queue| else 0
    {
      dropped := 0;
      if s !in pendingQueues { return; }
      var t := pendingQueues[s];
      pendingQueues := map x | x in pendingQueues && x != s :: pendingQueues[x];
      dropped := DropQueue(t);
    }

    method DropQueue(t: T.TaskId) returns (dropped: nat)
      requires t < |tasks|
      modifies this
      ensures dropped == |old(tasks)[t].queue|
      ensures View() == T.SetTask(old(View()), t, old(tasks)[t].(queue := []))
                         .(outcomes := old(outcomes) + T.Dropped(old(tasks)[t].queue))
    {
      dropped := 0;
      ghost var queue := tasks[t].queue;
      while tasks[t].queue != []
        invariant t < |tasks| && dropped <= |queue|
        invariant View() == T.SetTask(old(View()), t, old(tasks)[t].(queue := queue[dropped..])).(outcomes := outcomes)
        invariant outcomes + T.Dropped(queue[dropped..]) == old(outcomes) + T.Dropped(queue)
        decreases |tasks[t].queue|
      {
        assert queue[dropped..][1..] == queue[dropped + 1..];
        outcomes := outcomes + [T.Outcome(tasks[t].queue[0], T.Stopped)];
        tasks := tasks[t := tasks[t].(queue := tasks[t].queue[1..])];
        dropped := dropped + 1;
      }
      assert outcomes + T.Dropped([]) == outcomes;
    }
  }
}
