/** The subagent manager: its tables, and the code that updates them. */
module SubagentManager {
  import opened SubagentSpec
  import opened Wrappers

  /** A task after the loop has been at it. */
  function Asked(task: Task, reached: bool): Task {
    if reached && !task.done then task.(cancelling := true) else task
  }

  class Manager {
    var runningTasks: map<TaskId, Task>
    var sessionTasks: map<Session, set<TaskId>>
    var pendingResultSessions: map<Token, Session>
    ghost var spawned: map<TaskId, Task>
    ghost var issuer: map<Token, TaskId>
    ghost var consumed: seq<(Token, Session)>

    ghost function View(): State
      reads this
    {
      State(runningTasks, sessionTasks, pendingResultSessions, spawned, issuer, consumed)
    }

    constructor ()
      ensures View() == Initial()
    {
      runningTasks, sessionTasks, pendingResultSessions := map[], map[], map[];
      spawned, issuer, consumed := map[], map[], [];
    }

    /** `spawn` and the first part of `run_inline`. */
    method StartTask(id: TaskId, session: Session, chat: Session)
      modifies this
      ensures View() == Spawn(old(View()), id, session, chat)
    {
      var task := Task(session, chat, false, false);
      runningTasks, spawned := runningTasks[id := task], spawned[id := task];
      if session != "" {
        if session !in sessionTasks { sessionTasks := sessionTasks[session := {}]; }
        sessionTasks := sessionTasks[session := sessionTasks[session] + {id}];
      }
    }

    method CleanupTask(id: TaskId)
      requires id in runningTasks
      modifies this
      ensures View() == Cleanup(old(View()), id)
    {
      var session := runningTasks[id].session;
      runningTasks := runningTasks - {id};
      if session != "" && session in sessionTasks {
        sessionTasks := sessionTasks[session := sessionTasks[session] - {id}];
        if sessionTasks[session] == {} { sessionTasks := sessionTasks - {session}; }
      }
    }

    /** `_announce_result`; `origin` is what the task was spawned with, `published` says
        whether the bus took the message. */
    method AnnounceResult(id: TaskId, origin: Task, token: Token, published: bool) returns (announced: bool)
      requires id in spawned && SameTask(origin, spawned[id]) && token !in pendingResultSessions
      modifies this
      ensures announced == (published && !(id in old(runningTasks) && old(runningTasks)[id].cancelling))
      ensures View() == if published || (id in old(runningTasks) && old(runningTasks)[id].cancelling)
                        then Announce(old(View()), id, token)
                        else PublishFails(Announce(old(View()), id, token), token)
    {
      if id in runningTasks && runningTasks[id].cancelling { return false; }
      var owner := if origin.session != "" then origin.session else origin.chat;
      pendingResultSessions, issuer := pendingResultSessions[token := owner], issuer[token := id];
      if !published { pendingResultSessions := pendingResultSessions - {token}; }
      announced := published;
    }

    /** `accept_result` for a message that carries a token; one without is always accepted. */
    method AcceptResult(token: Option<Token>, session: Session, consume: bool) returns (ok: bool)
      modifies this
      ensures ok == (token.Some? ==> Accepts(old(View()), token.value, session))
      ensures View() == if token.Some? then Deliver(old(View()), token.value, session, consume) else old(View())
      ensures ok && token.Some? && old(Tokens(View())) ==>
        token.value in issuer && issuer[token.value] in spawned && session == Owner(spawned[issuer[token.value]])
        && forall i :: 0 <= i < |old(consumed)| ==> old(consumed)[i].0 != token.value
    {
      if token.None? { return true; }
      if token.value !in pendingResultSessions || pendingResultSessions[token.value] != session { return false; }
      if consume {
        pendingResultSessions := pendingResultSessions - {token.value};
        consumed := consumed + [(token.value, session)];
      }
      ok := true;
    }

    method DiscardResultsForSession(session: Session)
      modifies `pendingResultSessions
      ensures pendingResultSessions == Discard(old(pendingResultSessions), session)
    {
      var left := pendingResultSessions.Keys;
      while left != {}
        invariant left <= pendingResultSessions.Keys
        invariant forall t :: t in pendingResultSessions ==>
          t in old(pendingResultSessions) && pendingResultSessions[t] == old(pendingResultSessions)[t]
        invariant forall t :: t in old(pendingResultSessions) && t !in left ==>
                    (t in pendingResultSessions <==> old(pendingResultSessions)[t] != session)
        invariant forall t :: t in left ==> t in pendingResultSessions
        decreases |left|
      {
        var token :| token in left;
        left := left - {token};
        if pendingResultSessions[token] == session { pendingResultSessions := pendingResultSessions - {token}; }
      }
    }

    /** The loop of `cancel_by_session` over the session's tasks. */
    method CancelTasksOf(session: Session) returns (count: nat)
      requires Indexed(View())
      modifies `runningTasks
      ensures runningTasks == CancelTasks(old(View()), session)
    {
      count := 0;
      if session !in sessionTasks { return; }
      var left := sessionTasks[session];
      while left != {}
        invariant left <= sessionTasks[session]
        invariant runningTasks.Keys == old(runningTasks).Keys
        invariant forall id :: id in runningTasks ==>
          runningTasks[id] == Asked(old(runningTasks)[id], id in sessionTasks[session] && id !in left)
        decreases |left|
      {
        var id :| id in left;
        left := left - {id};
        if !runningTasks[id].done {
          runningTasks := runningTasks[id := runningTasks[id].(cancelling := true)];
          count := count + 1;
        }
      }
    }

    /** `cancel_by_session` up to its wait. From here on no result of any task the session
        ever spawned is accepted. */
    method BeginCancelBySession(session: Session) returns (count: nat)
      requires Indexed(View()) && Tokens(View()) && session != ""
      modifies this
      ensures View() == Cancel(old(View()), session)
      ensures Silent(View(), TasksOf(old(View()), session))
    {
      DiscardResultsForSession(session);
      count := CancelTasksOf(session);
      CancelSilences(old(View()), session);
    }

    /** The wait is over, in whatever way. */
    method EndCancelBySession(session: Session)
      modifies `pendingResultSessions
      ensures View() == old(View()).(results := Discard(old(pendingResultSessions), session))
    {
      DiscardResultsForSession(session);
    }
  }
}
