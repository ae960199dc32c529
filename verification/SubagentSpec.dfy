/** Subagent tasks and the one-shot tokens of their results. A result message travels
    through the bus and a pending queue; whether it is delivered is decided by the token
    table at delivery, so a cancelled session's results die wherever they are. */
module SubagentSpec {
  import opened Wrappers

  type Session = string
  type TaskId = nat
  type Token = nat

  /** A task that has not been cleaned up. The session may be missing (empty). */
  datatype Task = Task(session: Session, chat: Session, cancelling: bool, done: bool)

  /** `spawned`, `issuer` and `consumed` are the history: every task ever spawned, the task
      each token was issued for, and the deliveries that consumed a token. */
  datatype State = State(
    running: map<TaskId, Task>,
    index: map<Session, set<TaskId>>,
    results: map<Token, Session>,
    spawned: map<TaskId, Task>,
    issuer: map<Token, TaskId>,
    consumed: seq<(Token, Session)>)

  function Initial(): State { State(map[], map[], map[], map[], map[], []) }

  /** The session a task's result belongs to. */
  function Owner(task: Task): Session { if task.session != "" then task.session else task.chat }

  function Spawn(st: State, id: TaskId, session: Session, chat: Session): State {
    var task := Task(session, chat, false, false);
    var before := if session in st.index then st.index[session] else {};
    st.(running := st.running[id := task], spawned := st.spawned[id := task],
        index := if session != "" then st.index[session := before + {id}] else st.index)
  }

  /** A task that was asked to cancel, and is still in the table, announces nothing. */
  function Announce(st: State, id: TaskId, token: Token): State
    requires id in st.spawned
  {
    if id in st.running && st.running[id].cancelling then st
    else st.(results := st.results[token := Owner(st.spawned[id])], issuer := st.issuer[token := id])
  }

  function PublishFails(st: State, token: Token): State {
    st.(results := st.results - {token})
  }

  function End(st: State, id: TaskId): State
    requires id in st.running
  {
    st.(running := st.running[id := st.running[id].(done := true)])
  }

  function Unindex(index: map<Session, set<TaskId>>, s: Session, id: TaskId): map<Session, set<TaskId>> {
    if s == "" || s !in index then index
    else if index[s] - {id} == {} then index - {s}
    else index[s := index[s] - {id}]
  }

  /** The done callback, or the `finally` of an inline run. */
  function Cleanup(st: State, id: TaskId): State
    requires id in st.running
  {
    st.(running := st.running - {id}, index := Unindex(st.index, st.running[id].session, id))
  }

  function Discard(results: map<Token, Session>, s: Session): map<Token, Session> {
    map t | t in results && results[t] != s :: results[t]
  }

  /** Cancel what is indexed under the session and not done. */
  function CancelTasks(st: State, s: Session): map<TaskId, Task> {
    map id | id in st.running ::
      if s in st.index && id in st.index[s] && !st.running[id].done then st.running[id].(cancelling := true)
      else st.running[id]
  }

  /** `cancel_by_session` up to its wait; the discard is repeated when it returns. */
  function Cancel(st: State, s: Session): State {
    st.(results := Discard(st.results, s), running := CancelTasks(st, s))
  }

  predicate Accepts(st: State, token: Token, s: Session) {
    token in st.results && st.results[token] == s
  }

  function Deliver(st: State, token: Token, s: Session, consume: bool): State {
    if consume && Accepts(st, token, s) then
      st.(results := st.results - {token}, consumed := st.consumed + [(token, s)])
    else st
  }

  datatype Step =
    | SSpawn(id: TaskId, session: Session, chat: Session)
    | SAnnounce(id: TaskId, token: Token) | SPublishFails(token: Token)
    | SEnd(id: TaskId) | SCleanup(id: TaskId) | SCancel(session: Session) | SCancelReturns(session: Session)
    | SDeliver(token: Token, session: Session, consume: bool)

  /** Ids and tokens are fresh; only a task that is in the table and not done announces. */
  predicate Enabled(st: State, step: Step) {
    match step
    case SSpawn(id, _, _) => id !in st.spawned
    case SAnnounce(id, token) => id in st.spawned && id in st.running && !st.running[id].done && token !in st.issuer
    case SEnd(id) => id in st.running
    case SCleanup(id) => id in st.running && st.running[id].done
    case _ => true
  }

  function After(st: State, step: Step): State
    requires Enabled(st, step)
  {
    match step
    case SSpawn(id, session, chat) => Spawn(st, id, session, chat)
    case SAnnounce(id, token) => Announce(st, id, token)
    case SPublishFails(token) => PublishFails(st, token)
    case SEnd(id) => End(st, id)
    case SCleanup(id) => Cleanup(st, id)
    case SCancel(s) => Cancel(st, s)
    case SCancelReturns(s) => st.(results := Discard(st.results, s))
    case SDeliver(token, s, consume) => Deliver(st, token, s, consume)
  }

  predicate Runs(st: State, steps: seq<Step>)
    decreases |steps|
  {
    steps == [] || (Enabled(st, steps[0]) && Runs(After(st, steps[0]), steps[1..]))
  }

  function RunOf(st: State, steps: seq<Step>): State
    requires Runs(st, steps)
    decreases |steps|
  {
    if steps == [] then st else RunOf(After(st, steps[0]), steps[1..])
  }

  // ------------------------------------------------------------------- the invariants

  /** The index of a session holds exactly its tasks that have not been cleaned up. */
  predicate Indexed(st: State) {
    && (forall s :: s in st.index ==> s != "" && st.index[s] != {})
    && (forall s, id :: s in st.index && id in st.index[s] ==> id in st.running && st.running[id].session == s)
    && (forall id :: id in st.running && st.running[id].session != "" ==>
          st.running[id].session in st.index && id in st.index[st.running[id].session])
  }

  predicate SameTask(a: Task, b: Task) { a.session == b.session && a.chat == b.chat }

  /** A good token was issued to a spawned task, is good for that task's owner only, and
      has not been consumed. */
  predicate Tokens(st: State) {
    && (forall id :: id in st.running ==> id in st.spawned && SameTask(st.running[id], st.spawned[id]))
    && (forall t :: t in st.issuer ==> st.issuer[t] in st.spawned)
    && (forall t :: t in st.results ==> t in st.issuer && st.results[t] == Owner(st.spawned[st.issuer[t]]))
    && (forall i :: 0 <= i < |st.consumed| ==>
          st.consumed[i].0 in st.issuer && st.consumed[i].0 !in st.results
          && st.consumed[i].1 == Owner(st.spawned[st.issuer[st.consumed[i].0]]))
    && (forall i, j :: 0 <= i < j < |st.consumed| ==> st.consumed[i].0 != st.consumed[j].0)
  }

  /** The tasks `dead` will never have a result accepted. */
  predicate Silent(st: State, dead: set<TaskId>) {
    && (forall id :: id in dead ==> id in st.spawned)
    && (forall id :: id in dead && id in st.running ==> st.running[id].cancelling || st.running[id].done)
    && (forall t :: t in st.results && t in st.issuer ==> st.issuer[t] !in dead)
  }

  lemma {:induction false} SpawnKeepsIndexed(st: State, id: TaskId, session: Session, chat: Session)
    requires Indexed(st) && Tokens(st) && id !in st.spawned
    ensures Indexed(Spawn(st, id, session, chat))
  {
  }

  lemma {:induction false} SpawnKeeps(st: State, id: TaskId, session: Session, chat: Session, dead: set<TaskId>)
    requires Tokens(st) && Silent(st, dead) && id !in st.spawned
    ensures Tokens(Spawn(st, id, session, chat)) && Silent(Spawn(st, id, session, chat), dead)
  {
  }

  lemma {:induction false} DiscardKeeps(st: State, s: Session, dead: set<TaskId>)
    requires Indexed(st) && Tokens(st) && Silent(st, dead)
    ensures Indexed(st.(results := Discard(st.results, s)))
    ensures Tokens(st.(results := Discard(st.results, s))) && Silent(st.(results := Discard(st.results, s)), dead)
  {
  }

  lemma {:induction false} EndKeeps(st: State, id: TaskId, dead: set<TaskId>)
    requires Indexed(st) && Tokens(st) && Silent(st, dead) && id in st.running
    ensures Indexed(End(st, id)) && Tokens(End(st, id)) && Silent(End(st, id), dead)
  {
  }

  lemma {:induction false} AnnounceKeeps(st: State, id: TaskId, token: Token, dead: set<TaskId>)
    requires Indexed(st) && Tokens(st) && Silent(st, dead) && Enabled(st, SAnnounce(id, token))
    ensures Indexed(Announce(st, id, token)) && Tokens(Announce(st, id, token)) && Silent(Announce(st, id, token), dead)
  {
    if !st.running[id].cancelling { IssueKeeps(st, id, token, dead); }
  }

  lemma {:induction false} IssueKeeps(st: State, id: TaskId, token: Token, dead: set<TaskId>)
    requires Tokens(st) && Silent(st, dead) && id in st.running && !st.running[id].cancelling && !st.running[id].done
    requires token !in st.issuer
    ensures
      var after := st.(results := st.results[token := Owner(st.spawned[id])], issuer := st.issuer[token := id]);
      Tokens(after) && Silent(after, dead)
  {
    assert id !in dead;
  }

  lemma {:induction false} CleanupKeeps(st: State, id: TaskId, dead: set<TaskId>)
    requires Indexed(st) && Tokens(st) && Silent(st, dead) && id in st.running
    ensures Indexed(Cleanup(st, id)) && Tokens(Cleanup(st, id)) && Silent(Cleanup(st, id), dead)
  {
  }

  lemma {:induction false} CancelKeeps(st: State, s: Session, dead: set<TaskId>)
    requires Indexed(st) && Tokens(st) && Silent(st, dead)
    ensures Indexed(Cancel(st, s)) && Tokens(Cancel(st, s)) && Silent(Cancel(st, s), dead)
  {
  }

  lemma {:induction false} DeliverKeeps(st: State, token: Token, s: Session, consume: bool, dead: set<TaskId>)
    requires Indexed(st) && Tokens(st) && Silent(st, dead)
    ensures Indexed(Deliver(st, token, s, consume)) && Tokens(Deliver(st, token, s, consume))
    ensures Silent(Deliver(st, token, s, consume), dead)
  {
  }

  lemma {:induction false} StepKeeps(st: State, step: Step, dead: set<TaskId>)
    requires Indexed(st) && Tokens(st) && Silent(st, dead) && Enabled(st, step)
    ensures Indexed(After(st, step)) && Tokens(After(st, step)) && Silent(After(st, step), dead)
  {
    match step
    case SSpawn(id, session, chat) =>
      SpawnKeepsIndexed(st, id, session, chat);
      SpawnKeeps(st, id, session, chat, dead);
    case SAnnounce(id, token) => AnnounceKeeps(st, id, token, dead);
    case SPublishFails(_) =>
    case SEnd(id) => EndKeeps(st, id, dead);
    case SCleanup(id) => CleanupKeeps(st, id, dead);
    case SCancel(s) => CancelKeeps(st, s, dead);
    case SCancelReturns(s) => DiscardKeeps(st, s, dead);
    case SDeliver(token, s, consume) => DeliverKeeps(st, token, s, consume, dead);
  }

  lemma {:induction false} RunKeeps(st: State, steps: seq<Step>, dead: set<TaskId>)
    requires Indexed(st) && Tokens(st) && Silent(st, dead) && Runs(st, steps)
    ensures Indexed(RunOf(st, steps)) && Tokens(RunOf(st, steps)) && Silent(RunOf(st, steps), dead)
    decreases |steps|
  {
    if steps != [] {
      StepKeeps(st, steps[0], dead);
      RunKeeps(After(st, steps[0]), steps[1..], dead);
    }
  }

  // ---------------------------------------------------------------------- the theorems

  /** Over any run: a result is consumed at most once, and only for its owner; the index
      refers to tasks that are still there. */
  lemma {:induction false} ResultsAreConsumedOnce(steps: seq<Step>)
    requires Runs(Initial(), steps)
    ensures
      var st := RunOf(Initial(), steps);
      && (forall i, j :: 0 <= i < j < |st.consumed| ==> st.consumed[i].0 != st.consumed[j].0)
      && (forall i :: 0 <= i < |st.consumed| ==>
            st.consumed[i].0 in st.issuer && st.issuer[st.consumed[i].0] in st.spawned
            && st.consumed[i].1 == Owner(st.spawned[st.issuer[st.consumed[i].0]]))
      && Indexed(st)
  {
    RunKeeps(Initial(), steps, {});
  }

  /** Every task ever spawned for the session. */
  function TasksOf(st: State, s: Session): set<TaskId> {
    set id | id in st.spawned && st.spawned[id].session == s
  }

  /** Cancelling a session asks exactly its own unfinished tasks to stop. A task without a
      session is not among them, even when its result would go to that session. */
  lemma {:induction false} CancelReachesItsTasks(st: State, s: Session, id: TaskId)
    requires Indexed(st) && s != "" && id in st.running && !st.running[id].done && !st.running[id].cancelling
    ensures Cancel(st, s).running[id].cancelling <==> st.running[id].session == s
  {
  }

  lemma {:induction false} CancelSilences(st: State, s: Session)
    requires Indexed(st) && Tokens(st) && s != ""
    ensures Silent(Cancel(st, s), TasksOf(st, s))
  {
  }

  /** Once a session was cancelled, no result of any task it had spawned is ever accepted
      again, for any session, wherever the message was or is. */
  lemma {:induction false} CancelledResultsAreNeverAccepted(
      before: seq<Step>, s: Session, after: seq<Step>, token: Token, to: Session)
    requires s != "" && Runs(Initial(), before)
    requires Runs(Cancel(RunOf(Initial(), before), s), after)
    requires
      var last := RunOf(Cancel(RunOf(Initial(), before), s), after);
      token in last.issuer && last.issuer[token] in TasksOf(RunOf(Initial(), before), s)
    ensures !Accepts(RunOf(Cancel(RunOf(Initial(), before), s), after), token, to)
  {
    var st := RunOf(Initial(), before);
    RunKeeps(Initial(), before, {});
    CancelKeeps(st, s, {});
    CancelSilences(st, s);
    RunKeeps(Cancel(st, s), after, TasksOf(st, s));
  }
}
