/** What becomes of a subagent's result, from the spawn to the delivery. */
module SubagentOutcomes {
  import opened SubagentSpec
  import opened Wrappers

  /** A task that was spawned and has announced its result. */
  function Announced(st: State, id: TaskId, session: Session, chat: Session, token: Token): State
    requires id !in st.spawned && token !in st.issuer
  {
    After(After(st, SSpawn(id, session, chat)), SAnnounce(id, token))
  }

  lemma {:induction false} AnnouncingIssuesAToken(
      st: State, id: TaskId, session: Session, chat: Session, token: Token)
    requires Tokens(st) && id !in st.spawned && token !in st.issuer
    ensures Enabled(After(st, SSpawn(id, session, chat)), SAnnounce(id, token))
    ensures
      var after := Announced(st, id, session, chat, token);
      && after.results == st.results[token := if session != "" then session else chat]
      && after.running == st.running[id := Task(session, chat, false, false)]
      && after.consumed == st.consumed && after.issuer == st.issuer[token := id]
  {
  }

  /** The result is accepted by the session of the task, or its chat when it has none, and by
      no other; looking does not use it up, taking it does, and nobody gets it twice. */
  lemma {:induction false} AResultIsTakenOnce(
      st: State, id: TaskId, session: Session, chat: Session, token: Token, to: Session)
    requires Tokens(st) && id !in st.spawned && token !in st.issuer
    ensures
      var st1, owner := Announced(st, id, session, chat, token), if session != "" then session else chat;
      var taken := After(st1, SDeliver(token, owner, true));
      && (Accepts(st1, token, to) <==> to == owner)
      && After(st1, SDeliver(token, to, false)) == st1
      && (to != owner ==> After(st1, SDeliver(token, to, true)) == st1)
      && taken.results == st.results && taken.consumed == st.consumed + [(token, owner)]
      && !Accepts(taken, token, to) && After(taken, SDeliver(token, to, true)) == taken
  {
    AnnouncingIssuesAToken(st, id, session, chat, token);
    assert st.results[token := if session != "" then session else chat] - {token} == st.results;
  }

  /** A result whose message could not be published is accepted by nobody, and neither are
      those of a session that is being cancelled; other sessions' results stay good. */
  lemma {:induction false} WithdrawnResults(st: State, token: Token, s: Session, to: Session)
    ensures !Accepts(After(st, SPublishFails(token)), token, to)
    ensures forall t :: t != token ==> (Accepts(After(st, SPublishFails(token)), t, to) <==> Accepts(st, t, to))
    ensures forall t :: Accepts(After(st, SCancel(s)), t, to) <==> to != s && Accepts(st, t, to)
    ensures forall t :: Accepts(After(st, SCancelReturns(s)), t, to) <==> to != s && Accepts(st, t, to)
  {
  }

  /** A task of a cancelled session announces nothing any more, unless it had finished before;
      one that has finished is not asked to stop. */
  lemma {:induction false} CancelledTasksAreSilent(st: State, s: Session, id: TaskId, token: Token)
    requires Indexed(st) && Tokens(st) && s != "" && id in st.running && st.running[id].session == s
    requires token !in st.issuer
    ensures
      var after := After(st, SCancel(s));
      && id in after.running
      && (st.running[id].done ==> after.running[id] == st.running[id] && !Enabled(after, SAnnounce(id, token)))
      && (!st.running[id].done ==>
           after.running[id] == st.running[id].(cancelling := true)
           && Enabled(after, SAnnounce(id, token)) && After(after, SAnnounce(id, token)) == after)
  {
  }

  /** The end of a task: it is done, and only then leaves the table and the index. */
  lemma {:induction false} AnEndedTaskIsForgotten(st: State, id: TaskId, s: Session, k: TaskId)
    requires Indexed(st) && Tokens(st) && id in st.running
    ensures !st.running[id].done ==> !Enabled(st, SCleanup(id))
    ensures
      var ended := After(st, SEnd(id));
      && Enabled(ended, SCleanup(id)) && ended == st.(running := st.running[id := st.running[id].(done := true)])
      && After(ended, SCleanup(id)).running == st.running - {id}
      && After(ended, SCleanup(id)).results == st.results
      && (s in After(ended, SCleanup(id)).index && k in After(ended, SCleanup(id)).index[s] <==>
           s in st.index && k in st.index[s] && k != id)
  {
    var ended := After(st, SEnd(id));
    assert ended.running - {id} == st.running - {id};
    if s in st.index && k in st.index[s] && k != id { assert k in st.index[s] - {id}; }
  }
}
