/** Every way a tool approval can go, from the request to what the call returns. */
module ApprovalOutcomes {
  import opened ApprovalSpec
  import opened Sequences
  import opened Wrappers

  /** A new request and its call, waiting for a decision. */
  function Asked(st: State, id: Id, session: string, chat: string): State
    requires id !in st.pending
  {
    After(After(st, SRequest(id, session, chat)), SNotified(|st.calls|, false))
  }

  lemma {:induction false} AskingWaits(st: State, id: Id, session: string, chat: string)
    requires id !in st.pending
    ensures Enabled(After(st, SRequest(id, session, chat)), SNotified(|st.calls|, false))
    ensures
      var asked := Asked(st, id, session, chat);
      && asked.calls == st.calls + [Call(id, session, chat, Waiting)]
      && asked.pending == st.pending[id := Pending(|st.calls|, session, chat, None)] && asked.log == st.log
  {
  }

  /** The call ends with `d`, and its entry is gone; all other calls and entries are as they
      were. */
  predicate EndsWith(st: State, after: State, phase: Phase) {
    && |after.calls| == |st.calls| + 1 && after.calls[|st.calls|].phase == phase
    && after.calls[..|st.calls|] == st.calls && after.pending == st.pending
  }

  /** A decision by id, or from the chat of the request, is what the call returns. */
  lemma {:induction false} DecidedCallsReturnTheDecision(st: State, id: Id, session: string, chat: string, d: Decision)
    requires id !in st.pending
    ensures
      var asked, c := Asked(st, id, session, chat), |st.calls|;
      && Enabled(After(asked, SResolve(id, d)), SWake(c))
      && EndsWith(st, After(After(asked, SResolve(id, d)), SWake(c)), Returned(d))
      && Enabled(After(asked, SResolveForChat(id, chat, d)), SWake(c))
      && EndsWith(st, After(After(asked, SResolveForChat(id, chat, d)), SWake(c)), Returned(d))
  {
    AskingWaits(st, id, session, chat);
    var asked := Asked(st, id, session, chat);
    assert asked.pending - {id} == st.pending;
  }

  /** No decision, no approval: a timeout, a wait of no length, a notification that fails and a
      duplicate all deny, and a cancelled call returns nothing. The first of two decisions
      counts. */
  lemma {:induction false} UndecidedCallsAreDenied(st: State, id: Id, session: string, chat: string)
    requires id !in st.pending
    ensures
      var requested, asked, c := After(st, SRequest(id, session, chat)), Asked(st, id, session, chat), |st.calls|;
      && Enabled(asked, STimeout(c)) && EndsWith(st, After(asked, STimeout(c)), Returned(Denied))
      && Enabled(requested, SNotified(c, true)) && EndsWith(st, After(requested, SNotified(c, true)), Returned(Denied))
      && Enabled(requested, SNotifyFails(c)) && EndsWith(st, After(requested, SNotifyFails(c)), Returned(Denied))
      && Enabled(asked, SCancel(c)) && EndsWith(st, After(asked, SCancel(c)), Cancelled)
      && !Enabled(asked, SWake(c))
  {
    AskingWaits(st, id, session, chat);
    assert Asked(st, id, session, chat).pending - {id} == st.pending;
    assert After(st, SRequest(id, session, chat)).pending - {id} == st.pending;
  }

  lemma {:induction false} TheFirstDecisionCounts(st: State, id: Id, d: Decision, e: Decision)
    requires id in st.pending && st.pending[id].decided.None?
    ensures
      var decided := Resolve(st, id, d);
      && Resolve(decided, id, e) == decided && decided.pending[id].decided == Some(d)
      && !CanResolve(decided, id) && CanResolve(st, id)
  {
  }

  /** A second request with the same id is denied at once; the first goes on. */
  lemma {:induction false} DuplicatesAreDenied(st: State, id: Id, session: string, chat: string)
    requires id in st.pending
    ensures
      var after := After(st, SRequest(id, session, chat));
      && EndsWith(st, after, Returned(Denied)) && after.calls[|st.calls|].id == id && after.log == st.log
  {
  }
}
