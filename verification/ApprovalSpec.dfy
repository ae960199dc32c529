/** Tool approvals as a state machine. A call of `request` registers itself, notifies the
    transport, and waits; it ends by waking with a decision, by a timeout, by a failed
    notification, or by being cancelled, and these race with `resolve`. */
module ApprovalSpec {
  import opened Sequences
  import opened Wrappers

  type Id = string
  type CallId = nat

  datatype Decision = Approved | Denied

  datatype Phase = Notifying | Waiting | Returned(decision: Decision) | Cancelled

  datatype Call = Call(id: Id, session: string, chat: string, phase: Phase)

  /** An entry of `_pending`: the call that made it, and its future. */
  datatype Pending = Pending(owner: CallId, session: string, chat: string, decided: Option<Decision>)

  /** `log` records every `resolve` that returned true. */
  datatype State = State(calls: seq<Call>, pending: map<Id, Pending>, log: seq<(CallId, Decision)>)

  function Initial(): State { State([], map[], []) }

  predicate Live(c: Call) { c.phase.Notifying? || c.phase.Waiting? }

  function Without(m: map<Id, Pending>, id: Id): map<Id, Pending> { m - {id} }

  /** A call returns or is cancelled; `finally` removes the entry under its id. */
  function Leave(st: State, c: CallId, phase: Phase): State
    requires c < |st.calls|
  {
    st.(calls := st.calls[c := st.calls[c].(phase := phase)], pending := Without(st.pending, st.calls[c].id))
  }

  function Request(st: State, id: Id, session: string, chat: string): State {
    if id in st.pending then st.(calls := st.calls + [Call(id, session, chat, Returned(Denied))])
    else
      st.(calls := st.calls + [Call(id, session, chat, Notifying)],
          pending := st.pending[id := Pending(|st.calls|, session, chat, None)])
  }

  predicate CanResolve(st: State, id: Id) {
    id in st.pending && st.pending[id].decided.None?
  }

  function Resolve(st: State, id: Id, d: Decision): State {
    if CanResolve(st, id) then
      st.(pending := st.pending[id := st.pending[id].(decided := Some(d))], log := st.log + [(st.pending[id].owner, d)])
    else st
  }

  predicate CanResolveForChat(st: State, id: Id, chat: string) {
    CanResolve(st, id) && st.pending[id].chat == chat
  }

  function ResolveForChat(st: State, id: Id, chat: string, d: Decision): State {
    if id in st.pending && st.pending[id].chat == chat then Resolve(st, id, d) else st
  }

  /** Deny, one after the other, what is undecided. */
  function DenyAll(st: State, ids: seq<Id>): State {
    if ids == [] then st else Resolve(DenyAll(st, Init(ids)), Last(ids), Denied)
  }

  datatype Step =
    | SRequest(id: Id, session: string, chat: string)
    | SNotified(call: CallId, timeout: bool)   // with no time to wait the call is denied at once
    | SNotifyFails(call: CallId)
    | SWake(call: CallId)
    | STimeout(call: CallId)
    | SCancel(call: CallId)
    | SResolve(id: Id, decision: Decision)
    | SResolveForChat(id: Id, chat: string, decision: Decision)
    | SCancelSession(ids: seq<Id>)

  predicate In(st: State, c: CallId, phase: Phase) {
    c < |st.calls| && st.calls[c].phase == phase
  }

  predicate Enabled(st: State, step: Step) {
    match step
    case SNotified(c, _) => In(st, c, Notifying)
    case SNotifyFails(c) => In(st, c, Notifying)
    case SWake(c) => In(st, c, Waiting) && st.calls[c].id in st.pending && st.pending[st.calls[c].id].decided.Some?
    case STimeout(c) => In(st, c, Waiting)
    case SCancel(c) => c < |st.calls| && Live(st.calls[c])
    case _ => true
  }

  function After(st: State, step: Step): State
    requires Enabled(st, step)
  {
    match step
    case SRequest(id, session, chat) => Request(st, id, session, chat)
    case SNotified(c, timeout) =>
      if timeout then Leave(st, c, Returned(Denied)) else st.(calls := st.calls[c := st.calls[c].(phase := Waiting)])
    case SNotifyFails(c) => Leave(st, c, Returned(Denied))
    case SWake(c) => Leave(st, c, Returned(st.pending[st.calls[c].id].decided.value))
    case STimeout(c) => Leave(st, c, Returned(Denied))
    case SCancel(c) => Leave(st, c, Cancelled)
    case SResolve(id, d) => Resolve(st, id, d)
    case SResolveForChat(id, chat, d) => ResolveForChat(st, id, chat, d)
    case SCancelSession(ids) => DenyAll(st, ids)
  }

  predicate Runs(st: State, steps: seq<Step>)
    decreases |steps|
  {
    steps == [] || (Enabled(st, steps[0]) && Runs(After(st, steps[0]), steps[1..]))
  }

  function RunOf(st: State, steps: seq<Step>): State
    requires Runs(st, steps)
    decreases |steps|
  {
    if steps == [] then st else RunOf(After(st, steps[0]), steps[1..])
  }

  // ------------------------------------------------------------------- the invariants

  /** An entry belongs to one live call, and every live call has its entry. */
  predicate Registered(st: State) {
    && (forall id :: id in st.pending ==>
          var p := st.pending[id];
          p.owner < |st.calls| && Live(st.calls[p.owner]) && st.calls[p.owner].id == id
          && st.calls[p.owner].session == p.session && st.calls[p.owner].chat == p.chat)
    && (forall c :: 0 <= c < |st.calls| && Live(st.calls[c]) ==>
          st.calls[c].id in st.pending && st.pending[st.calls[c].id].owner == c)
  }

  /** One accepted `resolve` per call; a future holds what its `resolve` said; an approved
      call had an approving one. */
  predicate Logged(st: State) {
    && (forall i :: 0 <= i < |st.log| ==> st.log[i].0 < |st.calls|)
    && (forall i, j :: 0 <= i < j < |st.log| ==> st.log[i].0 != st.log[j].0)
    && (forall id :: id in st.pending ==>
          if st.pending[id].decided.Some? then (st.pending[id].owner, st.pending[id].decided.value) in st.log
          else forall i :: 0 <= i < |st.log| ==> st.log[i].0 != st.pending[id].owner)
    && (forall c :: 0 <= c < |st.calls| && st.calls[c].phase == Returned(Approved) ==> (c, Approved) in st.log)
  }

  predicate Sound(st: State) {
    Registered(st) && Logged(st)
  }

  lemma {:induction false} RequestKeepsSound(st: State, id: Id, session: string, chat: string)
    requires Sound(st)
    ensures Sound(Request(st, id, session, chat))
    ensures id in st.pending ==> Request(st, id, session, chat).pending == st.pending
  {
    if id in st.pending { DuplicateKeepsSound(st, id, session, chat); } else { NewKeepsSound(st, id, session, chat); }
  }

  lemma {:induction false} DuplicateKeepsSound(st: State, id: Id, session: string, chat: string)
    requires Sound(st) && id in st.pending
    ensures Sound(Request(st, id, session, chat))
  {
  }

  lemma {:induction false} NewKeepsSound(st: State, id: Id, session: string, chat: string)
    requires Sound(st) && id !in st.pending
    ensures Sound(Request(st, id, session, chat))
  {
  }

  /** A call only returns approval that its own future holds. */
  lemma {:induction false} LeaveKeepsSound(st: State, c: CallId, phase: Phase)
    requires Sound(st) && c < |st.calls| && Live(st.calls[c])
    requires phase == Returned(Denied) || phase == Cancelled
          || (st.pending[st.calls[c].id].decided.Some? && phase == Returned(st.pending[st.calls[c].id].decided.value))
    ensures Sound(Leave(st, c, phase))
    ensures forall id :: id in st.pending && id != st.calls[c].id ==>
        id in Leave(st, c, phase).pending && Leave(st, c, phase).pending[id] == st.pending[id]
    ensures st.calls[c].id !in Leave(st, c, phase).pending
  {
  }

  lemma {:induction false} NotifiedKeepsSound(st: State, c: CallId)
    requires Sound(st) && In(st, c, Notifying)
    ensures Sound(st.(calls := st.calls[c := st.calls[c].(phase := Waiting)]))
  {
  }

  lemma {:induction false} ResolveKeepsSound(st: State, id: Id, d: Decision)
    requires Sound(st)
    ensures Sound(Resolve(st, id, d)) && Resolve(st, id, d).calls == st.calls
    ensures Resolve(st, id, d).pending.Keys == st.pending.Keys
  {
    if CanResolve(st, id) {
      var after := Resolve(st, id, d);
      assert after.log[|st.log|] == (st.pending[id].owner, d);
      forall e | e in st.log ensures e in after.log {}
    }
  }

  lemma {:induction false} DenyAllKeepsSound(st: State, ids: seq<Id>)
    requires Sound(st)
    ensures Sound(DenyAll(st, ids)) && DenyAll(st, ids).calls == st.calls
    ensures DenyAll(st, ids).pending.Keys == st.pending.Keys
  {
    if ids != [] {
      DenyAllKeepsSound(st, Init(ids));
      ResolveKeepsSound(DenyAll(st, Init(ids)), Last(ids), Denied);
    }
  }

  lemma {:induction false} StepKeepsSound(st: State, step: Step)
    requires Sound(st) && Enabled(st, step)
    ensures Sound(After(st, step))
  {
    match step
    case SRequest(id, session, chat) => RequestKeepsSound(st, id, session, chat);
    case SNotified(c, timeout) =>
      if timeout { LeaveKeepsSound(st, c, Returned(Denied)); } else { NotifiedKeepsSound(st, c); }
    case SNotifyFails(c) => LeaveKeepsSound(st, c, Returned(Denied));
    case SWake(c) => LeaveKeepsSound(st, c, Returned(st.pending[st.calls[c].id].decided.value));
    case STimeout(c) => LeaveKeepsSound(st, c, Returned(Denied));
    case SCancel(c) => LeaveKeepsSound(st, c, Cancelled);
    case SResolve(id, d) => ResolveKeepsSound(st, id, d);
    case SResolveForChat(id, chat, d) => ResolveKeepsSound(st, id, d);
    case SCancelSession(ids) => DenyAllKeepsSound(st, ids);
  }

  lemma {:induction false} RunKeepsSound(st: State, steps: seq<Step>)
    requires Sound(st) && Runs(st, steps)
    ensures Sound(RunOf(st, steps))
    decreases |steps|
  {
    if steps != [] {
      StepKeepsSound(st, steps[0]);
      RunKeepsSound(After(st, steps[0]), steps[1..]);
    }
  }

  /** Fail closed, in every interleaving: an approved call had exactly one accepted
      `resolve`, and it approved; a call that ended has left nothing behind. */
  lemma {:induction false} ApprovedOnlyByResolve(steps: seq<Step>, c: CallId)
    requires Runs(Initial(), steps) && c < |RunOf(Initial(), steps).calls|
    ensures
      var st := RunOf(Initial(), steps);
      && (st.calls[c].phase == Returned(Approved) ==>
            exists i :: 0 <= i < |st.log| && st.log[i] == (c, Approved)
                && forall j :: 0 <= j < |st.log| && st.log[j].0 == c ==> j == i)
      && (!Live(st.calls[c]) ==> forall id :: id in st.pending ==> st.pending[id].owner != c)
  {
    RunKeepsSound(Initial(), steps);
  }

  // ---------------------------------------------------------------- cancelling a session

  /** `ids` are the pending requests of the session, in some order. */
  predicate OfSession(st: State, session: string, ids: seq<Id>) {
    && (forall i :: 0 <= i < |ids| ==> ids[i] in st.pending && st.pending[ids[i]].session == session)
    && (forall id :: id in st.pending && st.pending[id].session == session ==> id in ids)
  }

  lemma {:induction false} DenyAllDecides(st: State, ids: seq<Id>)
    ensures
      var after := DenyAll(st, ids);
      && after.pending.Keys == st.pending.Keys
      && forall id :: id in st.pending ==>
           after.pending[id] ==
             if id in ids && st.pending[id].decided.None? then st.pending[id].(decided := Some(Denied))
             else st.pending[id]
  {
    if ids != [] {
      DenyAllDecides(st, Init(ids));
      Split(ids);
      assert forall id :: id in ids <==> id in Init(ids) || id == Last(ids);
    }
  }

  /** After the cancellation no request of the session is undecided; what was decided
      stays, and other sessions are untouched. */
  lemma {:induction false} CancelledSessionsAreDecided(st: State, session: string, ids: seq<Id>, id: Id)
    requires OfSession(st, session, ids) && id in st.pending
    ensures
      var after := DenyAll(st, ids).pending;
      id in after &&
      if st.pending[id].session == session then
        after[id].decided == Some(if st.pending[id].decided.Some? then st.pending[id].decided.value else Denied)
      else after[id] == st.pending[id]
  {
    DenyAllDecides(st, ids);
  }
}
