/** Where an approval came from: a resolve of the request itself, or one from the chat that
    the request belongs to. */
module ApprovalOrigins {
  import opened ApprovalSpec
  import opened Sequences
  import opened Wrappers

  /** A decision from another chat changes nothing. */
  lemma {:induction false} ForeignChatChangesNothing(st: State, id: Id, chat: string, d: Decision)
    requires id in st.pending ==> st.pending[id].chat != chat
    ensures ResolveForChat(st, id, chat, d) == st && !CanResolveForChat(st, id, chat)
  {
  }

  /** From its own chat, an undecided request is decided as by a direct resolve; a decided one
      stays as it is. */
  lemma {:induction false} OwnChatDecides(st: State, id: Id, chat: string, d: Decision)
    requires id in st.pending && st.pending[id].chat == chat
    ensures
      var after := ResolveForChat(st, id, chat, d);
      if st.pending[id].decided.None? then
        && CanResolveForChat(st, id, chat)
        && id in after.pending && after.pending[id] == st.pending[id].(decided := Some(d))
        && after.log == st.log + [(st.pending[id].owner, d)]
      else after == st
  {
  }

  /** The step approves the call: by its id, or by its id from its chat. */
  predicate Approves(step: Step, call: Call) {
    match step
    case SResolve(id, d) => id == call.id && d.Approved?
    case SResolveForChat(id, chat, d) => id == call.id && chat == call.chat && d.Approved?
    case _ => false
  }

  predicate SameRequest(a: Call, b: Call) {
    a.id == b.id && a.session == b.session && a.chat == b.chat
  }

  lemma {:induction false} DenyAllLogsDenials(st: State, ids: seq<Id>)
    ensures |st.log| <= |DenyAll(st, ids).log|
    ensures forall i :: 0 <= i < |st.log| ==> DenyAll(st, ids).log[i] == st.log[i]
    ensures forall i :: |st.log| <= i < |DenyAll(st, ids).log| ==> DenyAll(st, ids).log[i].1.Denied?
  {
    if ids != [] { DenyAllLogsDenials(st, Init(ids)); }
  }

  /** A step forgets no call and no log entry, and adds an approval only if it approves. */
  lemma {:induction false} StepLogs(st: State, step: Step)
    requires Sound(st) && Enabled(st, step)
    ensures
      var after := After(st, step);
      && |st.calls| <= |after.calls|
      && (forall c :: 0 <= c < |st.calls| ==> SameRequest(st.calls[c], after.calls[c]))
      && |st.log| <= |after.log|
      && (forall i :: |st.log| <= i < |after.log| && after.log[i].1.Approved? ==>
           after.log[i].0 < |st.calls| && Approves(step, st.calls[after.log[i].0]))
      && (forall i :: 0 <= i < |st.log| ==> after.log[i] == st.log[i])
  {
    match step
    case SCancelSession(ids) =>
      DenyAllLogsDenials(st, ids);
      DenyAllKeepsSound(st, ids);
    case _ =>
  }

  lemma {:induction false} RunLogs(st: State, steps: seq<Step>, i: nat) returns (k: nat)
    requires Sound(st) && Runs(st, steps)
    requires i < |RunOf(st, steps).log| && RunOf(st, steps).log[i].1.Approved?
    ensures |st.calls| <= |RunOf(st, steps).calls|
    ensures forall c :: 0 <= c < |st.calls| ==> SameRequest(st.calls[c], RunOf(st, steps).calls[c])
    ensures |st.log| <= i ==>
      && RunOf(st, steps).log[i].0 < |RunOf(st, steps).calls|
      && k < |steps| && Approves(steps[k], RunOf(st, steps).calls[RunOf(st, steps).log[i].0])
    ensures i < |st.log| ==> RunOf(st, steps).log[i] == st.log[i]
    decreases |steps|
  {
    k := 0;
    if steps != [] {
      var next := After(st, steps[0]);
      StepLogs(st, steps[0]);
      StepKeepsSound(st, steps[0]);
      var j := RunLogs(next, steps[1..], i);
      if |next.log| <= i {
        k := j + 1;
      } else if |st.log| <= i {
        var c := next.log[i].0;
        assert SameRequest(st.calls[c], next.calls[c]) && SameRequest(next.calls[c], RunOf(st, steps).calls[c]);
      }
    }
  }

  /** Over any run: a call returned approval only if some step approved it, by its own id and,
      when the decision came from a chat, from the chat of the call. */
  lemma {:induction false} ApprovedByItsOwn(steps: seq<Step>, c: CallId)
    requires Runs(Initial(), steps) && c < |RunOf(Initial(), steps).calls|
    requires RunOf(Initial(), steps).calls[c].phase == Returned(Approved)
    ensures exists k :: 0 <= k < |steps| && Approves(steps[k], RunOf(Initial(), steps).calls[c])
  {
    RunKeepsSound(Initial(), steps);
    var st := RunOf(Initial(), steps);
    var i :| 0 <= i < |st.log| && st.log[i] == (c, Approved);
    var k := RunLogs(Initial(), steps, i);
    assert Approves(steps[k], st.calls[c]);
  }
}
