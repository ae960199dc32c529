/** The approval manager: its pending table, and the pieces of code that change it. */
module ToolApproval {
  import opened ApprovalSpec
  import opened Sequences
  import opened Wrappers

  class Manager {
    var pending: map<Id, Pending>
    var calls: seq<Call>   // the coroutines of `request`
    ghost var log: seq<(CallId, Decision)>

    ghost function View(): State
      reads this
    {
      State(calls, pending, log)
    }

    constructor ()
      ensures View() == Initial()
    {
      pending, calls, log := map[], [], [];
    }

    /** The first part of `request`, up to the notification. */
    method BeginRequest(id: Id, session: string, chat: string) returns (denied: bool)
      modifies this
      ensures denied == (id in old(pending))
      ensures View() == Request(old(View()), id, session, chat)
    {
      denied := id in pending;
      if denied {
        calls := calls + [Call(id, session, chat, Returned(Denied))];
        return;
      }
      pending := pending[id := Pending(|calls|, session, chat, None)];
      calls := calls + [Call(id, session, chat, Notifying)];
    }

    method Resolve(id: Id, d: Decision) returns (ok: bool)
      modifies this
      ensures ok == CanResolve(old(View()), id)
      ensures View() == ApprovalSpec.Resolve(old(View()), id, d)
      ensures ok ==> id in pending && old(id in pending && pending[id].decided.None?) && pending[id].decided == Some(d)
    {
      if id !in pending || pending[id].decided.Some? { return false; }
      log := log + [(pending[id].owner, d)];
      pending := pending[id := pending[id].(decided := Some(d))];
      ok := true;
    }

    /** Only for the chat that the request belongs to. */
    method ResolveForChat(id: Id, chat: string, d: Decision) returns (ok: bool)
      modifies this
      ensures ok == CanResolveForChat(old(View()), id, chat)
      ensures View() == ApprovalSpec.ResolveForChat(old(View()), id, chat, d)
      ensures !ok ==> View() == old(View())
      ensures id in old(pending) && old(pending)[id].chat != chat ==> !ok
      ensures ok ==> id in pending && pending[id].chat == chat && pending[id].decided == Some(d)
    {
      if id !in pending || pending[id].chat != chat { return false; }
      ok := Resolve(id, d);
    }

    /** `requests` is the snapshot that `pending_requests` returns for the session. */
    method CancelSession(ghost session: string, requests: seq<Id>) returns (cancelled: nat)
      requires OfSession(View(), session, requests)
      modifies this
      ensures View() == DenyAll(old(View()), requests)
      ensures forall id :: id in pending && pending[id].session == session ==> pending[id].decided.Some?
    {
      cancelled := 0;
      for n := 0 to |requests|
        invariant View() == DenyAll(old(View()), requests[..n])
      {
        assert Init(requests[..n + 1]) == requests[..n] && Last(requests[..n + 1]) == requests[n];
        var denied := Resolve(requests[n], Denied);
        if denied { cancelled := cancelled + 1; }
      }
      assert requests[..|requests|] == requests;
      DenyAllDecides(old(View()), requests);
    }

    /** The end of `request`: whatever the outcome, the entry goes. */
    method EndRequest(call: CallId, phase: Phase)
      requires call < |calls|
      modifies this
      ensures View() == Leave(old(View()), call, phase)
    {
      pending := pending - {calls[call].id};
      calls := calls[call := calls[call].(phase := phase)];
    }
  }
}
