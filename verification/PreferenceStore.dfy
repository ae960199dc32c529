/** The explicit memory store: its two logs, appended to and folded on every read. A
    sorted listing is handed in, because the sort itself is the library's. */
module PreferenceStore {
  import opened PreferenceRuns
  import opened PreferenceSpec
  import opened PreferenceTheorems
  import opened Sequences
  import opened Wrappers

  method CurrentForPath(events: seq<Event>) returns (current: map<Id, Record>)
    ensures current == Current(events)
  {
    current := map[];
    for n := 0 to |events|
      invariant Fold(current, events[n..]) == Current(events)
    {
      assert events[n..][0] == events[n] && events[n..][1..] == events[n + 1..];
      match events[n]
      case Upsert(id, r) => current := current[id := r.(trust := DefaultTrust(r.source, r.status))];
      case Delete(id) => current := current - {id};
      case Invalid =>
    }
  }

  method FindById(listing: seq<Record>, id: Id) returns (found: Option<Record>)
    ensures found == FirstById(listing, id)
  {
    for n := 0 to |listing|
      invariant FirstById(listing, id) == FirstById(listing[n..], id)
    {
      assert listing[n..][1..] == listing[n + 1..];
      if listing[n].id == id { return Some(listing[n]); }
    }
    found := None;
  }

  method FindByKey(listing: seq<Record>, kind: Kind, key: string) returns (found: Option<Record>)
    ensures found == FirstByKey(listing, kind, key)
  {
    for n := 0 to |listing|
      invariant FirstByKey(listing, kind, key) == FirstByKey(listing[n..], kind, key)
    {
      assert listing[n..][1..] == listing[n + 1..];
      if listing[n].kind == kind && listing[n].key == key && !listing[n].status.Rejected? { return Some(listing[n]); }
    }
    found := None;
  }

  function SourceOr(source: Option<Source>, r: Record): Source {
    if source.Some? then source.value else r.source
  }

  /** `confirmed_for_prompt`, up to rendering: the chosen record of each key. */
  method ChooseForPrompt(listing: seq<Record>) returns (selected: map<string, Record>)
    ensures selected == Choose(listing)
  {
    selected := map[];
    for n := 0 to |listing|
      invariant selected == Choose(listing[..n])
    {
      var r := listing[n];
      assert Init(listing[..n + 1]) == listing[..n] && Last(listing[..n + 1]) == r;
      if !(r.status.Confirmed? && r.trust.Trusted?) { continue; }
      if r.key !in selected || r.scope.Workspace? { selected := selected[r.key := r]; }
    }
    assert listing[..|listing|] == listing;
  }

  class Store {
    var globalLog: seq<Event>
    var workspaceLog: seq<Event>

    ghost function View(): Logs
      reads this
    {
      Logs(globalLog, workspaceLog)
    }

    constructor ()
      ensures View() == Logs([], [])
    {
      globalLog, workspaceLog := [], [];
    }

    method AppendEvent(scope: Scope, e: Event)
      modifies this
      ensures View() == AppendTo(old(View()), scope, e)
    {
      if scope.Global? { globalLog := globalLog + [e]; } else { workspaceLog := workspaceLog + [e]; }
    }

    /** `listing` is what `list_records` returns for the lookup: all records when an id is
        given, those of the scope otherwise. */
    method Remember(req: Request, listing: seq<Record>, newId: Id, now: nat) returns (outcome: Outcome)
      requires Lists(listing, Searched(View(), req))
      modifies this
      ensures outcome == PreferenceSpec.Remember(req, LookUp(req, listing), newId, now)
      ensures View() == Write(old(View()), outcome)
      ensures old(AllProper(View())) ==> AllProper(View())
    {
      var previous: Option<Record>;
      if req.memoryId.Some? {
        previous := FindById(listing, req.memoryId.value);
      } else {
        previous := FindByKey(listing, req.kind, req.key);
      }
      if req.secret { return Refused; }
      if FromOutside(req.source) && req.status.Confirmed? { return Refused; }
      var supersedes := req.supersedes;
      if previous.Some? && previous.value.trust.Untrusted? && req.status.Confirmed? {
        if req.memoryId.Some? { return Refused; }
        if supersedes.None? { supersedes := Some(previous.value.id); }
        previous := None;
      }
      if previous.Some? && !req.status.Confirmed? && previous.value.status.Confirmed? {
        if supersedes.None? { supersedes := Some(previous.value.id); }
        previous := None;
      }
      var id, created := newId, now;
      if previous.Some? {
        id, created := previous.value.id, previous.value.created;
      } else if req.memoryId.Some? {
        id := req.memoryId.value;
      }
      var record := Record(id, req.scope, req.kind, req.key, req.value, req.status, req.source,
                           DefaultTrust(req.source, req.status), created, now, supersedes);
      AppendEvent(req.scope, Upsert(id, record));
      outcome := Written(record);
      if old(AllProper(View())) { RememberKeepsProper(old(View()), req, LookUp(req, listing), newId, now); }
    }

    method Forget(id: Id) returns (forgotten: bool)
      modifies this
      ensures forgotten == ForgetIn(old(View()), id).Some?
      ensures View() == Forgotten(old(View()), id)
      ensures old(AllProper(View())) ==> AllProper(View())
    {
      var current := CurrentForPath(globalLog);
      if id in current {
        AppendEvent(Global, Delete(id));
        return true;
      }
      current := CurrentForPath(workspaceLog);
      if id in current {
        AppendEvent(Workspace, Delete(id));
        return true;
      }
      forgotten := false;
    }

    method ClearLog(scope: Scope) returns (deleted: nat)
      modifies this
      ensures Current(LogOf(View(), scope)) == map[]
      ensures forall other :: other != scope ==> LogOf(View(), other) == LogOf(old(View()), other)
      ensures deleted == |Current(LogOf(old(View()), scope))|
      ensures old(AllProper(View())) ==> AllProper(View())
    {
      ghost var events := LogOf(View(), scope);
      var current := CurrentForPath(if scope.Global? then globalLog else workspaceLog);
      var left := current.Keys;
      ghost var ids := [];
      deleted := 0;
      assert Deletions([]) == [] && events + [] == events;
      while left != {}
        invariant left <= current.Keys && deleted + |left| == |current|
        invariant forall id :: id in current ==> id in left || id in ids
        invariant LogOf(View(), scope) == events + Deletions(ids)
        invariant forall other :: other != scope ==> LogOf(View(), other) == LogOf(old(View()), other)
        invariant old(AllProper(View())) ==> AllProper(View())
        decreases |left|
      {
        var id :| id in left;
        DeletionsSnoc(ids, id);
        AppendEvent(scope, Delete(id));
        left, ids, deleted := left - {id}, ids + [id], deleted + 1;
      }
      ClearingEmptiesTheLog(events, ids);
    }

    method ClearAll() returns (deleted: nat)
      modifies this
      ensures Shown(View(), None) == map[] && Current(globalLog) == map[] && Current(workspaceLog) == map[]
      ensures deleted == |Current(old(globalLog))| + |Current(old(workspaceLog))|
      ensures old(AllProper(View())) ==> AllProper(View())
    {
      var first := ClearLog(Global);
      var second := ClearLog(Workspace);
      deleted := first + second;
    }

    /** `update_status`; `secret` says whether the listed record looks like credentials. */
    method UpdateStatus(
        id: Id, status: Status, source: Option<Source>, listing: seq<Record>, secret: bool, now: nat)
      returns (outcome: Option<Outcome>)
      requires Lists(listing, Shown(View(), None))
      modifies this
      ensures old(AllProper(View())) ==> AllProper(View())
      ensures outcome.None? ==> View() == old(View()) && FirstById(listing, id).None?
      ensures outcome.Some? ==>
        var r := FirstById(listing, id);
        && r.Some?
        && outcome.value ==
             PreferenceSpec.Remember(Restated(r.value, SourceOr(source, r.value), status, secret), r, id, now)
        && (outcome.value.Written? ==>
             var written := outcome.value.record;
             && written.status == status && written.source == (if source.Some? then source.value else r.value.source)
             && written.scope == r.value.scope && written.kind == r.value.kind
             && written.key == r.value.key && written.value == r.value.value)
        && View() == Write(old(View()), outcome.value)
        && (status.Confirmed? && r.value.trust.Untrusted? ==> outcome.value.Refused?)
    {
      var current := FindById(listing, id);
      if current.None? { return None; }
      var req := Restated(current.value, SourceOr(source, current.value), status, secret);
      var written := Remember(req, listing, id, now);
      FirstByIdHasId(listing, id);
      outcome := Some(written);
    }

    /** Evidence from outside is not even tried; anything else is confirmed explicitly. */
    method Promote(id: Id, listing: seq<Record>, secret: bool, now: nat) returns (outcome: Option<Outcome>)
      requires Lists(listing, Shown(View(), None))
      modifies this
      ensures old(AllProper(View())) ==> AllProper(View())
      ensures outcome.None? <==> FirstById(listing, id).None? || FirstById(listing, id).value.trust.Untrusted?
      ensures outcome.None? ==> View() == old(View())
      ensures outcome.Some? ==>
        && View() == Write(old(View()), outcome.value)
        && (outcome.value.Refused? <==> secret)
        && (outcome.value.Written? ==>
             var r := FirstById(listing, id).value;
             outcome.value.record ==
               r.(status := Confirmed, source := Explicit, trust := Trusted, updated := now))
    {
      var current := FindById(listing, id);
      if current.None? || current.value.trust.Untrusted? { return None; }
      var req := Restated(current.value, Explicit, Confirmed, secret);
      var written := Remember(req, listing, id, now);
      FirstByIdHasId(listing, id);
      outcome := Some(written);
    }
  }

  lemma {:induction false} DeletionsSnoc(ids: seq<Id>, id: Id)
    ensures Deletions(ids + [id]) == Deletions(ids) + [Delete(id)]
    decreases |ids|
  {
    if ids == [] {
      assert ids + [id] == [id];
    } else {
      DeletionsSnoc(ids[1..], id);
      assert (ids + [id])[1..] == ids[1..] + [id];
    }
  }
}
