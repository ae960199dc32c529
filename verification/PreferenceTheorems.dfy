/** What the explicit memory keeps: the current records, the trust rules, what a write can
    overwrite, and what reaches the prompt. */
module PreferenceTheorems {
  import opened PreferenceSpec
  import opened Sequences
  import opened Wrappers

  // ------------------------------------------------------------- the log and its fold

  /** Appending an event and folding is folding and applying the event. */
  lemma {:induction false} FoldAppend(current: map<Id, Record>, events: seq<Event>, e: Event)
    ensures Fold(current, events + [e]) == Apply(Fold(current, events), e)
    decreases |events|
  {
    if events == [] {
      assert [e][1..] == [] && events + [e] == [e];
    } else {
      FoldAppend(Apply(current, events[0]), events[1..], e);
      assert (events + [e])[1..] == events[1..] + [e];
    }
  }

  lemma {:induction false} FoldConcat(current: map<Id, Record>, a: seq<Event>, b: seq<Event>)
    ensures Fold(current, a + b) == Fold(Fold(current, a), b)
    decreases |a|
  {
    if a == [] {
      assert a + b == b;
    } else {
      FoldConcat(Apply(current, a[0]), a[1..], b);
      assert (a + b)[1..] == a[1..] + b;
    }
  }

  lemma {:induction false} WriteFolds(logs: Logs, scope: Scope, e: Event)
    ensures Current(LogOf(AppendTo(logs, scope, e), scope)) == Apply(Current(LogOf(logs, scope)), e)
    ensures forall other :: other != scope ==> LogOf(AppendTo(logs, scope, e), other) == LogOf(logs, other)
  {
    FoldAppend(map[], LogOf(logs, scope), e);
  }

  /** For any log at all: trust is what source and status say, whatever was stored. */
  lemma {:induction false} TrustIsDerived(current: map<Id, Record>, events: seq<Event>, id: Id)
    requires forall k :: k in current ==> current[k].trust == DefaultTrust(current[k].source, current[k].status)
    ensures id in Fold(current, events) ==>
      var r := Fold(current, events)[id];
      r.trust == DefaultTrust(r.source, r.status)
    decreases |events|
  {
    if events != [] { TrustIsDerived(Apply(current, events[0]), events[1..], id); }
  }

  // ------------------------------------------------------------------ reachable logs

  /** Logs as this store writes them: records under their own id in the log of their
      scope, and nothing confirmed from outside. */
  predicate Proper(e: Event, scope: Scope) {
    e.Upsert? ==>
      e.record.id == e.id && e.record.scope == scope && !(e.record.status.Confirmed? && FromOutside(e.record.source))
  }

  predicate AllProper(logs: Logs) {
    && (forall i :: 0 <= i < |logs.global| ==> Proper(logs.global[i], Global))
    && (forall i :: 0 <= i < |logs.workspace| ==> Proper(logs.workspace[i], Workspace))
  }

  lemma {:induction false} ProperRecords(current: map<Id, Record>, events: seq<Event>, scope: Scope, id: Id)
    requires forall i :: 0 <= i < |events| ==> Proper(events[i], scope)
    requires forall k :: k in current ==> Proper(Upsert(k, current[k]), scope)
    ensures id in Fold(current, events) ==> Proper(Upsert(id, Fold(current, events)[id]), scope)
    decreases |events|
  {
    if events != [] {
      assert Proper(events[0], scope);
      ProperRecords(Apply(current, events[0]), events[1..], scope, id);
    }
  }

  /** No write makes a log improper. */
  lemma {:induction false} RememberKeepsProper(logs: Logs, req: Request, found: Option<Record>, newId: Id, now: nat)
    requires AllProper(logs)
    ensures AllProper(Write(logs, Remember(req, found, newId, now)))
  {
  }

  /** In every such state nothing is both confirmed and untrusted. */
  lemma {:induction false} NothingConfirmedIsUntrusted(logs: Logs, scope: Scope, id: Id)
    requires AllProper(logs) && id in Current(LogOf(logs, scope))
    ensures
      var r := Current(LogOf(logs, scope))[id];
      && !(r.status.Confirmed? && r.trust.Untrusted?)
      && r.id == id && r.scope == scope
  {
    TrustIsDerived(map[], LogOf(logs, scope), id);
    ProperRecords(map[], LogOf(logs, scope), scope, id);
  }

  // ------------------------------------------------------------- what a write changes

  lemma {:induction false} FirstByIdHasId(listing: seq<Record>, id: Id)
    ensures FirstById(listing, id).Some? ==>
      FirstById(listing, id).value.id == id && FirstById(listing, id).value in listing
  {
    if listing != [] { FirstByIdHasId(listing[1..], id); }
  }

  lemma {:induction false} FirstByKeyMatches(listing: seq<Record>, kind: Kind, key: string)
    ensures
      var r := FirstByKey(listing, kind, key);
      r.Some? ==> r.value.kind == kind && r.value.key == key && !r.value.status.Rejected? && r.value in listing
  {
    if listing != [] { FirstByKeyMatches(listing[1..], kind, key); }
  }

  /** Only the record with the written id changes. */
  lemma {:induction false} OnlyOneRecordChanges(
      logs: Logs, req: Request, found: Option<Record>, newId: Id, now: nat, scope: Scope, id: Id)
    requires Remember(req, found, newId, now).Written?
    requires scope != req.scope || id != Remember(req, found, newId, now).record.id
    ensures
      var before, after := Current(LogOf(logs, scope)),
          Current(LogOf(Write(logs, Remember(req, found, newId, now)), scope));
      (id in after <==> id in before) && (id in after ==> after[id] == before[id])
  {
    var r := Remember(req, found, newId, now).record;
    WriteFolds(logs, req.scope, Upsert(r.id, r));
  }

  predicate Unused(logs: Logs, id: Id) {
    id !in Current(logs.global) && id !in Current(logs.workspace)
  }

  /** A confirmed record that the write takes away from the log it goes to. */
  predicate Overwrites(logs: Logs, outcome: Outcome, id: Id) {
    outcome.Written? &&
    var before, after := Current(LogOf(logs, outcome.record.scope)),
        Current(LogOf(Write(logs, outcome), outcome.record.scope));
    id in before && before[id].status.Confirmed? && (id !in after || after[id] != before[id])
  }

  /** Which id a write that is not a confirmation goes to. */
  lemma {:induction false} UnconfirmedTarget(logs: Logs, req: Request, found: Option<Record>, newId: Id, now: nat)
    requires AllProper(logs) && !req.status.Confirmed? && Finds(logs, req, found)
    requires Remember(req, found, newId, now).Written?
    ensures
      var id := Remember(req, found, newId, now).record.id;
      if req.memoryId.Some? then id == req.memoryId.value
      else
        || id == newId
        || (id in Current(LogOf(logs, req.scope)) && !Current(LogOf(logs, req.scope))[id].status.Confirmed?)
  {
    var listing :| Lists(listing, Searched(logs, req)) && found == LookUp(req, listing);
    if req.memoryId.Some? {
      FirstByIdHasId(listing, req.memoryId.value);
    } else {
      FirstByKeyMatches(listing, req.kind, req.key);
      if found.Some? { ListedUnderItsId(logs, req.scope, listing, found.value); }
    }
  }

  lemma {:induction false} ListedUnderItsId(logs: Logs, scope: Scope, listing: seq<Record>, r: Record)
    requires AllProper(logs) && Lists(listing, Shown(logs, Some(scope))) && r in listing
    ensures r.id in Current(LogOf(logs, scope)) && Current(LogOf(logs, scope))[r.id] == r
  {
    var records := Current(LogOf(logs, scope));
    var id :| id in records && records[id] == r;
    NothingConfirmedIsUntrusted(logs, scope, id);
  }

  /** In the log that it goes to, a write that is not a confirmation takes away a confirmed
      record exactly when the caller names it. */
  lemma {:induction false} UnconfirmedWriteOverwritesOnlyWhatItNames(
      logs: Logs, req: Request, found: Option<Record>, newId: Id, now: nat, id: Id)
    requires AllProper(logs) && !req.status.Confirmed? && Finds(logs, req, found) && Unused(logs, newId)
    requires Remember(req, found, newId, now).Written?
    ensures Overwrites(logs, Remember(req, found, newId, now), id) <==>
      (req.memoryId == Some(id) && id in Current(LogOf(logs, req.scope))
       && Current(LogOf(logs, req.scope))[id].status.Confirmed?)
  {
    var r := Remember(req, found, newId, now).record;
    UnconfirmedTarget(logs, req, found, newId, now);
    WriteFolds(logs, req.scope, Upsert(r.id, r));
  }

  /** One confirming write never confirms untrusted evidence in place: by name it is refused,
      by key it gets a new identity and keeps the lineage. */
  lemma {:induction false} OneWriteNeverConfirmsUntrusted(req: Request, found: Option<Record>, newId: Id, now: nat)
    requires req.status.Confirmed? && found.Some? && found.value.trust.Untrusted?
    ensures
      match Remember(req, found, newId, now)
      case Refused => !Admissible(req) || req.memoryId.Some?
      case Written(r) =>
        req.memoryId.None? && r.id == newId && (req.supersedes.None? ==> r.supersedes == Some(found.value.id))
  {
  }

  /** The listing shows `id` as confirmed. */
  predicate ShownConfirmed(logs: Logs, id: Id) {
    id in Shown(logs, None) && Shown(logs, None)[id].status.Confirmed?
  }

  /** The request names `id`, and what it writes there is what the listing will show: a
      workspace record hides a global one, never the other way round. */
  predicate NamesShown(logs: Logs, req: Request, id: Id) {
    req.memoryId == Some(id) && (req.scope.Workspace? || id !in Current(logs.workspace))
  }

  /** What is listed as confirmed, in either log, is lost to a write that is not a
      confirmation exactly when the write names it where the listing will see it. */
  lemma {:induction false} UnconfirmedWriteHidesOnlyWhatItNames(
      logs: Logs, req: Request, found: Option<Record>, newId: Id, now: nat, id: Id)
    requires AllProper(logs) && !req.status.Confirmed? && Finds(logs, req, found) && Unused(logs, newId)
    requires Remember(req, found, newId, now).Written? && ShownConfirmed(logs, id)
    ensures
      var after := Shown(Write(logs, Remember(req, found, newId, now)), None);
      (id in after && after[id] == Shown(logs, None)[id]) <==> !NamesShown(logs, req, id)
  {
    var r := Remember(req, found, newId, now).record;
    UnconfirmedTarget(logs, req, found, newId, now);
    WriteFolds(logs, req.scope, Upsert(r.id, r));
  }

  /** ... and nothing becomes confirmed by it. */
  lemma {:induction false} UnconfirmedWriteConfirmsNothing(
      logs: Logs, req: Request, found: Option<Record>, newId: Id, now: nat, id: Id)
    requires !req.status.Confirmed? && Remember(req, found, newId, now).Written?
    requires ShownConfirmed(Write(logs, Remember(req, found, newId, now)), id)
    ensures ShownConfirmed(logs, id)
  {
    var r := Remember(req, found, newId, now).record;
    WriteFolds(logs, req.scope, Upsert(r.id, r));
  }

  function ConfirmedOf(records: map<Id, Record>): map<Id, Record> {
    map id | id in records && records[id].status.Confirmed? :: records[id]
  }

  /** Without `memory_id`, the confirmed part of the listing stays exactly as it is. */
  lemma {:induction false} UnnamedWriteKeepsTheConfirmed(
      logs: Logs, req: Request, found: Option<Record>, newId: Id, now: nat)
    requires AllProper(logs) && !req.status.Confirmed? && Finds(logs, req, found) && Unused(logs, newId)
    requires req.memoryId.None?
    ensures ConfirmedOf(Shown(Write(logs, Remember(req, found, newId, now)), None)) == ConfirmedOf(Shown(logs, None))
  {
    var outcome := Remember(req, found, newId, now);
    if outcome.Written? {
      var before, after := Shown(logs, None), Shown(Write(logs, outcome), None);
      forall id ensures ShownConfirmed(Write(logs, outcome), id) <==> ShownConfirmed(logs, id)
        ensures ShownConfirmed(logs, id) ==> after[id] == before[id]
      {
        if ShownConfirmed(logs, id) { UnconfirmedWriteHidesOnlyWhatItNames(logs, req, found, newId, now, id); }
        if ShownConfirmed(Write(logs, outcome), id)
        { UnconfirmedWriteConfirmsNothing(logs, req, found, newId, now, id); }
      }
      SameConfirmed(before, after);
    }
  }

  lemma {:induction false} SameConfirmed(a: map<Id, Record>, b: map<Id, Record>)
    requires forall id :: id in a && a[id].status.Confirmed? ==> id in b && b[id] == a[id]
    requires forall id :: id in b && b[id].status.Confirmed? ==> id in a && a[id].status.Confirmed?
    ensures ConfirmedOf(a) == ConfirmedOf(b)
  {
  }

  // ------------------------------------------------------------------------- forgetting

  lemma {:induction false} DeletionsFold(current: map<Id, Record>, ids: seq<Id>)
    ensures Fold(current, Deletions(ids)) == current - (set i | 0 <= i < |ids| :: ids[i])
    decreases |ids|
  {
    if ids != [] {
      var rest := ids[1..];
      DeletionsFold(current - {ids[0]}, rest);
      assert Deletions(ids)[1..] == Deletions(rest);
      assert (set i | 0 <= i < |ids| :: ids[i]) == {ids[0]} + set i | 0 <= i < |rest| :: rest[i] by {
        forall i | 0 < i < |ids| ensures ids[i] == rest[i - 1] {}
      }
    }
  }

  /** Deleting every current id leaves nothing. */
  lemma {:induction false} ClearingEmptiesTheLog(events: seq<Event>, ids: seq<Id>)
    requires forall id :: id in Current(events) ==> id in ids
    ensures Current(events + Deletions(ids)) == map[]
  {
    FoldConcat(map[], events, Deletions(ids));
    DeletionsFold(Current(events), ids);
  }

  /** Forgetting removes the id from one log and changes nothing else. It is gone from the
      listing exactly when the id was not in both logs. */
  lemma {:induction false} ForgettingRemovesOneRecord(logs: Logs, id: Id)
    requires ForgetIn(logs, id).Some?
    ensures
      var scope := ForgetIn(logs, id).value;
      var after := AppendTo(logs, scope, Delete(id));
      && Current(LogOf(after, scope)) == Current(LogOf(logs, scope)) - {id}
      && (id !in Shown(after, None) <==> !(id in Current(logs.global) && id in Current(logs.workspace)))
      && forall k :: k != id ==>
           && (k in Shown(after, None) <==> k in Shown(logs, None))
           && (k in Shown(after, None) ==> Shown(after, None)[k] == Shown(logs, None)[k])
  {
    WriteFolds(logs, ForgetIn(logs, id).value, Delete(id));
  }

  // --------------------------------------------------------------------- the prompt

  /** Where the chosen record of a key stands in the listing. */
  predicate ChosenAt(listing: seq<Record>, key: string, i: nat) {
    && i < |listing| && ForPrompt(listing[i]) && listing[i].key == key
    && (if listing[i].scope.Workspace? then
          forall j :: i < j < |listing| && ForPrompt(listing[j]) && listing[j].key == key ==>
            !listing[j].scope.Workspace?
        else
          && (forall j :: 0 <= j < i && ForPrompt(listing[j]) ==> listing[j].key != key)
          && (forall j :: i < j < |listing| && ForPrompt(listing[j]) && listing[j].key == key ==>
            !listing[j].scope.Workspace?))
  }

  lemma {:induction false} ChosenIsListed(listing: seq<Record>, key: string) returns (i: nat)
    ensures key in Choose(listing) <==> exists j :: 0 <= j < |listing| && ForPrompt(listing[j]) && listing[j].key == key
    ensures key in Choose(listing) ==> ChosenAt(listing, key, i) && Choose(listing)[key] == listing[i]
  {
    i := 0;
    if listing != [] {
      var front, r := Init(listing), Last(listing);
      i := ChosenIsListed(front, key);
      assert listing == front + [r];
      if ForPrompt(r) && r.key == key && (key !in Choose(front) || r.scope.Workspace?) { i := |listing| - 1; }
    }
  }

  /** The prompt shows one record per key that has a confirmed, trusted record; it comes
      from an explicit or a system source; a workspace record wins over a global one, and
      within a scope the newest workspace or the oldest global one is shown. */
  lemma {:induction false} PromptPrefersTheWorkspace(listing: seq<Record>, records: map<Id, Record>, key: string)
    requires Lists(listing, records)
    requires forall id :: id in records ==> records[id].trust == DefaultTrust(records[id].source, records[id].status)
    ensures key in Choose(listing) <==> exists id :: id in records && ForPrompt(records[id]) && records[id].key == key
    ensures key in Choose(listing) ==>
      var c := Choose(listing)[key];
      && c.key == key && c.status.Confirmed? && (c.source.Explicit? || c.source.System?)
      && forall id :: id in records && ForPrompt(records[id]) && records[id].key == key ==>
           && (records[id].scope.Workspace? ==> c.scope.Workspace?)
           && (records[id].scope == c.scope ==>
                if c.scope.Workspace? then records[id].updated <= c.updated else c.updated <= records[id].updated)
  {
    var i := ChosenIsListed(listing, key);
    if key in Choose(listing) {
      var c := listing[i];
      assert c in records.Values;
      forall id | id in records && ForPrompt(records[id]) && records[id].key == key
        ensures records[id].scope.Workspace? ==> c.scope.Workspace?
        ensures records[id].scope == c.scope ==>
          if c.scope.Workspace? then records[id].updated <= c.updated else c.updated <= records[id].updated
      {
        var j :| 0 <= j < |listing| && listing[j] == records[id];
        if j < i { assert InOrder(listing[j], listing[i]); } else if i < j { assert InOrder(listing[i], listing[j]); }
      }
    }
    forall id | id in records && ForPrompt(records[id]) && records[id].key == key ensures key in Choose(listing) {
      var j :| 0 <= j < |listing| && listing[j] == records[id];
    }
  }

  /** For any logs: the prompt shows a key exactly if the listing has a confirmed record of it
      that the user stated or the system set; nothing from a tool, a session or the outside
      comes in, whatever trust the log claims. */
  lemma {:induction false} PromptShowsWhatWasConfirmed(logs: Logs, listing: seq<Record>, key: string)
    requires Lists(listing, Shown(logs, None))
    ensures key in Choose(listing) <==>
      exists id :: id in Shown(logs, None) && Shown(logs, None)[id].key == key
        && Shown(logs, None)[id].status == Confirmed && Shown(logs, None)[id].source in {Explicit, System}
    ensures key in Choose(listing) ==>
      var r := Choose(listing)[key];
      r in Shown(logs, None).Values && r.key == key && r.status == Confirmed && r.source in {Explicit, System}
  {
    var records := Shown(logs, None);
    forall id | id in records ensures records[id].trust == DefaultTrust(records[id].source, records[id].status) {
      TrustIsDerived(map[], logs.global, id);
      TrustIsDerived(map[], logs.workspace, id);
    }
    PromptPrefersTheWorkspace(listing, records, key);
    var i := ChosenIsListed(listing, key);
    forall id | id in records ensures
      ForPrompt(records[id]) <==> records[id].status == Confirmed && records[id].source in {Explicit, System} {}
  }

  // ------------------------------------------------------------- what is not guaranteed

  function First(): Record { Record(1, Global, Fact, "k", "a", Confirmed, Explicit, Trusted, 1, 1, None) }
  function Second(): Record { Record(2, Global, Fact, "k", "b", Candidate, Dream, Unproven, 2, 2, Some(1)) }
  function Third(): Record { Second().(status := Confirmed, source := Explicit, trust := Trusted, updated := 3) }

  function Told(): Request { Request(Global, Fact, "k", "a", Explicit, Confirmed, None, None, false) }
  function Proposal(): Request { Request(Global, Fact, "k", "b", Dream, Candidate, None, None, false) }
  function Promotion(): Request { Restated(Second(), Explicit, Confirmed, false) }

  function OneLog(): Logs { Logs([Upsert(1, First())], []) }
  function TwoLog(): Logs { Logs([Upsert(1, First()), Upsert(2, Second())], []) }
  function ThreeLog(): Logs { Logs([Upsert(1, First()), Upsert(2, Second()), Upsert(2, Third())], []) }

  lemma {:induction false} CurrentOfThem()
    ensures Current(OneLog().global) == map[1 := First()]
    ensures Current(TwoLog().global) == map[1 := First(), 2 := Second()]
    ensures Current(ThreeLog().global) == map[1 := First(), 2 := Third()]
  {
    FoldAppend(map[], [], Upsert(1, First()));
    FoldAppend(map[], [Upsert(1, First())], Upsert(2, Second()));
    FoldAppend(map[], [Upsert(1, First()), Upsert(2, Second())], Upsert(2, Third()));
  }

  lemma {:induction false} ProposalFindsTheFirst()
    ensures Finds(OneLog(), Proposal(), Some(First()))
  {
    CurrentOfThem();
    assert map[1 := First()][1] == First();
    assert Lists([First()], Searched(OneLog(), Proposal()));
    assert LookUp(Proposal(), [First()]) == Some(First());
  }

  lemma {:induction false} PromotionFindsTheSecond()
    ensures Finds(TwoLog(), Promotion(), Some(Second()))
  {
    CurrentOfThem();
    var all, listing := map[1 := First(), 2 := Second()], [First(), Second()];
    assert Searched(TwoLog(), Promotion()) == all;
    assert all[1] == First() && all[2] == Second();
    assert listing[0] == First() && listing[1] == Second() && listing[1..] == [Second()];
    assert Lists(listing, all);
    assert LookUp(Promotion(), listing) == Some(Second());
  }

  lemma {:induction false} FirstIsWritten()
    ensures Write(Logs([], []), Remember(Told(), None, 1, 1)) == OneLog()
  {
    assert Remember(Told(), None, 1, 1) == Written(First());
  }

  lemma {:induction false} SecondIsWritten()
    ensures Write(OneLog(), Remember(Proposal(), Some(First()), 2, 2)) == TwoLog()
  {
    assert Remember(Proposal(), Some(First()), 2, 2) == Written(Second());
  }

  lemma {:induction false} ThirdIsWritten()
    ensures Write(TwoLog(), Remember(Promotion(), Some(Second()), 3, 3)) == ThreeLog()
  {
    assert Remember(Promotion(), Some(Second()), 3, 3) == Written(Third());
  }

  /** Two records of one key can both be confirmed: a candidate beside a confirmed record
      keeps its own id, and confirming it by name does not retire the other. */
  lemma {:induction false} TwoConfirmedRecordsCanCoexist()
    ensures Write(Logs([], []), Remember(Told(), None, 1, 1)) == OneLog()
    ensures Finds(OneLog(), Proposal(), Some(First()))
    ensures Write(OneLog(), Remember(Proposal(), Some(First()), 2, 2)) == TwoLog()
    ensures Finds(TwoLog(), Promotion(), Some(Second()))
    ensures Write(TwoLog(), Remember(Promotion(), Some(Second()), 3, 3)) == ThreeLog()
    ensures
      var current := Current(ThreeLog().global);
      1 in current && 2 in current && ForPrompt(current[1]) && ForPrompt(current[2]) && current[1].key == current[2].key
  {
    ProposalFindsTheFirst();
    PromotionFindsTheSecond();
    FirstIsWritten();
    SecondIsWritten();
    ThirdIsWritten();
    CurrentOfThem();
  }
}
