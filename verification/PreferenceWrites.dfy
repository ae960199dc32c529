/** What one write does, in terms of the request and of the record it finds: when it is refused,
    which record it goes to, and what it leaves there. */
module PreferenceWrites {
  import opened PreferenceRuns
  import opened PreferenceSpec
  import opened PreferenceTheorems
  import opened Sequences
  import opened Wrappers

  predicate Outside(source: Source) {
    source in {Tool, External, SessionText}
  }

  /** A write is refused exactly for credentials, for outside content that would be confirmed,
      and for untrusted evidence that would be confirmed by its id. */
  lemma {:induction false} RefusedExactly(req: Request, found: Option<Record>, newId: Id, now: nat)
    ensures Remember(req, found, newId, now).Refused? <==>
      || req.secret
      || (Outside(req.source) && req.status == Confirmed)
      || (found.Some? && found.value.trust == Untrusted && req.status == Confirmed && req.memoryId.Some?)
  {
  }

  /** The write updates the record it found, unless it would confirm untrusted evidence or put
      something unconfirmed over something confirmed. */
  predicate UpdatesInPlace(req: Request, found: Option<Record>) {
    && found.Some?
    && !(found.value.trust == Untrusted && req.status == Confirmed)
    && !(found.value.status == Confirmed && req.status != Confirmed)
  }

  /** What is written says what was asked, with the trust that source and status deserve. In
      place it keeps id and age; elsewhere it is new, under the id that was named or a fresh
      one, and remembers what it stands beside. */
  lemma {:induction false} WrittenRecord(req: Request, found: Option<Record>, newId: Id, now: nat)
    requires Remember(req, found, newId, now).Written?
    ensures
      var r := Remember(req, found, newId, now).record;
      && r.scope == req.scope && r.kind == req.kind && r.key == req.key && r.value == req.value
      && r.status == req.status && r.source == req.source && r.updated == now
      && (r.trust == Untrusted <==> Outside(req.source))
      && (r.trust == Trusted <==> req.status == Confirmed && req.source in {Explicit, System})
      && if UpdatesInPlace(req, found) then
           r.id == found.value.id && r.created == found.value.created && r.supersedes == req.supersedes
         else
           && r.id == (if req.memoryId.Some? then req.memoryId.value else newId) && r.created == now
           && r.supersedes ==
                (if req.supersedes.Some? then req.supersedes
                 else if found.Some? then Some(found.value.id) else None)
  {
  }

  // ------------------------------------------------------------------ what is found

  /** By id: the first record of the listing with it, and one is found if there is one. */
  lemma {:induction false} FoundById(listing: seq<Record>, id: Id) returns (k: nat)
    ensures FirstById(listing, id).None? <==> forall i :: 0 <= i < |listing| ==> listing[i].id != id
    ensures FirstById(listing, id).Some? ==>
      k < |listing| && FirstById(listing, id) == Some(listing[k]) && listing[k].id == id
      && forall i :: 0 <= i < k ==> listing[i].id != id
  {
    k := 0;
    if listing != [] && listing[0].id != id {
      var j := FoundById(listing[1..], id);
      k := j + 1;
      assert forall i :: 0 < i < |listing| ==> listing[i] == listing[1..][i - 1];
    }
  }

  predicate Answers(r: Record, kind: Kind, key: string) {
    r.kind == kind && r.key == key && r.status != Rejected
  }

  /** By key: the first record of its kind and key that was not rejected. */
  lemma {:induction false} FoundByKey(listing: seq<Record>, kind: Kind, key: string) returns (k: nat)
    ensures FirstByKey(listing, kind, key).None? <==>
      forall i :: 0 <= i < |listing| ==> !Answers(listing[i], kind, key)
    ensures FirstByKey(listing, kind, key).Some? ==>
      k < |listing| && FirstByKey(listing, kind, key) == Some(listing[k]) && Answers(listing[k], kind, key)
      && forall i :: 0 <= i < k ==> !Answers(listing[i], kind, key)
  {
    k := 0;
    if listing != [] && !Answers(listing[0], kind, key) {
      var j := FoundByKey(listing[1..], kind, key);
      k := j + 1;
      assert forall i :: 0 < i < |listing| ==> listing[i] == listing[1..][i - 1];
    }
  }

  /** Saying the same key again in the same scope never leaves two records of it unless one of
      the two rules separates them: the write goes to the record that the listing gives. */
  lemma {:induction false} SayingItAgainUpdates(
      logs: Logs, listing: seq<Record>, req: Request, newId: Id, now: nat) returns (k: nat)
    requires AllProper(logs) && Lists(listing, Current(LogOf(logs, req.scope))) && req.memoryId.None?
    requires UpdatesInPlace(req, LookUp(req, listing)) && Remember(req, LookUp(req, listing), newId, now).Written?
    ensures k < |listing| && Answers(listing[k], req.kind, req.key)
    ensures
      var outcome := Remember(req, LookUp(req, listing), newId, now);
      && Current(LogOf(Write(logs, outcome), req.scope)).Keys == Current(LogOf(logs, req.scope)).Keys
      && Current(LogOf(Write(logs, outcome), req.scope)) ==
           Current(LogOf(logs, req.scope))[listing[k].id := outcome.record]
  {
    k := FoundByKey(listing, req.kind, req.key);
    var outcome := Remember(req, LookUp(req, listing), newId, now);
    ListedUnderItsId(logs, req.scope, listing, listing[k]);
    WriteFolds(logs, req.scope, Upsert(outcome.record.id, outcome.record));
  }

  // --------------------------------------------------------------------- at any time

  /** In every reachable pair of logs: nothing confirmed comes from outside, and trust is what
      source and status say. */
  lemma {:induction false} CurrentRecordsAreProper(steps: seq<Step>, scope: Scope, id: Id)
    requires id in Current(LogOf(RunOf(Logs([], []), steps), scope))
    ensures
      var r := Current(LogOf(RunOf(Logs([], []), steps), scope))[id];
      && !(r.status == Confirmed && Outside(r.source))
      && (r.trust == Untrusted <==> Outside(r.source))
      && (r.trust == Trusted <==> r.status == Confirmed && r.source in {Explicit, System})
  {
    var logs := RunOf(Logs([], []), steps);
    RunKeepsProper(Logs([], []), steps);
    TrustIsDerived(map[], LogOf(logs, scope), id);
    ProperRecords(map[], LogOf(logs, scope), scope, id);
  }

  /** Forgetting what is not there changes nothing. */
  lemma {:induction false} ForgettingNothing(logs: Logs, id: Id)
    requires id !in Current(logs.global) && id !in Current(logs.workspace)
    ensures After(logs, SForget(id)) == logs
  {
  }
}
