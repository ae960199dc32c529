/** The explicit memory over whole runs of writes, deletions and clearings: what no
    sequence of them can do, and the two-step way round each rule. `update_status`,
    `promote` and `reject` are writes that restate a listed record under its own id. */
module PreferenceRuns {
  import opened PreferenceSpec
  import opened PreferenceTheorems
  import opened Sequences
  import opened Wrappers

  datatype Step =
    | SRemember(req: Request, found: Option<Record>, newId: Id, now: nat)
    | SForget(id: Id)
    | SClear(globalIds: seq<Id>, workspaceIds: seq<Id>)

  ghost predicate ExactlyTheKeys(ids: seq<Id>, records: map<Id, Record>) {
    forall id :: id in records <==> id in ids
  }

  /** A write looks up what the listing gives it and takes its new id from a generator. */
  ghost predicate Enabled(logs: Logs, step: Step) {
    match step
    case SRemember(req, found, newId, _) => Finds(logs, req, found) && Unused(logs, newId)
    case SForget(_) => true
    case SClear(g, w) => ExactlyTheKeys(g, Current(logs.global)) && ExactlyTheKeys(w, Current(logs.workspace))
  }

  function Forgotten(logs: Logs, id: Id): Logs {
    var scope := ForgetIn(logs, id);
    if scope.Some? then AppendTo(logs, scope.value, Delete(id)) else logs
  }

  function After(logs: Logs, step: Step): Logs {
    match step
    case SRemember(req, found, newId, now) => Write(logs, Remember(req, found, newId, now))
    case SForget(id) => Forgotten(logs, id)
    case SClear(g, w) => Logs(logs.global + Deletions(g), logs.workspace + Deletions(w))
  }

  ghost predicate Runs(logs: Logs, steps: seq<Step>)
    decreases |steps|
  {
    steps == [] || (Enabled(logs, steps[0]) && Runs(After(logs, steps[0]), steps[1..]))
  }

  function RunOf(logs: Logs, steps: seq<Step>): Logs
    decreases |steps|
  {
    if steps == [] then logs else RunOf(After(logs, steps[0]), steps[1..])
  }

  // ------------------------------------------------------------- nothing from outside

  lemma {:induction false} DeletionsAreProper(ids: seq<Id>, scope: Scope)
    ensures forall i :: 0 <= i < |Deletions(ids)| ==> Proper(Deletions(ids)[i], scope)
    decreases |ids|
  {
    if ids != [] { DeletionsAreProper(ids[1..], scope); }
  }

  lemma {:induction false} StepKeepsProper(logs: Logs, step: Step)
    requires AllProper(logs)
    ensures AllProper(After(logs, step))
  {
    match step
    case SRemember(req, found, newId, now) => RememberKeepsProper(logs, req, found, newId, now);
    case SForget(id) =>
    case SClear(g, w) =>
      DeletionsAreProper(g, Global);
      DeletionsAreProper(w, Workspace);
  }

  lemma {:induction false} RunKeepsProper(logs: Logs, steps: seq<Step>)
    requires AllProper(logs)
    ensures AllProper(RunOf(logs, steps))
    decreases |steps|
  {
    if steps != [] {
      StepKeepsProper(logs, steps[0]);
      RunKeepsProper(After(logs, steps[0]), steps[1..]);
    }
  }

  /** In every reachable pair of logs no current record is both confirmed and untrusted,
      and every record is stored under its own id in the log of its scope. */
  lemma {:induction false} NothingUntrustedIsEverConfirmed(steps: seq<Step>, scope: Scope, id: Id)
    requires id in Current(LogOf(RunOf(Logs([], []), steps), scope))
    ensures
      var r := Current(LogOf(RunOf(Logs([], []), steps), scope))[id];
      !(r.status.Confirmed? && r.trust.Untrusted?) && r.id == id && r.scope == scope
  {
    RunKeepsProper(Logs([], []), steps);
    NothingConfirmedIsUntrusted(RunOf(Logs([], []), steps), scope, id);
  }

  // ------------------------------------------------- untrusted evidence, over a run

  /** The listing shows `id`, and what it shows comes from outside. */
  predicate ShownUntrusted(logs: Logs, id: Id) {
    id in Shown(logs, None) && Shown(logs, None)[id].trust.Untrusted?
  }

  /** A step that takes `id` out of quarantine. Seen from the request: an admissible write
      from an inside source that does not confirm, goes where the listing will show it, and
      is aimed at `id`, by name or because the lookup by key finds that record. */
  predicate Releases(logs: Logs, step: Step, id: Id) {
    match step
    case SRemember(req, found, _, _) =>
      && Admissible(req) && !FromOutside(req.source) && !req.status.Confirmed?
      && (req.scope.Workspace? || id !in Current(logs.workspace))
      && (if req.memoryId.Some? then req.memoryId == Some(id) else found.Some? && found.value.id == id)
    case SForget(x) => x == id && !(id in Current(logs.global) && id in Current(logs.workspace))
    case SClear(_, _) => true
  }

  lemma {:induction false} FirstByIdIsShown(logs: Logs, listing: seq<Record>, id: Id)
    requires AllProper(logs) && Lists(listing, Shown(logs, None)) && id in Shown(logs, None)
    ensures FirstById(listing, id) == Some(Shown(logs, None)[id])
  {
    ShownUnderItsId(logs, id);
    FirstByIdIsThere(listing, Shown(logs, None)[id]);
    FirstByIdHasId(listing, id);
    var r := FirstById(listing, id).value;
    var k :| k in Shown(logs, None) && Shown(logs, None)[k] == r;
    ShownUnderItsId(logs, k);
  }

  lemma {:induction false} ShownUnderItsId(logs: Logs, id: Id)
    requires AllProper(logs) && id in Shown(logs, None)
    ensures Shown(logs, None)[id].id == id
  {
    if id in Current(logs.workspace) {
      NothingConfirmedIsUntrusted(logs, Workspace, id);
    } else {
      NothingConfirmedIsUntrusted(logs, Global, id);
    }
  }

  lemma {:induction false} FirstByIdIsThere(listing: seq<Record>, r: Record)
    requires r in listing
    ensures FirstById(listing, r.id).Some?
  {
    if listing[0].id != r.id { FirstByIdIsThere(listing[1..], r); }
  }

  /** A write that reaches an untrusted record of the listing does not confirm it. */
  lemma {:induction false} ReachesUnconfirmed(
      logs: Logs, req: Request, found: Option<Record>, newId: Id, now: nat, id: Id)
    requires AllProper(logs) && Finds(logs, req, found) && Unused(logs, newId) && ShownUntrusted(logs, id)
    requires Remember(req, found, newId, now).Written? && Remember(req, found, newId, now).record.id == id
    requires req.scope.Workspace? || id !in Current(logs.workspace)
    ensures !req.status.Confirmed?
  {
    var listing :| Lists(listing, Searched(logs, req)) && found == LookUp(req, listing);
    if req.memoryId.Some? {
      FirstByIdHasId(listing, req.memoryId.value);
      assert req.memoryId.value == id;
      FirstByIdIsShown(logs, listing, id);
    } else {
      FirstByKeyMatches(listing, req.kind, req.key);
      ListedUnderItsId(logs, req.scope, listing, found.value);
    }
  }

  lemma {:induction false} NotBoth(logs: Logs, id: Id)
    requires AllProper(logs) && ShownUntrusted(logs, id)
    ensures !ShownConfirmed(logs, id)
  {
    if id in Current(logs.workspace) {
      NothingConfirmedIsUntrusted(logs, Workspace, id);
    } else {
      NothingConfirmedIsUntrusted(logs, Global, id);
    }
  }

  /** The other direction: a request aimed at an untrusted record of the listing, where the
      listing will show it, is written under the id of that record unless it confirms. */
  lemma {:induction false} AimedIsReached(
      logs: Logs, req: Request, found: Option<Record>, newId: Id, now: nat, id: Id)
    requires AllProper(logs) && Finds(logs, req, found) && Unused(logs, newId) && ShownUntrusted(logs, id)
    requires Admissible(req) && !req.status.Confirmed?
    requires req.scope.Workspace? || id !in Current(logs.workspace)
    ensures
      var outcome := Remember(req, found, newId, now);
      outcome.Written? && (outcome.record.id == id <==>
        if req.memoryId.Some? then req.memoryId == Some(id) else found.Some? && found.value.id == id)
  {
    NotBoth(logs, id);
    var listing :| Lists(listing, Searched(logs, req)) && found == LookUp(req, listing);
    if req.memoryId.Some? {
      FirstByIdHasId(listing, req.memoryId.value);
    } else if found.Some? {
      FirstByKeyMatches(listing, req.kind, req.key);
      ListedUnderItsId(logs, req.scope, listing, found.value);
    }
  }

  /** The listing shows what was written, unless a workspace record hides it. */
  lemma {:induction false} WrittenIsShown(logs: Logs, r: Record, id: Id)
    ensures
      var before, after := Shown(logs, None), Shown(Write(logs, Written(r)), None);
      if r.id == id && (r.scope.Workspace? || id !in Current(logs.workspace)) then
        id in after && after[id] == r.(trust := DefaultTrust(r.source, r.status))
      else (id in after <==> id in before) && (id in after ==> after[id] == before[id])
  {
    WriteFolds(logs, r.scope, Upsert(r.id, r));
  }

  lemma {:induction false} WriteReleasesIff(
      logs: Logs, req: Request, found: Option<Record>, newId: Id, now: nat, id: Id)
    requires AllProper(logs) && Finds(logs, req, found) && Unused(logs, newId) && ShownUntrusted(logs, id)
    ensures
      var step := SRemember(req, found, newId, now);
      && (ShownUntrusted(After(logs, step), id) <==> !Releases(logs, step, id))
      && !ShownConfirmed(After(logs, step), id)
  {
    var outcome := Remember(req, found, newId, now);
    NotBoth(logs, id);
    if outcome.Written? {
      WrittenIsShown(logs, outcome.record, id);
      if req.scope.Workspace? || id !in Current(logs.workspace) {
        if outcome.record.id == id { ReachesUnconfirmed(logs, req, found, newId, now, id); }
        if !req.status.Confirmed? { AimedIsReached(logs, req, found, newId, now, id); }
      }
    }
  }

  /** One step never confirms an untrusted listed record under its id, and it stays
      untrusted exactly when the step does not release it. */
  lemma {:induction false} StepReleasesIff(logs: Logs, step: Step, id: Id)
    requires AllProper(logs) && Enabled(logs, step) && ShownUntrusted(logs, id)
    ensures ShownUntrusted(After(logs, step), id) <==> !Releases(logs, step, id)
    ensures !ShownConfirmed(After(logs, step), id)
  {
    match step
    case SRemember(req, found, newId, now) => WriteReleasesIff(logs, req, found, newId, now, id);
    case SForget(x) =>
      NotBoth(logs, id);
      if ForgetIn(logs, x).Some? { WriteFolds(logs, ForgetIn(logs, x).value, Delete(x)); }
    case SClear(g, w) =>
      ClearingEmptiesTheLog(logs.global, g);
      ClearingEmptiesTheLog(logs.workspace, w);
  }

  predicate UntrustedThroughout(logs: Logs, steps: seq<Step>, id: Id)
    decreases |steps|
  {
    ShownUntrusted(logs, id) && (steps == [] || UntrustedThroughout(After(logs, steps[0]), steps[1..], id))
  }

  predicate NeverReleased(logs: Logs, steps: seq<Step>, id: Id)
    decreases |steps|
  {
    steps == [] || (!Releases(logs, steps[0], id) && NeverReleased(After(logs, steps[0]), steps[1..], id))
  }

  /** Untrusted evidence stays untrusted over a run exactly when no step of the run releases
      its id. In particular it is not confirmed under that id without such a step. */
  lemma {:induction false} UntrustedUntilReleased(logs: Logs, steps: seq<Step>, id: Id)
    requires AllProper(logs) && Runs(logs, steps) && ShownUntrusted(logs, id)
    ensures UntrustedThroughout(logs, steps, id) <==> NeverReleased(logs, steps, id)
    ensures NeverReleased(logs, steps, id) ==> !ShownConfirmed(RunOf(logs, steps), id)
    decreases |steps|
  {
    if steps == [] {
      NotBoth(logs, id);
    } else {
      StepReleasesIff(logs, steps[0], id);
      StepKeepsProper(logs, steps[0]);
      if !Releases(logs, steps[0], id) { UntrustedUntilReleased(After(logs, steps[0]), steps[1..], id); }
    }
  }

  // -------------------------------------------------------- the ways round, concretely

  function Evidence(): Record { Record(1, Global, Fact, "k", "a", Candidate, Tool, Untrusted, 1, 1, None) }
  function Laundered(): Record { Evidence().(source := Explicit, trust := Unproven, updated := 2) }
  function Promoted(): Record { Evidence().(source := Explicit, status := Confirmed, trust := Trusted, updated := 3) }

  lemma {:induction false} Listed(records: map<Id, Record>, r: Record)
    requires records == map[1 := r] && r.id == 1
    ensures Lists([r], records) && FirstById([r], 1) == Some(r)
  {
    assert records[1] == r;
  }

  lemma {:induction false} EvidenceIsShown()
    ensures Shown(Logs([Upsert(1, Evidence())], []), None) == map[1 := Evidence()]
  {
    FoldAppend(map[], [], Upsert(1, Evidence()));
  }

  lemma {:induction false} LaunderedIsShown()
    ensures Shown(Logs([Upsert(1, Evidence()), Upsert(1, Laundered())], []), None) == map[1 := Laundered()]
  {
    EvidenceIsShown();
    FoldAppend(map[], [Upsert(1, Evidence())], Upsert(1, Laundered()));
    assert [Upsert(1, Evidence())] + [Upsert(1, Laundered())] == [Upsert(1, Evidence()), Upsert(1, Laundered())];
  }

  function ToCandidate(): Step { SRemember(Restated(Evidence(), Explicit, Candidate, false), Some(Evidence()), 2, 2) }
  function ToConfirmed(): Step { SRemember(Restated(Laundered(), Explicit, Confirmed, false), Some(Laundered()), 2, 3) }

  /** Two admissible writes confirm evidence from a tool under its own id: restating it as
      an explicit candidate, which `update_status` with a source does, and promoting that. */
  lemma {:induction false} TwoWritesLaunder()
    ensures
      var logs := Logs([Upsert(1, Evidence())], []);
      var steps := [ToCandidate(), ToConfirmed()];
      && ShownUntrusted(logs, 1) && Runs(logs, steps)
      && 1 in Shown(RunOf(logs, steps), None) && Shown(RunOf(logs, steps), None)[1] == Promoted()
  {
    var e1, e2, e3 := Upsert(1, Evidence()), Upsert(1, Laundered()), Upsert(1, Promoted());
    var logs0, logs1, logs2 := Logs([e1], []), Logs([e1, e2], []), Logs([e1, e2, e3], []);
    EvidenceIsShown();
    LaunderedIsShown();
    Listed(Shown(logs0, None), Evidence());
    Listed(Shown(logs1, None), Laundered());
    CandidateStep();
    ConfirmedStep();
    var steps := [ToCandidate(), ToConfirmed()];
    assert steps[1..] == [ToConfirmed()] && steps[1..][1..] == [];
    assert LookUp(ToCandidate().req, [Evidence()]) == Some(Evidence());
    assert LookUp(ToConfirmed().req, [Laundered()]) == Some(Laundered());
    assert Enabled(logs0, ToCandidate()) && Enabled(logs1, ToConfirmed());
    assert Runs(logs2, []) && Runs(logs1, [ToConfirmed()]);
    FoldAppend(map[], [e1, e2], e3);
    assert [e1, e2] + [e3] == [e1, e2, e3];
  }

  lemma {:induction false} CandidateStep()
    ensures
      var e1, e2 := Upsert(1, Evidence()), Upsert(1, Laundered());
      After(Logs([e1], []), ToCandidate()) == Logs([e1, e2], [])
  {
    assert Remember(ToCandidate().req, Some(Evidence()), 2, 2) == Written(Laundered());
  }

  lemma {:induction false} ConfirmedStep()
    ensures
      var e1, e2, e3 := Upsert(1, Evidence()), Upsert(1, Laundered()), Upsert(1, Promoted());
      After(Logs([e1, e2], []), ToConfirmed()) == Logs([e1, e2, e3], [])
  {
    assert Remember(ToConfirmed().req, Some(Laundered()), 2, 3) == Written(Promoted());
  }

  function Downgrade(scope: Scope): Request {
    Request(scope, Fact, "k", "b", Dream, Candidate, None, Some(1), false)
  }

  function Downgraded(scope: Scope): Record {
    Record(1, scope, Fact, "k", "b", Candidate, Dream, Unproven, 2, 2, Some(1))
  }

  /** A candidate that names a confirmed record takes its place in the listing, written over
      it or, from the workspace, in front of it; in the second case the log that holds the
      confirmed record is not even touched. */
  lemma {:induction false} NamedConfirmedIsLost(scope: Scope)
    ensures
      var outcome := Remember(Downgrade(scope), Some(First()), 2, 2);
      && Finds(OneLog(), Downgrade(scope), Some(First())) && outcome == Written(Downgraded(scope))
      && ShownConfirmed(OneLog(), 1) && Shown(Write(OneLog(), outcome), None) == map[1 := Downgraded(scope)]
      && (Overwrites(OneLog(), outcome, 1) <==> scope.Global?)
  {
    CurrentOfThem();
    assert Shown(OneLog(), None) == map[1 := First()];
    Listed(Shown(OneLog(), None), First());
    assert LookUp(Downgrade(scope), [First()]) == Some(First());
    assert Remember(Downgrade(scope), Some(First()), 2, 2) == Written(Downgraded(scope));
    WriteFolds(OneLog(), scope, Upsert(1, Downgraded(scope)));
  }

  // ------------------------------------------------------------------------ the prompt

  /** The prompt depends on the confirmed records only: with the same ones it shows the
      same keys, from the same scope and of the same age. */
  lemma {:induction false} SameConfirmedSamePrompt(
      a: seq<Record>, b: seq<Record>, before: map<Id, Record>, after: map<Id, Record>, key: string)
    requires Lists(a, before) && Lists(b, after) && ConfirmedOf(before) == ConfirmedOf(after)
    requires forall id :: id in before ==> before[id].trust == DefaultTrust(before[id].source, before[id].status)
    requires forall id :: id in after ==> after[id].trust == DefaultTrust(after[id].source, after[id].status)
    ensures key in Choose(a) <==> key in Choose(b)
    ensures key in Choose(a) ==>
      Choose(a)[key].scope == Choose(b)[key].scope && Choose(a)[key].updated == Choose(b)[key].updated
  {
    PromptPrefersTheWorkspace(a, before, key);
    PromptPrefersTheWorkspace(b, after, key);
    forall id ensures id in before && ForPrompt(before[id]) <==> id in after && ForPrompt(after[id])
      ensures id in before && ForPrompt(before[id]) ==> before[id] == after[id]
    {
      assert id in ConfirmedOf(before) <==> id in ConfirmedOf(after);
    }
    if key in Choose(a) {
      var x := ChosenRecord(a, before, key);
      var y := ChosenRecord(b, after, key);
    }
  }

  lemma {:induction false} ChosenRecord(listing: seq<Record>, records: map<Id, Record>, key: string) returns (id: Id)
    requires Lists(listing, records) && key in Choose(listing)
    ensures id in records && records[id] == Choose(listing)[key] && ForPrompt(records[id])
  {
    var i := ChosenIsListed(listing, key);
    assert listing[i] in records.Values;
    id :| id in records && records[id] == listing[i];
  }
}
