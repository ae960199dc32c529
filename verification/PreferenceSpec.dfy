/** Explicit memory: two append-only event logs, one global and one for the workspace. The
    current records are a fold of a log; trust is derived on every read. */
module PreferenceSpec {
  import opened Sequences
  import opened Wrappers

  type Id = nat

  datatype Scope = Global | Workspace
  datatype Kind = Preference | Fact | Decision | Habit
  datatype Status = Confirmed | Candidate | Rejected
  datatype Source = Explicit | NaturalLanguage | Dream | System | SessionText | Tool | External
  datatype Trust = Trusted | Unproven | Untrusted

  datatype Record = Record(
    id: Id, scope: Scope, kind: Kind, key: string, value: string, status: Status, source: Source,
    trust: Trust, created: nat, updated: nat, supersedes: Option<Id>)

  /** One line of a log. `Invalid` is a line that is ignored on reading. */
  datatype Event = Upsert(id: Id, record: Record) | Delete(id: Id) | Invalid

  datatype Logs = Logs(global: seq<Event>, workspace: seq<Event>)

  predicate FromOutside(source: Source) {
    source.Tool? || source.External? || source.SessionText?
  }

  function DefaultTrust(source: Source, status: Status): Trust {
    if FromOutside(source) then Untrusted
    else if status.Confirmed? && (source.Explicit? || source.System?) then Trusted
    else Unproven
  }

  // ----------------------------------------------------------------- reading a log

  function Apply(current: map<Id, Record>, e: Event): map<Id, Record> {
    match e
    case Upsert(id, r) => current[id := r.(trust := DefaultTrust(r.source, r.status))]
    case Delete(id) => current - {id}
    case Invalid => current
  }

  function Fold(current: map<Id, Record>, events: seq<Event>): map<Id, Record>
    decreases |events|
  {
    if events == [] then current else Fold(Apply(current, events[0]), events[1..])
  }

  function Current(events: seq<Event>): map<Id, Record> {
    Fold(map[], events)
  }

  function LogOf(logs: Logs, scope: Scope): seq<Event> {
    if scope.Global? then logs.global else logs.workspace
  }

  function AppendTo(logs: Logs, scope: Scope, e: Event): Logs {
    if scope.Global? then logs.(global := logs.global + [e]) else logs.(workspace := logs.workspace + [e])
  }

  /** What `list_records` shows: workspace entries replace global ones of the same id. */
  function Shown(logs: Logs, scope: Option<Scope>): map<Id, Record> {
    match scope
    case Some(s) => Current(LogOf(logs, s))
    case None => Current(logs.global) + Current(logs.workspace)
  }

  /** The part of the listing's sort order that anything depends on. */
  predicate InOrder(a: Record, b: Record) {
    && (a.scope.Workspace? ==> b.scope.Workspace?)
    && (a.scope == b.scope && a.key == b.key ==> a.updated <= b.updated)
  }

  /** `listing` is a sorted listing of the records. */
  ghost predicate Lists(listing: seq<Record>, records: map<Id, Record>) {
    && (forall i :: 0 <= i < |listing| ==> listing[i] in records.Values)
    && (forall id :: id in records ==> records[id] in listing)
    && (forall i, j :: 0 <= i < j < |listing| ==> InOrder(listing[i], listing[j]))
  }

  function FirstById(listing: seq<Record>, id: Id): Option<Record> {
    if listing == [] then None
    else if listing[0].id == id then Some(listing[0])
    else FirstById(listing[1..], id)
  }

  function FirstByKey(listing: seq<Record>, kind: Kind, key: string): Option<Record> {
    if listing == [] then None
    else if listing[0].kind == kind && listing[0].key == key && !listing[0].status.Rejected? then Some(listing[0])
    else FirstByKey(listing[1..], kind, key)
  }

  // ---------------------------------------------------------------------- writing

  /** A normalised request; `secret` says that key or value look like credentials. */
  datatype Request = Request(
    scope: Scope, kind: Kind, key: string, value: string, source: Source, status: Status,
    supersedes: Option<Id>, memoryId: Option<Id>, secret: bool)

  datatype Outcome = Refused | Written(record: Record)

  /** The record that would be updated in place, and the lineage, after the policy had its
      say; nothing when the write is refused. */
  function Previous(req: Request, found: Option<Record>): Option<(Option<Record>, Option<Id>)> {
    if found.None? then Some((None, req.supersedes))
    else
      var lineage := if req.supersedes.Some? then req.supersedes else Some(found.value.id);
      if found.value.trust.Untrusted? && req.status.Confirmed? then
        if req.memoryId.Some? then None else Some((None, lineage))
      else if !req.status.Confirmed? && found.value.status.Confirmed? then Some((None, lineage))
      else Some((found, req.supersedes))
  }

  predicate Admissible(req: Request) {
    !req.secret && !(FromOutside(req.source) && req.status.Confirmed?)
  }

  function Remember(req: Request, found: Option<Record>, newId: Id, now: nat): Outcome {
    if !Admissible(req) then Refused
    else
      match Previous(req, found)
      case None => Refused
      case Some((previous, lineage)) =>
        var id := if previous.Some? then previous.value.id
                  else if req.memoryId.Some? then req.memoryId.value else newId;
        Written(Record(id, req.scope, req.kind, req.key, req.value, req.status, req.source,
                       DefaultTrust(req.source, req.status),
                       if previous.Some? then previous.value.created else now, now, lineage))
  }

  function Write(logs: Logs, outcome: Outcome): Logs {
    match outcome
    case Refused => logs
    case Written(r) => AppendTo(logs, r.scope, Upsert(r.id, r))
  }

  /** What `remember` looks up before it writes: by id among all records, or by key among
      those of the scope. */
  function LookUp(req: Request, listing: seq<Record>): Option<Record> {
    if req.memoryId.Some? then FirstById(listing, req.memoryId.value) else FirstByKey(listing, req.kind, req.key)
  }

  function Searched(logs: Logs, req: Request): map<Id, Record> {
    Shown(logs, if req.memoryId.Some? then None else Some(req.scope))
  }

  ghost predicate Finds(logs: Logs, req: Request, found: Option<Record>) {
    exists listing :: Lists(listing, Searched(logs, req)) && found == LookUp(req, listing)
  }

  /** A listed record written again; `secret` as in any request, for a log edited by hand can
      hold what the store would refuse. */
  function Restated(r: Record, source: Source, status: Status, secret: bool): Request {
    Request(r.scope, r.kind, r.key, r.value, source, status, r.supersedes, Some(r.id), secret)
  }

  function ForgetIn(logs: Logs, id: Id): Option<Scope> {
    if id in Current(logs.global) then Some(Global) else if id in Current(logs.workspace) then Some(Workspace) else None
  }

  function Deletions(ids: seq<Id>): seq<Event> {
    if ids == [] then [] else [Delete(ids[0])] + Deletions(ids[1..])
  }

  // --------------------------------------------------------------------- the prompt

  predicate ForPrompt(r: Record) {
    r.status.Confirmed? && r.trust.Trusted?
  }

  function Choose(listing: seq<Record>): map<string, Record> {
    if listing == [] then map[]
    else
      var chosen, r := Choose(Init(listing)), Last(listing);
      if ForPrompt(r) && (r.key !in chosen || r.scope.Workspace?) then chosen[r.key := r] else chosen
  }
}
