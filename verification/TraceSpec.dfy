/** A turn's trace: rows, how they are classified, the counters a running turn keeps, and
    the same figures recomputed from the rows in the file. */
module TraceSpec {
  import opened Sequences
  import opened Wrappers

  datatype EventName =
    | ToolPlanned | ToolStarted | ToolFinished | ToolFailed | ToolBlocked | ToolCancelled | ToolUnknownSideEffect
    | ProviderToolStarted | ProviderToolCompleted | ProviderToolError
    | LlmRequestFailed | LlmResponse | LlmResponseReceived
    | TaskVerification
    | TurnCompleted | TurnFailed | TurnCancelled | TurnIncomplete
    | OtherEvent(name: string)

  /** A status in lower case; `NoStatus` when the row has none. */
  datatype Status =
    | NoStatus | Error | Failed | Blocked | Denied | UnknownSideEffect | Cancelled | Incomplete
    | OtherStatus(name: string)

  datatype Value = Null | Bool(b: bool) | Text(s: string) | Other(rendered: string)

  /** A row. `iteration` and `toolName` are as rendered, "?" when missing. */
  datatype Row = Row(
    sequence: nat, event: EventName, status: Status, duration: Option<nat>, callId: string,
    iteration: string, toolName: string, error: Value, verificationStatus: Value, verificationCompleted: Value)

  datatype ToolKey = ByCall(provider: bool, callId: string)
    | ByName(provider: bool, iteration: string, toolName: string)

  // ---------------------------------------------------------------- classification

  predicate IsFailure(row: Row) {
    match row.status
    case NoStatus => false
    case OtherStatus(_) => false
    case _ => true
  }

  predicate IsToolFailure(row: Row) {
    (row.event.ToolFinished? || row.event.ToolFailed? || row.event.ToolBlocked?
     || row.event.ToolCancelled? || row.event.ToolUnknownSideEffect?)
    && IsFailure(row)
  }

  predicate IsProviderError(row: Row) {
    || row.event.LlmRequestFailed? || row.event.ProviderToolError?
    || ((row.event.LlmResponse? || row.event.LlmResponseReceived?)
        && (row.status.Error? || (row.error != Null && row.error != Text(""))))
  }

  predicate IsUnknownSideEffect(row: Row) {
    row.status.UnknownSideEffect? || row.event.ToolCancelled? || row.event.ToolUnknownSideEffect?
  }

  predicate IsProviderTool(e: EventName) {
    e.ProviderToolStarted? || e.ProviderToolCompleted? || e.ProviderToolError?
  }

  predicate IsLocalTool(e: EventName) {
    e.ToolPlanned? || e.ToolStarted? || e.ToolFinished? || e.ToolCancelled?
  }

  function KeyOf(row: Row): Option<ToolKey> {
    var provider := IsProviderTool(row.event);
    if !provider && !IsLocalTool(row.event) then None
    else if row.callId != "" then Some(ByCall(provider, row.callId))
    else Some(ByName(provider, row.iteration, row.toolName))
  }

  // -------------------------------------------------------------------- the figures

  datatype Figures = Figures(
    events: nat, tools: nat, failures: nat, toolFailures: nat, providerErrors: nat, unknownSideEffects: nat,
    verificationStatus: Value, verificationCompleted: Value, maxStep: nat)

  /** The counters of a running turn, with the tool keys seen so far. */
  datatype Tally = Tally(figures: Figures, keys: set<ToolKey>)

  function NoTally(): Tally {
    Tally(Figures(0, 0, 0, 0, 0, 0, Null, Null, 0), {})
  }

  function Plus(n: nat, b: bool): nat { if b then n + 1 else n }

  function Max(a: nat, b: nat): nat { if a < b then b else a }

  function AsStatus(v: Value): Value {
    match v
    case Null => Null
    case Text(s) => v
    case Bool(b) => Text(if b then "True" else "False")
    case Other(rendered) => Text(rendered)
  }

  function AsCompleted(v: Value): Value {
    if v.Bool? then v else Null
  }

  /** What one emit does to the counters. */
  function Count(t: Tally, row: Row): Tally {
    var f, key := t.figures, KeyOf(row);
    Tally(
      Figures(
        f.events + 1,
        Plus(f.tools, key.Some? && key.value !in t.keys),
        Plus(f.failures, IsFailure(row)),
        Plus(f.toolFailures, IsToolFailure(row)),
        Plus(f.providerErrors, IsProviderError(row)),
        Plus(f.unknownSideEffects, IsUnknownSideEffect(row)),
        if row.event.TaskVerification? then AsStatus(row.verificationStatus) else f.verificationStatus,
        if row.event.TaskVerification? then AsCompleted(row.verificationCompleted) else f.verificationCompleted,
        if row.duration.Some? then Max(f.maxStep, row.duration.value) else f.maxStep),
      if key.Some? then t.keys + {key.value} else t.keys)
  }

  function TallyOf(rows: seq<Row>): Tally {
    if rows == [] then NoTally() else Count(TallyOf(Init(rows)), Last(rows))
  }

  lemma {:induction false} TallySnoc(rows: seq<Row>, row: Row)
    ensures TallyOf(rows + [row]) == Count(TallyOf(rows), row)
  {
    InitSnoc(rows, row);
  }

  // --------------------------------------------------------- recomputed from the rows

  function CountWhere(rows: seq<Row>, p: Row -> bool): nat {
    if rows == [] then 0 else Plus(CountWhere(Init(rows), p), p(Last(rows)))
  }

  function Keys(rows: seq<Row>): set<ToolKey> {
    set i | 0 <= i < |rows| && KeyOf(rows[i]).Some? :: KeyOf(rows[i]).value
  }

  /** The last verification row, looking from the end. */
  function LastVerification(rows: seq<Row>): Option<Row> {
    if rows == [] then None
    else if Last(rows).event.TaskVerification? then Some(Last(rows))
    else LastVerification(Init(rows))
  }

  function Longest(rows: seq<Row>): nat {
    if rows == [] then 0
    else if Last(rows).duration.Some? then Max(Longest(Init(rows)), Last(rows).duration.value)
    else Longest(Init(rows))
  }

  function Recomputed(rows: seq<Row>): Figures {
    var verification := LastVerification(rows);
    Figures(
      |rows|, |Keys(rows)|,
      CountWhere(rows, IsFailure), CountWhere(rows, IsToolFailure),
      CountWhere(rows, IsProviderError), CountWhere(rows, IsUnknownSideEffect),
      if verification.Some? then verification.value.verificationStatus else Null,
      if verification.Some? then verification.value.verificationCompleted else Null,
      Longest(rows))
  }

  // ------------------------------------------------------------------------- agreement

  lemma {:induction false} KeysSnoc(rows: seq<Row>, row: Row)
    ensures Keys(rows + [row]) == Keys(rows) + if KeyOf(row).Some? then {KeyOf(row).value} else {}
  {
    var all := rows + [row];
    assert all[|rows|] == row;
    forall k | k in Keys(rows) ensures k in Keys(all) {
      var i :| 0 <= i < |rows| && KeyOf(rows[i]) == Some(k);
      assert all[i] == rows[i];
    }
  }

  /** The counters of a running turn, whatever the rows: every figure but the verification
      pair is the recomputed one, and that pair is the recomputed one made to fit. */
  lemma {:induction false} TallyIsRecomputed(rows: seq<Row>)
    ensures TallyOf(rows).keys == Keys(rows)
    ensures
      var f := Recomputed(rows);
      TallyOf(rows).figures == f.(verificationStatus := AsStatus(f.verificationStatus),
                                   verificationCompleted := AsCompleted(f.verificationCompleted))
  {
    if rows != [] {
      TallyIsRecomputed(Init(rows));
      Split(rows);
      KeysSnoc(Init(rows), Last(rows));
    }
  }

  // ------------------------------------------------------ what the counters count

  function Where(rows: seq<Row>, p: Row -> bool): set<nat> {
    set i | 0 <= i < |rows| && p(rows[i])
  }

  lemma {:induction false} CountsWhere(rows: seq<Row>, p: Row -> bool)
    ensures CountWhere(rows, p) == |Where(rows, p)|
  {
    if rows != [] {
      CountsWhere(Init(rows), p);
      var last := if p(Last(rows)) then {|rows| - 1} else {};
      assert Where(rows, p) == Where(Init(rows), p) + last by {
        assert forall i :: 0 <= i < |rows| - 1 ==> Init(rows)[i] == rows[i];
      }
    }
  }

  lemma {:induction false} SameWhere(rows: seq<Row>, p: Row -> bool, q: Row -> bool)
    requires forall row :: p(row) == q(row)
    ensures Where(rows, p) == Where(rows, q)
  {
  }

  predicate EndedBadly(row: Row) {
    row.status in {Error, Failed, Blocked, Denied, UnknownSideEffect, Cancelled, Incomplete}
  }

  predicate EndsATool(row: Row) {
    row.event in {ToolFinished, ToolFailed, ToolBlocked, ToolCancelled, ToolUnknownSideEffect}
  }

  predicate ReportsAnError(row: Row) {
    || row.event == LlmRequestFailed || row.event == ProviderToolError
    || (row.event in {LlmResponse, LlmResponseReceived} && (row.status == Error || row.error !in {Null, Text("")}))
  }

  predicate LeavesAnUnknownEffect(row: Row) {
    row.status == UnknownSideEffect || row.event in {ToolCancelled, ToolUnknownSideEffect}
  }

  /** The counters of a running turn are numbers of rows, named by what the rows say. */
  lemma {:induction false} CountersCountRows(rows: seq<Row>)
    ensures
      var f := TallyOf(rows).figures;
      && f.events == |rows|
      && f.failures == |Where(rows, EndedBadly)|
      && f.toolFailures == |Where(rows, (row: Row) => EndsATool(row) && EndedBadly(row))|
      && f.providerErrors == |Where(rows, ReportsAnError)|
      && f.unknownSideEffects == |Where(rows, LeavesAnUnknownEffect)|
  {
    TallyIsRecomputed(rows);
    CountsWhere(rows, IsFailure);
    CountsWhere(rows, IsToolFailure);
    CountsWhere(rows, IsProviderError);
    CountsWhere(rows, IsUnknownSideEffect);
    SameWhere(rows, IsFailure, EndedBadly);
    SameWhere(rows, IsToolFailure, (row: Row) => EndsATool(row) && EndedBadly(row));
    SameWhere(rows, IsProviderError, ReportsAnError);
    SameWhere(rows, IsUnknownSideEffect, LeavesAnUnknownEffect);
  }

  /** Whether two rows speak of the same tool call: both of a provider's tools or both of our
      own, with the same call id; or without ids, of the same iteration and tool. */
  predicate SameCall(a: Row, b: Row) {
    && (a.event in PROVIDER_TOOL_EVENTS <==> b.event in PROVIDER_TOOL_EVENTS)
    && a.callId == b.callId && (a.callId == "" ==> a.iteration == b.iteration && a.toolName == b.toolName)
  }

  const PROVIDER_TOOL_EVENTS := {ProviderToolStarted, ProviderToolCompleted, ProviderToolError}
  const TOOL_EVENTS := {ToolPlanned, ToolStarted, ToolFinished, ToolCancelled} + PROVIDER_TOOL_EVENTS

  /** A row is counted as a tool call exactly if it is about one and no earlier row is about
      the same. */
  lemma {:induction false} ToolsAreCountedOnce(rows: seq<Row>, row: Row)
    ensures
      TallyOf(rows + [row]).figures.tools == TallyOf(rows).figures.tools +
        if row.event in TOOL_EVENTS
           && forall i :: 0 <= i < |rows| && rows[i].event in TOOL_EVENTS ==> !SameCall(rows[i], row)
        then 1 else 0
  {
    TallySnoc(rows, row);
    TallyIsRecomputed(rows);
    KeysOfToolEvents(row);
    forall i | 0 <= i < |rows| ensures KeyOf(rows[i]).Some? <==> rows[i].event in TOOL_EVENTS
      ensures KeyOf(rows[i]).Some? && KeyOf(row).Some? ==> (KeyOf(rows[i]) == KeyOf(row) <==> SameCall(rows[i], row)) {
      KeysOfToolEvents(rows[i]);
    }
  }

  lemma {:induction false} KeysOfToolEvents(row: Row)
    ensures KeyOf(row).Some? <==> row.event in TOOL_EVENTS
    ensures IsProviderTool(row.event) <==> row.event in PROVIDER_TOOL_EVENTS
  {
  }

  /** The longest step is one that a row reports, and none is longer. */
  lemma {:induction false} LongestStep(rows: seq<Row>)
    ensures
      var longest := TallyOf(rows).figures.maxStep;
      && (forall i :: 0 <= i < |rows| && rows[i].duration.Some? ==> rows[i].duration.value <= longest)
      && (longest > 0 ==> exists i :: 0 <= i < |rows| && rows[i].duration == Some(longest))
  {
    if rows != [] {
      LongestStep(Init(rows));
      var before := TallyOf(Init(rows)).figures.maxStep;
      assert forall i :: 0 <= i < |rows| - 1 ==> Init(rows)[i] == rows[i];
      if before > 0 {
        var i :| 0 <= i < |Init(rows)| && Init(rows)[i].duration == Some(before);
        assert rows[i].duration == Some(before);
      }
      assert rows[|rows| - 1] == Last(rows);
    }
  }

  /** The verification shown is that of the last row about it: its status as a text, its flag
      if it is one. */
  lemma {:induction false} LastVerificationIsShown(rows: seq<Row>, row: Row)
    ensures
      var before, after := TallyOf(rows).figures, TallyOf(rows + [row]).figures;
      if row.event != TaskVerification then
        after.verificationStatus == before.verificationStatus
        && after.verificationCompleted == before.verificationCompleted
      else
        && after.verificationStatus ==
             (match row.verificationStatus
              case Null => Null
              case Text(s) => Text(s)
              case Bool(b) => Text(if b then "True" else "False")
              case Other(rendered) => Text(rendered))
        && after.verificationCompleted ==
             (match row.verificationCompleted case Bool(b) => Bool(b) case _ => Null)
  {
    TallySnoc(rows, row);
  }

  /** The summary of a running turn is the recomputed summary exactly when the last
      verification row has a status that is text and a flag that is a boolean, or none. */
  lemma {:induction false} SummariesAgreeIff(rows: seq<Row>)
    ensures TallyOf(rows).figures == Recomputed(rows) <==>
      match LastVerification(rows)
      case None => true
      case Some(row) =>
        && (row.verificationStatus.Null? || row.verificationStatus.Text?)
        && (row.verificationCompleted.Null? || row.verificationCompleted.Bool?)
  {
    TallyIsRecomputed(rows);
  }

  /** A row that redaction leaves alike as far as counting goes. */
  predicate Alike(row: Row, safe: Row) {
    && safe.event == row.event && safe.status == row.status && safe.duration == row.duration
    && KeyOf(safe) == KeyOf(row) && (IsProviderError(safe) <==> IsProviderError(row))
    && safe.verificationStatus == row.verificationStatus && safe.verificationCompleted == row.verificationCompleted
  }

  predicate AllAlike(rows: seq<Row>, safe: seq<Row>) {
    |rows| == |safe| && forall i :: 0 <= i < |rows| ==> Alike(rows[i], safe[i])
  }

  lemma {:induction false} AlikeRowsCountAlike(rows: seq<Row>, safe: seq<Row>)
    requires AllAlike(rows, safe)
    ensures TallyOf(rows) == TallyOf(safe)
  {
    if rows != [] {
      AlikeRowsCountAlike(Init(rows), Init(safe));
      assert Alike(Last(rows), Last(safe));
    }
  }

  lemma {:induction false} AlikeVerifications(rows: seq<Row>, safe: seq<Row>)
    requires AllAlike(rows, safe)
    ensures LastVerification(rows).Some? <==> LastVerification(safe).Some?
    ensures LastVerification(rows).Some? ==> Alike(LastVerification(rows).value, LastVerification(safe).value)
  {
    if rows != [] {
      AlikeVerifications(Init(rows), Init(safe));
      assert Alike(Last(rows), Last(safe));
    }
  }

  predicate WellTyped(row: Row) {
    row.event.TaskVerification? ==>
      && (row.verificationStatus.Null? || row.verificationStatus.Text?)
      && (row.verificationCompleted.Null? || row.verificationCompleted.Bool?)
  }

  lemma {:induction false} LastVerificationIsThere(rows: seq<Row>)
    ensures LastVerification(rows).Some? ==>
      LastVerification(rows).value.event.TaskVerification? && LastVerification(rows).value in rows
  {
    if rows != [] { LastVerificationIsThere(Init(rows)); }
  }

  /** With every row written, and redaction that leaves the counted fields alone, the
      running summary is the one that the written rows give. */
  lemma {:induction false} WrittenRowsGiveTheSummary(rows: seq<Row>, safe: seq<Row>)
    requires AllAlike(rows, safe) && forall row :: row in rows ==> WellTyped(row)
    ensures TallyOf(rows).figures == Recomputed(safe)
  {
    AlikeRowsCountAlike(rows, safe);
    AlikeVerifications(rows, safe);
    LastVerificationIsThere(rows);
    SummariesAgreeIff(safe);
  }

  lemma {:induction false} PairKeys(x: Row, y: Row, k: ToolKey, l: ToolKey)
    requires KeyOf(x) == Some(k) && KeyOf(y) == Some(l)
    ensures Keys([x, y]) == {k, l}
    ensures |Keys([x, y])| == if k == l then 1 else 2
  {
    assert [x, y][0] == x && [x, y][1] == y;
  }

  /** A status that is no text agrees with nothing in the file. */
  lemma {:induction false} IllTypedVerificationDisagrees()
    ensures
      var row := Row(1, TaskVerification, NoStatus, None, "", "?", "?", Null, Bool(true), Null);
      TallyOf([row]).figures.verificationStatus == Text("True") && Recomputed([row]).verificationStatus == Bool(true)
  {
    var row := Row(1, TaskVerification, NoStatus, None, "", "?", "?", Null, Bool(true), Null);
    TallySnoc([], row);
    assert [] + [row] == [row];
    assert Last([row]) == row;
  }
}
