/** A running trace: it numbers and writes rows and counts them as it goes. A write can
    fail without anybody noticing. */
module TraceRun {
  import opened TraceRedaction
  import opened TraceSpec
  import opened Wrappers

  class Run {
    var sequence: nat
    var eventCount: nat
    var toolCount: nat
    var toolCallKeys: set<ToolKey>
    var failureCount: nat
    var toolFailureCount: nat
    var providerErrorCount: nat
    var unknownSideEffectCount: nat
    var maxStepDurationMs: nat
    var verificationStatus: Value
    var verificationCompleted: Value
    var closed: bool
    var file: seq<Row>
    const redact: Row -> Row
    ghost var emitted: seq<Row>
    ghost var failedWrites: nat

    ghost function Counted(): Tally
      reads this
    {
      Tally(Figures(eventCount, toolCount, failureCount, toolFailureCount, providerErrorCount, unknownSideEffectCount,
                    verificationStatus, verificationCompleted, maxStepDurationMs), toolCallKeys)
    }

    /** The rows are numbered from 1 without a gap, and the file has the redacted rows of
        the writes that did not fail. */
    ghost predicate Written(rows: seq<Row>)
      reads this
    {
      && sequence == |rows|
      && (forall i :: 0 <= i < |rows| ==> rows[i].sequence == i + 1)
      && |file| + failedWrites == |rows|
      && (failedWrites == 0 ==> forall i :: 0 <= i < |rows| ==> file[i] == redact(rows[i]))
    }

    /** The counters are those of the rows emitted. */
    ghost predicate Valid()
      reads this
    {
      Counted() == TallyOf(emitted) && Written(emitted)
    }

    constructor (redact: Row -> Row)
      ensures Valid() && !closed && emitted == [] && this.redact == redact
    {
      sequence, eventCount, toolCount, toolCallKeys, failureCount, toolFailureCount := 0, 0, 0, {}, 0, 0;
      providerErrorCount, unknownSideEffectCount, maxStepDurationMs := 0, 0, 0;
      verificationStatus, verificationCompleted := Null, Null;
      closed, file, emitted, failedWrites := false, [], [], 0;
      this.redact := redact;
    }

    method CountToolCall(row: Row)
      modifies `toolCount, `toolCallKeys
      ensures toolCount == Plus(old(toolCount), KeyOf(row).Some? && KeyOf(row).value !in old(toolCallKeys))
      ensures toolCallKeys == old(toolCallKeys) + if KeyOf(row).Some? then {KeyOf(row).value} else {}
    {
      var key := KeyOf(row);
      if key.Some? && key.value !in toolCallKeys {
        toolCallKeys := toolCallKeys + {key.value};
        toolCount := toolCount + 1;
      }
    }

    method CountFailures(row: Row)
      modifies `failureCount, `toolFailureCount, `providerErrorCount, `unknownSideEffectCount
      ensures failureCount == Plus(old(failureCount), IsFailure(row))
      ensures toolFailureCount == Plus(old(toolFailureCount), IsToolFailure(row))
      ensures providerErrorCount == Plus(old(providerErrorCount), IsProviderError(row))
      ensures unknownSideEffectCount == Plus(old(unknownSideEffectCount), IsUnknownSideEffect(row))
    {
      if IsFailure(row) { failureCount := failureCount + 1; }
      if IsToolFailure(row) { toolFailureCount := toolFailureCount + 1; }
      if IsProviderError(row) { providerErrorCount := providerErrorCount + 1; }
      if IsUnknownSideEffect(row) { unknownSideEffectCount := unknownSideEffectCount + 1; }
    }

    method CountVerification(row: Row)
      modifies `verificationStatus, `verificationCompleted
      ensures verificationStatus ==
        if row.event.TaskVerification? then AsStatus(row.verificationStatus) else old(verificationStatus)
      ensures verificationCompleted ==
        if row.event.TaskVerification? then AsCompleted(row.verificationCompleted) else old(verificationCompleted)
    {
      if row.event.TaskVerification? {
        verificationStatus := AsStatus(row.verificationStatus);
        verificationCompleted := if row.verificationCompleted.Bool? then row.verificationCompleted else Null;
      }
    }

    method CountRow(row: Row)
      modifies `eventCount, `toolCount, `toolCallKeys, `failureCount, `toolFailureCount, `providerErrorCount,
               `unknownSideEffectCount, `verificationStatus, `verificationCompleted, `maxStepDurationMs
      ensures Counted() == Count(old(Counted()), row)
    {
      eventCount := eventCount + 1;
      CountToolCall(row);
      CountFailures(row);
      CountVerification(row);
      if row.duration.Some? && maxStepDurationMs < row.duration.value { maxStepDurationMs := row.duration.value; }
    }

    method WriteRow(row: Row, written: bool) returns (numbered: Row)
      requires Written(emitted)
      modifies `sequence, `file, `failedWrites
      ensures numbered == row.(sequence := |emitted| + 1)
      ensures Written(emitted + [numbered])
      ensures failedWrites == old(failedWrites) + if written then 0 else 1
    {
      sequence := sequence + 1;
      numbered := row.(sequence := sequence);
      if written { file := file + [redact(numbered)]; } else { failedWrites := failedWrites + 1; }
    }

    method CountEmitted(row: Row)
      requires Counted() == TallyOf(emitted)
      modifies `eventCount, `toolCount, `toolCallKeys, `failureCount, `toolFailureCount, `providerErrorCount,
               `unknownSideEffectCount, `verificationStatus, `verificationCompleted, `maxStepDurationMs, `emitted
      ensures emitted == old(emitted) + [row] && Counted() == TallyOf(emitted)
    {
      CountRow(row);
      TallySnoc(emitted, row);
      emitted := emitted + [row];
    }

    /** `emit`; `row` has everything but the number, `written` says whether the write works. */
    method Emit(row: Row, written: bool)
      requires Valid()
      modifies this
      ensures Valid() && closed == old(closed)
      ensures emitted == old(emitted) + [row.(sequence := |old(emitted)| + 1)]
      ensures failedWrites == old(failedWrites) + if written then 0 else 1
    {
      var numbered := WriteRow(row, written);
      CountEmitted(numbered);
    }

    /** `finish`: one terminal row, however often it is called. */
    method Finish(row: Row, written: bool)
      requires Valid()
      modifies this
      ensures Valid() && closed
      ensures emitted == if old(closed) then old(emitted) else old(emitted) + [row.(sequence := |old(emitted)| + 1)]
    {
      if closed { return; }
      closed := true;
      Emit(row, written);
    }

    /** The event count is that of the file exactly when every write worked, and then, with
        redaction that leaves the counted fields alone, so is the whole summary. */
    lemma SummaryMatchesTheFile()
      requires Valid()
      ensures eventCount == Recomputed(file).events <==> failedWrites == 0
      ensures failedWrites == 0 && (forall row :: row in emitted ==> Alike(row, redact(row)) && WellTyped(row)) ==>
        Counted().figures == Recomputed(file)
    {
      TallyIsRecomputed(emitted);
      if failedWrites == 0 && forall row :: row in emitted ==> Alike(row, redact(row)) && WellTyped(row) {
        WrittenRowsGiveTheSummary(emitted, file);
      }
    }

    /** With the writer's own redaction, and no write failed: the summary is that of the file
        exactly when keys, errors and the last verification survive it. */
    lemma {:induction false} RedactedFileMatchesIff(r: Redactor)
      requires Valid() && failedWrites == 0 && forall row :: row in emitted ==> redact(row) == RedactRow(r, row)
      ensures Counted().figures == Recomputed(file) <==>
        KeysSurvive(r, emitted) && ErrorsSurvive(r, emitted) && VerificationSurvives(r, emitted)
    {
      RedactedAt(r, emitted);
      assert file == Redacted(r, emitted);
      RedactedRowsGiveTheSummaryIff(r, emitted);
    }
  }
}
