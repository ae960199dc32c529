/** The rewriting tiers as the program runs them, in place on message objects. A
    tier copies the list before its first write, so that it never writes to an
    object it was given. */
module ContextCompaction {
  import opened Sequences
  import opened Wrappers
  import opened ChatMessages
  import opened MessageRows
  import opened CompactionSpec

  /** The id set that a caller keeps between requests and a request adds to. */
  class CompactedIds {
    var ids: set<string>

    constructor ()
      ensures ids == {}
    {
      ids := {};
    }
  }

  /** What a tier may write to: nothing, as long as it still works on its input. */
  predicate Distinct(rows: seq<Row>) {
    forall i, j | 0 <= i < j < |rows| :: rows[i] != rows[j]
  }

  predicate Holds(rows: seq<Row>, values: seq<Message>)
    reads rows
  {
    |rows| == |values| && forall i | 0 <= i < |rows| :: rows[i].Value() == values[i]
  }

  method ApplyToolResultBudget(config: Config, messages: seq<Row>, ghost ms: seq<Message>) returns (updated: seq<Row>)
    requires Holds(messages, ms)
    ensures Holds(updated, Offloaded(config, ms))
  {
    updated := messages;
    var copied := false;
    for idx := 0 to |messages|
      invariant Holds(messages, ms) && |updated| == |ms|
      invariant if copied then Distinct(updated) && forall k | 0 <= k < |updated| :: fresh(updated[k])
                else updated == messages
      invariant forall k | 0 <= k < |ms| ::
        updated[k].Value() == if k < idx then OffloadedMessage(config, ms[k], k) else ms[k]
    {
      var message := messages[idx];
      if !message.role.Tool? { continue; }
      var id := if message.toolCallId != "" then message.toolCallId else "tool_" + Digits(idx);
      var name := if message.name.Some? && message.name.value != "" then message.name.value else "tool";
      var normalized := Normalized(config, id, name, message.content);
      if normalized != message.content {
        if !copied {
          updated := Copies(messages);
          copied := true;
        }
        updated[idx].content := normalized;
      }
    }
  }

  method ApplyRecordedCompactions(config: Config, messages: seq<Row>, ids: set<string>, ghost ms: seq<Message>)
    returns (updated: seq<Row>, copied: bool)
    requires Holds(messages, ms)
    ensures Holds(updated, ApplyRecorded(config, ms, ids))
    ensures if copied then Distinct(updated) && forall k | 0 <= k < |updated| :: fresh(updated[k])
            else updated == messages
  {
    updated, copied := messages, false;
    if ids == {} { return; }
    for idx := 0 to |messages|
      invariant Holds(messages, ms) && |updated| == |ms|
      invariant if copied then Distinct(updated) && forall k | 0 <= k < |updated| :: fresh(updated[k])
                else updated == messages
      invariant forall k | 0 <= k < |ms| ::
                  updated[k].Value() == if k < idx then ApplyRecorded(config, ms, ids)[k] else ms[k]
    {
      var msg := messages[idx];
      if !msg.role.Tool? { continue; }
      if msg.toolCallId == "" || msg.toolCallId !in ids { continue; }
      var notice := Text(CompactionText(config, msg.Value()));
      if msg.content == notice { continue; }
      if !copied {
        updated := Copies(messages);
        copied := true;
      }
      updated[idx].content := notice;
    }
  }

  method InflightCompactionCandidates(config: Config, messages: seq<Row>, ids: set<string>, ghost ms: seq<Message>)
    returns (compactable: seq<Candidate>)
    requires Holds(messages, ms)
    ensures compactable == Candidates(config, ms, ids)
  {
    compactable := [];
    for idx := 0 to |messages|
      invariant compactable == Candidates(config, ms[..idx], ids)
    {
      var msg := messages[idx];
      assert Init(ms[..idx + 1]) == ms[..idx] && Last(ms[..idx + 1]) == msg.Value();
      if idx < config.inflightStartIndex { continue; }
      if !msg.role.Tool? || msg.name.None? || msg.name.value !in config.compactableNames { continue; }
      if msg.toolCallId == "" || msg.toolCallId in ids { continue; }
      if !msg.content.Text? || |msg.content.text| < MICROCOMPACT_MIN_CHARS { continue; }
      compactable := compactable + [Candidate(idx, msg.toolCallId)];
    }
    assert ms[..|ms|] == ms;
  }

  /** Compacts in-flight results, oldest first, while the request is too large, and
      records their ids in the caller's set. */
  method CompactInflightOverflow(config: Config, messages: seq<Row>, compacted: CompactedIds, ghost ms: seq<Message>)
    returns (updated: seq<Row>)
    requires Holds(messages, ms)
    modifies compacted
    ensures Holds(updated, CompactInflight(config, ms, old(compacted.ids)).messages)
    ensures compacted.ids == CompactInflight(config, ms, old(compacted.ids)).ids
  {
    var budget := InputBudget(config);
    if budget <= 0 { return messages; }
    var copied: bool;
    updated, copied := ApplyRecordedCompactions(config, messages, compacted.ids, ms);
    ghost var start := Start(config, ms, compacted.ids);
    var values := View(updated);
    assert values == start.messages;
    var estimate := config.promptTokens(values);
    if estimate <= budget { return; }
    var candidates := InflightCompactionCandidates(config, updated, compacted.ids, start.messages);
    CandidatesInRange(config, start.messages, compacted.ids);
    if candidates == [] { return; }
    updated := CompactCandidates(config, updated, copied, candidates, compacted, estimate, start);
  }

  /** The loop over the candidates. It writes to the list it is given only when that
      list is already a copy. */
  method CompactCandidates(
    config: Config, before: seq<Row>, alreadyCopied: bool, candidates: seq<Candidate>,
    compacted: CompactedIds, firstEstimate: int, ghost start: Progress)
    returns (updated: seq<Row>)
    requires Holds(before, start.messages) && compacted.ids == start.ids
    requires start.taken == 0 && firstEstimate == start.estimate
    requires forall c | c in candidates :: c.idx < |start.messages|
    requires alreadyCopied ==> Distinct(before)
    modifies compacted, if alreadyCopied then before else []
    ensures Holds(updated, CompactLoop(config, candidates, start).messages)
    ensures compacted.ids == CompactLoop(config, candidates, start).ids
  {
    var budget := InputBudget(config);
    var target := Target(budget);
    var copied, estimate := alreadyCopied, firstEstimate;
    updated := before;
    ghost var p := start;
    var candidateIdx := 0;
    while candidateIdx < |candidates|
      invariant p.taken == candidateIdx <= |candidates| && |p.messages| == |start.messages|
      invariant CompactLoop(config, candidates, start) == CompactLoop(config, candidates, p)
      invariant Holds(updated, p.messages) && compacted.ids == p.ids && estimate == p.estimate
      invariant (alreadyCopied ==> copied) && (copied ==> Distinct(updated))
      invariant if copied && !alreadyCopied then forall k | 0 <= k < |updated| :: fresh(updated[k])
                else updated == before
    {
      var candidate := candidates[candidateIdx];
      assert candidate in candidates;
      var isNewestCandidate := candidateIdx == |candidates| - 1;
      if isNewestCandidate && estimate <= budget { break; }
      if candidate.id in compacted.ids {
        p := p.(taken := p.taken + 1);
        candidateIdx := candidateIdx + 1;
        continue;
      }
      if !copied {
        updated := Copies(updated);
        copied := true;
      }
      compacted.ids := compacted.ids + {candidate.id};
      estimate := CompactAndEstimate(config, updated, candidate.idx, p.messages);
      p := Passed(config, candidates, p);
      candidateIdx := candidateIdx + 1;
      if estimate <= target { break; }
    }
    assert CompactLoop(config, candidates, start) == p;
  }

  /** Compacts one result and estimates the request again. */
  method CompactAndEstimate(
      config: Config, rows: seq<Row>, idx: nat, ghost values: seq<Message>) returns (estimate: int)
    requires idx < |rows| && Distinct(rows) && Holds(rows, values)
    modifies rows[idx]
    ensures Holds(rows, values[idx := Compacted(config, values[idx])])
    ensures estimate == config.promptTokens(values[idx := Compacted(config, values[idx])])
  {
    rows[idx].content := Text(CompactionText(config, rows[idx].Value()));
    var view := View(rows);
    assert view == values[idx := Compacted(config, values[idx])];
    estimate := config.promptTokens(view);
  }
}
