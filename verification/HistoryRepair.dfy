/** The repair passes as the program runs them: left-to-right loops that start a
    new list only when something has to change, and return their argument
    otherwise. */
module HistoryRepair {
  import opened Sequences
  import opened Wrappers
  import opened ChatMessages
  import opened RepairPasses
  import opened BackfillInsertion

  /** What a loop has built out of the first `n` messages: the list it started, or
      still the untouched prefix of its input. */
  function Built(updated: Option<seq<Message>>, messages: seq<Message>, n: nat): seq<Message>
    requires n <= |messages|
  {
    if updated.Some? then updated.value else messages[..n]
  }

  /** `if updated is not None: updated.append(m)` */
  function Appended(updated: Option<seq<Message>>, m: Message): Option<seq<Message>> {
    if updated.Some? then Some(updated.value + [m]) else None
  }

  lemma PrefixStep<T>(s: seq<T>, n: nat)
    requires n < |s|
    ensures Init(s[..n + 1]) == s[..n] && Last(s[..n + 1]) == s[n]
    ensures s[..n] + [s[n]] == s[..n + 1]
  {
  }

  method StripPlaceholderAssistantMessages(messages: seq<Message>) returns (result: seq<Message>)
    ensures result == StripPlaceholders(messages)
  {
    var updated: Option<seq<Message>> := None;
    for idx := 0 to |messages|
      invariant Built(updated, messages, idx) == StripPlaceholders(messages[..idx])
    {
      var msg := messages[idx];
      PrefixStep(messages, idx);
      if !msg.role.Assistant? {
        updated := Appended(updated, msg);
        continue;
      }
      var isPlaceholder := IsPlaceholderText(msg.content);
      var hasToolCalls := msg.toolCalls != [];
      if isPlaceholder && !hasToolCalls {
        InitSnoc(StripPlaceholders(messages[..idx]), msg);
        if updated.None? { updated := Some(messages[..idx]); }
        continue;
      }
      updated := Appended(updated, msg);
    }
    assert messages[..|messages|] == messages;
    result := Built(updated, messages, |messages|);
  }

  lemma MalformedStep(ms: seq<Message>, n: nat)
    requires n < |ms|
    ensures StripMalformed(ms[..n + 1]) == StripMalformed(ms[..n]) + WithoutMalformed(ms[n])
    ensures ms[n].toolCalls == [] ==> WithoutMalformed(ms[n]) == [ms[n]]
  {
    PrefixStep(ms, n);
    assert ValidCalls([]) == [];
  }

  method StripMalformedToolCalls(messages: seq<Message>) returns (result: seq<Message>)
    ensures result == StripMalformed(messages)
  {
    var updated: Option<seq<Message>> := None;
    for idx := 0 to |messages|
      invariant Built(updated, messages, idx) == StripMalformed(messages[..idx])
    {
      var msg := messages[idx];
      PrefixStep(messages, idx);
      MalformedStep(messages, idx);
      if !msg.role.Assistant? {
        updated := Appended(updated, msg);
        continue;
      }
      var calls := msg.toolCalls;
      if calls == [] {
        updated := Appended(updated, msg);
        continue;
      }
      var kept := ValidCalls(calls);
      if |kept| == |calls| {
        updated := Appended(updated, msg);
        continue;
      }
      if updated.None? { updated := Some(messages[..idx]); }
      var repaired := msg.(toolCalls := kept);
      var hasContent := HasContent(repaired.content);
      if kept == [] && !hasContent {
        InitSnoc(StripMalformed(messages[..idx]), msg);
        continue;
      }
      updated := Appended(updated, repaired);
    }
    assert messages[..|messages|] == messages;
    result := Built(updated, messages, |messages|);
  }

  lemma OrphanStep(ms: seq<Message>, n: nat, kept: seq<Message>, declared: set<string>, fulfilled: set<string>)
    requires n < |ms| && kept == DropOrphans(ms[..n])
    requires SameIds(declared, Declared(ms[..n])) && SameIds(fulfilled, Answered(kept))
    ensures DropOrphans(ms[..n + 1]) ==
            if ms[n].role.Tool? && (ms[n].toolCallId == ""
                || ms[n].toolCallId !in declared || ms[n].toolCallId in fulfilled)
            then kept else kept + [ms[n]]
    ensures Declared(ms[..n + 1]) == Declared(ms[..n]) + Declares(ms[n])
    ensures Answered(kept + [ms[n]]) == Answered(kept) + Answers(ms[n])
  {
    PrefixStep(ms, n);
    InitSnoc(kept, ms[n]);
  }

  method DropOrphanToolResults(messages: seq<Message>) returns (result: seq<Message>)
    ensures result == DropOrphans(messages)
  {
    var declared: set<string> := {};
    var fulfilled: set<string> := {};
    var updated: Option<seq<Message>> := None;
    for idx := 0 to |messages|
      invariant Built(updated, messages, idx) == DropOrphans(messages[..idx])
      invariant SameIds(declared, Declared(messages[..idx]))
      invariant SameIds(fulfilled, Answered(DropOrphans(messages[..idx])))
    {
      var msg := messages[idx];
      PrefixStep(messages, idx);
      OrphanStep(messages, idx, Built(updated, messages, idx), declared, fulfilled);
      if msg.role.Assistant? {
        declared := AddIds(declared, msg.toolCalls, Declared(messages[..idx]));
      }
      if msg.role.Tool? {
        var tid := msg.toolCallId;
        if tid == "" || tid !in declared || tid in fulfilled {
          if updated.None? { updated := Some(messages[..idx]); }
          continue;
        }
        AddSame(fulfilled, Answered(Built(updated, messages, idx)), tid);
        fulfilled := fulfilled + {tid};
      }
      updated := Appended(updated, msg);
    }
    assert messages[..|messages|] == messages;
    result := Built(updated, messages, |messages|);
  }

  /** The inner loop that collects the usable ids of an assistant's calls. */
  method AddIds(declared: set<string>, calls: seq<ToolCall>, ghost bag: multiset<string>) returns (all: set<string>)
    requires SameIds(declared, bag)
    ensures SameIds(all, bag + CallBag(calls))
  {
    all := declared;
    for i := 0 to |calls|
      invariant SameIds(all, bag + CallBag(calls[..i]))
    {
      PrefixStep(calls, i);
      if calls[i].Call? && calls[i].id != "" {
        all := all + {calls[i].id};
      }
    }
    assert calls[..|calls|] == calls;
  }

  method BackfillMissingToolResults(messages: seq<Message>) returns (result: seq<Message>)
    ensures result == Backfill(messages)
  {
    var declared: seq<Pending> := [];
    var fulfilled: set<string> := {};
    for idx := 0 to |messages|
      invariant declared == Pendings(messages[..idx])
      invariant SameIds(fulfilled, Answered(messages[..idx]))
    {
      var msg := messages[idx];
      PrefixStep(messages, idx);
      if msg.role.Assistant? {
        var entries := Entries(idx, msg.toolCalls);
        declared := declared + entries;
      } else if msg.role.Tool? {
        if msg.toolCallId != "" { fulfilled := fulfilled + {msg.toolCallId}; }
      }
    }
    assert messages[..|messages|] == messages;
    PendingsOrdered(messages);
    UnfulfilledOrdered(declared, fulfilled, messages);
    MissingListsAgree(messages, fulfilled);
    var missing := Unfulfilled(declared, fulfilled);
    if missing == [] {
      NothingWoven(messages);
      return messages;
    }
    result := InsertMissing(messages, missing);
  }

  lemma MissingListsAgree(ms: seq<Message>, fulfilled: set<string>)
    requires SameIds(fulfilled, Answered(ms))
    ensures Extras(Unfulfilled(Pendings(ms), fulfilled), |ms|) == Missing(ms, Answered(ms))
  {
    var missing := Unfulfilled(Pendings(ms), fulfilled);
    forall i | 0 <= i < |ms|
      ensures Extras(missing, |ms|)[i] == Missing(ms, Answered(ms))[i]
    {
      MissingListIsMissing(ms, fulfilled, Answered(ms), i);
    }
  }

  /** The inner loop over one assistant's calls. */
  method Entries(at: nat, calls: seq<ToolCall>) returns (entries: seq<Pending>)
    ensures entries == PendingsOf(at, calls)
  {
    entries := [];
    for i := 0 to |calls|
      invariant entries == PendingsOf(at, calls[..i])
    {
      PrefixStep(calls, i);
      if CallId(calls[i]) != "" {
        entries := entries + [Pending(at, CallId(calls[i]), BackfillName(calls[i]))];
      }
    }
    assert calls[..|calls|] == calls;
  }

  /** The insertion loop with its running offset. */
  method InsertMissing(messages: seq<Message>, missing: seq<Pending>) returns (updated: seq<Message>)
    requires Ordered(missing, messages)
    ensures updated == Woven(messages, Extras(missing, |messages|))
  {
    updated := messages;
    var offset := 0;
    NothingWoven(messages);
    assert missing[..0] == [];
    for j := 0 to |missing|
      invariant offset == j
      invariant updated == Woven(messages, Extras(missing[..j], |messages|))
    {
      var entry := missing[j];
      var insertAt := entry.at + 1 + offset;
      BlockEndExists(messages, entry.at, entry.at + 1);
      ghost var e :| BlockEnd(messages, entry.at, e);
      ghost var k := InsertionStep(messages, missing, j, e);
      while insertAt < |updated| && updated[insertAt].role.Tool?
        invariant entry.at + 1 + offset <= insertAt <= k
      {
        insertAt := insertAt + 1;
      }
      updated := updated[..insertAt] + [BackfillMessage(entry.id, entry.name)] + updated[insertAt..];
      offset := offset + 1;
    }
    assert missing[..|missing|] == missing;
  }

  method RepairHistory(messages: seq<Message>) returns (result: seq<Message>)
    ensures result == Repair(messages)
  {
    var updated := StripPlaceholderAssistantMessages(messages);
    updated := StripMalformedToolCalls(updated);
    updated := DropOrphanToolResults(updated);
    result := BackfillMissingToolResults(updated);
  }
}
