/** Snipping as the program runs it: a walk from the newest message backwards, then
    two searches and a scan. */
module HistorySnip {
  import opened Sequences
  import opened Wrappers
  import opened ChatMessages
  import opened CompactionSpec
  import opened SnipSpec

  method FindLegalMessageStart(messages: seq<Message>) returns (start: nat)
    ensures start == LegalStart(messages)
  {
    var declared: multiset<string> := multiset{};
    start := 0;
    for i := 0 to |messages|
      invariant start <= i && start == LegalStart(messages[..i])
      invariant declared == Declared(messages[..i][start..])
    {
      var msg := messages[i];
      assert Init(messages[..i + 1]) == messages[..i] && Last(messages[..i + 1]) == msg;
      DropSnoc(messages[..i + 1], start);
      if msg.role.Assistant? {
        declared := declared + CallBag(msg.toolCalls);
      } else if msg.role.Tool? {
        if msg.toolCallId != "" && msg.toolCallId !in declared {
          start := i + 1;
          declared := multiset{};
        }
      }
    }
    assert messages[..|messages|] == messages;
  }

  method UserTail(messages: seq<Message>, last: bool) returns (tail: seq<Message>)
    ensures var at := if last then LastUser(messages) else FirstUser(messages);
            tail == if at.Some? then messages[at.value..] else []
  {
    if last {
      var idx := |messages| - 1;
      while idx >= 0
        invariant -1 <= idx < |messages| && forall k | idx < k < |messages| :: !messages[k].role.User?
      {
        if messages[idx].role.User? { return messages[idx..]; }
        idx := idx - 1;
      }
    } else {
      for idx := 0 to |messages|
        invariant forall k | 0 <= k < idx :: !messages[k].role.User?
      {
        if messages[idx].role.User? { return messages[idx..]; }
      }
    }
    return [];
  }

  method LegalHistoryTail(kept: seq<Message>, nonSystem: seq<Message>, ghost from: nat) returns (tail: seq<Message>)
    requires from < |nonSystem| && kept == nonSystem[from..]
    ensures tail == LegalTail(nonSystem, from)
  {
    var fallback := kept;
    var chosen := UserTail(kept, false);
    if chosen == [] { chosen := UserTail(nonSystem, true); }
    if chosen == [] { chosen := fallback; }
    var start := FindLegalMessageStart(chosen);
    return if start != 0 then chosen[start..] else chosen;
  }

  /** The walk from the newest message backwards. */
  method KeepRecent(config: Config, nonSystem: seq<Message>, remaining: nat) returns (kept: seq<Message>)
    ensures kept == nonSystem[KeptFrom(config, nonSystem, remaining, |nonSystem|)..]
  {
    kept := [];
    var keptTokens := 0;
    var i := |nonSystem|;
    while i > 0
      invariant 0 <= i <= |nonSystem| && kept == nonSystem[i..] && keptTokens == Cost(config, kept)
      invariant KeptFrom(config, nonSystem, remaining, |nonSystem|) == KeptFrom(config, nonSystem, remaining, i)
    {
      var message := nonSystem[i - 1];
      var tokens := config.messageTokens(message);
      if kept != [] && keptTokens + tokens > remaining { break; }
      assert nonSystem[i - 1..] == [message] + kept;
      kept := [message] + kept;
      keptTokens := keptTokens + tokens;
      i := i - 1;
    }
    assert KeptFrom(config, nonSystem, remaining, |nonSystem|) == i;
  }

  /** The system messages and the legal end of what was kept. */
  method SnipTo(config: Config, systemMessages: seq<Message>, nonSystem: seq<Message>, remaining: nat)
    returns (result: seq<Message>)
    requires nonSystem != []
    ensures result == systemMessages + LegalTail(nonSystem, KeptFrom(config, nonSystem, remaining, |nonSystem|))
  {
    var kept := KeepRecent(config, nonSystem, remaining);
    ghost var from := KeptFrom(config, nonSystem, remaining, |nonSystem|);
    KeptFromIsLongest(config, nonSystem, remaining, |nonSystem|);
    var tail := LegalHistoryTail(kept, nonSystem, from);
    return systemMessages + tail;
  }

  method SnipHistory(config: Config, messages: seq<Message>) returns (result: seq<Message>)
    ensures result == Snipped(config, messages)
  {
    if messages == [] || config.contextWindowTokens == 0 { return messages; }
    var budget := InputBudget(config);
    if budget <= 0 { return messages; }
    var estimate := config.promptTokens(messages);
    if estimate <= budget { return messages; }
    var systemMessages, nonSystem := Systems(messages), NonSystems(messages);
    if nonSystem == [] { return messages; }
    var systemTokens := Cost(config, systemMessages);
    var fixedTokens := config.promptTokens(systemMessages);
    var remaining := Max(0, budget - Max(systemTokens, fixedTokens));
    assert SnipFires(config, messages) && remaining == RemainingBudget(config, systemMessages);
    result := SnipTo(config, systemMessages, nonSystem, remaining);
  }
}
