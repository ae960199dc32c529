/** The whole pipeline: repair, compact, repair. */
module PrepareForModel {
  import opened Sequences
  import opened Wrappers
  import opened ChatMessages
  import opened RepairPasses
  import opened RepairLemmas
  import opened RepairTheorems
  import opened CompactionSpec
  import opened CompactionTheorems
  import opened SnipSpec
  import opened RequestShape
  import opened MessageRows
  import HistoryRepair
  import ContextCompaction
  import HistorySnip

  /** The history after offloading and in-flight compaction. */
  function Rewritten(config: Config, ms: seq<Message>, ids: set<string>): seq<Message> {
    CompactInflight(config, Offloaded(config, ms), ids).messages
  }

  /** The three tiers. */
  function CompactContext(config: Config, ms: seq<Message>, ids: set<string>): seq<Message> {
    Snipped(config, Rewritten(config, ms, ids))
  }

  function Prepared(config: Config, ms: seq<Message>, ids: set<string>): seq<Message> {
    Repair(CompactContext(config, Repair(ms), ids))
  }

  /** The request that is sent. The rows of the second phase are the only objects
      that are written, and none of them is the caller's. */
  method Prepare(config: Config, messages: seq<Message>, compacted: ContextCompaction.CompactedIds)
    returns (result: seq<Message>)
    modifies compacted
    ensures result == Prepared(config, messages, old(compacted.ids))
    ensures compacted.ids == CompactInflight(config, Offloaded(config, Repair(messages)), old(compacted.ids)).ids
  {
    var updated := HistoryRepair.RepairHistory(messages);
    var rows := Rows(updated);
    rows := ContextCompaction.ApplyToolResultBudget(config, rows, updated);
    ghost var offloaded := Offloaded(config, Repair(messages));
    rows := ContextCompaction.CompactInflightOverflow(config, rows, compacted, offloaded);
    var values := View(rows);
    assert values == Rewritten(config, Repair(messages), old(compacted.ids));
    var snipped := HistorySnip.SnipHistory(config, values);
    result := HistoryRepair.RepairHistory(snipped);
  }

  lemma {:induction false} RewritingKeepsShape(config: Config, ms: seq<Message>, ids: set<string>)
    ensures SameShape(ms, Rewritten(config, ms, ids))
  {
    OffloadKeepsShape(config, ms);
    CompactionKeepsShape(config, Offloaded(config, ms), ids);
  }

  // --------------------------------------------- system messages and suffixes

  lemma {:induction false} SystemsConcat(a: seq<Message>, b: seq<Message>)
    ensures Systems(a + b) == Systems(a) + Systems(b)
  {
    if b == [] {
      assert a + b == a;
    } else {
      assert Init(a + b) == a + Init(b) && Last(a + b) == Last(b);
      SystemsConcat(a, Init(b));
    }
  }

  lemma {:induction false} SystemsSnoc(p: seq<Message>, m: Message)
    ensures Systems(p + [m]) == Systems(p) + (if m.role.System? then [m] else [])
    ensures Calls(p + [m]) == Calls(p) + CallsOf(m)
  {
    InitSnoc(p, m);
  }

  lemma {:induction false} SystemsOfSystems(ms: seq<Message>)
    ensures Systems(Systems(ms)) == Systems(ms) && Calls(Systems(ms)) == []
  {
    if ms != [] {
      SystemsOfSystems(Init(ms));
      SystemsSnoc(Systems(Init(ms)), Last(ms));
      InitSnoc(Systems(Init(ms)), Last(ms));
    }
  }

  lemma {:induction false} SystemsOfNonSystems(ms: seq<Message>)
    ensures Systems(NonSystems(ms)) == [] && Calls(NonSystems(ms)) == Calls(ms)
  {
    if ms != [] {
      SystemsOfNonSystems(Init(ms));
      SystemsSnoc(NonSystems(Init(ms)), Last(ms));
      InitSnoc(NonSystems(Init(ms)), Last(ms));
    }
  }

  lemma {:induction false} SystemsOfBystanders(ms: seq<Message>)
    ensures Systems(Bystanders(ms)) == Systems(ms)
  {
    if ms != [] {
      SystemsOfBystanders(Init(ms));
      SystemsSnoc(Bystanders(Init(ms)), Last(ms));
      InitSnoc(Bystanders(Init(ms)), Last(ms));
    }
  }

  lemma {:induction false} SystemsOfSuffix(rest: seq<Message>, s: nat)
    requires s <= |rest| && |Systems(rest)| == 0
    ensures |Systems(rest[s..])| == 0
  {
    assert rest == rest[..s] + rest[s..];
    SystemsConcat(rest[..s], rest[s..]);
  }

  lemma {:induction false} CallsOfSuffix(rest: seq<Message>, s: nat)
    requires s <= |rest|
    ensures Calls(rest) == Calls(rest[..s]) + Calls(rest[s..])
  {
    assert rest == rest[..s] + rest[s..];
    CallsConcat(rest[..s], rest[s..]);
  }

  lemma {:induction false} SuffixOfCalls(ms: seq<Message>, kept: seq<Message>, lost: seq<ToolCall>)
    requires Calls(ms) == lost + Calls(kept)
    ensures NamesValid(ms) ==> NamesValid(kept)
    ensures Declared(kept) <= Declared(ms)
  {
    NamesAreOfCalls(ms);
    NamesAreOfCalls(kept);
    AllNamesValidConcat(lost, Calls(kept));
    DeclaredIsCallBag(ms);
    DeclaredIsCallBag(kept);
    CallBagConcat(lost, Calls(kept));
  }

  /** The system messages followed by a suffix of the others: nothing is lost of the
      former, and a prefix of the calls. */
  lemma {:induction false} SuffixKeeps(ms: seq<Message>, s: nat)
    requires s <= |NonSystems(ms)|
    ensures var kept := Systems(ms) + NonSystems(ms)[s..];
            && Systems(kept) == Systems(ms)
            && Calls(ms) == Calls(NonSystems(ms)[..s]) + Calls(kept)
  {
    var systems, rest := Systems(ms), NonSystems(ms);
    SystemsOfSystems(ms);
    SystemsOfNonSystems(ms);
    SystemsOfSuffix(rest, s);
    SystemsConcat(systems, rest[s..]);
    CallsConcat(systems, rest[s..]);
    CallsOfSuffix(rest, s);
    var none: seq<ToolCall> := [];
    assert none + Calls(rest[s..]) == Calls(rest[s..]);
    assert Systems(rest[s..]) == [];
  }

  /** Snipping keeps all system messages and some suffix of the calls. */
  lemma {:induction false} SnipKeeps(config: Config, ms: seq<Message>)
    ensures Systems(Snipped(config, ms)) == Systems(ms)
    ensures NamesValid(ms) ==> NamesValid(Snipped(config, ms))
    ensures Declared(Snipped(config, ms)) <= Declared(ms)
  {
    if SnipFires(config, ms) {
      var s := SnipStart(config, NonSystems(ms), RemainingBudget(config, Systems(ms)));
      SnippedSplits(config, ms);
      SuffixKeeps(ms, s);
      SuffixOfCalls(ms, Snipped(config, ms), Calls(NonSystems(ms)[..s]));
    }
  }

  /** What reaches the second repair. */
  lemma {:induction false} CompactedKeeps(config: Config, ms: seq<Message>, ids: set<string>)
    ensures var c := CompactContext(config, Repair(ms), ids);
            && NamesValid(c) && NoHollowPlaceholder(c)
            && Systems(c) == Systems(ms)
            && Declared(c) <= Declared(ms)
  {
    var r := Repair(ms);
    var w := Rewritten(config, r, ids);
    RepairEstablishes(ms);
    RepairKeepsDistinctCalls(ms);
    SystemsOfBystanders(ms);
    SystemsOfBystanders(r);
    RewritingKeepsShape(config, r, ids);
    SameShapeIsAlike(r, w);
    AlikeBags(r, w);
    SystemsOfBystanders(w);
    SnipKeeps(config, w);
    NamesValidIsNotHollow(Snipped(config, w));
  }

  lemma {:induction false} NamesValidIsNotHollow(ms: seq<Message>)
    requires NamesValid(ms)
    ensures NoHollowPlaceholder(ms)
  {
    if ms != [] {
      NamesValidIsNotHollow(Init(ms));
      ValidCallsKeeps(Last(ms).toolCalls);
    }
  }

  // ----------------------------------------------------------------- main results

  /** For every history, every configuration and every recorded id set: the request
      has valid names only, every result follows its declaration, every declared id
      is answered, no bare placeholder is left, and the system messages are those of
      the history, in order. */
  lemma {:induction false} PreparedIsWellPaired(config: Config, ms: seq<Message>, ids: set<string>)
    ensures var request := Prepared(config, ms, ids);
            && WellPaired(request) && NoBarePlaceholder(request)
            && Systems(request) == Systems(ms)
  {
    var c := CompactContext(config, Repair(ms), ids);
    CompactedKeeps(config, ms, ids);
    RepairEstablishes(c);
    HollowIffBareLeft(c);
    SystemsOfBystanders(c);
    SystemsOfBystanders(Repair(c));
  }

  lemma {:induction false} UsableOfValid(ms: seq<Message>)
    requires NamesValid(ms)
    ensures Usable(ms) == Declared(ms)
  {
    NamesAreOfCalls(ms);
    ValidCallsKeeps(Calls(ms));
    DeclaredIsCallBag(ms);
  }

  /** Without orphans every answer comes in time. */
  lemma {:induction false} AnswersAreInTime(ms: seq<Message>, id: string)
    requires NamesValid(ms) && IdsDeclared(ms)
    ensures AnsweredInTime(ms, id) <==> id in Answered(ms)
  {
    if ms != [] {
      AnswersAreInTime(Init(ms), id);
      UsableOfValid(Init(ms));
      DeclaredIsCallBag(Init(ms));
      NoEmptyId(Calls(Init(ms)));
    }
  }

  lemma {:induction false} IdsDeclaredConcat(a: seq<Message>, b: seq<Message>)
    requires IdsDeclared(a) && IdsDeclared(b)
    ensures IdsDeclared(a + b)
  {
    if b == [] {
      assert a + b == a;
    } else {
      assert Init(a + b) == a + Init(b) && Last(a + b) == Last(b);
      IdsDeclaredConcat(a, Init(b));
      DeclaredConcat(a, Init(b));
    }
  }

  lemma {:induction false} SystemsAreNoOrphans(ms: seq<Message>)
    ensures IdsDeclared(Systems(ms))
  {
    if ms != [] {
      SystemsAreNoOrphans(Init(ms));
      InitSnoc(Systems(Init(ms)), Last(ms));
    }
  }

  lemma {:induction false} ResultsDeclaredAreIds(ms: seq<Message>)
    requires ResultsDeclared(ms)
    ensures IdsDeclared(ms)
  {
    if ms != [] { ResultsDeclaredAreIds(Init(ms)); }
  }

  /** No tier leaves an orphan. */
  lemma {:induction false} CompactedHasNoOrphans(config: Config, ms: seq<Message>, ids: set<string>)
    ensures IdsDeclared(CompactContext(config, Repair(ms), ids))
  {
    var r := Repair(ms);
    var w := Rewritten(config, r, ids);
    if SnipFires(config, w) {
      PreparedSnipIsBounded(config, ms, ids);
      SystemsAreNoOrphans(w);
      var rest := NonSystems(w);
      IdsDeclaredConcat(Systems(w), rest[SnipStart(config, rest, RemainingBudget(config, Systems(w)))..]);
      CompactedKeeps(config, ms, ids);
      SnipKeeps(config, w);
    } else {
      RewritingKeepsShape(config, r, ids);
      SameShapeIsAlike(r, w);
      AlikeBags(r, w);
      RepairEstablishes(ms);
      ResultsDeclaredAreIds(w);
    }
  }

  /** The one thing that can be missing from legality is uniqueness of results, and
      it is missing exactly when what was snipped leaves an id declared twice and
      unanswered. */
  lemma {:induction false} PreparedIsLegalIff(config: Config, ms: seq<Message>, ids: set<string>)
    ensures
      var c := CompactContext(config, Repair(ms), ids);
      Legal(Prepared(config, ms, ids)) <==> forall id: string :: Declared(c)[id] <= 1 || id in Answered(c)
  {
    var c := CompactContext(config, Repair(ms), ids);
    PreparedIsWellPaired(config, ms, ids);
    CompactedKeeps(config, ms, ids);
    CompactedHasNoOrphans(config, ms, ids);
    UsableOfValid(c);
    forall id: string ensures Answered(Repair(c))[id] > 1 <==> Declared(c)[id] > 1 && id !in Answered(c) {
      AnsweredTwiceIff(c, id);
      AnswersAreInTime(c, id);
    }
  }

  /** Distinct call ids are enough, whatever the tiers did: then every declared id has
      exactly one result. */
  lemma {:induction false} PreparedIsLegalForDistinctCalls(config: Config, ms: seq<Message>, ids: set<string>)
    requires DistinctCalls(ms)
    ensures var request := Prepared(config, ms, ids);
            && Legal(request)
            && forall id: string :: Answered(request)[id] == Declared(request)[id] <= 1
  {
    var c := CompactContext(config, Repair(ms), ids);
    CompactedKeeps(config, ms, ids);
    OneRepairSufficesForDistinctCalls(c);
    RepairKeepsDistinctCalls(c);
    AnsweredIsDeclared(Repair(c));
  }

  lemma {:induction false} AnsweredIsDeclared(ms: seq<Message>)
    requires ResultsDeclared(ms)
    ensures forall id: string :: id in Answered(ms) ==> id in Declared(ms)
  {
    if ms != [] { AnsweredIsDeclared(Init(ms)); }
  }

  /** As long as nothing is snipped the request is legal for every history, and but
      for the contents of tool results it is the history repaired twice. */
  lemma {:induction false} PreparedWithoutSnip(config: Config, ms: seq<Message>, ids: set<string>)
    requires !SnipFires(config, Rewritten(config, Repair(ms), ids))
    ensures Legal(Prepared(config, ms, ids))
    ensures SameShape(Repair(Repair(ms)), Prepared(config, ms, ids))
  {
    var r := Repair(ms);
    var w := Rewritten(config, r, ids);
    RewritingKeepsShape(config, r, ids);
    RepairKeepsShape(r, w);
    SameShapeIsAlike(r, w);
    AlikeBags(r, w);
    RepairEstablishes(ms);
    RepairOfWellPaired(w);
  }

  /** When something is snipped, what reaches the second repair is the system
      messages and a bounded suffix without orphans. */
  lemma {:induction false} PreparedSnipIsBounded(config: Config, ms: seq<Message>, ids: set<string>)
    requires SnipFires(config, Rewritten(config, Repair(ms), ids))
    ensures var w := Rewritten(config, Repair(ms), ids);
            var rest, budget := NonSystems(w), RemainingBudget(config, Systems(w));
            var s := SnipStart(config, rest, budget);
            && CompactContext(config, Repair(ms), ids) == Systems(ms) + rest[s..]
            && (Fits(config, rest, budget, s) || s >= |rest| - 1 ||
                (LastUser(rest).Some? && s >= LastUser(rest).value))
            && IdsDeclared(rest[s..])
  {
    var w := Rewritten(config, Repair(ms), ids);
    SnipIsBounded(config, NonSystems(w), RemainingBudget(config, Systems(w)));
    SnippedSplits(config, w);
    CompactedKeeps(config, ms, ids);
    SnipKeeps(config, w);
  }

  lemma {:induction false} DeclaredBy(ms: seq<Message>, id: string) returns (j: nat, k: nat)
    requires id in Declared(ms)
    ensures j < |ms| && ms[j].role.Assistant? && k < |ms[j].toolCalls| && CallId(ms[j].toolCalls[k]) == id
  {
    if id in Declares(Last(ms)) {
      j := |ms| - 1;
      k := CallWithId(CallsOf(ms[j]), id);
    } else {
      j, k := DeclaredBy(Init(ms), id);
    }
  }

  lemma {:induction false} CallWithId(calls: seq<ToolCall>, id: string) returns (k: nat)
    requires id in CallBag(calls)
    ensures k < |calls| && CallId(calls[k]) == id
  {
    if CallId(Last(calls)) == id { k := |calls| - 1; } else { k := CallWithId(Init(calls), id); }
  }

  /** The request read position by position: every tool result has a non-empty id that some
      assistant strictly before it declares, and every call has a usable name. */
  lemma {:induction false} PreparedPositionByPosition(config: Config, ms: seq<Message>, ids: set<string>)
    ensures
      var request := Prepared(config, ms, ids);
      && (forall i :: 0 <= i < |request| && request[i].role.Tool? ==> DeclaredBefore(request, i))
      && (forall k :: 0 <= k < |Calls(request)| ==> NameIsValid(Calls(request)[k]))
  {
    var request := Prepared(config, ms, ids);
    PreparedIsWellPaired(config, ms, ids);
    NamesAreOfCalls(request);
    AllNamesValidAt(Calls(request));
    forall i | 0 <= i < |request| && request[i].role.Tool? ensures DeclaredBefore(request, i) {
      ResultsDeclaredAt(request);
      var j, k := DeclaredBy(request[..i], request[i].toolCallId);
      assert request[..i][j] == request[j];
    }
  }

  predicate DeclaredBefore(request: seq<Message>, i: nat)
    requires i < |request|
  {
    request[i].toolCallId != "" &&
    exists j, k :: 0 <= j < i && request[j].role.Assistant? && 0 <= k < |request[j].toolCalls|
      && CallId(request[j].toolCalls[k]) == request[i].toolCallId
  }

  /** In the pipeline, with a budget and no id declared twice and unanswered, the rewriting
      tiers come to a replay of the id set they leave behind. */
  lemma {:induction false} RewritingReplays(config: Config, ms: seq<Message>, ids: set<string>)
    requires InputBudget(config) > 0 && forall id: string :: !UnansweredTwice(ms, id)
    ensures
      var offloaded := Offloaded(config, Repair(ms));
      Rewritten(config, Repair(ms), ids) ==
        ApplyRecorded(config, offloaded, CompactInflight(config, offloaded, ids).ids)
  {
    var r, offloaded := Repair(ms), Offloaded(config, Repair(ms));
    forall id: string ensures Answered(r)[id] <= 1 { AnsweredTwiceIff(ms, id); }
    OffloadKeepsShape(config, r);
    SameShapeIsAlike(r, offloaded);
    AlikeBags(r, offloaded);
    CompactionReplays(config, offloaded, ids);
  }
}
