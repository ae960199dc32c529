/** What the tiers that shrink tool results do, in terms of the results themselves: which are
    left alone, which are gone when nothing helped, and that no more is compacted than it
    takes. */
module CompactionBounds {
  import opened ChatMessages
  import opened CompactionSpec
  import opened CompactionTheorems
  import opened Sequences
  import opened Wrappers

  /** Without a window there is no budget. A block limit is the budget, if there is room for
      anything. Without one, the window is what the model may write, 1024 tokens for safety,
      and the budget. */
  lemma {:induction false} BudgetFillsTheWindow(config: Config)
    ensures config.contextWindowTokens == 0 ==> InputBudget(config) == 0
    ensures config.contextWindowTokens != 0 && config.contextBlockLimit > 0 ==>
      InputBudget(config) == config.contextBlockLimit
    ensures config.contextBlockLimit < 0 ==> InputBudget(config) == 0
    ensures config.contextWindowTokens != 0 && config.contextBlockLimit == 0 ==>
      var reply := if config.maxTokens.Some? then config.maxTokens.value
                   else if config.providerMaxTokens.Some? then config.providerMaxTokens.value else 4096;
      if config.contextWindowTokens > reply + 1024 then InputBudget(config) + reply + 1024 == config.contextWindowTokens
      else InputBudget(config) == 0
  {
  }

  // ------------------------------------------------------------------------ offloading

  /** What a string of digits says. */
  function Number(s: string): int {
    if s == "" then 0 else 10 * Number(Init(s)) + (Last(s) as int - '0' as int)
  }

  lemma {:induction false} DigitsAreTheNumber(n: nat)
    ensures Digits(n) != "" && Number(Digits(n)) == n && forall i | 0 <= i < |Digits(n)| :: '0' <= Digits(n)[i] <= '9'
  {
    if n >= 10 {
      DigitsAreTheNumber(n / 10);
      InitSnoc(Digits(n / 10), ('0' as int + n % 10) as char);
    } else {
      assert Init(Digits(n)) == "";
    }
  }

  /** A result that is offloaded, under its id or else its place, and its name or else "tool":
      read files are exempt, what could be stored is replaced by its reference, and no other
      text stays longer than the limit. */
  lemma {:induction false} OffloadedResult(config: Config, ms: seq<Message>, i: nat)
    requires i < |ms| && ms[i].role.Tool?
    ensures
      var m, after := ms[i], Offloaded(config, ms)[i].content;
      var name := if m.name == None || m.name == Some("") then "tool" else m.name.value;
      var full := config.ensureNonEmpty(name, m.content);
      var stored := config.persist(if m.toolCallId == "" then "tool_" + Digits(i) else m.toolCallId, full);
      var text := if stored.Some? then stored.value else full;
      if name == "read_file" then after == full
      else if text.Text? && |text.text| > config.maxToolResultChars then
        after == Text(config.truncate(text.text, config.maxToolResultChars))
      else after == text
  {
  }

  // ------------------------------------------------------------- in-flight compaction

  /** A result of the turn that is under way, of a tool whose results may go, and long. */
  predicate MayGo(config: Config, m: Message, i: nat) {
    && i >= config.inflightStartIndex
    && m.role.Tool? && m.toolCallId != ""
    && m.name.Some? && m.name.value in config.compactableNames
    && m.content.Text? && |m.content.text| >= 500
  }

  /** Everything else leaves the tier as it came in, unless it was recorded before. */
  lemma {:induction false} TheRestStays(config: Config, ms: seq<Message>, ids: set<string>, i: nat)
    requires i < |ms| && !MayGo(config, ms[i], i)
    requires ms[i].role.Tool? && ms[i].toolCallId != "" ==> ms[i].toolCallId !in ids
    ensures CompactInflight(config, ms, ids).messages[i] == ms[i]
  {
    if InputBudget(config) > 0 { CompactionSparesTheRest(config, ms, ids, i); }
  }

  /** What changes is a tool result, and becomes the notice for its tool. */
  predicate Noticed(config: Config, before: Message, after: Message) {
    after == before ||
    (before.role.Tool? &&
     var name := if before.name.Some? then before.name.value else "tool";
     after == before.(content := Text(config.compactionNotice(name))))
  }

  lemma {:induction false} LoopLeavesNotices(config: Config, ms: seq<Message>, candidates: seq<Candidate>, p: Progress)
    requires p.taken <= |candidates| && |p.messages| == |ms|
    requires forall c | c in candidates :: c.idx < |ms| && ms[c.idx].role.Tool?
    requires forall i | 0 <= i < |ms| :: Noticed(config, ms[i], p.messages[i])
    ensures forall i | 0 <= i < |ms| :: Noticed(config, ms[i], CompactLoop(config, candidates, p).messages[i])
    decreases |candidates| - p.taken
  {
    if p.taken < |candidates| {
      var c := candidates[p.taken];
      assert c in candidates;
      if c.id in p.ids {
        LoopLeavesNotices(config, ms, candidates, p.(taken := p.taken + 1));
      } else {
        LoopLeavesNotices(config, ms, candidates, Passed(config, candidates, p));
      }
    }
  }

  lemma {:induction false} OnlyNoticesAreLeft(config: Config, ms: seq<Message>, ids: set<string>)
    ensures forall i | 0 <= i < |ms| :: Noticed(config, ms[i], CompactInflight(config, ms, ids).messages[i])
  {
    var start := Start(config, ms, ids);
    CandidatesInRange(config, start.messages, ids);
    LoopLeavesNotices(config, ms, Candidates(config, start.messages, ids), start);
  }

  /** Without a budget nothing is touched at all; with one, what was recorded is a notice. */
  lemma {:induction false} RecordedResultsAreNotices(config: Config, ms: seq<Message>, ids: set<string>, i: nat)
    requires i < |ms| && ms[i].role.Tool? && ms[i].toolCallId != "" && ms[i].toolCallId in ids
    ensures InputBudget(config) == 0 ==> CompactInflight(config, ms, ids).messages == ms
    ensures InputBudget(config) > 0 ==>
      CompactInflight(config, ms, ids).messages[i] ==
        ms[i].(content := Text(config.compactionNotice(if ms[i].name.Some? then ms[i].name.value else "tool")))
  {
    if InputBudget(config) > 0 { CompactionSparesTheRest(config, ms, ids, i); }
  }

  /** With nothing recorded, a request that fits is not touched. */
  lemma {:induction false} WhatFitsStays(config: Config, ms: seq<Message>)
    requires InputBudget(config) == 0 || config.promptTokens(ms) <= InputBudget(config)
    ensures CompactInflight(config, ms, {}).messages == ms && CompactInflight(config, ms, {}).ids == {}
  {
    assert ApplyRecorded(config, ms, {}) == ms;
  }

  lemma {:induction false} CandidateOf(config: Config, ms: seq<Message>, ids: set<string>, i: nat)
    requires i < |ms| && IsCandidate(config, ms[i], i, ids)
    ensures Candidate(i, ms[i].toolCallId) in Candidates(config, ms, ids)
  {
    if i < |ms| - 1 { CandidateOf(config, Init(ms), ids, i); }
  }

  /** When the outcome still does not fit, everything that may go has gone. */
  lemma {:induction false} OverBudgetEverythingWent(config: Config, ms: seq<Message>, ids: set<string>, i: nat)
    requires InputBudget(config) > 0 && i < |ms| && MayGo(config, ms[i], i)
    requires config.promptTokens(CompactInflight(config, ms, ids).messages) > InputBudget(config)
    ensures ms[i].toolCallId in CompactInflight(config, ms, ids).ids
  {
    CompactionTakesOldest(config, ms, ids);
    var replayed := ApplyRecorded(config, ms, ids);
    if ms[i].toolCallId !in ids {
      CandidateOf(config, replayed, ids, i);
      var candidates, r := Candidates(config, replayed, ids), CompactInflight(config, ms, ids);
      assert candidates[..|candidates|] == candidates;
      assert r.taken == |candidates|;
    }
  }

  // ------------------------------------------------------------- no more than it takes

  /** The history with the first `k` candidates compacted. */
  function Partly(config: Config, ms: seq<Message>, ids: set<string>, candidates: seq<Candidate>, k: nat): seq<Message>
    requires k <= |candidates|
  {
    ApplyRecorded(config, ms, ids + IdsOf(candidates[..k]))
  }

  /** The loop had reason to go on after `k` candidates: more than 85 percent of the budget is
      used, and for the newest candidate more than the budget. */
  predicate GoesOn(config: Config, ms: seq<Message>, ids: set<string>, candidates: seq<Candidate>, k: nat)
    requires k <= |candidates|
  {
    var estimate := config.promptTokens(Partly(config, ms, ids, candidates, k));
    && (k > 0 ==> estimate > InputBudget(config) * 85 / 100)
    && (k == 0 || k == |candidates| - 1 ==> estimate > InputBudget(config))
  }

  /** The candidates are results of `ms` with ids of their own. */
  ghost predicate Distinct(ms: seq<Message>, ids: set<string>, candidates: seq<Candidate>) {
    && (forall c | c in candidates ::
          c.idx < |ms| && ms[c.idx].role.Tool? && ms[c.idx].toolCallId == c.id != "" && c.id !in ids)
    && (forall i, j | 0 <= i < j < |candidates| :: candidates[i].id != candidates[j].id)
  }

  lemma {:induction false} TakingOneMore(
      config: Config, ms: seq<Message>, ids: set<string>, candidates: seq<Candidate>, k: nat)
    requires ResultsUnique(ms) && Distinct(ms, ids, candidates) && k < |candidates|
    ensures candidates[k].id !in ids + IdsOf(candidates[..k])
    ensures ids + IdsOf(candidates[..k + 1]) == ids + IdsOf(candidates[..k]) + {candidates[k].id}
    ensures
      var c, before := candidates[k], Partly(config, ms, ids, candidates, k);
      Partly(config, ms, ids, candidates, k + 1) == before[c.idx := Compacted(config, before[c.idx])]
  {
    assert candidates[..k + 1] == candidates[..k] + [candidates[k]];
    assert candidates[k] in candidates;
    ReplayStep(config, ms, ids + IdsOf(candidates[..k]), candidates[k].idx);
  }

  lemma {:induction false} LoopGoesOn(
      config: Config, ms: seq<Message>, ids: set<string>, candidates: seq<Candidate>, k: nat)
    requires ResultsUnique(ms) && Distinct(ms, ids, candidates) && k <= |candidates|
    requires k == 0 ==> config.promptTokens(Partly(config, ms, ids, candidates, 0)) > InputBudget(config)
    requires 0 < k < |candidates| ==>
      config.promptTokens(Partly(config, ms, ids, candidates, k)) > InputBudget(config) * 85 / 100
    ensures
      var messages := Partly(config, ms, ids, candidates, k);
      var p := Progress(messages, ids + IdsOf(candidates[..k]), k, config.promptTokens(messages));
      forall n | k <= n < CompactLoop(config, candidates, p).taken :: GoesOn(config, ms, ids, candidates, n)
    decreases |candidates| - k
  {
    if k < |candidates| {
      var messages := Partly(config, ms, ids, candidates, k);
      var p := Progress(messages, ids + IdsOf(candidates[..k]), k, config.promptTokens(messages));
      if !(k == |candidates| - 1 && p.estimate <= InputBudget(config)) {
        TakingOneMore(config, ms, ids, candidates, k);
        var next := Passed(config, candidates, p);
        assert next.messages == Partly(config, ms, ids, candidates, k + 1);
        if next.estimate > InputBudget(config) * 85 / 100 || k + 1 == |candidates| {
          LoopGoesOn(config, ms, ids, candidates, k + 1);
        }
      }
    }
  }

  /** With unique ids, the loop compacts no more than it takes: before each candidate it took,
      the request used more than 85 percent of the budget, and before the first and before
      the newest one it did not fit. */
  lemma {:induction false} NothingGoesNeedlessly(config: Config, ms: seq<Message>, ids: set<string>, n: nat)
    requires InputBudget(config) > 0 && ResultsUnique(ms) && n < CompactInflight(config, ms, ids).taken
    ensures
      var candidates := Candidates(config, ApplyRecorded(config, ms, ids), ids);
      n < |candidates| && GoesOn(config, ms, ids, candidates, n)
  {
    var start := Start(config, ms, ids);
    var candidates := Candidates(config, start.messages, ids);
    CandidatesAreDistinct(config, ms, ids);
    assert candidates[..0] == [] && ids + IdsOf([]) == ids;
    LoopGoesOn(config, ms, ids, candidates, 0);
  }

  /** When it stops, the replay alone fits, or 85 percent of the budget is met, or only the
      newest candidate is left and the budget is met, or none is left. */
  lemma {:induction false} StopsWhenItMay(config: Config, ms: seq<Message>, ids: set<string>)
    requires InputBudget(config) > 0
    ensures
      var r, budget := CompactInflight(config, ms, ids), InputBudget(config);
      var candidates := Candidates(config, ApplyRecorded(config, ms, ids), ids);
      || (r.taken == 0 && config.promptTokens(ApplyRecorded(config, ms, ids)) <= budget)
      || config.promptTokens(r.messages) <= budget * 85 / 100
      || (r.taken + 1 == |candidates| && config.promptTokens(r.messages) <= budget)
      || r.taken == |candidates|
  {
    CompactionTakesOldest(config, ms, ids);
    var start := Start(config, ms, ids);
    if start.estimate > InputBudget(config) {
      CandidatesInRange(config, start.messages, ids);
      var candidates := Candidates(config, start.messages, ids);
      assert candidates[..0] == [] && ids + IdsOf([]) == ids;
      LoopTakesPrefix(config, candidates, ids, start);
    }
  }

  lemma {:induction false} CandidatesAreDistinct(config: Config, ms: seq<Message>, ids: set<string>)
    requires ResultsUnique(ms)
    ensures Distinct(ms, ids, Candidates(config, ApplyRecorded(config, ms, ids), ids))
  {
    var candidates := Candidates(config, ApplyRecorded(config, ms, ids), ids);
    CandidatesInRange(config, ApplyRecorded(config, ms, ids), ids);
    forall i, j | 0 <= i < j < |candidates| ensures candidates[i].id != candidates[j].id {
      assert candidates[i] in candidates && candidates[j] in candidates;
      if candidates[i].id == candidates[j].id { AnsweredTwice(ms, candidates[i].idx, candidates[j].idx); }
    }
  }
}
