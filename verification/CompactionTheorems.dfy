/** What in-flight compaction guarantees: it rewrites nothing but tool results, its
    outcome can be replayed from the id set it leaves behind, and it stops where it
    should. */
module CompactionTheorems {
  import opened Sequences
  import opened Wrappers
  import opened ChatMessages
  import opened CompactionSpec

  lemma {:induction false} AnsweredTwice(ms: seq<Message>, i: nat, j: nat)
    requires i < j < |ms| && ms[i].role.Tool? && ms[j].role.Tool?
    requires ms[i].toolCallId == ms[j].toolCallId != ""
    ensures Answered(ms)[ms[i].toolCallId] >= 2
  {
    if j < |ms| - 1 {
      AnsweredTwice(Init(ms), i, j);
    } else {
      AnsweredOnce(Init(ms), i);
    }
  }

  lemma {:induction false} AnsweredOnce(ms: seq<Message>, i: nat)
    requires i < |ms| && ms[i].role.Tool? && ms[i].toolCallId != ""
    ensures ms[i].toolCallId in Answered(ms)
  {
    if i < |ms| - 1 { AnsweredOnce(Init(ms), i); }
  }

  // -------------------------------------------------------- only contents change

  lemma {:induction false} OffloadKeepsShape(config: Config, ms: seq<Message>)
    ensures SameShape(ms, Offloaded(config, ms))
  {
    var b := Offloaded(config, ms);
    forall i | 0 <= i < |ms|
      ensures b[i] == if ms[i].role.Tool? then ms[i].(content := b[i].content) else ms[i]
    {
      assert b[i] == OffloadedMessage(config, ms[i], i);
    }
  }

  lemma {:induction false} LoopKeepsShape(config: Config, candidates: seq<Candidate>, p: Progress)
    requires p.taken <= |candidates|
    requires forall c | c in candidates :: c.idx < |p.messages| && p.messages[c.idx].role.Tool?
    ensures SameShape(p.messages, CompactLoop(config, candidates, p).messages)
    decreases |candidates| - p.taken
  {
    if p.taken < |candidates| {
      var c := candidates[p.taken];
      if c.id in p.ids {
        LoopKeepsShape(config, candidates, p.(taken := p.taken + 1));
      } else {
        LoopKeepsShape(config, candidates, Passed(config, candidates, p));
      }
    }
  }

  lemma {:induction false} CompactionKeepsShape(config: Config, ms: seq<Message>, ids: set<string>)
    ensures SameShape(ms, CompactInflight(config, ms, ids).messages)
  {
    var start := Start(config, ms, ids);
    assert SameShape(ms, start.messages);
    CandidatesInRange(config, start.messages, ids);
    LoopKeepsShape(config, Candidates(config, start.messages, ids), start);
  }

  // ---------------------------------------------------------------------- replay

  /** With unique result ids, compacting one more candidate is what one more
      recorded id replays to. */
  lemma {:induction false} ReplayStep(config: Config, ms: seq<Message>, ids: set<string>, idx: nat)
    requires ResultsUnique(ms)
    requires idx < |ms| && ms[idx].role.Tool? && ms[idx].toolCallId != ""
    ensures var before := ApplyRecorded(config, ms, ids);
            ApplyRecorded(config, ms, ids + {ms[idx].toolCallId}) == before[idx := Compacted(config, before[idx])]
  {
    var before, after := ApplyRecorded(config, ms, ids), ApplyRecorded(config, ms, ids + {ms[idx].toolCallId});
    var expected := before[idx := Compacted(config, before[idx])];
    forall i | 0 <= i < |ms| ensures after[i] == expected[i] {
      if i != idx && ms[i].role.Tool? && ms[i].toolCallId == ms[idx].toolCallId {
        if i < idx { AnsweredTwice(ms, i, idx); } else { AnsweredTwice(ms, idx, i); }
      }
    }
  }

  lemma {:induction false} LoopReplays(config: Config, ms: seq<Message>, candidates: seq<Candidate>, p: Progress)
    requires ResultsUnique(ms)
    requires p.taken <= |candidates|
    requires forall c | c in candidates ::
               c.idx < |ms| && ms[c.idx].role.Tool? && ms[c.idx].toolCallId == c.id != ""
    requires p.messages == ApplyRecorded(config, ms, p.ids)
    ensures CompactLoop(config, candidates, p).messages ==
            ApplyRecorded(config, ms, CompactLoop(config, candidates, p).ids)
    decreases |candidates| - p.taken
  {
    if p.taken < |candidates| {
      var c := candidates[p.taken];
      assert c in candidates;
      if c.id in p.ids {
        LoopReplays(config, ms, candidates, p.(taken := p.taken + 1));
      } else {
        ReplayStep(config, ms, p.ids, c.idx);
        LoopReplays(config, ms, candidates, Passed(config, candidates, p));
      }
    }
  }

  /** The next request, which only replays the recorded ids, sees what this one saw. */
  lemma {:induction false} CompactionReplays(config: Config, ms: seq<Message>, ids: set<string>)
    requires InputBudget(config) > 0 && ResultsUnique(ms)
    ensures var r := CompactInflight(config, ms, ids);
            r.messages == ApplyRecorded(config, ms, r.ids)
  {
    var start := Start(config, ms, ids);
    CandidatesInRange(config, start.messages, ids);
    LoopReplays(config, ms, Candidates(config, start.messages, ids), start);
  }

  /** Without unique ids the replay can go further than the loop went: of two
      results that share an id, the loop compacts the first and skips the second. */
  lemma {:induction false} ReplayNeedsUniqueIds(config: Config, big: Message)
    requires InputBudget(config) > 0 && forall ms :: config.promptTokens(ms) > InputBudget(config)
    requires IsCandidate(config, big, 0, {}) && big.content.text != CompactionText(config, big)
    ensures var r := CompactInflight(config, [big, big], {});
            r.messages == [Compacted(config, big), big]
              && ApplyRecorded(config, [big, big], r.ids) == [Compacted(config, big), Compacted(config, big)]
            && r.messages != ApplyRecorded(config, [big, big], r.ids)
  {
    var two := [big, big];
    var start := Start(config, two, {});
    assert start.messages == two;
    assert Init(two) == [big] && Init([big]) == [];
    var cs := Candidates(config, two, {});
    assert Candidates(config, [big], {}) == [Candidate(0, big.toolCallId)];
    assert cs == [Candidate(0, big.toolCallId), Candidate(1, big.toolCallId)];
    var after := [Compacted(config, big), big];
    assert two[0 := Compacted(config, big)] == after;
    var p := Progress(after, {} + {big.toolCallId}, 1, config.promptTokens(after));
    assert CompactLoop(config, cs, start) == CompactLoop(config, cs, p);
    assert CompactLoop(config, cs, p) == p.(taken := 2);
  }

  /** A budget that no estimate meets, and notices that say nothing. */
  function Crowded(): Config {
    Config(100000, 10, None, None, 0, {"exec"}, 1000, (n: string, c: Content) => c, (i: string, c: Content) => None,
           (s: string, n: int) => s, (n: string) => "", (ms: seq<Message>) => 1000, (m: Message) => 1)
  }

  function Long(): Message {
    Message(Tool, Text(seq(MICROCOMPACT_MIN_CHARS, i => 'a')), [], "x", Some("exec"))
  }

  /** It happens: two long results with the id "x". */
  lemma {:induction false} LoopAndReplayDiffer()
    ensures
      var r := CompactInflight(Crowded(), [Long(), Long()], {});
      && r.messages == [Compacted(Crowded(), Long()), Long()]
      && r.messages != ApplyRecorded(Crowded(), [Long(), Long()], r.ids)
  {
    assert |Long().content.text| == MICROCOMPACT_MIN_CHARS;
    ReplayNeedsUniqueIds(Crowded(), Long());
  }

  // --------------------------------------------------------------- order and exit

  function IdsOf(candidates: seq<Candidate>): set<string> {
    set c | c in candidates :: c.id
  }

  /** Where the loop may stop: the target is met; or only the newest candidate is
      left and the budget is met; or no candidate is left. */
  predicate StopsRight(config: Config, candidates: seq<Candidate>, r: Progress) {
    || r.taken == |candidates|
    || r.estimate <= Target(InputBudget(config))
    || (r.taken == |candidates| - 1 && r.estimate <= InputBudget(config))
  }

  lemma {:induction false} LoopTakesPrefix(config: Config, candidates: seq<Candidate>, ids: set<string>, p: Progress)
    requires p.taken <= |candidates| && p.ids == ids + IdsOf(candidates[..p.taken])
    requires forall c | c in candidates :: c.idx < |p.messages|
    requires p.estimate == config.promptTokens(p.messages)
    ensures var r := CompactLoop(config, candidates, p);
            && p.taken <= r.taken <= |candidates|
            && r.ids == ids + IdsOf(candidates[..r.taken])
            && r.estimate == config.promptTokens(r.messages)
            && StopsRight(config, candidates, r)
    decreases |candidates| - p.taken
  {
    if p.taken < |candidates| {
      var c := candidates[p.taken];
      assert candidates[..p.taken + 1] == candidates[..p.taken] + [c];
      if c.id in p.ids {
        LoopTakesPrefix(config, candidates, ids, p.(taken := p.taken + 1));
      } else {
        LoopTakesPrefix(config, candidates, ids,
                        Passed(config, candidates, p));
      }
    }
  }

  /** Candidates are taken oldest first, recorded ids only accumulate, the reported
      estimate is that of the result, and the loop stops where it may. */
  lemma {:induction false} CompactionTakesOldest(config: Config, ms: seq<Message>, ids: set<string>)
    requires InputBudget(config) > 0
    ensures var replayed := ApplyRecorded(config, ms, ids);
            var candidates := Candidates(config, replayed, ids);
            var r := CompactInflight(config, ms, ids);
            && r.taken <= |candidates|
            && r.ids == ids + IdsOf(candidates[..r.taken])
            && r.estimate == config.promptTokens(r.messages)
            && (r.estimate <= InputBudget(config) || StopsRight(config, candidates, r))
            && forall i, j | 0 <= i < j < |candidates| :: candidates[i].idx < candidates[j].idx
  {
    var start := Start(config, ms, ids);
    var candidates := Candidates(config, start.messages, ids);
    CandidatesInRange(config, start.messages, ids);
    assert candidates[..0] == [];
    LoopTakesPrefix(config, candidates, ids, start);
  }

  /** What is not recorded beforehand is only touched if it is in flight, of a
      compactable tool, and long. */
  lemma {:induction false} LoopTouchesCandidates(config: Config, candidates: seq<Candidate>, p: Progress, i: nat)
    requires p.taken <= |candidates| && i < |p.messages|
    requires forall c | c in candidates :: c.idx < |p.messages| && c.idx != i
    ensures CompactLoop(config, candidates, p).messages[i] == p.messages[i]
    decreases |candidates| - p.taken
  {
    if p.taken < |candidates| {
      var c := candidates[p.taken];
      assert c in candidates;
      if c.id in p.ids {
        LoopTouchesCandidates(config, candidates, p.(taken := p.taken + 1), i);
      } else {
        LoopTouchesCandidates(config, candidates,
                              Passed(config, candidates, p), i);
      }
    }
  }

  lemma {:induction false} CompactionSparesTheRest(config: Config, ms: seq<Message>, ids: set<string>, i: nat)
    requires i < |ms| && InputBudget(config) > 0 && !IsCandidate(config, ms[i], i, ids)
    ensures CompactInflight(config, ms, ids).messages[i] == ApplyRecorded(config, ms, ids)[i]
  {
    var start := Start(config, ms, ids);
    var candidates := Candidates(config, start.messages, ids);
    CandidatesInRange(config, start.messages, ids);
    forall c | c in candidates ensures c.idx != i {
      assert IsCandidate(config, start.messages[c.idx], c.idx, ids);
    }
    LoopTouchesCandidates(config, candidates, start, i);
  }
}
