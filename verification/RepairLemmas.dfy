/** What each repair pass keeps and what it establishes. */
module RepairLemmas {
  import opened Sequences
  import opened Wrappers
  import opened ChatMessages
  import opened RepairPasses

  /** A history without its tool results. */
  function NonTools(ms: seq<Message>): seq<Message> {
    if ms == [] then []
    else NonTools(Init(ms)) + if Last(ms).role.Tool? then [] else [Last(ms)]
  }

  // ------------------------------------------------------------ StripPlaceholders

  lemma {:induction false} StripPlaceholdersKeeps(ms: seq<Message>)
    ensures Calls(StripPlaceholders(ms)) == Calls(ms)
    ensures Declared(StripPlaceholders(ms)) == Declared(ms)
    ensures Answered(StripPlaceholders(ms)) == Answered(ms)
    ensures Bystanders(StripPlaceholders(ms)) == Bystanders(ms)
    ensures ResultsDeclared(ms) ==> ResultsDeclared(StripPlaceholders(ms))
  {
    if ms != [] {
      StripPlaceholdersKeeps(Init(ms));
      Snoc(StripPlaceholders(Init(ms)), Last(ms));
      if BarePlaceholder(Last(ms)) {
        assert StripPlaceholders(ms) == StripPlaceholders(Init(ms));
      }
    }
  }

  lemma {:induction false} StripPlaceholdersEstablishes(ms: seq<Message>)
    ensures NoBarePlaceholder(StripPlaceholders(ms))
  {
    if ms != [] {
      StripPlaceholdersEstablishes(Init(ms));
      InitSnoc(StripPlaceholders(Init(ms)), Last(ms));
    }
  }

  lemma {:induction false} StripPlaceholdersFixes(ms: seq<Message>)
    requires NoBarePlaceholder(ms)
    ensures StripPlaceholders(ms) == ms
  {
    if ms != [] {
      StripPlaceholdersFixes(Init(ms));
      Split(ms);
    }
  }

  // --------------------------------------------------------------- StripMalformed

  lemma {:induction false} ValidCallsKeeps(calls: seq<ToolCall>)
    ensures AllNamesValid(ValidCalls(calls))
    ensures |ValidCalls(calls)| <= |calls|
    ensures |ValidCalls(calls)| == |calls| <==> AllNamesValid(calls)
    ensures AllNamesValid(calls) ==> ValidCalls(calls) == calls
  {
    if calls != [] {
      var p := ValidCalls(Init(calls));
      ValidCallsKeeps(Init(calls));
      assert calls == Init(calls) + [Last(calls)];
      assert Init(p + [Last(calls)]) == p;
      assert p + [] == p;
    }
  }

  lemma {:induction false} ValidCallsConcat(a: seq<ToolCall>, b: seq<ToolCall>)
    ensures ValidCalls(a + b) == ValidCalls(a) + ValidCalls(b)
  {
    if b == [] {
      assert a + b == a;
    } else {
      assert Init(a + b) == a + Init(b) && Last(a + b) == Last(b);
      ValidCallsConcat(a, Init(b));
    }
  }

  lemma {:induction false} Single(m: Message)
    ensures Calls([m]) == CallsOf(m) && Answered([m]) == Answers(m)
    ensures NamesValid([m]) <==> AllNamesValid(CallsOf(m))
  {
    Snoc([], m);
    assert [] + [m] == [m];
    assert [] + CallsOf(m) == CallsOf(m);
  }

  lemma {:induction false} WithoutMalformedKeeps(m: Message)
    ensures |WithoutMalformed(m)| <= 1
    ensures Calls(WithoutMalformed(m)) == ValidCalls(CallsOf(m))
    ensures Answered(WithoutMalformed(m)) == Answers(m)
    ensures Bystanders(WithoutMalformed(m)) == Bystanders([m])
    ensures NamesValid(WithoutMalformed(m))
    ensures AllNamesValid(CallsOf(m)) ==> WithoutMalformed(m) == [m]
  {
    ValidCallsKeeps(m.toolCalls);
    Single(m);
    if m.role.Assistant? && WithoutMalformed(m) != [m] {
      var kept := m.(toolCalls := ValidCalls(m.toolCalls));
      Single(kept);
      assert Init([kept]) == Init([m]) == [];
      assert Bystanders([kept]) == Bystanders([m]) == [];
    }
  }

  lemma {:induction false} StripMalformedKeeps(ms: seq<Message>)
    ensures Calls(StripMalformed(ms)) == ValidCalls(Calls(ms))
    ensures Answered(StripMalformed(ms)) == Answered(ms)
    ensures Bystanders(StripMalformed(ms)) == Bystanders(ms)
  {
    if ms != [] {
      var p, m := StripMalformed(Init(ms)), Last(ms);
      StripMalformedKeeps(Init(ms));
      WithoutMalformedKeeps(m);
      CallsConcat(p, WithoutMalformed(m));
      AnsweredConcat(p, WithoutMalformed(m));
      BystandersConcat(p, WithoutMalformed(m));
      ValidCallsConcat(Calls(Init(ms)), CallsOf(m));
      Snoc([], m);
      assert [] + [m] == [m];
    }
  }

  lemma {:induction false} StripMalformedEstablishes(ms: seq<Message>)
    ensures NamesValid(StripMalformed(ms))
  {
    if ms != [] {
      var p, w := StripMalformed(Init(ms)), WithoutMalformed(Last(ms));
      StripMalformedEstablishes(Init(ms));
      WithoutMalformedKeeps(Last(ms));
      if w == [] {
        InitSnoc(p, Last(ms));
      } else {
        Snoc(p, w[0]);
        Single(w[0]);
        assert w == [w[0]];
      }
    }
  }

  lemma {:induction false} StripMalformedFixes(ms: seq<Message>)
    requires NamesValid(ms)
    ensures StripMalformed(ms) == ms
  {
    if ms != [] {
      StripMalformedFixes(Init(ms));
      WithoutMalformedKeeps(Last(ms));
      Split(ms);
    }
  }

  // ------------------------------------------------------------------ DropOrphans

  lemma {:induction false} DropOrphansKeeps(ms: seq<Message>)
    ensures Calls(DropOrphans(ms)) == Calls(ms)
    ensures Declared(DropOrphans(ms)) == Declared(ms)
    ensures Bystanders(DropOrphans(ms)) == Bystanders(ms)
    ensures NonTools(DropOrphans(ms)) == NonTools(ms)
    ensures ResultsDeclared(DropOrphans(ms))
  {
    if ms != [] {
      DropOrphansKeeps(Init(ms));
      Snoc(DropOrphans(Init(ms)), Last(ms));
      if Last(ms).role.Tool? && !KeepsResult(Init(ms), Last(ms)) {
        assert DropOrphans(ms) == DropOrphans(Init(ms));
      }
    }
  }

  lemma {:induction false} DropOrphansUnique(ms: seq<Message>)
    ensures ResultsUnique(DropOrphans(ms))
  {
    if ms != [] {
      DropOrphansUnique(Init(ms));
      Snoc(DropOrphans(Init(ms)), Last(ms));
      if Last(ms).role.Tool? && !KeepsResult(Init(ms), Last(ms)) {
        assert DropOrphans(ms) == DropOrphans(Init(ms));
      }
    }
  }

  lemma {:induction false} UniqueIsHereditary(p: seq<Message>, m: Message)
    requires ResultsUnique(p + [m])
    ensures ResultsUnique(p)
    ensures m.role.Tool? && m.toolCallId != "" ==> m.toolCallId !in Answered(p)
  {
    Snoc(p, m);
    assert forall id: string :: Answered(p)[id] <= Answered(p + [m])[id];
    assert m.role.Tool? && m.toolCallId != "" ==> Answered(p + [m])[m.toolCallId] == Answered(p)[m.toolCallId] + 1;
  }

  lemma {:induction false} DropOrphansFixes(ms: seq<Message>)
    requires ResultsDeclared(ms) && ResultsUnique(ms)
    ensures DropOrphans(ms) == ms
  {
    if ms != [] {
      Split(ms);
      UniqueIsHereditary(Init(ms), Last(ms));
      DropOrphansFixes(Init(ms));
    }
  }

  /** When every result is declared, dropping only removes repetitions. */
  lemma {:induction false} DropOrphansKeepsAnswers(ms: seq<Message>)
    requires ResultsDeclared(ms)
    ensures forall id: string :: id in Answered(DropOrphans(ms)) <==> id in Answered(ms)
  {
    if ms != [] {
      var p, m := DropOrphans(Init(ms)), Last(ms);
      DropOrphansKeepsAnswers(Init(ms));
      if m.role.Tool? && !KeepsResult(Init(ms), m) {
        assert DropOrphans(ms) == p;
      } else {
        assert Init(p + [m]) == p && Last(p + [m]) == m;
      }
    }
  }

  /** Dropping reads from left to right and never looks ahead: with `ResultsUnique`
      this makes it the first admissible result of an id that survives. */
  lemma {:induction false} DropOrphansIsPrefixStable(ms: seq<Message>, rest: seq<Message>)
    ensures DropOrphans(ms) <= DropOrphans(ms + rest)
  {
    if rest == [] {
      assert ms + rest == ms;
    } else {
      assert Init(ms + rest) == ms + Init(rest);
      DropOrphansIsPrefixStable(ms, Init(rest));
    }
  }

  // --------------------------------------------------------------------- Backfill

  lemma {:induction false} MissingForCount(calls: seq<ToolCall>, answered: multiset<string>, id: string)
    ensures Answered(MissingFor(calls, answered))[id] == if id in answered then 0 else CallBag(calls)[id]
  {
    if calls != [] {
      var r := MissingFor(Init(calls), answered);
      MissingForCount(Init(calls), answered, id);
      Snoc(r, Synthetic(Last(calls)));
      assert r + [] == r;
    }
  }

  lemma {:induction false} MissingForMembers(calls: seq<ToolCall>, answered: multiset<string>)
    ensures forall x | x in MissingFor(calls, answered) ::
              x.role.Tool? && x.toolCallId != "" && x.toolCallId in CallBag(calls) && x.toolCallId !in answered
  {
    if calls != [] {
      MissingForMembers(Init(calls), answered);
    }
  }

  lemma MissingForNothing(calls: seq<ToolCall>, answered: multiset<string>)
    requires forall id: string :: id in CallBag(calls) ==> id in answered
    ensures MissingFor(calls, answered) == []
  {
    MissingForMembers(calls, answered);
    assert forall x :: x !in MissingFor(calls, answered);
  }

  predicate ToolsOnly(ms: seq<Message>) {
    forall m | m in ms :: m.role.Tool?
  }

  lemma {:induction false} ToolsDeclareNothing(ms: seq<Message>)
    requires ToolsOnly(ms)
    ensures Declared(ms) == multiset{} && Calls(ms) == [] && Bystanders(ms) == []
  {
    if ms != [] {
      ToolsDeclareNothing(Init(ms));
    }
  }

  lemma {:induction false} BystandersConcat(a: seq<Message>, b: seq<Message>)
    ensures Bystanders(a + b) == Bystanders(a) + Bystanders(b)
  {
    if b == [] {
      assert a + b == a;
    } else {
      assert Init(a + b) == a + Init(b) && Last(a + b) == Last(b);
      BystandersConcat(a, Init(b));
    }
  }

  lemma {:induction false} DeclaredTools(a: seq<Message>, b: seq<Message>)
    requires ResultsDeclared(a)
    requires forall x | x in b :: x.role.Tool? && x.toolCallId != "" && x.toolCallId in Declared(a)
    ensures ResultsDeclared(a + b)
  {
    if b == [] {
      assert a + b == a;
    } else {
      assert Init(a + b) == a + Init(b) && Last(a + b) == Last(b);
      DeclaredTools(a, Init(b));
      DeclaredConcat(a, Init(b));
    }
  }

  /** The extra messages of `Weave`, stated for a prefix of the walk. */
  predicate ExtraIsMissing(ms: seq<Message>, extra: seq<seq<Message>>, answered: multiset<string>) {
    |ms| == |extra| && forall i | 0 <= i < |ms| :: extra[i] == MissingFor(CallsOf(ms[i]), answered)
  }

  /** The walk keeps all calls and bystanders and puts every synthetic result
      behind its declaration ... */
  predicate Walked(ms: seq<Message>, done: seq<Message>, due: seq<Message>) {
    && Calls(done) == Calls(ms) && Declared(done) == Declared(ms)
    && Bystanders(done) == Bystanders(ms)
    && (forall x | x in due :: x.role.Tool? && x.toolCallId != "" && x.toolCallId in Declared(done))
    && (ResultsDeclared(ms) ==> ResultsDeclared(done))
  }

  lemma {:induction false} WalkedTogether(ms: seq<Message>, done: seq<Message>, due: seq<Message>)
    requires Walked(ms, done, due)
    ensures Walked(ms, done + due, [])
  {
    ToolsDeclareNothing(due);
    DeclaredConcat(done, due);
    CallsConcat(done, due);
    BystandersConcat(done, due);
    if ResultsDeclared(ms) { DeclaredTools(done, due); }
  }

  lemma {:induction false} WalkTool(p: seq<Message>, done: seq<Message>, due: seq<Message>, m: Message)
    requires Walked(p, done, due) && m.role.Tool?
    ensures Walked(p + [m], done + [m], due)
  {
    Snoc(p, m);
    Snoc(done, m);
  }

  lemma {:induction false} WalkOther(p: seq<Message>, done: seq<Message>, answered: multiset<string>, m: Message)
    requires Walked(p, done, []) && !m.role.Tool?
    ensures Walked(p + [m], done + [m], MissingFor(CallsOf(m), answered))
  {
    MissingForMembers(CallsOf(m), answered);
    Snoc(p, m);
    Snoc(done, m);
  }

  lemma {:induction false} WeaveKeeps(ms: seq<Message>, extra: seq<seq<Message>>, answered: multiset<string>)
    requires ExtraIsMissing(ms, extra, answered)
    ensures Walked(ms, Weave(ms, extra).0, Weave(ms, extra).1)
  {
    if ms == [] {
      assert Weave(ms, extra) == ([], []);
    } else {
      var m := Last(ms);
      assert ms == Init(ms) + [m];
      assert Last(extra) == MissingFor(CallsOf(m), answered);
      var (done, due) := Weave(Init(ms), Init(extra));
      WeaveKeeps(Init(ms), Init(extra), answered);
      if m.role.Tool? {
        assert Last(extra) == [] && due + Last(extra) == due;
        assert Weave(ms, extra) == (done + [m], due);
        WalkTool(Init(ms), done, due, m);
      } else {
        WalkedTogether(Init(ms), done, due);
        WalkOther(Init(ms), done + due, answered, m);
        assert Weave(ms, extra) == (done + due + [m], Last(extra));
      }
    }
  }

  /** ... and adds exactly the unanswered declarations. */
  lemma {:induction false} WeaveCount(
    ms: seq<Message>, extra: seq<seq<Message>>, answered: multiset<string>, id: string)
    requires ExtraIsMissing(ms, extra, answered)
    ensures Answered(Weave(ms, extra).0)[id] + Answered(Weave(ms, extra).1)[id] ==
            Answered(ms)[id] + if id in answered then 0 else Declared(ms)[id]
  {
    if ms != [] {
      var m := Last(ms);
      var (done, due) := Weave(Init(ms), Init(extra));
      WeaveCount(Init(ms), Init(extra), answered, id);
      MissingForCount(CallsOf(m), answered, id);
      assert Last(extra) == MissingFor(CallsOf(m), answered);
      if m.role.Tool? {
        assert due + Last(extra) == due;
        Snoc(done, m);
      } else {
        AnsweredConcat(done, due);
        Snoc(done + due, m);
      }
    }
  }

  lemma {:induction false} BackfillKeeps(ms: seq<Message>)
    ensures Calls(Backfill(ms)) == Calls(ms)
    ensures Declared(Backfill(ms)) == Declared(ms)
    ensures Bystanders(Backfill(ms)) == Bystanders(ms)
    ensures ResultsDeclared(ms) ==> ResultsDeclared(Backfill(ms))
    ensures forall id: string ::
              Answered(Backfill(ms))[id] ==
              if id in Answered(ms) then Answered(ms)[id] else Declared(ms)[id]
    ensures AllAnswered(Backfill(ms))
  {
    var extra := Missing(ms, Answered(ms));
    var (done, due) := Weave(ms, extra);
    WeaveKeeps(ms, extra, Answered(ms));
    WalkedTogether(ms, done, due);
    AnsweredConcat(done, due);
    forall id: string
      ensures Answered(Backfill(ms))[id] == if id in Answered(ms) then Answered(ms)[id] else Declared(ms)[id]
    {
      WeaveCount(ms, extra, Answered(ms), id);
    }
  }

  lemma {:induction false} WeaveNothing(ms: seq<Message>, extra: seq<seq<Message>>)
    requires |ms| == |extra| && forall i | 0 <= i < |extra| :: extra[i] == []
    ensures Weave(ms, extra) == (ms, [])
  {
    if ms != [] {
      WeaveNothing(Init(ms), Init(extra));
      assert Last(extra) == [];
      var none: seq<Message> := [];
      assert none + Last(extra) == none;
      assert Init(ms) + none + [Last(ms)] == Init(ms) + [Last(ms)] == ms;
    }
  }

  lemma {:induction false} DeclaresIsDeclared(ms: seq<Message>, i: nat)
    requires i < |ms|
    ensures Declares(ms[i]) <= Declared(ms)
  {
    if i < |ms| - 1 { DeclaresIsDeclared(Init(ms), i); }
  }

  lemma {:induction false} BackfillNothing(ms: seq<Message>)
    requires AllAnswered(ms)
    ensures Backfill(ms) == ms
  {
    var extra := Missing(ms, Answered(ms));
    forall i | 0 <= i < |ms| ensures extra[i] == [] {
      DeclaresIsDeclared(ms, i);
      MissingForNothing(CallsOf(ms[i]), Answered(ms));
    }
    WeaveNothing(ms, extra);
  }

  lemma {:induction false} NonToolsConcat(a: seq<Message>, b: seq<Message>)
    ensures NonTools(a + b) == NonTools(a) + NonTools(b)
    ensures ToolsOnly(b) ==> NonTools(b) == []
  {
    if b == [] {
      assert a + b == a;
    } else {
      assert Init(a + b) == a + Init(b) && Last(a + b) == Last(b);
      NonToolsConcat(a, Init(b));
    }
  }

  lemma {:induction false} WeaveKeepsNonTools(ms: seq<Message>, extra: seq<seq<Message>>)
    requires |ms| == |extra| && forall i | 0 <= i < |ms| :: ToolsOnly(extra[i])
    ensures NonTools(Weave(ms, extra).0) == NonTools(ms) && ToolsOnly(Weave(ms, extra).1)
  {
    if ms != [] {
      var m := Last(ms);
      var (done, due) := Weave(Init(ms), Init(extra));
      WeaveKeepsNonTools(Init(ms), Init(extra));
      if m.role.Tool? {
        NonToolsConcat(done, [m]);
        assert ToolsOnly(extra[|ms| - 1]);
      } else {
        NonToolsConcat(done, due);
        assert Init(done + due + [m]) == done + due;
        assert ToolsOnly(extra[|ms| - 1]);
      }
    }
  }

  /** Backfilling inserts and never reorders: without the tool results, a history
      and its backfilled form are the same list. */
  lemma {:induction false} BackfillKeepsNonTools(ms: seq<Message>)
    ensures NonTools(Backfill(ms)) == NonTools(ms)
  {
    var extra := Missing(ms, Answered(ms));
    forall i | 0 <= i < |ms| ensures ToolsOnly(extra[i]) {
      MissingForMembers(CallsOf(ms[i]), Answered(ms));
    }
    WeaveKeepsNonTools(ms, extra);
    NonToolsConcat(Weave(ms, extra).0, Weave(ms, extra).1);
  }

  /** Whether a bare placeholder is left depends only on what is not a tool result. */
  lemma {:induction false} NoBareOfNonTools(ms: seq<Message>)
    ensures NoBarePlaceholder(ms) <==> NoBarePlaceholder(NonTools(ms))
  {
    if ms != [] {
      var p := NonTools(Init(ms));
      NoBareOfNonTools(Init(ms));
      assert Init(p + [Last(ms)]) == p;
      assert p + [] == p;
    }
  }
}
