/** What repair does to tool results. The first answer that a call got is kept as it was, in
    its place among the others; a call that got none gets one synthetic result, in the run of
    results right behind its assistant; and there is nothing else. */
module RepairAnswers {
  import opened ChatMessages
  import opened RepairContents
  import opened RepairLemmas
  import opened RepairPasses
  import opened RepairTheorems
  import opened Sequences
  import opened Wrappers

  /** The first result of each id behind a call with a usable name, in order. */
  function FirstAnswers(ms: seq<Message>): seq<Message> {
    if ms == [] then []
    else
      var m := Last(ms);
      FirstAnswers(Init(ms)) +
      if m.role.Tool? && m.toolCallId in Usable(Init(ms)) && !AnsweredInTime(Init(ms), m.toolCallId)
      then [m] else []
  }

  function Result(m: Message): seq<Message> { if m.role.Tool? then [m] else [] }

  /** The same with all calls, for a history whose names are valid. */
  function FirstResults(ms: seq<Message>): seq<Message> {
    if ms == [] then []
    else
      FirstResults(Init(ms)) +
      if Last(ms).role.Tool? && Last(ms).toolCallId in Declared(Init(ms)) && !InTime(Init(ms), Last(ms).toolCallId)
      then [Last(ms)] else []
  }

  lemma {:induction false} DropOrphansKeepsFirst(ms: seq<Message>)
    ensures Select(DropOrphans(ms), Result) == FirstResults(ms)
  {
    if ms != [] {
      var m := Last(ms);
      DropOrphansKeepsFirst(Init(ms));
      DropOrphansAnswers(Init(ms), m.toolCallId);
      DeclaredIsCallBag(Init(ms));
      NoEmptyId(Calls(Init(ms)));
      InitSnoc(DropOrphans(Init(ms)), m);
    }
  }

  lemma {:induction false} StripsKeepResults(ms: seq<Message>)
    ensures FirstResults(StripMalformed(StripPlaceholders(ms))) == FirstAnswers(ms)
  {
    if ms != [] {
      var p, m := StripPlaceholders(Init(ms)), Last(ms);
      var c, w := StripMalformed(p), WithoutMalformed(m);
      StripsKeepResults(Init(ms));
      StripsDeclareUsable(Init(ms));
      StripsKeepAnswers(Init(ms), m.toolCallId);
      InitSnoc(p, m);
      if BarePlaceholder(m) || w == [] {
        assert StripMalformed(StripPlaceholders(ms)) == c;
      } else {
        InitSnoc(c, w[0]);
        assert StripMalformed(StripPlaceholders(ms)) == c + [w[0]];
      }
    }
  }

  /** The results of a history whose ids are answered in another. */
  function AnsweredOnly(ms: seq<Message>): Message -> seq<Message> {
    (m: Message) => if m.role.Tool? && AnsweredInTime(ms, m.toolCallId) then [m] else []
  }

  lemma {:induction false} CleanedAnswers(ms: seq<Message>, id: string)
    ensures id in Answered(Cleaned(ms)) <==> AnsweredInTime(ms, id)
  {
    StripsKeepAnswers(ms, id);
    DropOrphansAnswers(StripMalformed(StripPlaceholders(ms)), id);
  }

  lemma {:induction false} SelectSame<T>(ms: seq<Message>, f: Message -> seq<T>, g: Message -> seq<T>)
    requires forall m | m in ms :: f(m) == g(m)
    ensures Select(ms, f) == Select(ms, g)
  {
    if ms != [] {
      assert Last(ms) in ms && forall m | m in Init(ms) :: m in ms;
      SelectSame(Init(ms), f, g);
    }
  }

  lemma {:induction false} ResultIsAnswered(ms: seq<Message>, m: Message)
    requires ResultsDeclared(ms) && m in ms && m.role.Tool?
    ensures m.toolCallId in Answered(ms)
  {
    if m in Init(ms) { ResultIsAnswered(Init(ms), m); }
  }

  /** Every first answer is in the repaired history, unchanged and in order, and there is no
      other result with such an id. */
  lemma {:induction false} RepairKeepsFirstAnswers(ms: seq<Message>)
    ensures Select(Repair(ms), AnsweredOnly(ms)) == FirstAnswers(ms)
  {
    var d, f := Cleaned(ms), AnsweredOnly(ms);
    forall m: Message | m.role.Tool? && m.toolCallId !in Answered(d) ensures f(m) == [] {
      CleanedAnswers(ms, m.toolCallId);
    }
    BackfillSelects(d, f);
    StripsKeepResults(ms);
    DropOrphansKeepsFirst(StripMalformed(StripPlaceholders(ms)));
    DropOrphansKeeps(StripMalformed(StripPlaceholders(ms)));
    forall m | m in d ensures f(m) == Result(m) {
      if m.role.Tool? {
        ResultIsAnswered(d, m);
        CleanedAnswers(ms, m.toolCallId);
      }
    }
    SelectSame(d, f, Result);
  }

  // ------------------------------------------------------------- the synthetic results

  /** The calls of the assistant in whose run of results the list ends. */
  function OpenCalls(ms: seq<Message>): seq<ToolCall> {
    if ms == [] then [] else if Last(ms).role.Tool? then OpenCalls(Init(ms)) else CallsOf(Last(ms))
  }

  /** The synthetic result of a call: its id, the name of the function, and a notice. */
  predicate StandsFor(m: Message, tc: ToolCall) {
    && tc.Call? && tc.id != "" && m.toolCallId == tc.id && m.toolCalls == []
    && m.content == Text("[Tool result unavailable \U{2014} call was interrupted or lost]")
    && (tc.fn.Some? && tc.fn.value.StringName? ==> m.name == Some(tc.fn.value.text))
    && (tc.fn.None? ==> m.name == Some(""))
  }

  predicate StandsForOneOf(m: Message, calls: seq<ToolCall>) {
    m.role.Tool? && exists k :: 0 <= k < |calls| && StandsFor(m, calls[k])
  }

  /** Every result whose id is not in `answered` is synthetic and stands in the run of
      results right behind the assistant that made its call. */
  predicate AtHome(ms: seq<Message>, answered: multiset<string>) {
    ms == [] ||
    (AtHome(Init(ms), answered) &&
     (Last(ms).role.Tool? && Last(ms).toolCallId !in answered ==> StandsForOneOf(Last(ms), OpenCalls(Init(ms)))))
  }

  lemma {:induction false} SyntheticStandsFor(calls: seq<ToolCall>, answered: multiset<string>)
    ensures forall x | x in MissingFor(calls, answered) :: StandsForOneOf(x, calls) && x.toolCallId !in answered
  {
    if calls != [] {
      SyntheticStandsFor(Init(calls), answered);
      forall x | x in MissingFor(calls, answered) ensures StandsForOneOf(x, calls) {
        if x in MissingFor(Init(calls), answered) {
          var k :| 0 <= k < |Init(calls)| && StandsFor(x, Init(calls)[k]);
          assert StandsFor(x, calls[k]);
        } else {
          assert StandsFor(x, calls[|calls| - 1]);
        }
      }
    }
  }

  lemma {:induction false} DueAtHome(done: seq<Message>, due: seq<Message>, answered: multiset<string>)
    requires AtHome(done, answered) && forall x | x in due :: StandsForOneOf(x, OpenCalls(done))
    ensures AtHome(done + due, answered) && OpenCalls(done + due) == OpenCalls(done)
  {
    if due == [] {
      assert done + due == done;
    } else {
      assert Init(done + due) == done + Init(due) && Last(done + due) == Last(due);
      assert Last(due) in due;
      DueAtHome(done, Init(due), answered);
    }
  }

  lemma {:induction false} WeaveAtHome(ms: seq<Message>, extra: seq<seq<Message>>, answered: multiset<string>)
    requires ExtraIsMissing(ms, extra, answered)
    requires forall x | x in ms && x.role.Tool? :: x.toolCallId in answered
    ensures
      var (done, due) := Weave(ms, extra);
      && AtHome(done, answered) && OpenCalls(done) == OpenCalls(ms)
      && forall x | x in due :: StandsForOneOf(x, OpenCalls(done))
  {
    if ms != [] {
      var m := Last(ms);
      var (done, due) := Weave(Init(ms), Init(extra));
      assert m in ms && forall x | x in Init(ms) :: x in ms;
      WeaveAtHome(Init(ms), Init(extra), answered);
      assert Last(extra) == MissingFor(CallsOf(m), answered);
      SyntheticStandsFor(CallsOf(m), answered);
      if m.role.Tool? {
        InitSnoc(done, m);
        assert Last(extra) == [];
      } else {
        DueAtHome(done, due, answered);
        InitSnoc(done + due, m);
      }
    }
  }

  /** Every result that is not a first answer is the synthetic result of a call that nothing
      answers in time, behind the assistant that made it. */
  lemma {:induction false} SyntheticResultsAreAtHome(ms: seq<Message>)
    ensures AtHome(Repair(ms), Answered(Cleaned(ms)))
    ensures forall id: string :: id in Answered(Cleaned(ms)) <==> AnsweredInTime(ms, id)
  {
    var d := Cleaned(ms);
    var extra := Missing(d, Answered(d));
    DropOrphansKeeps(StripMalformed(StripPlaceholders(ms)));
    forall x | x in d && x.role.Tool? ensures x.toolCallId in Answered(d) { ResultIsAnswered(d, x); }
    WeaveAtHome(d, extra, Answered(d));
    DueAtHome(Weave(d, extra).0, Weave(d, extra).1, Answered(d));
    forall id: string ensures id in Answered(d) <==> AnsweredInTime(ms, id) { CleanedAnswers(ms, id); }
  }
}
