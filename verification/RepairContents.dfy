/** What repair leaves as it was: every message that says something or calls a tool, with
    all there is to it, in order. */
module RepairContents {
  import opened ChatMessages
  import opened RepairLemmas
  import opened RepairPasses
  import opened RepairTheorems
  import opened Sequences
  import opened Texts
  import opened Wrappers

  /** What `f` takes out of each message, in order. */
  function Select<T>(ms: seq<Message>, f: Message -> seq<T>): seq<T> {
    if ms == [] then [] else Select(Init(ms), f) + f(Last(ms))
  }

  lemma {:induction false} SelectConcat<T>(a: seq<Message>, b: seq<Message>, f: Message -> seq<T>)
    ensures Select(a + b, f) == Select(a, f) + Select(b, f)
  {
    if b == [] {
      assert a + b == a;
    } else {
      assert Init(a + b) == a + Init(b) && Last(a + b) == Last(b);
      SelectConcat(a, Init(b), f);
    }
  }

  lemma {:induction false} SelectNothing<T>(ms: seq<Message>, f: Message -> seq<T>)
    requires forall m | m in ms :: f(m) == []
    ensures Select(ms, f) == []
  {
    if ms != [] {
      assert Last(ms) in ms;
      SelectNothing(Init(ms), f);
    }
  }

  /** `f` looks at nothing that repair is meant to remove or to add. */
  ghost predicate Ignores<T>(f: Message -> seq<T>) {
    && (forall m: Message :: m.role.Tool? || BarePlaceholder(m) || WithoutMalformed(m) == [] ==> f(m) == [])
    && (forall m: Message :: WithoutMalformed(m) != [] ==> f(WithoutMalformed(m)[0]) == f(m))
  }

  lemma {:induction false} StripPlaceholdersSelects<T>(ms: seq<Message>, f: Message -> seq<T>)
    requires Ignores(f)
    ensures Select(StripPlaceholders(ms), f) == Select(ms, f)
  {
    if ms != [] {
      StripPlaceholdersSelects(Init(ms), f);
      InitSnoc(StripPlaceholders(Init(ms)), Last(ms));
    }
  }

  lemma {:induction false} StripMalformedSelects<T>(ms: seq<Message>, f: Message -> seq<T>)
    requires Ignores(f)
    ensures Select(StripMalformed(ms), f) == Select(ms, f)
  {
    if ms != [] {
      var p, w := StripMalformed(Init(ms)), WithoutMalformed(Last(ms));
      StripMalformedSelects(Init(ms), f);
      WithoutMalformedKeeps(Last(ms));
      if w == [] {
        assert StripMalformed(ms) == p;
      } else {
        assert w == [w[0]];
        InitSnoc(p, w[0]);
      }
    }
  }

  lemma {:induction false} DropOrphansSelects<T>(ms: seq<Message>, f: Message -> seq<T>)
    requires forall m: Message :: m.role.Tool? ==> f(m) == []
    ensures Select(DropOrphans(ms), f) == Select(ms, f)
  {
    if ms != [] {
      DropOrphansSelects(Init(ms), f);
      InitSnoc(DropOrphans(Init(ms)), Last(ms));
      if Last(ms).role.Tool? && !KeepsResult(Init(ms), Last(ms)) {
        assert DropOrphans(ms) == DropOrphans(Init(ms));
      }
    }
  }

  lemma {:induction false} WeaveSelects<T>(ms: seq<Message>, extra: seq<seq<Message>>, f: Message -> seq<T>)
    requires |ms| == |extra| && forall i | 0 <= i < |ms| :: forall m | m in extra[i] :: f(m) == []
    ensures Select(Weave(ms, extra).0, f) == Select(ms, f)
    ensures forall m | m in Weave(ms, extra).1 :: f(m) == []
  {
    if ms != [] {
      var (done, due) := Weave(Init(ms), Init(extra));
      WeaveSelects(Init(ms), Init(extra), f);
      SelectNothing(due, f);
      SelectConcat(done, due, f);
      InitSnoc(done, Last(ms));
      InitSnoc(done + due, Last(ms));
      assert extra[|ms| - 1] == Last(extra);
    }
  }

  /** Backfilling adds results of unanswered ids and nothing else. */
  lemma {:induction false} BackfillSelects<T>(ms: seq<Message>, f: Message -> seq<T>)
    requires forall m: Message :: m.role.Tool? && m.toolCallId !in Answered(ms) ==> f(m) == []
    ensures Select(Backfill(ms), f) == Select(ms, f)
  {
    var extra := Missing(ms, Answered(ms));
    forall i | 0 <= i < |ms| ensures forall m | m in extra[i] :: f(m) == [] {
      MissingForMembers(CallsOf(ms[i]), Answered(ms));
    }
    WeaveSelects(ms, extra, f);
    SelectNothing(Weave(ms, extra).1, f);
    SelectConcat(Weave(ms, extra).0, Weave(ms, extra).1, f);
  }

  lemma {:induction false} RepairSelects<T>(ms: seq<Message>, f: Message -> seq<T>)
    requires Ignores(f)
    ensures Select(Repair(ms), f) == Select(ms, f)
  {
    var p := StripPlaceholders(ms);
    StripPlaceholdersSelects(ms, f);
    StripMalformedSelects(p, f);
    DropOrphansSelects(StripMalformed(p), f);
    BackfillSelects(Cleaned(ms), f);
  }

  // ------------------------------------------------------------------ what was said

  predicate SaysSomething(c: Content) {
    (c.Text? && c.text != "") || (c.Blocks? && c.blocks != [])
  }

  predicate OnlyPlaceholder(m: Message) {
    m.role.Assistant? && m.content.Text? && Strip(m.content.text) == "[Previous assistant message omitted.]"
  }

  /** A call that names its tool. */
  predicate Named(tc: ToolCall) {
    tc.Call? &&
    (if tc.fn.Some? then tc.fn.value.StringName? && tc.fn.value.text != ""
     else tc.name.StringName? && tc.name.text != "")
  }

  function NamedCalls(calls: seq<ToolCall>): seq<ToolCall> {
    if calls == [] then [] else NamedCalls(Init(calls)) + if Named(Last(calls)) then [Last(calls)] else []
  }

  lemma {:induction false} NamedCallsAreValid(calls: seq<ToolCall>)
    ensures NamedCalls(calls) == ValidCalls(calls)
  {
    if calls != [] { NamedCallsAreValid(Init(calls)); }
  }

  lemma {:induction false} NamedCallsTwice(calls: seq<ToolCall>)
    ensures NamedCalls(NamedCalls(calls)) == NamedCalls(calls)
  {
    NamedCallsAreValid(calls);
    NamedCallsAreValid(NamedCalls(calls));
    ValidCallsKeeps(calls);
    ValidCallsKeeps(ValidCalls(calls));
  }

  /** A message with what the provider may see of it: all of it but unusable calls. An
      assistant without a named call is nothing when it is a placeholder, or when it had
      calls and has nothing to say; and so is a tool result, here. */
  function Turn(m: Message): seq<Message> {
    if m.role.Tool? then []
    else if !m.role.Assistant? then [m]
    else if NamedCalls(m.toolCalls) != [] || (!OnlyPlaceholder(m) && (SaysSomething(m.content) || m.toolCalls == []))
    then [m.(toolCalls := NamedCalls(m.toolCalls))]
    else []
  }

  lemma {:induction false} StrippedTurn(m: Message)
    ensures BarePlaceholder(m) || WithoutMalformed(m) == [] ==> Turn(m) == []
    ensures WithoutMalformed(m) != [] ==> Turn(WithoutMalformed(m)[0]) == Turn(m)
  {
    NamedCallsAreValid(m.toolCalls);
    NamedCallsTwice(m.toolCalls);
    ValidCallsKeeps(m.toolCalls);
  }

  /** For every history: the messages themselves, with their texts, their named calls and
      everything else about them, are the same before and after, in the same order. */
  lemma {:induction false} RepairKeepsTheTurns(ms: seq<Message>)
    ensures Select(Repair(ms), Turn) == Select(ms, Turn)
  {
    forall m: Message
      ensures BarePlaceholder(m) || WithoutMalformed(m) == [] ==> Turn(m) == []
      ensures WithoutMalformed(m) != [] ==> Turn(WithoutMalformed(m)[0]) == Turn(m)
    {
      StrippedTurn(m);
    }
    RepairSelects(ms, Turn);
  }

  function Said(m: Message): seq<(Role, Content)> {
    if m.role.Tool? || !SaysSomething(m.content) || OnlyPlaceholder(m) then [] else [(m.role, m.content)]
  }

  /** In particular nothing that was said is lost, changed or moved. */
  lemma {:induction false} RepairKeepsWhatWasSaid(ms: seq<Message>)
    ensures Select(Repair(ms), Said) == Select(ms, Said)
  {
    RepairSelects(ms, Said);
  }
}
