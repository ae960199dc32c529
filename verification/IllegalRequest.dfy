/** The pipeline can send a request that is not legal: what snipping leaves can declare an
    id twice that only a snipped result answered, and then the second repair, which is
    also the last, answers it twice. */
module IllegalRequest {
  import opened ChatMessages
  import opened CompactionSpec
  import opened CompactionTheorems
  import opened PrepareForModel
  import opened RepairLemmas
  import opened RepairPasses
  import opened RepairTheorems
  import opened Sequences
  import opened SnipSpec
  import opened Wrappers

  /** A call with a usable id, an assistant that makes it, its result, a user message. */
  predicate Parts(id: string, ask: Message, result: Message, user: Message) {
    && id != ""
    && CallsOf(ask) == ask.toolCalls && Declares(ask) == multiset{id} && AllNamesValid(ask.toolCalls)
    && ask.role.Assistant? && ask.content.NoContent? && ask.toolCalls != []
    && result.role.Tool? && result.toolCallId == id && user.role.User?
  }

  /** The call, its result, a user message, and the same call twice more. */
  function History(ask: Message, result: Message, user: Message): seq<Message> {
    [ask] + [result] + [user] + [ask] + [ask]
  }

  /** What snipping leaves of it. */
  function Tail(ask: Message, user: Message): seq<Message> {
    [user] + [ask] + [ask]
  }

  /** No candidates for compaction, and estimates that make the snip keep as little as it
      can. */
  function Tight(): Config {
    Config(100000, 10, None, None, 0, {}, 1000, (n: string, c: Content) => c, (i: string, c: Content) => None,
           (s: string, n: int) => s, (n: string) => n, (ms: seq<Message>) => 1000, (m: Message) => 1)
  }

  lemma {:induction false} BagsOfHistory(id: string, ask: Message, result: Message, user: Message)
    requires Parts(id, ask, result, user)
    ensures Declared(History(ask, result, user)) == multiset{id, id, id}
    ensures Answered(History(ask, result, user)) == multiset{id}
    ensures ResultsDeclared(History(ask, result, user)) && NamesValid(History(ask, result, user))
  {
    var none: seq<Message> := [];
    var h1 := none + [ask];
    Snoc(none, ask);
    assert h1 == [ask];
    Snoc(h1, result);
    Snoc(h1 + [result], user);
    Snoc(h1 + [result] + [user], ask);
    Snoc(h1 + [result] + [user] + [ask], ask);
  }

  /** Messages that no pass has a reason to touch, whatever their results are. */
  predicate Plain(ms: seq<Message>) {
    forall i :: 0 <= i < |ms| ==> !ms[i].role.System? && !BarePlaceholder(ms[i])
  }

  lemma {:induction false} PlainLists(ms: seq<Message>)
    requires Plain(ms)
    ensures NoBarePlaceholder(ms) && Systems(ms) == [] && NonSystems(ms) == ms
  {
    if ms != [] {
      PlainLists(Init(ms));
      Split(ms);
    }
  }

  lemma {:induction false} HistoryIsPlain(id: string, ask: Message, result: Message, user: Message)
    requires Parts(id, ask, result, user)
    ensures Plain(History(ask, result, user))
  {
  }

  lemma {:induction false} KindsOfHistory(id: string, ask: Message, result: Message, user: Message)
    requires Parts(id, ask, result, user)
    ensures NoBarePlaceholder(History(ask, result, user))
    ensures Systems(History(ask, result, user)) == []
    ensures NonSystems(History(ask, result, user)) == History(ask, result, user)
  {
    HistoryIsPlain(id, ask, result, user);
    PlainLists(History(ask, result, user));
  }

  lemma {:induction false} HistoryIsLegal(id: string, ask: Message, result: Message, user: Message)
    requires Parts(id, ask, result, user)
    ensures Legal(History(ask, result, user))
  {
    BagsOfHistory(id, ask, result, user);
    KindsOfHistory(id, ask, result, user);
  }

  // -------------------------------------------------------------------------- the snip

  lemma {:induction false} RewrittenHistory(ask: Message, result: Message, user: Message) returns (rewritten: Message)
    requires result.role.Tool? && !ask.role.Tool? && !user.role.Tool?
    ensures Rewritten(Tight(), History(ask, result, user), {}) == History(ask, rewritten, user)
    ensures rewritten.role.Tool? && rewritten.toolCallId == result.toolCallId
  {
    var h, w := History(ask, result, user), Rewritten(Tight(), History(ask, result, user), {});
    RewritingKeepsShape(Tight(), h, {});
    rewritten := w[1];
    assert w == History(ask, rewritten, user);
  }

  /** The walk keeps the last message alone; there is no user message in it, so the suffix
      starts at the last user message of all. */
  lemma {:induction false} SnipStartOfHistory(id: string, ask: Message, result: Message, user: Message)
    requires Parts(id, ask, result, user)
    ensures SnipStart(Tight(), History(ask, result, user), 0) == 2
  {
    var h := History(ask, result, user);
    KeptFromLast(h);
    assert h[4..] == [ask] && Last([ask]) == ask;
    assert FirstUser(h[4..]).None?;
    assert h[2] == user && h[3] == ask && h[4] == ask;
    assert LastUser(h) == Some(2);
    TailOfHistory(ask, result, user);
    NoResultsIsLegal(h[2..]);
  }

  lemma {:induction false} KeptFromLast(h: seq<Message>)
    requires |h| == 5
    ensures KeptFrom(Tight(), h, 0, 5) == 4
  {
    assert Cost(Tight(), h[4..]) >= 1;
    assert KeptFrom(Tight(), h, 0, 4) == 4;
  }

  lemma {:induction false} NoResultsIsLegal(ms: seq<Message>)
    requires forall i :: 0 <= i < |ms| ==> !ms[i].role.Tool?
    ensures LegalStart(ms) == 0
  {
    if ms != [] { NoResultsIsLegal(Init(ms)); }
  }

  lemma {:induction false} SnippedHistory(id: string, ask: Message, result: Message, user: Message)
    requires Parts(id, ask, result, user)
    ensures Snipped(Tight(), History(ask, result, user)) == Tail(ask, user)
  {
    var h := History(ask, result, user);
    KindsOfHistory(id, ask, result, user);
    SnippedFrom(h);
    SnipStartOfHistory(id, ask, result, user);
    TailOfHistory(ask, result, user);
  }

  lemma {:induction false} SnippedFrom(h: seq<Message>)
    requires h != [] && Systems(h) == [] && NonSystems(h) == h
    ensures Snipped(Tight(), h) == h[SnipStart(Tight(), h, 0)..]
  {
    SnippedSplits(Tight(), h);
  }

  lemma {:induction false} TailOfHistory(ask: Message, result: Message, user: Message)
    ensures History(ask, result, user)[2..] == Tail(ask, user)
  {
  }

  // ----------------------------------------------------------------- the second repair

  lemma {:induction false} TailIsClean(id: string, ask: Message, result: Message, user: Message)
    requires Parts(id, ask, result, user)
    ensures Cleaned(Tail(ask, user)) == Tail(ask, user)
  {
    var tail := Tail(ask, user);
    assert CallsOf(user) == [] && AllNamesValid([]);
    assert tail[0] == user && tail[1] == ask && tail[2] == ask;
    LeavesAlone(tail);
  }

  lemma {:induction false} BagsOfTail(id: string, ask: Message, result: Message, user: Message)
    requires Parts(id, ask, result, user)
    ensures Declared(Tail(ask, user)) == multiset{id, id} && Answered(Tail(ask, user)) == multiset{}
  {
    var none: seq<Message> := [];
    assert none + [user] == [user];
    Snoc(none, user);
    Snoc([user], ask);
    Snoc([user] + [ask], ask);
  }

  /** The first three passes leave valid messages without results alone. */
  lemma {:induction false} LeavesAlone(ms: seq<Message>)
    requires forall i :: 0 <= i < |ms| ==> !ms[i].role.Tool? && !BarePlaceholder(ms[i]) && AllNamesValid(CallsOf(ms[i]))
    ensures StripPlaceholders(ms) == ms && StripMalformed(ms) == ms && DropOrphans(ms) == ms
  {
    if ms != [] {
      LeavesAlone(Init(ms));
      Split(ms);
      ValidCallsKeeps(CallsOf(Last(ms)));
    }
  }

  lemma {:induction false} TailReachesSecondRepair(id: string, ask: Message, result: Message, user: Message)
    requires Parts(id, ask, result, user)
    ensures Prepared(Tight(), History(ask, result, user), {}) == Repair(Tail(ask, user))
  {
    HistoryIsLegal(id, ask, result, user);
    LegalIsFixed(History(ask, result, user));
    var rewritten := RewrittenHistory(ask, result, user);
    SnippedHistory(id, ask, rewritten, user);
  }

  lemma {:induction false} SecondRepairAnswersTwice(id: string, ask: Message, result: Message, user: Message)
    requires Parts(id, ask, result, user)
    ensures Answered(Repair(Tail(ask, user)))[id] == 2
  {
    TailIsClean(id, ask, result, user);
    BagsOfTail(id, ask, result, user);
    RepairEstablishes(Tail(ask, user));
  }

  lemma {:induction false} TwiceIsIllegal(ms: seq<Message>, id: string)
    requires Answered(ms)[id] == 2
    ensures !Legal(ms)
  {
  }

  /** A legal history whose prepared request answers one id twice. */
  lemma {:induction false} APreparedRequestCanBeIllegal(id: string, ask: Message, result: Message, user: Message)
    requires Parts(id, ask, result, user)
    ensures Legal(History(ask, result, user))
    ensures Answered(Prepared(Tight(), History(ask, result, user), {}))[id] == 2
    ensures !Legal(Prepared(Tight(), History(ask, result, user), {}))
  {
    HistoryIsLegal(id, ask, result, user);
    TailReachesSecondRepair(id, ask, result, user);
    SecondRepairAnswersTwice(id, ask, result, user);
    TwiceIsIllegal(Repair(Tail(ask, user)), id);
  }

  /** Such messages exist. */
  lemma {:induction false} PartsExist()
    ensures
      var call := ToolCall.Call("x", None, StringName("exec"));
      Parts("x", Message(Assistant, NoContent, [call], "", None), Message(Tool, Text("done"), [], "x", None),
            Message(User, Text("again"), [], "", None))
  {
    var call := ToolCall.Call("x", None, StringName("exec"));
    assert Init([call]) == [] && Last([call]) == call && NameIsValid(call);
    assert CallBag([call]) == multiset{"x"} by { assert CallBag([]) == multiset{}; }
    assert AllNamesValid([call]) by { assert AllNamesValid([]); }
  }
}
