/** Chat messages as the provider request sees them, and the two bags that every
    legality statement is about: the call ids that assistants declare and the call
    ids that tool results answer.

    A string id that is empty stands for every falsy id of the program (missing,
    `None`, `""`): all the passes treat those alike. */
module ChatMessages {
  import opened Sequences
  import opened Wrappers

  datatype Role = System | User | Assistant | Tool | OtherRole(name: string)

  /** Message content: missing or `None`, a string, or a list of content blocks. */
  datatype Content = NoContent | Text(text: string) | Blocks(blocks: seq<string>)

  /** The `name` entry of a tool call or of its `function` object. */
  datatype NameField = NoName | StringName(text: string) | OtherName(rendered: string)

  /** One element of `tool_calls`; `fn` is absent when it is not an object. */
  datatype ToolCall = NotAnObject | Call(id: string, fn: Option<NameField>, name: NameField)

  datatype Message = Message(
    role: Role,
    content: Content,
    toolCalls: seq<ToolCall>,
    toolCallId: string,
    name: Option<string>)

  /** Python truthiness of a content value. */
  predicate HasContent(c: Content) {
    match c
    case NoContent => false
    case Text(t) => t != ""
    case Blocks(b) => b != []
  }

  /** A call name that the provider accepts: a non-empty string. */
  predicate NameIsValid(tc: ToolCall) {
    tc.Call? &&
    var n := if tc.fn.Some? then tc.fn.value else tc.name;
    n.StringName? && n.text != ""
  }

  function CallId(tc: ToolCall): string {
    if tc.Call? then tc.id else ""
  }

  /** The ids that a list of calls declares, with multiplicity. */
  function CallBag(calls: seq<ToolCall>): multiset<string> {
    if calls == [] then multiset{}
    else
      CallBag(Init(calls)) + if CallId(Last(calls)) != "" then multiset{CallId(Last(calls))} else multiset{}
  }

  /** Only assistants declare calls; `tool_calls` on any other role is ignored. */
  function CallsOf(m: Message): seq<ToolCall> {
    if m.role.Assistant? then m.toolCalls else []
  }

  function Declares(m: Message): multiset<string> {
    CallBag(CallsOf(m))
  }

  /** The id a message answers: that of a tool result, and nothing otherwise. */
  function Answers(m: Message): multiset<string> {
    if m.role.Tool? && m.toolCallId != "" then multiset{m.toolCallId} else multiset{}
  }

  /** How often each id is declared by the assistants of a history. */
  function Declared(ms: seq<Message>): multiset<string> {
    if ms == [] then multiset{} else Declared(Init(ms)) + Declares(Last(ms))
  }

  /** How often each id is answered by the tool results of a history. */
  function Answered(ms: seq<Message>): multiset<string> {
    if ms == [] then multiset{} else Answered(Init(ms)) + Answers(Last(ms))
  }

  /** All calls of a history, in order. */
  function Calls(ms: seq<Message>): seq<ToolCall> {
    if ms == [] then [] else Calls(Init(ms)) + CallsOf(Last(ms))
  }

  /** Messages that no repair pass is about: neither assistant nor tool result. */
  function Bystanders(ms: seq<Message>): seq<Message> {
    if ms == [] then []
    else Bystanders(Init(ms)) + if Last(ms).role.Assistant? || Last(ms).role.Tool? then [] else [Last(ms)]
  }

  function Systems(ms: seq<Message>): seq<Message> {
    if ms == [] then []
    else Systems(Init(ms)) + if Last(ms).role.System? then [Last(ms)] else []
  }

  function NonSystems(ms: seq<Message>): seq<Message> {
    if ms == [] then []
    else NonSystems(Init(ms)) + if Last(ms).role.System? then [] else [Last(ms)]
  }

  // ---------------------------------------------------------------- legality

  predicate AllNamesValid(calls: seq<ToolCall>) {
    calls == [] || (AllNamesValid(Init(calls)) && NameIsValid(Last(calls)))
  }

  /** No call has an invalid name. */
  predicate NamesValid(ms: seq<Message>) {
    ms == [] || (NamesValid(Init(ms)) && AllNamesValid(CallsOf(Last(ms))))
  }

  /** Every tool result has an id that a strictly earlier assistant declares. */
  predicate ResultsDeclared(ms: seq<Message>) {
    ms == [] ||
    (ResultsDeclared(Init(ms)) &&
     (Last(ms).role.Tool? ==> Last(ms).toolCallId != "" && Last(ms).toolCallId in Declared(Init(ms))))
  }

  /** No id is answered twice. */
  ghost predicate ResultsUnique(ms: seq<Message>) {
    forall id: string :: Answered(ms)[id] <= 1
  }

  /** Every declared id is answered. */
  ghost predicate AllAnswered(ms: seq<Message>) {
    forall id: string :: id in Declared(ms) ==> id in Answered(ms)
  }

  /** No id is declared twice. */
  ghost predicate DistinctCalls(ms: seq<Message>) {
    forall id: string :: Declared(ms)[id] <= 1
  }

  // ------------------------------------------------------------ adding a message

  /** Everything above, one message further on. */
  lemma Snoc(p: seq<Message>, m: Message)
    ensures Init(p + [m]) == p && Last(p + [m]) == m
    ensures Calls(p + [m]) == Calls(p) + CallsOf(m)
    ensures Declared(p + [m]) == Declared(p) + Declares(m)
    ensures Answered(p + [m]) == Answered(p) + Answers(m)
    ensures Bystanders(p + [m]) == Bystanders(p) + if m.role.Assistant? || m.role.Tool? then [] else [m]
    ensures ResultsDeclared(p + [m]) <==>
            ResultsDeclared(p) && (m.role.Tool? ==> m.toolCallId != "" && m.toolCallId in Declared(p))
    ensures NamesValid(p + [m]) <==> NamesValid(p) && AllNamesValid(CallsOf(m))
  {
    assert Init(p + [m]) == p && Last(p + [m]) == m;
  }

  // ------------------------------------------------- both bags are homomorphic

  lemma {:induction false} DeclaredConcat(a: seq<Message>, b: seq<Message>)
    ensures Declared(a + b) == Declared(a) + Declared(b)
  {
    if b == [] {
      assert a + b == a;
    } else {
      assert Init(a + b) == a + Init(b) && Last(a + b) == Last(b);
      DeclaredConcat(a, Init(b));
    }
  }

  lemma {:induction false} AnsweredConcat(a: seq<Message>, b: seq<Message>)
    ensures Answered(a + b) == Answered(a) + Answered(b)
  {
    if b == [] {
      assert a + b == a;
    } else {
      assert Init(a + b) == a + Init(b) && Last(a + b) == Last(b);
      AnsweredConcat(a, Init(b));
    }
  }

  lemma {:induction false} CallsConcat(a: seq<Message>, b: seq<Message>)
    ensures Calls(a + b) == Calls(a) + Calls(b)
  {
    if b == [] {
      assert a + b == a;
    } else {
      assert Init(a + b) == a + Init(b) && Last(a + b) == Last(b);
      CallsConcat(a, Init(b));
    }
  }

  lemma {:induction false} CallBagConcat(a: seq<ToolCall>, b: seq<ToolCall>)
    ensures CallBag(a + b) == CallBag(a) + CallBag(b)
  {
    if b == [] {
      assert a + b == a;
    } else {
      assert Init(a + b) == a + Init(b) && Last(a + b) == Last(b);
      CallBagConcat(a, Init(b));
    }
  }

  /** The declared ids depend only on the sequence of calls. */
  lemma {:induction false} DeclaredIsCallBag(ms: seq<Message>)
    ensures Declared(ms) == CallBag(Calls(ms))
  {
    if ms != [] {
      DeclaredIsCallBag(Init(ms));
      CallBagConcat(Calls(Init(ms)), CallsOf(Last(ms)));
    }
  }

  lemma {:induction false} AllNamesValidConcat(a: seq<ToolCall>, b: seq<ToolCall>)
    ensures AllNamesValid(a + b) <==> AllNamesValid(a) && AllNamesValid(b)
  {
    if b == [] {
      assert a + b == a;
    } else {
      assert Init(a + b) == a + Init(b) && Last(a + b) == Last(b);
      AllNamesValidConcat(a, Init(b));
    }
  }

  /** `NamesValid` depends only on the sequence of calls. */
  lemma {:induction false} NamesAreOfCalls(ms: seq<Message>)
    ensures NamesValid(ms) <==> AllNamesValid(Calls(ms))
  {
    if ms != [] {
      NamesAreOfCalls(Init(ms));
      AllNamesValidConcat(Calls(Init(ms)), CallsOf(Last(ms)));
    }
  }

  /** `NamesValid`, read off call by call. */
  lemma {:induction false} AllNamesValidAt(calls: seq<ToolCall>)
    ensures AllNamesValid(calls) <==> forall i | 0 <= i < |calls| :: NameIsValid(calls[i])
  {
    if calls != [] { AllNamesValidAt(Init(calls)); }
  }

  /** `ResultsDeclared`, read off position by position. */
  lemma {:induction false} ResultsDeclaredAt(ms: seq<Message>)
    ensures ResultsDeclared(ms) <==>
            forall i | 0 <= i < |ms| && ms[i].role.Tool? ::
              ms[i].toolCallId != "" && ms[i].toolCallId in Declared(ms[..i])
  {
    if ms != [] {
      var n := |ms| - 1;
      ResultsDeclaredAt(Init(ms));
      assert forall i | 0 <= i < n :: Init(ms)[..i] == ms[..i] && Init(ms)[i] == ms[i];
      assert ms[..n] == Init(ms);
      if ResultsDeclared(ms) {
        forall i | 0 <= i < |ms| && ms[i].role.Tool?
          ensures ms[i].toolCallId != "" && ms[i].toolCallId in Declared(ms[..i])
        {
          if i < n { assert Init(ms)[i] == ms[i] && Init(ms)[..i] == ms[..i]; }
        }
      } else if ResultsDeclared(Init(ms)) {
        assert ms[n].role.Tool?;
      } else {
        var i :| 0 <= i < n && Init(ms)[i].role.Tool? &&
                 !(Init(ms)[i].toolCallId != "" && Init(ms)[i].toolCallId in Declared(Init(ms)[..i]));
        assert ms[i].role.Tool? && Init(ms)[..i] == ms[..i];
      }
    }
  }

  /** A set that a loop maintains holds the ids of a bag. */
  ghost predicate SameIds(ids: set<string>, bag: multiset<string>) {
    forall id: string :: id in ids <==> id in bag
  }

  lemma AddSame(ids: set<string>, bag: multiset<string>, id: string)
    requires SameIds(ids, bag)
    ensures SameIds(ids + {id}, bag + multiset{id})
  {
  }
}
