/** What saving a turn puts into the session, row by row: everything that says something or
    calls a tool, as it was; and of the results exactly the first answers, as they were or cut
    to size. */
module StoredRows {
  import opened ChatMessages
  import opened RepairContents
  import opened RepairLemmas
  import opened RepairPasses
  import opened Sequences
  import opened SessionHistory
  import opened Wrappers

  /** A message that is no tool result, as it is stored. Only an assistant that neither says
      nor calls anything is left out, and a user message none of whose blocks is kept. */
  function StoredTurn(config: SaveConfig): Message -> seq<Message> {
    (m: Message) =>
      if m.role.Tool? then []
      else if m.role.Assistant? then
        if SaysSomething(m.content) || m.toolCalls != [] then [m] else []
      else if m.role.User? && m.content.Blocks? then
        var blocks := config.sanitizeBlocks(m.content.blocks, false);
        if blocks == [] then [] else [m.(content := Blocks(blocks))]
      else [m]
  }

  /** A tool result, as it is stored: texts over the limit are truncated, blocks filtered. */
  function StoredResult(config: SaveConfig, m: Message): Message {
    match m.content
    case NoContent => m
    case Text(t) =>
      if |t| <= config.maxToolResultChars then m
      else m.(content := Text(config.truncate(t, config.maxToolResultChars)))
    case Blocks(b) =>
      var blocks := config.sanitizeBlocks(b, true);
      m.(content := Blocks(if blocks == [] then ["[tool result omitted during persistence]"] else blocks))
  }

  function Others(m: Message): seq<Message> { if m.role.Tool? then [] else [m] }
  function Results(m: Message): seq<Message> { if m.role.Tool? then [m] else [] }

  lemma {:induction false} EntryOfTurn(config: SaveConfig, m: Message)
    requires !m.role.Tool?
    ensures StoredTurn(config)(m) == (if Entry(config, m).Some? then [Entry(config, m).value] else [])
    ensures Entry(config, m).Some? ==>
      Entry(config, m).value.role == m.role && Declares(Entry(config, m).value) == Declares(m)
    ensures Entry(config, m).None? ==> Declares(m) == multiset{}
  {
    assert CallBag([]) == multiset{};
    assert HasContent(m.content) <==> SaysSomething(m.content) by {
      match m.content
      case NoContent =>
      case Text(_) =>
      case Blocks(_) =>
    }
  }

  lemma {:induction false} EntryOfResult(config: SaveConfig, m: Message)
    requires m.role.Tool?
    ensures Entry(config, m) == Some(StoredResult(config, m))
    ensures StoredResult(config, m).role.Tool? && StoredResult(config, m).toolCallId == m.toolCallId
  {
  }

  lemma {:induction false} TurnIsNoResult(config: SaveConfig, m: Message)
    requires !m.role.Tool?
    ensures Select(StoredTurn(config)(m), Others) == StoredTurn(config)(m)
    ensures Select(StoredTurn(config)(m), Results) == []
    ensures Declared(StoredTurn(config)(m)) == Declares(m) && Answered(StoredTurn(config)(m)) == multiset{}
  {
    EntryOfTurn(config, m);
    var kept := StoredTurn(config)(m);
    if kept != [] { OneMessage(kept[0]); }
  }

  lemma {:induction false} OneMessage(m: Message)
    ensures Select([m], Others) == Others(m) && Select([m], Results) == Results(m)
    ensures Declared([m]) == Declares(m) && Answered([m]) == Answers(m)
  {
    var none: seq<Message> := [];
    assert none + [m] == [m];
    Snoc(none, m);
  }

  lemma {:induction false} Regroup(a: seq<Message>, b: seq<Message>, c: seq<Message>)
    ensures (a + b) + c == a + (b + c)
  {
  }

  /** What is stored of one message: a turn in its form, a result if it is admissible. */
  function Row(config: SaveConfig, before: seq<Message>, m: Message): seq<Message> {
    if !m.role.Tool? then StoredTurn(config)(m)
    else if Admissible(before, m) then [StoredResult(config, m)]
    else []
  }

  lemma {:induction false} RowIsStored(config: SaveConfig, session: seq<Message>, ms: seq<Message>)
    requires ms != []
    ensures
      var before := Saved(config, session, Init(ms));
      Saved(config, session, ms) == before + Row(config, before, Last(ms))
  {
    var before, m := Saved(config, session, Init(ms)), Last(ms);
    assert before + [] == before;
    if m.role.Tool? { EntryOfResult(config, m); } else { EntryOfTurn(config, m); }
  }

  lemma {:induction false} ToolsDeclareNothing(config: SaveConfig, m: Message)
    requires m.role.Tool?
    ensures Declares(m) == multiset{} && StoredTurn(config)(m) == []
  {
    assert CallBag([]) == multiset{};
  }

  lemma {:induction false} RowOf(config: SaveConfig, before: seq<Message>, m: Message)
    ensures
      var row, stored := Row(config, before, m), m.role.Tool? && Admissible(before, m);
      && Select(row, Others) == StoredTurn(config)(m) && Declared(row) == Declares(m)
      && Select(row, Results) == (if stored then [StoredResult(config, m)] else [])
      && Answered(row) == (if stored then multiset{m.toolCallId} else multiset{})
  {
    if m.role.Tool? {
      ToolsDeclareNothing(config, m);
      EntryOfResult(config, m);
      ToolsDeclareNothing(config, StoredResult(config, m));
      OneMessage(StoredResult(config, m));
    } else {
      TurnIsNoResult(config, m);
    }
  }

  /** One more message. */
  lemma {:induction false} SavedMore(config: SaveConfig, session: seq<Message>, ms: seq<Message>)
      returns (row: seq<Message>)
    requires ms != []
    ensures Saved(config, session, ms) == Saved(config, session, Init(ms)) + row
    ensures
      var m := Last(ms);
      var stored := m.role.Tool? && Admissible(Saved(config, session, Init(ms)), m);
      && Select(row, Others) == StoredTurn(config)(m) && Declared(row) == Declares(m)
      && Select(row, Results) == (if stored then [StoredResult(config, m)] else [])
      && Answered(row) == (if stored then multiset{m.toolCallId} else multiset{})
  {
    row := Row(config, Saved(config, session, Init(ms)), Last(ms));
    RowIsStored(config, session, ms);
    RowOf(config, Saved(config, session, Init(ms)), Last(ms));
  }

  /** In order, and nothing besides: what is stored of a turn but its results. */
  lemma {:induction false} TurnsAreStored(config: SaveConfig, session: seq<Message>, ms: seq<Message>)
    ensures Select(Saved(config, session, ms), Others) == Select(session, Others) + Select(ms, StoredTurn(config))
  {
    if ms == [] {
      assert Select(session, Others) + [] == Select(session, Others);
    } else {
      var before, m := Saved(config, session, Init(ms)), Last(ms);
      TurnsAreStored(config, session, Init(ms));
      var row := SavedMore(config, session, ms);
      SelectConcat(before, row, Others);
      Regroup(Select(session, Others), Select(Init(ms), StoredTurn(config)), Select(row, Others));
    }
  }

  // ---------------------------------------------------------------------- the results

  /** Some earlier message of the turn is a result with this id, behind its declaration. */
  predicate AnsweredEarlier(session: seq<Message>, ms: seq<Message>, id: string) {
    ms != [] &&
    (AnsweredEarlier(session, Init(ms), id) ||
     (Last(ms).role.Tool? && Last(ms).toolCallId == id && id in Declared(session + Init(ms))))
  }

  /** The results of a turn that are the first answer to a declared id. */
  function NewAnswers(config: SaveConfig, session: seq<Message>, ms: seq<Message>): seq<Message> {
    if ms == [] then []
    else
      var id := Last(ms).toolCallId;
      NewAnswers(config, session, Init(ms)) +
      if Last(ms).role.Tool? && id != "" && id in Declared(session + Init(ms))
         && id !in Answered(session) && !AnsweredEarlier(session, Init(ms), id)
      then [StoredResult(config, Last(ms))] else []
  }

  lemma {:induction false} SavedDeclares(config: SaveConfig, session: seq<Message>, ms: seq<Message>)
    ensures Declared(Saved(config, session, ms)) == Declared(session + ms)
  {
    if ms == [] {
      assert session + [] == session;
    } else {
      var before, m := Saved(config, session, Init(ms)), Last(ms);
      SavedDeclares(config, session, Init(ms));
      var row := SavedMore(config, session, ms);
      DeclaredConcat(before, row);
      assert Init(session + ms) == session + Init(ms) && Last(session + ms) == m;
    }
  }

  lemma {:induction false} SavedAnswers(config: SaveConfig, session: seq<Message>, ms: seq<Message>, id: string)
    requires id != ""
    ensures id in Answered(Saved(config, session, ms)) <==> id in Answered(session) || AnsweredEarlier(session, ms, id)
  {
    if ms != [] {
      var before, m := Saved(config, session, Init(ms)), Last(ms);
      SavedAnswers(config, session, Init(ms), id);
      SavedDeclares(config, session, Init(ms));
      var row := SavedMore(config, session, ms);
      AnsweredConcat(before, row);
    }
  }

  /** In order, and nothing besides: the results that are stored of a turn. */
  lemma {:induction false} FirstAnswersAreStored(config: SaveConfig, session: seq<Message>, ms: seq<Message>)
    ensures Select(Saved(config, session, ms), Results) ==
      Select(session, Results) + NewAnswers(config, session, ms)
  {
    if ms == [] {
      assert Select(session, Results) + [] == Select(session, Results);
    } else {
      var before, m := Saved(config, session, Init(ms)), Last(ms);
      FirstAnswersAreStored(config, session, Init(ms));
      var row := SavedMore(config, session, ms);
      SelectConcat(before, row, Results);
      Regroup(Select(session, Results), NewAnswers(config, session, Init(ms)), Select(row, Results));
      SavedDeclares(config, session, Init(ms));
      if m.toolCallId != "" { SavedAnswers(config, session, Init(ms), m.toolCallId); }
    }
  }

  function StoredResults(config: SaveConfig): Message -> seq<Message> {
    (m: Message) => if m.role.Tool? then [StoredResult(config, m)] else []
  }

  lemma {:induction false} EarlierIsAnswered(session: seq<Message>, ms: seq<Message>, id: string)
    requires AnsweredEarlier(session, ms, id) && id != ""
    ensures id in Answered(ms)
  {
    if AnsweredEarlier(session, Init(ms), id) { EarlierIsAnswered(session, Init(ms), id); }
  }

  /** A turn whose results are declared before them and answer no id twice keeps them all. */
  lemma {:induction false} AProperTurnKeepsItsResults(config: SaveConfig, session: seq<Message>, ms: seq<Message>)
    requires ResultsDeclared(session + ms) && ResultsUnique(session + ms)
    ensures NewAnswers(config, session, ms) == Select(ms, StoredResults(config))
  {
    if ms != [] {
      var m := Last(ms);
      assert session + ms == (session + Init(ms)) + [m];
      Snoc(session + Init(ms), m);
      UniqueIsHereditary(session + Init(ms), m);
      AProperTurnKeepsItsResults(config, session, Init(ms));
      AnsweredConcat(session, Init(ms));
      if m.role.Tool? && AnsweredEarlier(session, Init(ms), m.toolCallId) {
        EarlierIsAnswered(session, Init(ms), m.toolCallId);
      }
    }
  }
}
