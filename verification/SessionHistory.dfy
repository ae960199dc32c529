/** Persisting a finished turn: which of its messages become part of the session,
    and why the session stays legal. */
module SessionHistory {
  import opened Sequences
  import opened Wrappers
  import opened ChatMessages
  import opened RepairPasses
  import opened RepairLemmas

  const OMITTED_BLOCK := "[tool result omitted during persistence]"

  /** Text truncation and the filter for content blocks are unknown functions. */
  datatype SaveConfig = SaveConfig(
    maxToolResultChars: int,
    truncate: (string, int) -> string,
    sanitizeBlocks: (seq<string>, bool) -> seq<string>)

  /** The row a message is stored as, unless nothing of it is worth storing. Whether
      a tool result is admissible is decided separately. */
  function Entry(config: SaveConfig, m: Message): Option<Message> {
    if m.role.Assistant? && !HasContent(m.content) && m.toolCalls == [] then None
    else if m.role.Tool? then
      match m.content
      case NoContent => Some(m)
      case Text(t) =>
        if |t| > config.maxToolResultChars
        then Some(m.(content := Text(config.truncate(t, config.maxToolResultChars))))
        else Some(m)
      case Blocks(b) =>
        var filtered := config.sanitizeBlocks(b, true);
        Some(m.(content := Blocks(if filtered == [] then [OMITTED_BLOCK] else filtered)))
    else if m.role.User? && m.content.Blocks? then
      var filtered := config.sanitizeBlocks(m.content.blocks, false);
      if filtered == [] then None else Some(m.(content := Blocks(filtered)))
    else Some(m)
  }

  function Entries(config: SaveConfig, ms: seq<Message>): seq<Message> {
    if ms == [] then []
    else
      var e := Entry(config, Last(ms));
      Entries(config, Init(ms)) + if e.Some? then [e.value] else []
  }

  /** Whether the session may take the row `e`: a tool result must answer a call
      that the session declares and that it does not answer yet. */
  predicate Admissible(session: seq<Message>, e: Message) {
    e.role.Tool? ==> e.toolCallId != "" && e.toolCallId in Declared(session) && e.toolCallId !in Answered(session)
  }

  /** The session after saving the messages of a turn. */
  function Saved(config: SaveConfig, session: seq<Message>, ms: seq<Message>): seq<Message> {
    if ms == [] then session
    else
      var before := Saved(config, session, Init(ms));
      var e := Entry(config, Last(ms));
      if e.Some? && Admissible(before, e.value) then before + [e.value] else before
  }

  class Session {
    var messages: seq<Message>

    constructor (history: seq<Message>)
      ensures messages == history
    {
      messages := history;
    }

    method SaveTurn(config: SaveConfig, turn: seq<Message>, skip: nat)
      modifies this
      ensures messages == Saved(config, old(messages), if skip <= |turn| then turn[skip..] else [])
    {
      var rows := if skip <= |turn| then turn[skip..] else [];
      var declared := IdSet(Declared(messages));
      var fulfilled := IdSet(Answered(messages));
      for i := 0 to |rows|
        invariant messages == Saved(config, old(messages), rows[..i])
        invariant SameIds(declared, Declared(messages)) && SameIds(fulfilled, Answered(messages))
      {
        SavedStep(config, old(messages), rows, i);
        var entry := Entry(config, rows[i]);
        if entry.None? { continue; }
        var e := entry.value;
        if e.role.Tool? {
          if e.toolCallId == "" || e.toolCallId !in declared || e.toolCallId in fulfilled { continue; }
          fulfilled := fulfilled + {e.toolCallId};
        }
        if e.role.Assistant? {
          declared := declared + IdSet(CallBag(e.toolCalls));
        }
        Snoc(messages, e);
        messages := messages + [e];
      }
      assert rows[..|rows|] == rows;
    }
  }

  lemma {:induction false} SavedStep(config: SaveConfig, session: seq<Message>, rows: seq<Message>, i: nat)
    requires i < |rows|
    ensures var before, e := Saved(config, session, rows[..i]), Entry(config, rows[i]);
            Saved(config, session, rows[..i + 1]) ==
            if e.Some? && Admissible(before, e.value) then before + [e.value] else before
  {
    assert Init(rows[..i + 1]) == rows[..i] && Last(rows[..i + 1]) == rows[i];
  }

  function IdSet(bag: multiset<string>): (ids: set<string>)
    ensures SameIds(ids, bag)
  {
    set id | id in bag
  }

  lemma {:induction false} LegalStep(before: seq<Message>, e: Message)
    requires ResultsDeclared(before) && ResultsUnique(before) && Admissible(before, e)
    ensures ResultsDeclared(before + [e]) && ResultsUnique(before + [e])
  {
    Snoc(before, e);
  }

  lemma {:induction false} DropStep(all: seq<Message>, e: Message)
    ensures var before := DropOrphans(all);
            DropOrphans(all + [e]) == if Admissible(before, e) then before + [e] else before
  {
    InitSnoc(all, e);
    DropOrphansKeeps(all);
    InitSnoc(DropOrphans(all), e);
  }

  // ----------------------------------------------------------------- main results

  /** From a legal session, saving any messages leads to a legal session: every
      stored result has an id of its own, declared strictly earlier. */
  lemma {:induction false} SavingKeepsLegality(config: SaveConfig, session: seq<Message>, ms: seq<Message>)
    requires ResultsDeclared(session) && ResultsUnique(session)
    ensures ResultsDeclared(Saved(config, session, ms)) && ResultsUnique(Saved(config, session, ms))
    ensures DropOrphans(Saved(config, session, ms)) == Saved(config, session, ms)
  {
    if ms != [] {
      SavingKeepsLegality(config, session, Init(ms));
      var before, e := Saved(config, session, Init(ms)), Entry(config, Last(ms));
      if e.Some? && Admissible(before, e.value) { LegalStep(before, e.value); }
    }
    DropOrphansFixes(Saved(config, session, ms));
  }

  /** Saving agrees with the repair pass that reads the session later: it stores what
      that pass would keep of the session followed by all rows of the turn. */
  lemma {:induction false} SavingIsDropping(config: SaveConfig, session: seq<Message>, ms: seq<Message>)
    requires ResultsDeclared(session) && ResultsUnique(session)
    ensures Saved(config, session, ms) == DropOrphans(session + Entries(config, ms))
  {
    if ms == [] {
      assert session + [] == session;
      DropOrphansFixes(session);
    } else {
      SavingIsDropping(config, session, Init(ms));
      var all, e := session + Entries(config, Init(ms)), Entry(config, Last(ms));
      if e.Some? {
        assert session + (Entries(config, Init(ms)) + [e.value]) == all + [e.value];
        DropStep(all, e.value);
      } else {
        assert Entries(config, ms) == Entries(config, Init(ms));
      }
    }
  }

  /** `a` is a selection of `b` in the same order. */
  predicate Selects(a: seq<Message>, b: seq<Message>) {
    if b == [] then a == []
    else Selects(a, Init(b)) || (a != [] && Last(a) == Last(b) && Selects(Init(a), Init(b)))
  }

  /** A turn is stored behind the session, as a selection of its rows in order. */
  lemma {:induction false} SavingSelects(config: SaveConfig, session: seq<Message>, ms: seq<Message>)
    ensures session <= Saved(config, session, ms)
    ensures Selects(Saved(config, session, ms)[|session|..], Entries(config, ms))
  {
    if ms != [] {
      SavingSelects(config, session, Init(ms));
      var before, e := Saved(config, session, Init(ms)), Entry(config, Last(ms));
      var rows, tail := Entries(config, Init(ms)), before[|session|..];
      if e.Some? {
        InitSnoc(rows, e.value);
        InitSnoc(tail, e.value);
        assert (before + [e.value])[|session|..] == tail + [e.value];
      } else {
        assert Entries(config, ms) == rows;
      }
    }
  }

  /** Nothing but inadmissible results is left out of those rows. */
  lemma {:induction false} SavingKeepsNonTools(config: SaveConfig, session: seq<Message>, ms: seq<Message>)
    ensures NonTools(Saved(config, session, ms)) == NonTools(session) + NonTools(Entries(config, ms))
  {
    if ms != [] {
      SavingKeepsNonTools(config, session, Init(ms));
      var before, e := Saved(config, session, Init(ms)), Entry(config, Last(ms));
      var rows := Entries(config, Init(ms));
      if e.Some? {
        InitSnoc(rows, e.value);
        InitSnoc(before, e.value);
        assert NonTools(session) + (NonTools(rows) + [e.value]) == (NonTools(session) + NonTools(rows)) + [e.value];
        assert NonTools(before) + [] == NonTools(before) && NonTools(rows) + [] == NonTools(rows);
      } else {
        assert Entries(config, ms) == rows;
      }
    } else {
      assert NonTools(session) + [] == NonTools(session);
    }
  }
}
