/** What the pipeline leaves as it was: all turns of the history as long as nothing is
    snipped, and all system messages and a suffix of the other turns when something is. */
module PreparedContents {
  import opened ChatMessages
  import opened CompactionSpec
  import opened PrepareForModel
  import opened RepairContents
  import opened RepairPasses
  import opened RequestShape
  import opened Sequences
  import opened SnipSpec

  lemma {:induction false} AlikeSelects<T>(a: seq<Message>, b: seq<Message>, f: Message -> seq<T>)
    requires Alike(a, b) && forall m: Message :: m.role.Tool? ==> f(m) == []
    ensures Select(a, f) == Select(b, f)
  {
    if a != [] { AlikeSelects(Init(a), Init(b), f); }
  }

  lemma {:induction false} RewrittenSelects<T>(config: Config, ms: seq<Message>, ids: set<string>, f: Message -> seq<T>)
    requires forall m: Message :: m.role.Tool? ==> f(m) == []
    ensures Select(Rewritten(config, ms, ids), f) == Select(ms, f)
  {
    RewritingKeepsShape(config, ms, ids);
    SameShapeIsAlike(ms, Rewritten(config, ms, ids));
    AlikeSelects(ms, Rewritten(config, ms, ids), f);
  }

  /** Without a snip, the request has all turns of the history. */
  lemma {:induction false} PreparedKeepsTheTurns(config: Config, ms: seq<Message>, ids: set<string>)
    requires !SnipFires(config, Rewritten(config, Repair(ms), ids))
    ensures Select(Prepared(config, ms, ids), Turn) == Select(ms, Turn)
    ensures Select(Prepared(config, ms, ids), Said) == Select(ms, Said)
  {
    var w := Rewritten(config, Repair(ms), ids);
    RepairKeepsTheTurns(ms);
    RepairKeepsWhatWasSaid(ms);
    RewrittenSelects(config, Repair(ms), ids, Turn);
    RewrittenSelects(config, Repair(ms), ids, Said);
    RepairKeepsTheTurns(w);
    RepairKeepsWhatWasSaid(w);
  }

  function SystemOnly(m: Message): seq<Message> { if m.role.System? then [m] else [] }
  function OtherTurn(m: Message): seq<Message> { if m.role.System? then [] else Turn(m) }

  lemma {:induction false} TurnsOfParts(ms: seq<Message>)
    ensures Select(Systems(ms), Turn) == Select(ms, SystemOnly)
    ensures Select(NonSystems(ms), Turn) == Select(ms, OtherTurn)
  {
    if ms != [] {
      TurnsOfParts(Init(ms));
      InitSnoc(Systems(Init(ms)), Last(ms));
      InitSnoc(NonSystems(Init(ms)), Last(ms));
    }
  }

  lemma {:induction false} OtherTurnsStay(ms: seq<Message>)
    ensures Select(Repair(ms), SystemOnly) == Select(ms, SystemOnly)
    ensures Select(Repair(ms), OtherTurn) == Select(ms, OtherTurn)
  {
    forall m: Message
      ensures BarePlaceholder(m) || WithoutMalformed(m) == [] ==> Turn(m) == []
      ensures WithoutMalformed(m) != [] ==> Turn(WithoutMalformed(m)[0]) == Turn(m)
    {
      StrippedTurn(m);
    }
    RepairSelects(ms, SystemOnly);
    RepairSelects(ms, OtherTurn);
  }

  lemma {:induction false} SelectSuffix<T>(ms: seq<Message>, s: nat, f: Message -> seq<T>) returns (k: nat)
    requires s <= |ms|
    ensures k <= |Select(ms, f)| && Select(ms[s..], f) == Select(ms, f)[k..]
  {
    assert ms == ms[..s] + ms[s..];
    SelectConcat(ms[..s], ms[s..], f);
    k := |Select(ms[..s], f)|;
  }

  lemma {:induction false} SnippedSelects(config: Config, w: seq<Message>) returns (k: nat)
    requires SnipFires(config, w)
    ensures k <= |Select(w, OtherTurn)|
    ensures Select(Snipped(config, w), Turn) == Select(w, SystemOnly) + Select(w, OtherTurn)[k..]
  {
    var rest := NonSystems(w);
    var s := SnipStart(config, rest, RemainingBudget(config, Systems(w)));
    SnippedSplits(config, w);
    SelectConcat(Systems(w), rest[s..], Turn);
    TurnsOfParts(w);
    k := SelectSuffix(rest, s, Turn);
  }

  /** With one, it has all system messages and, of the other turns, a suffix. */
  lemma {:induction false} SnippedKeepsASuffix(config: Config, ms: seq<Message>, ids: set<string>) returns (k: nat)
    requires SnipFires(config, Rewritten(config, Repair(ms), ids))
    ensures k <= |Select(ms, OtherTurn)|
    ensures Select(Prepared(config, ms, ids), Turn) == Select(ms, SystemOnly) + Select(ms, OtherTurn)[k..]
  {
    var w := Rewritten(config, Repair(ms), ids);
    k := SnippedSelects(config, w);
    RepairKeepsTheTurns(Snipped(config, w));
    RewrittenSelects(config, Repair(ms), ids, SystemOnly);
    RewrittenSelects(config, Repair(ms), ids, OtherTurn);
    OtherTurnsStay(ms);
  }
}
