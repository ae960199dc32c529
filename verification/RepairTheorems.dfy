/** What the repair phase achieves: its fixed points are exactly the legal
    requests, two rounds always reach one, and one round reaches one exactly when
    two checkable defects are absent. */
module RepairTheorems {
  import opened ChatMessages
  import opened RepairPasses
  import opened RepairLemmas
  import opened Sequences
  import opened Texts

  /** What one repair guarantees for every history. */
  ghost predicate WellPaired(ms: seq<Message>) {
    NamesValid(ms) && ResultsDeclared(ms) && AllAnswered(ms)
  }

  /** A request that needs no repair. */
  ghost predicate Legal(ms: seq<Message>) {
    WellPaired(ms) && NoBarePlaceholder(ms) && ResultsUnique(ms)
  }

  /** One repair, for any history at all: names are valid, results follow their
      declaration, every declared id is answered; the calls that remain are exactly
      the validly named ones, in order; bystanders survive, in order. */
  lemma {:induction false} RepairEstablishes(ms: seq<Message>)
    ensures WellPaired(Repair(ms))
    ensures Calls(Repair(ms)) == ValidCalls(Calls(ms))
    ensures Bystanders(Repair(ms)) == Bystanders(ms)
    ensures forall id: string ::
              Answered(Repair(ms))[id] ==
              if id in Answered(Cleaned(ms)) then 1 else Declared(Cleaned(ms))[id]
  {
    var p := StripPlaceholders(ms);
    var m := StripMalformed(p);
    var d := DropOrphans(m);
    StripPlaceholdersKeeps(ms);
    StripMalformedKeeps(p);
    StripMalformedEstablishes(p);
    DropOrphansKeeps(m);
    BackfillKeeps(d);
    NamesAreOfCalls(m);
    NamesAreOfCalls(Repair(ms));
    DropOrphansUnique(m);
  }

  lemma {:induction false} LegalIsFixed(ms: seq<Message>)
    requires Legal(ms)
    ensures Repair(ms) == ms
  {
    StripPlaceholdersFixes(ms);
    StripMalformedFixes(ms);
    DropOrphansFixes(ms);
    BackfillNothing(ms);
  }

  /** A well-paired list loses its bare placeholders and its repeated results, and
      nothing else happens to it. */
  lemma {:induction false} RepairOfWellPaired(ms: seq<Message>)
    requires WellPaired(ms)
    ensures Repair(ms) == DropOrphans(StripPlaceholders(ms))
    ensures Legal(Repair(ms))
  {
    var p := StripPlaceholders(ms);
    StripPlaceholdersKeeps(ms);
    StripPlaceholdersEstablishes(ms);
    NamesAreOfCalls(ms);
    NamesAreOfCalls(p);
    StripMalformedFixes(p);
    var d := DropOrphans(p);
    DropOrphansKeeps(p);
    DropOrphansUnique(p);
    DropOrphansKeepsAnswers(p);
    NamesAreOfCalls(d);
    NoBareOfNonTools(p);
    NoBareOfNonTools(d);
    BackfillNothing(d);
  }

  /** The fixed points of the repair phase are the legal requests. */
  lemma {:induction false} FixedIffLegal(ms: seq<Message>)
    ensures Repair(ms) == ms <==> Legal(ms)
  {
    if Legal(ms) {
      LegalIsFixed(ms);
    }
    if Repair(ms) == ms {
      RepairEstablishes(ms);
      RepairOfWellPaired(ms);
    }
  }

  /** Two rounds reach a fixed point from every history. */
  lemma {:induction false} TwoRepairsSuffice(ms: seq<Message>)
    ensures Legal(Repair(Repair(ms)))
    ensures Repair(Repair(Repair(ms))) == Repair(Repair(ms))
  {
    RepairEstablishes(ms);
    RepairOfWellPaired(Repair(ms));
    LegalIsFixed(Repair(Repair(ms)));
  }

  /** The first defect one round leaves behind: an assistant whose text is the
      placeholder and whose calls are all malformed. The first pass spares it because
      it has calls, the second one strips them. */
  predicate HollowPlaceholder(m: Message) {
    m.role.Assistant? && IsPlaceholderText(m.content) && m.toolCalls != [] && ValidCalls(m.toolCalls) == []
  }

  predicate NoHollowPlaceholder(ms: seq<Message>) {
    ms == [] || (NoHollowPlaceholder(Init(ms)) && !HollowPlaceholder(Last(ms)))
  }

  /** The ids of the calls with usable names, with multiplicity. */
  function Usable(ms: seq<Message>): multiset<string> {
    CallBag(ValidCalls(Calls(ms)))
  }

  /** Some tool result answers `id` behind a call with a usable name. */
  predicate AnsweredInTime(ms: seq<Message>, id: string) {
    ms != [] &&
    (AnsweredInTime(Init(ms), id) ||
     (Last(ms).role.Tool? && Last(ms).toolCallId == id && id in Usable(Init(ms))))
  }

  /** The second: an id that usable calls declare more than once and that nothing answers
      behind any of them. */
  ghost predicate UnansweredTwice(ms: seq<Message>, id: string) {
    Usable(ms)[id] > 1 && !AnsweredInTime(ms, id)
  }

  lemma {:induction false} NoEmptyId(calls: seq<ToolCall>)
    ensures "" !in CallBag(calls)
  {
    if calls != [] { NoEmptyId(Init(calls)); }
  }

  /** The same with all calls, for a history whose names are valid. */
  predicate InTime(ms: seq<Message>, id: string) {
    ms != [] &&
    (InTime(Init(ms), id) || (Last(ms).role.Tool? && Last(ms).toolCallId == id && id in Declared(Init(ms))))
  }

  /** The orphan pass keeps an answer of exactly these ids. */
  lemma {:induction false} DropOrphansAnswers(ms: seq<Message>, id: string)
    ensures id in Answered(DropOrphans(ms)) <==> InTime(ms, id)
  {
    if ms != [] {
      var p, m := DropOrphans(Init(ms)), Last(ms);
      DropOrphansAnswers(Init(ms), id);
      DeclaredIsCallBag(Init(ms));
      NoEmptyId(Calls(Init(ms)));
      Snoc(p, m);
      if m.role.Tool? && !KeepsResult(Init(ms), m) { assert DropOrphans(ms) == p; }
    }
  }

  lemma {:induction false} StripsDeclareUsable(ms: seq<Message>)
    ensures Declared(StripMalformed(StripPlaceholders(ms))) == Usable(ms)
  {
    var p := StripPlaceholders(ms);
    StripPlaceholdersKeeps(ms);
    StripMalformedKeeps(p);
    DeclaredIsCallBag(StripMalformed(p));
  }

  lemma {:induction false} StripsKeepAnswers(ms: seq<Message>, id: string)
    ensures InTime(StripMalformed(StripPlaceholders(ms)), id) <==> AnsweredInTime(ms, id)
  {
    if ms != [] {
      var p, m := StripPlaceholders(Init(ms)), Last(ms);
      var c, w := StripMalformed(p), WithoutMalformed(m);
      StripsKeepAnswers(Init(ms), id);
      StripsDeclareUsable(Init(ms));
      InitSnoc(p, m);
      if BarePlaceholder(m) {
        assert StripMalformed(StripPlaceholders(ms)) == c;
      } else if w == [] {
        assert StripMalformed(StripPlaceholders(ms)) == c;
      } else {
        InitSnoc(c, w[0]);
        assert StripMalformed(StripPlaceholders(ms)) == c + [w[0]];
      }
    }
  }

  /** What the history itself says is what the first three passes leave. */
  lemma {:induction false} UnansweredTwiceAfterCleaning(ms: seq<Message>, id: string)
    ensures UnansweredTwice(ms, id) <==> id !in Answered(Cleaned(ms)) && Declared(Cleaned(ms))[id] > 1
  {
    var m := StripMalformed(StripPlaceholders(ms));
    StripsKeepAnswers(ms, id);
    StripsDeclareUsable(ms);
    DropOrphansAnswers(m, id);
    DropOrphansKeeps(m);
  }

  lemma {:induction false} AnsweredTwiceIff(ms: seq<Message>, id: string)
    ensures Answered(Repair(ms))[id] > 1 <==> UnansweredTwice(ms, id)
  {
    RepairEstablishes(ms);
    UnansweredTwiceAfterCleaning(ms, id);
  }

  /** One round is enough exactly when neither defect is present. */
  lemma {:induction false} OneRepairSufficesIff(ms: seq<Message>)
    ensures Repair(Repair(ms)) == Repair(ms) <==>
            NoHollowPlaceholder(ms) && (forall id: string :: !UnansweredTwice(ms, id))
  {
    var r := Repair(ms);
    FixedIffLegal(r);
    RepairEstablishes(ms);
    HollowIffBareLeft(ms);
    forall id: string ensures Answered(r)[id] > 1 <==> UnansweredTwice(ms, id) { AnsweredTwiceIff(ms, id); }
  }

  /** In particular for distinct call ids, whatever answers them. */
  lemma {:induction false} OneRepairSufficesForDistinctCalls(ms: seq<Message>)
    requires DistinctCalls(ms)
    requires NoHollowPlaceholder(ms)
    ensures Repair(Repair(ms)) == Repair(ms) && Legal(Repair(ms))
  {
    RepairKeepsDistinctCalls(ms);
    RepairEstablishes(ms);
    var d := Cleaned(ms);
    BackfillKeeps(d);
    forall id: string ensures !UnansweredTwice(ms, id) {
      UnansweredTwiceAfterCleaning(ms, id);
      assert Declared(d)[id] == Declared(Repair(ms))[id] <= 1;
    }
    OneRepairSufficesIff(ms);
    FixedIffLegal(Repair(ms));
  }

  // ------------------------------------------------------------- supporting facts

  lemma {:induction false} ValidCallBag(calls: seq<ToolCall>)
    ensures CallBag(ValidCalls(calls)) <= CallBag(calls)
  {
    if calls != [] {
      ValidCallBag(Init(calls));
      var v, tc := ValidCalls(Init(calls)), Last(calls);
      if NameIsValid(tc) {
        assert Init(v + [tc]) == v;
      } else {
        assert ValidCalls(calls) == v;
      }
    }
  }

  lemma {:induction false} RepairKeepsDistinctCalls(ms: seq<Message>)
    ensures Declared(Repair(ms)) <= Declared(ms)
    ensures DistinctCalls(ms) ==> DistinctCalls(Repair(ms))
  {
    RepairEstablishes(ms);
    DeclaredIsCallBag(ms);
    DeclaredIsCallBag(Repair(ms));
    ValidCallBag(Calls(ms));
  }

  lemma {:induction false} PlaceholderHasContent(c: Content)
    requires IsPlaceholderText(c)
    ensures HasContent(c)
  {
    assert Strip("") == "";
    assert |PLACEHOLDER_TEXT| > 0;
  }

  lemma {:induction false} HollowLeavesBare(m: Message)
    requires !BarePlaceholder(m)
    ensures |WithoutMalformed(m)| <= 1
    ensures HollowPlaceholder(m) <==> WithoutMalformed(m) != [] && BarePlaceholder(WithoutMalformed(m)[0])
  {
    ValidCallsKeeps(m.toolCalls);
    if HollowPlaceholder(m) {
      PlaceholderHasContent(m.content);
    }
  }

  lemma {:induction false} HollowLeavesBareIn(ms: seq<Message>)
    ensures NoBarePlaceholder(StripMalformed(StripPlaceholders(ms))) <==> NoHollowPlaceholder(ms)
  {
    if ms != [] {
      var p, m := StripPlaceholders(Init(ms)), Last(ms);
      HollowLeavesBareIn(Init(ms));
      if BarePlaceholder(m) {
        assert StripPlaceholders(ms) == p;
      } else {
        var s, w := StripMalformed(p), WithoutMalformed(m);
        HollowLeavesBare(m);
        assert Init(p + [m]) == p;
        assert StripMalformed(p + [m]) == s + w;
        if w == [] {
          assert s + w == s;
        } else {
          assert Init(s + w) == s && Last(s + w) == w[0];
        }
      }
    }
  }

  lemma {:induction false} HollowIffBareLeft(ms: seq<Message>)
    ensures NoBarePlaceholder(Repair(ms)) <==> NoHollowPlaceholder(ms)
  {
    var s := StripMalformed(StripPlaceholders(ms));
    HollowLeavesBareIn(ms);
    DropOrphansKeeps(s);
    BackfillKeepsNonTools(DropOrphans(s));
    NoBareOfNonTools(Repair(ms));
    NoBareOfNonTools(s);
  }

  // ------------------------------------------------- neither defect is imaginary

  const EXAMPLE_CALL := Call("x", Wrappers.None, StringName("exec"))
  const HOLLOW := Message(Assistant, Text(PLACEHOLDER_TEXT), [NotAnObject], "", Wrappers.None)
  const TWICE := Message(Assistant, NoContent, [EXAMPLE_CALL, EXAMPLE_CALL], "", Wrappers.None)

  /** A hollow placeholder alone makes the second round necessary ... */
  lemma {:induction false} HollowNeedsTwoRepairs()
    ensures Repair(Repair([HOLLOW])) != Repair([HOLLOW])
  {
    assert Strip(PLACEHOLDER_TEXT) == PLACEHOLDER_TEXT by {
      assert PLACEHOLDER_TEXT[0] == '[' && PLACEHOLDER_TEXT[|PLACEHOLDER_TEXT| - 1] == ']';
    }
    assert Last([HOLLOW]) == HOLLOW && !NameIsValid(NotAnObject);
    assert HollowPlaceholder(HOLLOW);
    OneRepairSufficesIff([HOLLOW]);
  }

  lemma {:induction false} TwiceIsDeclaredTwice()
    ensures CallBag(TWICE.toolCalls) == multiset{"x", "x"}
  {
    assert Init([EXAMPLE_CALL]) == [];
    CallBagConcat([EXAMPLE_CALL], [EXAMPLE_CALL]);
    assert TWICE.toolCalls == [EXAMPLE_CALL] + [EXAMPLE_CALL];
    assert CallBag([EXAMPLE_CALL]) == multiset{"x"};
  }

  /** ... and so does an unanswered id that is declared twice. */
  lemma {:induction false} TwiceNeedsTwoRepairs()
    ensures Repair(Repair([TWICE])) != Repair([TWICE])
  {
    Single(TWICE);
    TwiceIsUsable();
    TwiceIsDeclaredTwice();
    assert !AnsweredInTime([], "x") && Last([TWICE]) == TWICE && Init([TWICE]) == [];
    assert UnansweredTwice([TWICE], "x");
    OneRepairSufficesIff([TWICE]);
  }

  lemma {:induction false} TwiceIsUsable()
    ensures ValidCalls(TWICE.toolCalls) == TWICE.toolCalls
  {
    assert NameIsValid(EXAMPLE_CALL);
    assert Init(TWICE.toolCalls) == [EXAMPLE_CALL] && Init([EXAMPLE_CALL]) == [];
    assert AllNamesValid([]) && AllNamesValid([EXAMPLE_CALL]) && AllNamesValid(TWICE.toolCalls);
    ValidCallsKeeps(TWICE.toolCalls);
  }
}
