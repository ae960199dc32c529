/** What redaction does to the figures. Every text of a row is masked, trimmed and bounded
    before the row is written, while the running counters see it as it was. The counters
    agree with the file exactly when three checkable things survive: the distinction
    between tool keys, the presence of errors, and the last verification. */
module TraceRedaction {
  import opened Sequences
  import opened Texts
  import opened TraceSpec
  import opened Wrappers

  const TEXT_LIMIT := 1000

  /** `mask` replaces credentials in a text that is not empty; `other` redacts the rendering
      of an object or a list. */
  datatype Redactor = Redactor(mask: string -> string, other: string -> string)

  function WithoutNul(s: string): string {
    if s == "" then "" else WithoutNul(Init(s)) + if Last(s) == '\0' then "" else [Last(s)]
  }

  function RedactText(r: Redactor, s: string): string {
    if s == "" then "" else Bounded(Strip(WithoutNul(r.mask(s))), TEXT_LIMIT)
  }

  function RedactValue(r: Redactor, v: Value): Value {
    match v
    case Null => Null
    case Bool(_) => v
    case Text(s) => Text(RedactText(r, s))
    case Other(rendered) => Other(r.other(rendered))
  }

  /** A missing tool name stays missing. */
  function RedactName(r: Redactor, name: string): string {
    if name == "?" then name else RedactText(r, name)
  }

  /** Event names and statuses are the program's own words, and numbers are not touched. */
  function RedactRow(r: Redactor, row: Row): Row {
    row.(callId := RedactText(r, row.callId), toolName := RedactName(r, row.toolName),
         error := RedactValue(r, row.error),
         verificationStatus := RedactValue(r, row.verificationStatus),
         verificationCompleted := RedactValue(r, row.verificationCompleted))
  }

  function Redacted(r: Redactor, rows: seq<Row>): seq<Row> {
    if rows == [] then [] else Redacted(r, Init(rows)) + [RedactRow(r, Last(rows))]
  }

  lemma {:induction false} RedactedAt(r: Redactor, rows: seq<Row>)
    ensures |Redacted(r, rows)| == |rows|
    ensures forall i :: 0 <= i < |rows| ==> Redacted(r, rows)[i] == RedactRow(r, rows[i])
  {
    if rows != [] {
      RedactedAt(r, Init(rows));
      assert forall i :: 0 <= i < |rows| - 1 ==> Init(rows)[i] == rows[i];
    }
  }

  // ------------------------------------------------------------- what the file shows

  lemma {:induction false} NoNulIsLeft(s: string)
    ensures '\0' !in WithoutNul(s)
  {
    if s != "" { NoNulIsLeft(Init(s)); }
  }

  /** A text in the file has at most 1000 characters and dots, and no NUL. */
  lemma {:induction false} WrittenTextIsBounded(r: Redactor, s: string)
    ensures |RedactText(r, s)| <= 1001 && '\0' !in RedactText(r, s)
  {
    if s != "" {
      NoNulIsLeft(r.mask(s));
      var i, j := StripCutsTheEnds(WithoutNul(r.mask(s)));
    }
  }

  lemma {:induction false} NothingToRemove(s: string)
    requires '\0' !in s
    ensures WithoutNul(s) == s
  {
    if s != "" {
      Split(s);
      assert '\0' !in Init(s) && Last(s) in s;
      NothingToRemove(Init(s));
    }
  }

  lemma {:induction false} NothingToStrip(s: string)
    requires s != "" ==> !IsSpace(s[0]) && !IsSpace(s[|s| - 1])
    ensures Strip(s) == s
  {
  }

  /** A text without credentials, NUL and blanks at its ends is written as it is up to 1000
      characters, and its first 1000 with dots when it is longer. */
  lemma {:induction false} CleanTextIsWritten(r: Redactor, s: string)
    requires s != "" && r.mask(s) == s && '\0' !in s && !IsSpace(s[0]) && !IsSpace(s[|s| - 1])
    ensures RedactText(r, s) == if |s| <= 1000 then s else s[..1000] + "\U{2026}"
  {
    NothingToRemove(s);
    NothingToStrip(s);
  }

  /** What is no text is written as it is: the event, its status and numbers, flags, and what
      is missing. */
  lemma {:induction false} TheRestIsWrittenAsItIs(r: Redactor, row: Row)
    ensures
      var w := RedactRow(r, row);
      && w.event == row.event && w.status == row.status && w.sequence == row.sequence
      && w.duration == row.duration && w.iteration == row.iteration
      && (row.callId == "" ==> w.callId == "") && (row.toolName == "?" ==> w.toolName == "?")
      && (row.error == Null <==> w.error == Null)
      && (row.verificationStatus == Null <==> w.verificationStatus == Null)
      && (row.verificationCompleted.Bool? || row.verificationCompleted == Null ==>
           w.verificationCompleted == row.verificationCompleted)
  {
  }

  /** Two texts that look the same once credentials are masked. */
  predicate SameMasked(r: Redactor, a: string, b: string) {
    (a == "" <==> b == "") && r.mask(a) == r.mask(b)
  }

  predicate SameMaskedValue(r: Redactor, a: Value, b: Value) {
    match (a, b)
    case (Text(s), Text(t)) => SameMasked(r, s, t)
    case (Other(s), Other(t)) => r.other(s) == r.other(t)
    case _ => a == b
  }

  /** Nothing in the file tells apart two rows that differ only in what is masked: call id,
      tool name, error and verification are written in no other way. */
  lemma {:induction false} OnlyMaskedTextIsWritten(r: Redactor, a: Row, b: Row)
    requires SameMasked(r, a.callId, b.callId) && SameMaskedValue(r, a.error, b.error)
    requires a.toolName == b.toolName
          || (a.toolName != "?" && b.toolName != "?" && SameMasked(r, a.toolName, b.toolName))
    requires SameMaskedValue(r, a.verificationStatus, b.verificationStatus)
    requires SameMaskedValue(r, a.verificationCompleted, b.verificationCompleted)
    requires a == b.(callId := a.callId, toolName := a.toolName, error := a.error,
                     verificationStatus := a.verificationStatus, verificationCompleted := a.verificationCompleted)
    ensures RedactRow(r, a) == RedactRow(r, b)
  {
  }

  // ------------------------------------------------------------------------ tool keys

  function RedactKey(r: Redactor, key: ToolKey): ToolKey {
    match key
    case ByCall(p, id) => ByCall(p, RedactText(r, id))
    case ByName(p, iteration, name) => ByName(p, iteration, RedactName(r, name))
  }

  predicate Distinguishes(r: Redactor, keys: set<ToolKey>) {
    forall a, b :: a in keys && b in keys && RedactKey(r, a) == RedactKey(r, b) ==> a == b
  }

  /** The call id, if there is one, is more than blanks, so the row keeps having one. */
  predicate KeepsId(r: Redactor, row: Row) {
    row.callId != "" ==> RedactText(r, row.callId) != ""
  }

  predicate KeysSurvive(r: Redactor, rows: seq<Row>) {
    |Keys(Redacted(r, rows))| == |Keys(rows)|
  }

  function FileKey(r: Redactor, row: Row): Option<ToolKey> {
    KeyOf(RedactRow(r, row))
  }

  /** No call is counted as two in the file. */
  predicate NoneSplit(r: Redactor, rows: seq<Row>) {
    forall i, j :: 0 <= i < |rows| && 0 <= j < |rows| && KeyOf(rows[i]) == KeyOf(rows[j]) ==>
      FileKey(r, rows[i]) == FileKey(r, rows[j])
  }

  /** No two calls are counted as one in the file. */
  predicate NoneMerged(r: Redactor, rows: seq<Row>) {
    forall i, j :: 0 <= i < |rows| && 0 <= j < |rows| && FileKey(r, rows[i]) == FileKey(r, rows[j]) ==>
      KeyOf(rows[i]) == KeyOf(rows[j])
  }

  /** The live key of a tool row with its key in the file. */
  function PairOf(r: Redactor, row: Row): (ToolKey, ToolKey)
    requires KeyOf(row).Some?
  {
    (KeyOf(row).value, FileKey(r, row).value)
  }

  function Pairs(r: Redactor, rows: seq<Row>): set<(ToolKey, ToolKey)> {
    set i | 0 <= i < |rows| && KeyOf(rows[i]).Some? :: PairOf(r, rows[i])
  }

  function Side(p: (ToolKey, ToolKey), file: bool): ToolKey { if file then p.1 else p.0 }

  function Sides(pairs: set<(ToolKey, ToolKey)>, file: bool): set<ToolKey> {
    set p | p in pairs :: Side(p, file)
  }

  predicate OneEach(pairs: set<(ToolKey, ToolKey)>, file: bool) {
    forall p, q :: p in pairs && q in pairs && Side(p, file) == Side(q, file) ==> p == q
  }

  lemma {:induction false} SidesSize(pairs: set<(ToolKey, ToolKey)>, file: bool)
    ensures |Sides(pairs, file)| <= |pairs|
    ensures |Sides(pairs, file)| == |pairs| <==> OneEach(pairs, file)
    decreases |pairs|
  {
    if pairs != {} {
      var p :| p in pairs;
      var rest := pairs - {p};
      SidesSize(rest, file);
      SidesOfMore(rest, p, file);
      assert pairs == rest + {p};
    }
  }

  lemma {:induction false} SidesOfMore(rest: set<(ToolKey, ToolKey)>, p: (ToolKey, ToolKey), file: bool)
    requires p !in rest
    ensures Sides(rest + {p}, file) == Sides(rest, file) + {Side(p, file)}
    ensures OneEach(rest + {p}, file) <==> OneEach(rest, file) && Side(p, file) !in Sides(rest, file)
  {
    if Side(p, file) in Sides(rest, file) {
      var q :| q in rest && Side(q, file) == Side(p, file);
      assert p in rest + {p} && q in rest + {p};
    }
  }

  lemma {:induction false} LiveSide(r: Redactor, rows: seq<Row>)
    ensures Sides(Pairs(r, rows), false) == Keys(rows)
  {
    var pairs := Pairs(r, rows);
    forall k | k in Keys(rows) ensures k in Sides(pairs, false) {
      var i :| 0 <= i < |rows| && KeyOf(rows[i]) == Some(k);
      assert PairOf(r, rows[i]) in pairs && Side(PairOf(r, rows[i]), false) == k;
    }
  }

  lemma {:induction false} FileSide(r: Redactor, rows: seq<Row>)
    ensures Sides(Pairs(r, rows), true) == Keys(Redacted(r, rows))
  {
    var pairs, safe := Pairs(r, rows), Redacted(r, rows);
    RedactedAt(r, rows);
    forall k | k in Keys(safe) ensures k in Sides(pairs, true) {
      var i :| 0 <= i < |safe| && KeyOf(safe[i]) == Some(k);
      assert PairOf(r, rows[i]) in pairs && Side(PairOf(r, rows[i]), true) == k;
    }
    forall k | k in Sides(pairs, true) ensures k in Keys(safe) {
      var i :| 0 <= i < |rows| && KeyOf(rows[i]).Some? && PairOf(r, rows[i]).1 == k;
      assert KeyOf(safe[i]) == Some(k);
    }
  }

  lemma {:induction false} OneEachIff(r: Redactor, rows: seq<Row>)
    ensures OneEach(Pairs(r, rows), false) <==> NoneSplit(r, rows)
    ensures OneEach(Pairs(r, rows), true) <==> NoneMerged(r, rows)
  {
    var pairs := Pairs(r, rows);
    forall i, j | 0 <= i < |rows| && 0 <= j < |rows| && KeyOf(rows[i]).Some? && KeyOf(rows[j]).Some?
      ensures OneEach(pairs, false) && KeyOf(rows[i]) == KeyOf(rows[j]) ==> FileKey(r, rows[i]) == FileKey(r, rows[j])
      ensures OneEach(pairs, true) && FileKey(r, rows[i]) == FileKey(r, rows[j]) ==> KeyOf(rows[i]) == KeyOf(rows[j])
    {
      var p, q := PairOf(r, rows[i]), PairOf(r, rows[j]);
      assert p in pairs && q in pairs;
      assert Side(p, false) == p.0 && Side(q, false) == q.0 && Side(p, true) == p.1 && Side(q, true) == q.1;
    }
  }

  /** As long as calls are not split and merged at once, as many are counted from the file
      as live exactly when none is split and none are merged. */
  lemma {:induction false} KeysSurviveIff(r: Redactor, rows: seq<Row>)
    requires NoneSplit(r, rows) || NoneMerged(r, rows)
    ensures KeysSurvive(r, rows) <==> NoneSplit(r, rows) && NoneMerged(r, rows)
  {
    LiveSide(r, rows);
    FileSide(r, rows);
    OneEachIff(r, rows);
    SidesSize(Pairs(r, rows), false);
    SidesSize(Pairs(r, rows), true);
  }

  /** When no call id vanishes, no call is split, and calls are merged exactly when
      redaction makes two of their keys one. */
  lemma {:induction false} KeptIdsDoNotSplit(r: Redactor, rows: seq<Row>)
    requires forall i :: 0 <= i < |rows| ==> KeepsId(r, rows[i])
    ensures NoneSplit(r, rows)
    ensures NoneMerged(r, rows) <==> Distinguishes(r, Keys(rows))
  {
    forall i | 0 <= i < |rows| && KeyOf(rows[i]).Some?
      ensures FileKey(r, rows[i]) == Some(RedactKey(r, KeyOf(rows[i]).value)) {
      assert KeepsId(r, rows[i]);
    }
    forall i, j | 0 <= i < |rows| && 0 <= j < |rows| && FileKey(r, rows[i]) == FileKey(r, rows[j])
      ensures Distinguishes(r, Keys(rows)) ==> KeyOf(rows[i]) == KeyOf(rows[j]) {
      if KeyOf(rows[i]).Some? {
        assert KeyOf(rows[i]).value in Keys(rows) && KeyOf(rows[j]).value in Keys(rows);
      }
    }
  }

  // ------------------------------------------------------------------------ the counts

  /** A response that counts as an error for its error text alone, and keeps that text. */
  predicate ErrorSurvives(r: Redactor, row: Row) {
    (row.event.LlmResponse? || row.event.LlmResponseReceived?) && !row.status.Error?
    && row.error.Text? && row.error.s != ""
    ==> RedactText(r, row.error.s) != ""
  }

  predicate ErrorsSurvive(r: Redactor, rows: seq<Row>) {
    forall i :: 0 <= i < |rows| && IsProviderError(rows[i]) ==> ErrorSurvives(r, rows[i])
  }

  lemma {:induction false} ErrorSurvivesIff(r: Redactor, row: Row)
    ensures IsProviderError(RedactRow(r, row)) <==> IsProviderError(row) && ErrorSurvives(r, row)
  {
  }

  lemma {:induction false} CountBelow(rows: seq<Row>, safe: seq<Row>, p: Row -> bool)
    requires |rows| == |safe| && forall i :: 0 <= i < |rows| && p(safe[i]) ==> p(rows[i])
    ensures CountWhere(safe, p) <= CountWhere(rows, p)
    ensures CountWhere(safe, p) == CountWhere(rows, p) <==> forall i :: 0 <= i < |rows| && p(rows[i]) ==> p(safe[i])
  {
    if rows != [] {
      var n := |rows| - 1;
      assert forall i :: 0 <= i < n ==> Init(rows)[i] == rows[i] && Init(safe)[i] == safe[i];
      CountBelow(Init(rows), Init(safe), p);
      assert p(safe[n]) ==> p(rows[n]);
    }
  }

  lemma {:induction false} CountsOfRedacted(r: Redactor, rows: seq<Row>)
    ensures CountWhere(Redacted(r, rows), IsFailure) == CountWhere(rows, IsFailure)
    ensures CountWhere(Redacted(r, rows), IsToolFailure) == CountWhere(rows, IsToolFailure)
    ensures CountWhere(Redacted(r, rows), IsUnknownSideEffect) == CountWhere(rows, IsUnknownSideEffect)
    ensures Longest(Redacted(r, rows)) == Longest(rows)
  {
    if rows != [] {
      CountsOfRedacted(r, Init(rows));
      InitSnoc(Redacted(r, Init(rows)), RedactRow(r, Last(rows)));
    }
  }

  lemma {:induction false} ErrorsOfRedacted(r: Redactor, rows: seq<Row>)
    ensures CountWhere(Redacted(r, rows), IsProviderError) == CountWhere(rows, IsProviderError) <==>
      ErrorsSurvive(r, rows)
  {
    var safe := Redacted(r, rows);
    RedactedAt(r, rows);
    forall i | 0 <= i < |rows|
      ensures IsProviderError(safe[i]) <==> IsProviderError(rows[i]) && ErrorSurvives(r, rows[i]) {
      ErrorSurvivesIff(r, rows[i]);
    }
    CountBelow(rows, safe, IsProviderError);
  }

  lemma {:induction false} VerificationOfRedacted(r: Redactor, rows: seq<Row>)
    ensures
      match LastVerification(rows)
      case None => LastVerification(Redacted(r, rows)).None?
      case Some(row) => LastVerification(Redacted(r, rows)) == Some(RedactRow(r, row))
  {
    if rows != [] {
      VerificationOfRedacted(r, Init(rows));
      InitSnoc(Redacted(r, Init(rows)), RedactRow(r, Last(rows)));
    }
  }

  /** The last verification is none, or well typed and a text that redaction leaves alone. */
  predicate VerificationSurvives(r: Redactor, rows: seq<Row>) {
    match LastVerification(rows)
    case None => true
    case Some(row) =>
      && (row.verificationStatus.Null?
          || (row.verificationStatus.Text? && RedactText(r, row.verificationStatus.s) == row.verificationStatus.s))
      && (row.verificationCompleted.Null? || row.verificationCompleted.Bool?)
  }

  /** The running summary is what the redacted rows give exactly when as many keys, all
      errors and the last verification survive. */
  lemma {:induction false} RedactedRowsGiveTheSummaryIff(r: Redactor, rows: seq<Row>)
    ensures TallyOf(rows).figures == Recomputed(Redacted(r, rows)) <==>
      KeysSurvive(r, rows) && ErrorsSurvive(r, rows) && VerificationSurvives(r, rows)
  {
    TallyIsRecomputed(rows);
    RedactedAt(r, rows);
    CountsOfRedacted(r, rows);
    ErrorsOfRedacted(r, rows);
    VerificationOfRedacted(r, rows);
  }

  /** The condition in terms of the rows alone: no call split, none merged, all errors and
      the last verification kept. */
  lemma {:induction false} RedactedSummaryIsExact(r: Redactor, rows: seq<Row>)
    requires NoneSplit(r, rows) || NoneMerged(r, rows)
    ensures TallyOf(rows).figures == Recomputed(Redacted(r, rows)) <==>
      NoneSplit(r, rows) && NoneMerged(r, rows) && ErrorsSurvive(r, rows) && VerificationSurvives(r, rows)
  {
    RedactedRowsGiveTheSummaryIff(r, rows);
    KeysSurviveIff(r, rows);
  }

  /** With call ids that do not vanish: redaction tells the keys apart, and keeps all errors
      and the last verification. */
  lemma {:induction false} KeptIdsGiveTheSummaryIff(r: Redactor, rows: seq<Row>)
    requires forall i :: 0 <= i < |rows| ==> KeepsId(r, rows[i])
    ensures TallyOf(rows).figures == Recomputed(Redacted(r, rows)) <==>
      Distinguishes(r, Keys(rows)) && ErrorsSurvive(r, rows) && VerificationSurvives(r, rows)
  {
    KeptIdsDoNotSplit(r, rows);
    RedactedSummaryIsExact(r, rows);
  }

  // ------------------------------------------------------------------- they can differ

  /** Trimming and bounding alone; the texts below contain no credentials. */
  function Plain(): Redactor { Redactor((s: string) => s, (s: string) => s) }

  function Started(callId: string, iteration: string): Row {
    Row(1, ToolStarted, NoStatus, None, callId, iteration, "?", Null, Null, Null)
  }

  lemma {:induction false} TrimsOne(c: char)
    requires !IsSpace(c) && c != '\0'
    ensures RedactText(Plain(), [c]) == [c]
    ensures RedactText(Plain(), [c, ' ']) == [c]
  {
    assert Init([c]) == "" && Init([c, ' ']) == [c];
    assert WithoutNul([c]) == "" + [c] == [c];
    assert WithoutNul([c, ' ']) == [c] + " " == [c, ' '];
    assert TrimLeft([c, ' ']) == [c, ' '] && TrimLeft([c]) == [c];
    assert TrimRight([c]) == [c] && TrimRight([c, ' ']) == TrimRight([c]);
  }

  /** Two calls live, one in the file: the ids differ by a trailing blank. */
  lemma {:induction false} TrimmedCallIdsMerge()
    ensures TallyOf([Started("x", "1"), Started("x ", "1")]).figures.tools == 2
    ensures Recomputed(Redacted(Plain(), [Started("x", "1"), Started("x ", "1")])).tools == 1
  {
    TrimmedIdsLive();
    TrimmedIdsInFile();
  }

  lemma {:induction false} TrimmedIdsLive()
    ensures TallyOf([Started("x", "1"), Started("x ", "1")]).figures.tools == 2
  {
    TallyIsRecomputed([Started("x", "1"), Started("x ", "1")]);
    assert "x" != "x " by { assert |"x"| != |"x "|; }
    PairKeys(Started("x", "1"), Started("x ", "1"), ByCall(false, "x"), ByCall(false, "x "));
  }

  lemma {:induction false} TrimmedIdsInFile()
    ensures Recomputed(Redacted(Plain(), [Started("x", "1"), Started("x ", "1")])).tools == 1
  {
    var rows := [Started("x", "1"), Started("x ", "1")];
    TrimsOne('x');
    RedactedAt(Plain(), rows);
    var safe := Redacted(Plain(), rows);
    assert safe == [safe[0], safe[1]];
    PairKeys(safe[0], safe[1], ByCall(false, "x"), ByCall(false, "x"));
  }

  /** One call live, two in the file: an id of blanks vanishes, and the rows fall back to
      their iterations. */
  lemma {:induction false} BlankCallIdsSplit()
    ensures TallyOf([Started(" ", "1"), Started(" ", "2")]).figures.tools == 1
    ensures Recomputed(Redacted(Plain(), [Started(" ", "1"), Started(" ", "2")])).tools == 2
  {
    BlankIdsLive();
    BlankIdsInFile();
  }

  lemma {:induction false} BlankVanishes()
    ensures RedactText(Plain(), " ") == ""
  {
    assert Init(" ") == "" && WithoutNul(" ") == "" + " " == " ";
    assert TrimLeft(" ") == TrimLeft(" "[1..]) == "";
  }

  lemma {:induction false} BlankIdsLive()
    ensures TallyOf([Started(" ", "1"), Started(" ", "2")]).figures.tools == 1
  {
    TallyIsRecomputed([Started(" ", "1"), Started(" ", "2")]);
    PairKeys(Started(" ", "1"), Started(" ", "2"), ByCall(false, " "), ByCall(false, " "));
  }

  lemma {:induction false} BlankIdsInFile()
    ensures Recomputed(Redacted(Plain(), [Started(" ", "1"), Started(" ", "2")])).tools == 2
  {
    RedactedPair(Plain(), Started(" ", "1"), Started(" ", "2"));
    BlankRow("1");
    BlankRow("2");
    assert "1" != "2" by { assert "1"[0] != "2"[0]; }
    PairKeys(Started("", "1"), Started("", "2"), ByName(false, "1", "?"), ByName(false, "2", "?"));
  }

  lemma {:induction false} BlankRow(iteration: string)
    ensures RedactRow(Plain(), Started(" ", iteration)) == Started("", iteration)
  {
    BlankVanishes();
  }

  lemma {:induction false} RedactedPair(r: Redactor, x: Row, y: Row)
    ensures Redacted(r, [x, y]) == [RedactRow(r, x), RedactRow(r, y)]
  {
    RedactedAt(r, [x, y]);
    assert [x, y][0] == x && [x, y][1] == y;
  }

  lemma {:induction false} KeysConcat(a: seq<Row>, b: seq<Row>)
    ensures Keys(a + b) == Keys(a) + Keys(b)
  {
    var all := a + b;
    assert forall i :: 0 <= i < |a| ==> all[i] == a[i];
    assert forall i :: 0 <= i < |b| ==> all[|a| + i] == b[i];
    forall k | k in Keys(all) ensures k in Keys(a) + Keys(b) {
      var i :| 0 <= i < |all| && KeyOf(all[i]) == Some(k);
      if i >= |a| { assert b[i - |a|] == all[i]; }
    }
  }

  lemma {:induction false} RedactedConcat(r: Redactor, a: seq<Row>, b: seq<Row>)
    ensures Redacted(r, a + b) == Redacted(r, a) + Redacted(r, b)
  {
    RedactedAt(r, a);
    RedactedAt(r, b);
    RedactedAt(r, a + b);
  }

  /** The remaining case: one call split and two merged, and the count is the same. */
  lemma {:induction false} SplitAndMergedCancel()
    ensures
      var rows := [Started("x", "1"), Started("x ", "1")] + [Started(" ", "1"), Started(" ", "2")];
      KeysSurvive(Plain(), rows) && !NoneSplit(Plain(), rows) && !NoneMerged(Plain(), rows)
  {
    var a, b := [Started("x", "1"), Started("x ", "1")], [Started(" ", "1"), Started(" ", "2")];
    assert (a + b)[0] == a[0] && (a + b)[1] == a[1] && (a + b)[2] == b[0] && (a + b)[3] == b[1];
    CancelLive(a, b);
    CancelInFile(a, b);
    OneIsSplit(a + b, 2, 3);
    TwoAreMerged(a + b, 0, 1);
  }

  lemma {:induction false} OneIsSplit(rows: seq<Row>, i: nat, j: nat)
    requires i < |rows| && j < |rows| && rows[i] == Started(" ", "1") && rows[j] == Started(" ", "2")
    ensures !NoneSplit(Plain(), rows)
  {
    BlankRow("1");
    BlankRow("2");
    assert "1" != "2" by { assert "1"[0] != "2"[0]; }
    assert KeyOf(rows[i]) == KeyOf(rows[j]) && FileKey(Plain(), rows[i]) != FileKey(Plain(), rows[j]);
  }

  lemma {:induction false} TwoAreMerged(rows: seq<Row>, i: nat, j: nat)
    requires i < |rows| && j < |rows| && rows[i] == Started("x", "1") && rows[j] == Started("x ", "1")
    ensures !NoneMerged(Plain(), rows)
  {
    TrimsOne('x');
    assert "x" != "x " by { assert |"x"| != |"x "|; }
    assert KeyOf(rows[i]) != KeyOf(rows[j]) && FileKey(Plain(), rows[i]) == FileKey(Plain(), rows[j]);
  }

  lemma {:induction false} CancelLive(a: seq<Row>, b: seq<Row>)
    requires a == [Started("x", "1"), Started("x ", "1")] && b == [Started(" ", "1"), Started(" ", "2")]
    ensures |Keys(a + b)| == 3
  {
    assert "x" != "x " && "x" != " " && "x " != " " by { assert |"x"| == |" "| == 1 && "x"[0] != " "[0]; }
    KeysConcat(a, b);
    PairKeys(a[0], a[1], ByCall(false, "x"), ByCall(false, "x "));
    PairKeys(b[0], b[1], ByCall(false, " "), ByCall(false, " "));
    assert Keys(a + b) == {ByCall(false, "x"), ByCall(false, "x "), ByCall(false, " ")};
  }

  lemma {:induction false} CancelInFile(a: seq<Row>, b: seq<Row>)
    requires a == [Started("x", "1"), Started("x ", "1")] && b == [Started(" ", "1"), Started(" ", "2")]
    ensures |Keys(Redacted(Plain(), a + b))| == 3
  {
    CancelFile(a, b);
    KeysConcat([Started("x", "1"), Started("x", "1")], [Started("", "1"), Started("", "2")]);
    assert "1" != "2" by { assert "1"[0] != "2"[0]; }
    PairKeys(Started("x", "1"), Started("x", "1"), ByCall(false, "x"), ByCall(false, "x"));
    PairKeys(Started("", "1"), Started("", "2"), ByName(false, "1", "?"), ByName(false, "2", "?"));
    assert Keys(Redacted(Plain(), a + b)) == {ByCall(false, "x"), ByName(false, "1", "?"), ByName(false, "2", "?")};
  }

  lemma {:induction false} CancelFile(a: seq<Row>, b: seq<Row>)
    requires a == [Started("x", "1"), Started("x ", "1")] && b == [Started(" ", "1"), Started(" ", "2")]
    ensures Redacted(Plain(), a + b) ==
      [Started("x", "1"), Started("x", "1")] + [Started("", "1"), Started("", "2")]
  {
    RedactedConcat(Plain(), a, b);
    RedactedPair(Plain(), a[0], a[1]);
    RedactedPair(Plain(), b[0], b[1]);
    BlankRow("1");
    BlankRow("2");
    TrimsOne('x');
  }
}
