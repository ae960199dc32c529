/** Cursors are never reused, nothing unprocessed is dropped, and committed batches tile
    the journal, exactly as long as no run commits on a cursor it did not start from. */
module JournalTheorems {
  import opened JournalSpec
  import opened Sequences
  import opened Wrappers

  /** Cursors are 1, 2, 3, ... in the order of writing. */
  predicate Sequential(issued: seq<Entry>) {
    forall i :: 0 <= i < |issued| ==> Counts(issued, i)
  }

  predicate Counts(issued: seq<Entry>, i: nat)
    requires i < |issued|
  {
    issued[i].cursor == i + 1
  }

  /** The file is what is left of everything written, and never only partly counted. */
  predicate Sound(st: State) {
    && Sequential(st.issued)
    && IsTail(st.journal.file, st.issued)
    && (st.journal.counter.Some? ==> st.journal.counter.value <= |st.issued|)
  }

  /** The end of what was written, and not nothing of it. */
  predicate IsTail(file: seq<Entry>, issued: seq<Entry>) {
    && |file| <= |issued|
    && (file == [] ==> issued == [])
    && forall i :: 0 <= i < |file| ==> file[i] == issued[|issued| - |file| + i]
  }

  lemma {:induction false} TailIsSlice(file: seq<Entry>, issued: seq<Entry>)
    requires |file| <= |issued|
    ensures IsTail(file, issued) <==> file == issued[|issued| - |file|..] && (file == [] ==> issued == [])
  {
  }

  /** How many entries compaction has removed. */
  function Dropped(st: State): nat
    requires |st.journal.file| <= |st.issued|
  {
    |st.issued| - |st.journal.file|
  }

  lemma {:induction false} SequentialSplits(issued: seq<Entry>)
    requires Sequential(issued) && issued != []
    ensures Sequential(Init(issued)) && Last(issued).cursor == |issued|
  {
    assert Counts(issued, |issued| - 1);
    forall i | 0 <= i < |issued| - 1 ensures Counts(Init(issued), i) {
      assert Counts(issued, i);
    }
  }

  lemma {:induction false} SequentialSnoc(issued: seq<Entry>, e: Entry)
    requires Sequential(issued) && e.cursor == |issued| + 1
    ensures Sequential(issued + [e])
  {
    forall i | 0 <= i < |issued| ensures Counts(issued + [e], i) {
      assert Counts(issued, i);
    }
  }

  // ---------------------------------------------------------------- cursor allocation

  lemma {:induction false} MaxOfSuffix(issued: seq<Entry>, from: nat)
    requires Sequential(issued) && from <= |issued|
    ensures MaxCursor(issued[from..]) == if from == |issued| then 0 else |issued|
    decreases |issued|
  {
    if from < |issued| {
      SequentialSplits(issued);
      assert Init(issued[from..]) == Init(issued)[from..];
      MaxOfSuffix(Init(issued), from);
    }
  }

  /** Every branch agrees with the full scan, and gives one more than the largest cursor
      ever issued, compacted away or not. */
  lemma {:induction false} NextCursorIsFresh(st: State, readable: bool)
    requires Sound(st)
    ensures NextCursor(st.journal, readable) == MaxCursor(st.journal.file) + 1 == |st.issued| + 1
  {
    TailIsSlice(st.journal.file, st.issued);
    MaxOfSuffix(st.issued, Dropped(st));
    if st.issued != [] {
      SequentialSplits(st.issued);
      assert Last(st.journal.file) == Last(st.issued);
    }
  }

  // ------------------------------------------------------------------------- compaction

  function Min(a: nat, b: nat): nat { if a < b then a else b }

  lemma {:induction false} FirstUnprocessedOfSuffix(issued: seq<Entry>, from: nat, dream: nat)
    requires Sequential(issued) && from <= dream <= |issued|
    ensures FirstUnprocessed(issued[from..], dream) == dream - from
    decreases dream - from
  {
    if from < |issued| { assert Counts(issued, from); }
    if from < dream {
      assert issued[from..][1..] == issued[from + 1..];
      FirstUnprocessedOfSuffix(issued, from + 1, dream);
    }
  }

  /** What is above the Dream cursor is still in the file. */
  predicate Kept(st: State) {
    Sound(st) && Dropped(st) <= st.journal.dream <= |st.issued|
  }

  /** Compaction keeps the pending entries and, beside them, as many processed ones as the
      limit leaves room for. */
  lemma {:induction false} CompactionKeepsPending(st: State, limit: int)
    requires Kept(st)
    ensures Kept(After(st, Trim(limit)))
    ensures limit > 0 ==>
      |After(st, Trim(limit)).journal.file| == Max(Min(|st.journal.file|, limit), |st.issued| - st.journal.dream)
  {
    FirstUnprocessedOfFile(st);
    if limit > 0 && |st.journal.file| > limit {
      TailOfTail(st.journal.file, st.issued, KeepFrom(st.journal, limit));
    } else {
      assert st.journal.file[0..] == st.journal.file;
    }
  }

  lemma {:induction false} FirstUnprocessedOfFile(st: State)
    requires Kept(st)
    ensures FirstUnprocessed(st.journal.file, st.journal.dream) == st.journal.dream - Dropped(st)
  {
    TailIsSlice(st.journal.file, st.issued);
    FirstUnprocessedOfSuffix(st.issued, Dropped(st), st.journal.dream);
  }

  lemma {:induction false} TailOfTail(file: seq<Entry>, issued: seq<Entry>, k: nat)
    requires IsTail(file, issued) && k < |file|
    ensures IsTail(file[k..], issued)
  {
  }

  // ------------------------------------------------------------------------- Dream runs

  lemma {:induction false} UnprocessedOfSuffix(issued: seq<Entry>, from: nat, dream: nat)
    requires Sequential(issued) && from <= |issued| && from <= dream <= |issued|
    ensures Unprocessed(issued[from..], dream) == issued[dream..]
    decreases |issued|
  {
    if from < |issued| {
      SequentialSplits(issued);
      assert Init(issued[from..]) == Init(issued)[from..];
      if dream < |issued| {
        UnprocessedOfSuffix(Init(issued), from, dream);
        assert Init(issued)[dream..] + [Last(issued)] == issued[dream..];
      } else {
        forall i | 0 <= i < |issued| - from ensures issued[from..][i].cursor <= dream {
          assert Counts(issued, from + i);
        }
        NothingAbove(issued[from..], dream);
      }
    }
  }

  lemma {:induction false} NothingAbove(file: seq<Entry>, dream: nat)
    requires forall i :: 0 <= i < |file| ==> file[i].cursor <= dream
    ensures Unprocessed(file, dream) == []
  {
    if file != [] { NothingAbove(Init(file), dream); }
  }

  lemma {:induction false} UnprocessedOfFile(st: State)
    requires Kept(st)
    ensures Unprocessed(st.journal.file, st.journal.dream) == st.issued[st.journal.dream..]
  {
    TailIsSlice(st.journal.file, st.issued);
    UnprocessedOfSuffix(st.issued, Dropped(st), st.journal.dream);
  }

  /** A batch is the next stretch of the journal above the cursor, at most 20 entries. */
  lemma {:induction false} BatchIsNextStretch(st: State)
    requires Kept(st)
    ensures
      var n := Min(|st.issued| - st.journal.dream, BATCH_SIZE);
      NextBatch(st.journal) == Batch(st.journal.dream, st.issued[st.journal.dream..st.journal.dream + n])
  {
    UnprocessedOfFile(st);
    var rest := st.issued[st.journal.dream..];
    if |rest| > BATCH_SIZE {
      assert rest[..BATCH_SIZE] == st.issued[st.journal.dream..st.journal.dream + BATCH_SIZE];
    }
  }

  /** A run holds a stretch of the journal that starts right after its cursor. */
  predicate Stretch(run: Batch, issued: seq<Entry>) {
    && 0 < |run.entries| <= BATCH_SIZE
    && run.since + |run.entries| <= |issued|
    && run.entries == issued[run.since..run.since + |run.entries|]
  }

  function Flatten(passed: seq<Batch>): seq<Entry> {
    if passed == [] then [] else Flatten(Init(passed)) + Last(passed).entries
  }

  /** Committed batches and skipped stretches, laid end to end, are the journal up to the
      Dream cursor. */
  predicate Tiled(st: State) {
    st.journal.dream <= |st.issued| && Flatten(st.passed) == st.issued[..st.journal.dream]
  }

  predicate Good(st: State) {
    && Kept(st) && Tiled(st)
    && forall i :: 0 <= i < |st.flights| ==> Stretch(st.flights[i], st.issued)
  }

  lemma {:induction false} WriteKeepsGood(st: State, step: Step)
    requires Good(st) && step.Write?
    ensures Good(After(st, step))
  {
    NextCursorIsFresh(st, step.readable);
    StepKeepsSound(st, step);
    GrownIsGood(st, After(st, step), Entry(|st.issued| + 1, step.content, step.session));
  }

  lemma {:induction false} GrownIsGood(st: State, after: State, e: Entry)
    requires Good(st) && Sound(after) && after.issued == st.issued + [e]
    requires |after.journal.file| == |st.journal.file| + 1 && after.journal.dream == st.journal.dream
    requires after.passed == st.passed && after.flights == st.flights
    ensures Good(after)
  {
    PrefixOfSnoc(st.issued, e, st.journal.dream);
    forall i | 0 <= i < |st.flights| ensures Stretch(st.flights[i], after.issued) {
      StretchSnoc(st.flights[i], st.issued, e);
    }
  }

  lemma {:induction false} PrefixOfSnoc(issued: seq<Entry>, e: Entry, n: nat)
    requires n <= |issued|
    ensures (issued + [e])[..n] == issued[..n]
  {
  }

  lemma {:induction false} StretchSnoc(run: Batch, issued: seq<Entry>, e: Entry)
    requires Stretch(run, issued)
    ensures Stretch(run, issued + [e])
  {
    var n := run.since + |run.entries|;
    assert (issued + [e])[run.since..n] == issued[run.since..n];
  }

  /** The stretch ends where the cursor is set. */
  lemma {:induction false} LastOfStretch(run: Batch, issued: seq<Entry>)
    requires Sequential(issued) && Stretch(run, issued)
    ensures Last(run.entries).cursor == run.since + |run.entries|
  {
    assert Counts(issued, run.since + |run.entries| - 1);
  }

  lemma {:induction false} FlattenSnoc(passed: seq<Batch>, run: Batch)
    ensures Flatten(passed + [run]) == Flatten(passed) + run.entries
  {
    InitSnoc(passed, run);
  }

  /** Skipping passes over exactly what is above the cursor, so it keeps the tiling. */
  lemma {:induction false} SkipKeepsGood(st: State, readable: bool)
    requires Good(st)
    ensures Good(After(st, Skip(readable))) && After(st, Skip(readable)).journal.dream == |st.issued|
  {
    NextCursorIsFresh(st, readable);
    UnprocessedOfFile(st);
    FlattenSnoc(st.passed, Skipped(st.journal.dream, st.issued[st.journal.dream..]));
    SplitsAt(st.issued, st.journal.dream);
    forall i | 0 <= i < |st.flights| ensures Stretch(After(st, Skip(readable)).flights[i], st.issued) {
      assert Stretch(st.flights[i], st.issued);
    }
  }

  lemma {:induction false} SplitsAt(issued: seq<Entry>, n: nat)
    requires n <= |issued|
    ensures issued[..n] + issued[n..] == issued[..|issued|]
  {
  }

  /** A commit keeps the tiling if and only if the cursor is still where the run found it.
      Neither `/dream` nor the scheduler checks this before committing. */
  lemma {:induction false} CommitTilesExactlyOnItsOwnCursor(st: State, i: nat)
    requires Good(st) && i < |st.flights|
    ensures Enabled(st, Commit(i))
    ensures Good(After(st, Commit(i))) <==> st.flights[i].since == st.journal.dream
  {
    var run, dream := st.flights[i], st.journal.dream;
    assert Stretch(run, st.issued);
    LastOfStretch(run, st.issued);
    FlattenSnoc(st.passed, run);
    var after := After(st, Commit(i));
    if run.since == dream {
      assert st.issued[..dream] + st.issued[dream..dream + |run.entries|] == st.issued[..dream + |run.entries|];
      assert Kept(after) && Tiled(after);
    } else {
      assert |Flatten(after.passed)| == dream + |run.entries|;
      assert |st.issued[..after.journal.dream]| == run.since + |run.entries|;
    }
  }

  /** Any other step keeps everything. */
  lemma {:induction false} StepKeepsGood(st: State, step: Step)
    requires Good(st) && Enabled(st, step) && !step.Commit?
    ensures Good(After(st, step))
  {
    match step
    case Write(_, _, _, _) => WriteKeepsGood(st, step);
    case LoseCounter =>
    case Trim(limit) => CompactionKeepsPending(st, limit);
    case Build => BatchIsNextStretch(st);
    case Abandon(_) =>
    case Skip(readable) => SkipKeepsGood(st, readable);
  }

  // ---------------------------------------------------------------------- the runs

  /** Every commit of the run is made on the cursor that its Dream run started from. */
  predicate CommitsInTurn(st: State, steps: seq<Step>)
    requires Runs(st, steps)
    decreases |steps|
  {
    steps == [] ||
    ((steps[0].Commit? ==> st.flights[steps[0].run].since == st.journal.dream)
     && CommitsInTurn(After(st, steps[0]), steps[1..]))
  }

  lemma {:induction false} RunKeepsGood(st: State, steps: seq<Step>)
    requires Good(st) && Runs(st, steps) && CommitsInTurn(st, steps)
    ensures Good(RunOf(st, steps))
    decreases |steps|
  {
    if steps != [] {
      match steps[0] {
        case Commit(i) => CommitTilesExactlyOnItsOwnCursor(st, i);
        case _ => StepKeepsGood(st, steps[0]);
      }
      RunKeepsGood(After(st, steps[0]), steps[1..]);
    }
  }

  /** One Dream run at a time, and nothing is skipped while it is under way. */
  predicate Serial(st: State, steps: seq<Step>)
    requires Runs(st, steps)
    decreases |steps|
  {
    steps == [] || ((steps[0].Build? || steps[0].Skip? ==> st.flights == []) && Serial(After(st, steps[0]), steps[1..]))
  }

  predicate OneRun(st: State) {
    |st.flights| <= 1 && (st.flights != [] ==> st.flights[0].since == st.journal.dream)
  }

  lemma {:induction false} StepKeepsOneRun(st: State, step: Step)
    requires OneRun(st) && Enabled(st, step) && (step.Build? || step.Skip? ==> st.flights == [])
    ensures OneRun(After(st, step))
    ensures step.Commit? ==> st.flights[step.run].since == st.journal.dream
  {
  }

  lemma {:induction false} SerialRunsCommitInTurn(st: State, steps: seq<Step>)
    requires OneRun(st) && Runs(st, steps) && Serial(st, steps)
    ensures CommitsInTurn(st, steps)
    decreases |steps|
  {
    if steps != [] {
      StepKeepsOneRun(st, steps[0]);
      SerialRunsCommitInTurn(After(st, steps[0]), steps[1..]);
    }
  }

  /** With one Dream run at a time, in every reachable state: cursors are unique, what is
      above the Dream cursor is in the file, and every entry up to it was in exactly one
      committed batch or skipped stretch, in order. */
  lemma {:induction false} SerialDreamsTileTheJournal(steps: seq<Step>)
    requires Runs(Initial(), steps) && Serial(Initial(), steps)
    ensures Good(RunOf(Initial(), steps))
  {
    SerialRunsCommitInTurn(Initial(), steps);
    RunKeepsGood(Initial(), steps);
  }

  /** Cursors stay unique even when runs overlap: allocation never looks at the Dream
      cursor, and compaction never empties the file. */
  lemma {:induction false} StepKeepsSound(st: State, step: Step)
    requires Sound(st) && Enabled(st, step)
    ensures Sound(After(st, step))
    ensures step.Write? ==> Last(After(st, step).issued).cursor == |st.issued| + 1
  {
    match step
    case Write(readable, content, session, _) =>
      NextCursorIsFresh(st, readable);
      SequentialSnoc(st.issued, Entry(|st.issued| + 1, content, session));
    case LoseCounter =>
    case Trim(limit) =>
      FirstUnprocessedFits(st.journal.file, st.journal.dream);
    case Build =>
    case Commit(_) =>
    case Abandon(_) =>
    case Skip(_) =>
  }

  /** In every reachable state, whatever crashed or was lost, the next cursor is one more
      than the largest ever issued, on every branch. */
  lemma {:induction false} RunKeepsSound(st: State, steps: seq<Step>)
    requires Sound(st) && Runs(st, steps)
    ensures Sound(RunOf(st, steps))
    decreases |steps|
  {
    if steps != [] {
      StepKeepsSound(st, steps[0]);
      RunKeepsSound(After(st, steps[0]), steps[1..]);
    }
  }

  lemma {:induction false} CursorsAreNeverReused(steps: seq<Step>, readable: bool)
    requires Runs(Initial(), steps)
    ensures
      var st := RunOf(Initial(), steps);
      NextCursor(st.journal, readable) == |st.issued| + 1 && Sequential(st.issued)
  {
    RunKeepsSound(Initial(), steps);
    NextCursorIsFresh(RunOf(Initial(), steps), readable);
  }

  predicate Reaches(st: State, steps: seq<Step>, to: State) {
    Runs(st, steps) && RunOf(st, steps) == to
  }

  lemma {:induction false} Before(st: State, step: Step, next: State, steps: seq<Step>, to: State)
    requires Enabled(st, step) && After(st, step) == next && Reaches(next, steps, to)
    ensures Reaches(st, [step] + steps, to)
  {
    assert ([step] + steps)[1..] == steps;
  }

  /** Two overlapping runs: the same batch is committed twice, and it is not empty. */
  lemma {:induction false} OverlappingRunsCommitTwice() returns (steps: seq<Step>, run: Batch)
    ensures Runs(Initial(), steps) && run.Batch? && run.entries != []
    ensures RunOf(Initial(), steps).passed == [run, run] && !Tiled(RunOf(Initial(), steps))
  {
    var e := Entry(1, "", "");
    run := Batch(0, [e]);
    var write := Write(true, "", "", false);
    var st1 := State(Journal([e], Some(1), 0), [e], [], []);
    var st2 := st1.(flights := [run]);
    var st3 := st1.(flights := [run, run]);
    var st4 := State(Journal([e], Some(1), 1), [e], [run], [run]);
    var st5 := State(Journal([e], Some(1), 1), [e], [run, run], []);
    assert Unprocessed([e], 0) == [e] by { assert Init([e]) == []; }
    Before(st4, Commit(0), st5, [], st5);
    Before(st3, Commit(0), st4, [Commit(0)] + [], st5);
    Before(st2, Build, st3, [Commit(0)] + ([Commit(0)] + []), st5);
    Before(st1, Build, st2, [Build] + ([Commit(0)] + ([Commit(0)] + [])), st5);
    steps := [write] + ([Build] + ([Build] + ([Commit(0)] + ([Commit(0)] + []))));
    Before(Initial(), write, st1, [Build] + ([Build] + ([Commit(0)] + ([Commit(0)] + []))), st5);
    FlattenSnoc([run], run);
  }
}
