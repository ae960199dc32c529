/** No entry is lost, however Dream runs overlap: an entry leaves the file only after it
    was in at least one committed batch, even when the Dream cursor moves back. The one
    exception is a cursor that is moved to the end without a run. */
module JournalCoverage {
  import opened JournalSpec
  import opened JournalTheorems
  import opened Sequences
  import opened Wrappers

  predicate InRun(run: Batch, c: nat) {
    exists k :: 0 <= k < |run.entries| && run.entries[k].cursor == c
  }

  /** The entry with cursor `c` was in a committed batch or a skipped stretch. */
  predicate Passed(passed: seq<Batch>, c: nat) {
    passed != [] && (Passed(Init(passed), c) || InRun(Last(passed), c))
  }

  predicate Committed(passed: seq<Batch>, c: nat) {
    passed != [] && (Committed(Init(passed), c) || (Last(passed).Batch? && InRun(Last(passed), c)))
  }

  predicate SkippedOver(passed: seq<Batch>, c: nat) {
    passed != [] && (SkippedOver(Init(passed), c) || (Last(passed).Skipped? && InRun(Last(passed), c)))
  }

  lemma {:induction false} PassedEitherWay(passed: seq<Batch>, c: nat)
    ensures Passed(passed, c) <==> Committed(passed, c) || SkippedOver(passed, c)
  {
    if passed != [] { PassedEitherWay(Init(passed), c); }
  }

  predicate AllPassed(passed: seq<Batch>, upTo: nat) {
    forall c :: 1 <= c <= upTo ==> Passed(passed, c)
  }

  /** Whatever a run under way would step over is passed already or in the run. */
  predicate RunCovers(st: State, run: Batch) {
    && run.entries != [] && Last(run.entries).cursor <= |st.issued|
    && forall c :: 1 <= c <= Last(run.entries).cursor ==> Passed(st.passed, c) || InRun(run, c)
  }

  /** What is behind the cursor and what is no longer in the file has been passed. */
  predicate Covered(st: State) {
    && Sound(st) && st.journal.dream <= |st.issued|
    && AllPassed(st.passed, Max(st.journal.dream, Dropped(st)))
    && forall i :: 0 <= i < |st.flights| ==> RunCovers(st, st.flights[i])
  }

  // ------------------------------------------------------------------------- compaction

  lemma {:induction false} FirstUnprocessedAnywhere(st: State)
    requires Sound(st) && st.journal.dream <= |st.issued|
    ensures Dropped(st) + FirstUnprocessed(st.journal.file, st.journal.dream) <= Max(st.journal.dream, Dropped(st))
  {
    TailIsSlice(st.journal.file, st.issued);
    if Dropped(st) <= st.journal.dream {
      FirstUnprocessedOfSuffix(st.issued, Dropped(st), st.journal.dream);
    } else if st.journal.file != [] {
      assert Counts(st.issued, Dropped(st));
    }
  }

  lemma {:induction false} TrimKeepsCovered(st: State, limit: int)
    requires Covered(st)
    ensures Covered(After(st, Trim(limit)))
  {
    StepKeepsSound(st, Trim(limit));
    FirstUnprocessedAnywhere(st);
    FirstUnprocessedFits(st.journal.file, st.journal.dream);
  }

  // ------------------------------------------------------------------------- Dream runs

  lemma {:induction false} EverythingAbove(file: seq<Entry>, dream: nat)
    requires forall i :: 0 <= i < |file| ==> file[i].cursor > dream
    ensures Unprocessed(file, dream) == file
  {
    if file != [] {
      EverythingAbove(Init(file), dream);
      Split(file);
    }
  }

  lemma {:induction false} UnprocessedBehind(issued: seq<Entry>, from: nat, dream: nat)
    requires Sequential(issued) && dream < from <= |issued|
    ensures Unprocessed(issued[from..], dream) == issued[from..]
  {
    forall i | 0 <= i < |issued| - from ensures issued[from..][i].cursor > dream {
      assert Counts(issued, from + i);
    }
    EverythingAbove(issued[from..], dream);
  }

  lemma {:induction false} UnprocessedAfterBoth(st: State)
    requires Sound(st) && st.journal.dream <= |st.issued|
    ensures Unprocessed(st.journal.file, st.journal.dream) == st.issued[Max(st.journal.dream, Dropped(st))..]
  {
    TailIsSlice(st.journal.file, st.issued);
    if Dropped(st) <= st.journal.dream {
      UnprocessedOfSuffix(st.issued, Dropped(st), st.journal.dream);
    } else {
      UnprocessedBehind(st.issued, Dropped(st), st.journal.dream);
    }
  }

  lemma {:induction false} TakeOfDrop(issued: seq<Entry>, lo: nat, n: nat)
    requires lo + n <= |issued|
    ensures issued[lo..][..n] == issued[lo..lo + n] && issued[lo..|issued|] == issued[lo..]
  {
  }

  /** A batch starts after whichever is further, the cursor or what was dropped. */
  lemma {:induction false} BatchStartsAfterBoth(st: State)
    requires Sound(st) && st.journal.dream <= |st.issued|
    ensures
      var lo := Max(st.journal.dream, Dropped(st));
      NextBatch(st.journal).entries == st.issued[lo..lo + Min(|st.issued| - lo, BATCH_SIZE)]
  {
    var lo := Max(st.journal.dream, Dropped(st));
    UnprocessedAfterBoth(st);
    TakeOfDrop(st.issued, lo, Min(|st.issued| - lo, BATCH_SIZE));
  }

  lemma {:induction false} BatchCovers(st: State)
    requires Covered(st) && NextBatch(st.journal).entries != []
    ensures RunCovers(st, NextBatch(st.journal))
  {
    var run, lo := NextBatch(st.journal), Max(st.journal.dream, Dropped(st));
    BatchStartsAfterBoth(st);
    assert Counts(st.issued, lo + |run.entries| - 1);
    forall c | 1 <= c <= Last(run.entries).cursor ensures Passed(st.passed, c) || InRun(run, c) {
      if c > lo {
        assert Counts(st.issued, c - 1);
        assert run.entries[c - 1 - lo].cursor == c;
      }
    }
  }

  lemma {:induction false} CommitCovers(passed: seq<Batch>, run: Batch, c: nat)
    ensures Passed(passed + [run], c) <==> Passed(passed, c) || InRun(run, c)
  {
    InitSnoc(passed, run);
  }

  lemma {:induction false} CommitKeepsCovered(st: State, i: nat)
    requires Covered(st) && i < |st.flights|
    ensures Enabled(st, Commit(i)) && Covered(After(st, Commit(i)))
  {
    var run, after := st.flights[i], After(st, Commit(i));
    assert RunCovers(st, run);
    forall c ensures Passed(after.passed, c) <==> Passed(st.passed, c) || InRun(run, c) {
      CommitCovers(st.passed, run, c);
    }
    forall j | 0 <= j < |after.flights| ensures RunCovers(after, after.flights[j]) {
      assert RunCovers(st, st.flights[if j < i then j else j + 1]);
    }
  }

  lemma {:induction false} SkipKeepsCovered(st: State, readable: bool)
    requires Covered(st)
    ensures Covered(After(st, Skip(readable)))
  {
    NextCursorIsFresh(st, readable);
    if st.journal.dream < |st.issued| {
      var lo := Max(st.journal.dream, Dropped(st));
      var rest := Skipped(st.journal.dream, st.issued[lo..]);
      UnprocessedAfterBoth(st);
      forall c ensures Passed(st.passed + [rest], c) <==> Passed(st.passed, c) || InRun(rest, c) {
        CommitCovers(st.passed, rest, c);
      }
      forall c | lo < c <= |st.issued| ensures InRun(rest, c) {
        assert Counts(st.issued, c - 1);
        assert rest.entries[c - 1 - lo].cursor == c;
      }
      var after := After(st, Skip(readable));
      forall i | 0 <= i < |st.flights| ensures RunCovers(after, st.flights[i]) {
        assert RunCovers(st, st.flights[i]);
      }
    }
  }

  lemma {:induction false} WriteKeepsCovered(st: State, step: Step)
    requires Covered(st) && step.Write?
    ensures Covered(After(st, step))
  {
    StepKeepsSound(st, step);
    NextCursorIsFresh(st, step.readable);
    forall i | 0 <= i < |st.flights| ensures RunCovers(After(st, step), st.flights[i]) {
      assert RunCovers(st, st.flights[i]);
    }
  }

  lemma {:induction false} StepKeepsCovered(st: State, step: Step)
    requires Covered(st) && Enabled(st, step)
    ensures Covered(After(st, step))
  {
    match step
    case Write(_, _, _, _) => WriteKeepsCovered(st, step);
    case LoseCounter => KeepsRuns(st, After(st, step));
    case Trim(limit) => TrimKeepsCovered(st, limit);
    case Build =>
      BatchCovers(st);
      var after := After(st, Build);
      forall i | 0 <= i < |after.flights| ensures RunCovers(after, after.flights[i]) {
        if i < |st.flights| { assert RunCovers(st, st.flights[i]); }
      }
    case Commit(i) => CommitKeepsCovered(st, i);
    case Abandon(i) =>
      var after := After(st, step);
      forall j | 0 <= j < |after.flights| ensures RunCovers(after, after.flights[j]) {
        assert RunCovers(st, st.flights[if j < i then j else j + 1]);
      }
    case Skip(readable) => SkipKeepsCovered(st, readable);
  }

  lemma {:induction false} KeepsRuns(st: State, after: State)
    requires Covered(st) && after == st.(journal := st.journal.(counter := None))
    ensures Covered(after)
  {
    forall i | 0 <= i < |st.flights| ensures RunCovers(after, st.flights[i]) {
      assert RunCovers(st, st.flights[i]);
    }
  }

  lemma {:induction false} RunKeepsCovered(st: State, steps: seq<Step>)
    requires Covered(st) && Runs(st, steps)
    ensures Covered(RunOf(st, steps))
    decreases |steps|
  {
    if steps != [] {
      StepKeepsCovered(st, steps[0]);
      RunKeepsCovered(After(st, steps[0]), steps[1..]);
    }
  }

  // --------------------------------------------------------------------------- skipping

  predicate NeverSkips(steps: seq<Step>) {
    forall i :: 0 <= i < |steps| ==> !steps[i].Skip?
  }

  predicate NothingSkipped(st: State) {
    && (forall i :: 0 <= i < |st.passed| ==> st.passed[i].Batch?)
    && (forall i :: 0 <= i < |st.flights| ==> st.flights[i].Batch?)
  }

  lemma {:induction false} StepSkipsNothing(st: State, step: Step)
    requires NothingSkipped(st) && Enabled(st, step) && !step.Skip?
    ensures NothingSkipped(After(st, step))
  {
  }

  lemma {:induction false} RunSkipsNothing(st: State, steps: seq<Step>)
    requires NothingSkipped(st) && Runs(st, steps) && NeverSkips(steps)
    ensures NothingSkipped(RunOf(st, steps))
    decreases |steps|
  {
    if steps != [] {
      StepSkipsNothing(st, steps[0]);
      RunSkipsNothing(After(st, steps[0]), steps[1..]);
    }
  }

  lemma {:induction false} BatchesSkipNothing(passed: seq<Batch>, c: nat)
    requires forall i :: 0 <= i < |passed| ==> passed[i].Batch?
    ensures !SkippedOver(passed, c)
  {
    if passed != [] { BatchesSkipNothing(Init(passed), c); }
  }

  /** In every reachable state, whatever runs overlap, crash or are abandoned: an entry that
      is not in the file any more, or not above the cursor, was in a committed batch or
      skipped over; and a run without a skipping step skips nothing over. */
  lemma {:induction false} NothingIsLost(steps: seq<Step>, i: nat)
    requires Runs(Initial(), steps) && i < |RunOf(Initial(), steps).issued|
    ensures
      var st := RunOf(Initial(), steps);
      && st.issued[i].cursor == i + 1
      && (st.issued[i] in st.journal.file || Committed(st.passed, i + 1) || SkippedOver(st.passed, i + 1))
      && (i < st.journal.dream ==> Committed(st.passed, i + 1) || SkippedOver(st.passed, i + 1))
      && (NeverSkips(steps) ==> !SkippedOver(st.passed, i + 1))
  {
    var st := RunOf(Initial(), steps);
    RunKeepsCovered(Initial(), steps);
    CoveredAt(st, i);
    PassedEitherWay(st.passed, i + 1);
    if NeverSkips(steps) {
      RunSkipsNothing(Initial(), steps);
      BatchesSkipNothing(st.passed, i + 1);
    }
  }

  lemma {:induction false} CoveredAt(st: State, i: nat)
    requires Covered(st) && i < |st.issued|
    ensures st.issued[i].cursor == i + 1
    ensures st.issued[i] in st.journal.file || Passed(st.passed, i + 1)
    ensures i < st.journal.dream ==> Passed(st.passed, i + 1)
  {
    assert Counts(st.issued, i);
    if i >= Dropped(st) { assert st.journal.file[i - Dropped(st)] == st.issued[i]; }
  }

  /** Overlapping runs can move the cursor back: the first run started before the second
      entry was written and commits last. */
  lemma {:induction false} OverlappingRunsMoveTheCursorBack() returns (steps: seq<Step>)
    ensures Runs(Initial(), steps) && Runs(Initial(), steps + [Commit(0)])
    ensures RunOf(Initial(), steps).journal.dream == 2 && RunOf(Initial(), steps + [Commit(0)]).journal.dream == 1
  {
    var e, f := Entry(1, "", ""), Entry(2, "", "");
    var one, two := Batch(0, [e]), Batch(0, [e, f]);
    var write := Write(true, "", "", false);
    var st1 := State(Journal([e], Some(1), 0), [e], [], []);
    var st2 := st1.(flights := [one]);
    var st3 := State(Journal([e, f], Some(2), 0), [e, f], [], [one]);
    var st4 := st3.(flights := [one, two]);
    var st5 := State(Journal([e, f], Some(2), 2), [e, f], [two], [one]);
    var st6 := State(Journal([e, f], Some(2), 1), [e, f], [two, one], []);
    TwoUnprocessed(e, f);
    steps := [write] + ([Build] + ([write] + ([Build] + ([Commit(1)] + []))));
    Before(st4, Commit(1), st5, [], st5);
    Before(st3, Build, st4, [Commit(1)] + [], st5);
    Before(st2, write, st3, [Build] + ([Commit(1)] + []), st5);
    Before(st1, Build, st2, [write] + ([Build] + ([Commit(1)] + [])), st5);
    Before(Initial(), write, st1, [Build] + ([write] + ([Build] + ([Commit(1)] + []))), st5);
    RunSnoc(Initial(), steps, Commit(0));
  }

  /** Skipping does lose an entry: it leaves the file without ever having been in a run. */
  lemma {:induction false} SkippingLosesAnEntry() returns (steps: seq<Step>)
    ensures Runs(Initial(), steps)
    ensures
      var st := RunOf(Initial(), steps);
      st.issued != [] && st.issued[0] !in st.journal.file && !Committed(st.passed, st.issued[0].cursor)
  {
    var e, f := Entry(1, "", ""), Entry(2, "", "");
    var write := Write(true, "", "", false);
    var st1 := State(Journal([e], Some(1), 0), [e], [], []);
    var st2 := State(Journal([e], Some(1), 1), [e], [Skipped(0, [e])], []);
    var st3 := State(Journal([e, f], Some(2), 1), [e, f], [Skipped(0, [e])], []);
    var st4 := st3.(journal := Journal([f], Some(2), 1));
    TwoUnprocessed(e, f);
    assert KeepFrom(st3.journal, 1) == 1 by { assert [e, f][1..] == [f]; }
    steps := [write] + ([Skip(true)] + ([write] + ([Trim(1)] + [])));
    Before(st3, Trim(1), st4, [], st4);
    Before(st2, write, st3, [Trim(1)] + [], st4);
    Before(st1, Skip(true), st2, [write] + ([Trim(1)] + []), st4);
    Before(Initial(), write, st1, [Skip(true)] + ([write] + ([Trim(1)] + [])), st4);
    assert !Committed([Skipped(0, [e])], 1);
  }

  lemma {:induction false} TwoUnprocessed(e: Entry, f: Entry)
    requires e.cursor == 1 && f.cursor == 2
    ensures Unprocessed([e], 0) == [e] && Unprocessed([e, f], 0) == [e, f]
  {
    assert Init([e]) == [] && Init([e, f]) == [e];
  }

  lemma {:induction false} RunSnoc(st: State, steps: seq<Step>, step: Step)
    requires Runs(st, steps) && Enabled(RunOf(st, steps), step)
    ensures Runs(st, steps + [step]) && RunOf(st, steps + [step]) == After(RunOf(st, steps), step)
    decreases |steps|
  {
    if steps == [] {
      assert steps + [step] == [step] && [step][1..] == [];
    } else {
      RunSnoc(After(st, steps[0]), steps[1..], step);
      assert (steps + [step])[1..] == steps[1..] + [step];
    }
  }
}
