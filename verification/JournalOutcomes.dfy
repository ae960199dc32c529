/** What the journal's operations achieve: an entry that is written is there to be read, a Dream
    run passes the next entries, and what moves the cursor otherwise. */
module JournalOutcomes {
  import opened JournalCoverage
  import opened JournalSpec
  import opened JournalTheorems
  import opened Sequences
  import opened Wrappers

  /** A new entry is the last one in the file, with the next cursor and with what it was given;
      nothing else in the file changes. Only a crash leaves the counter behind. */
  lemma {:induction false} WritingAppends(st: State, readable: bool, content: string, session: string, crashes: bool)
    requires Sound(st)
    ensures
      var after := After(st, Write(readable, content, session, crashes));
      var e := Entry(|st.issued| + 1, content, session);
      && after.journal.file == st.journal.file + [e] && after.issued == st.issued + [e]
      && after.journal.counter == (if crashes then st.journal.counter else Some(|st.issued| + 1))
      && after.journal.dream == st.journal.dream && after.passed == st.passed && after.flights == st.flights
  {
    NextCursorIsFresh(st, readable);
  }

  /** A Dream run takes the next entries, 20 at most, and its commit moves the cursor past them
      and no further; a run that is given up moves nothing. */
  lemma {:induction false} ADreamPassesTheNextEntries(st: State)
    requires Good(st) && st.journal.dream < |st.issued|
    ensures
      var n, dream := |st.flights|, st.journal.dream;
      var end := if |st.issued| - dream < 20 then |st.issued| else dream + 20;
      && Enabled(st, Build) && Enabled(After(st, Build), Commit(n))
      && After(After(st, Build), Commit(n)) ==
           st.(journal := st.journal.(dream := end), passed := st.passed + [Batch(dream, st.issued[dream..end])])
      && After(After(st, Build), Abandon(n)) == st
  {
    BatchIsNextStretch(st);
    var n, run := |st.flights|, NextBatch(st.journal);
    assert Stretch(run, st.issued) by { assert run.since == st.journal.dream; }
    LastOfStretch(run, st.issued);
    assert Without(st.flights + [run], n) == st.flights;
  }

  /** With nothing above the cursor there is no run. */
  lemma {:induction false} NothingToDream(st: State)
    requires Good(st) && st.journal.dream == |st.issued|
    ensures !Enabled(st, Build)
  {
    BatchIsNextStretch(st);
  }

  /** Losing the counter loses nothing else, and moving the cursor to the end happens exactly
      when it is behind. */
  lemma {:induction false} OtherSteps(st: State, readable: bool)
    requires Sound(st) && st.journal.dream <= |st.issued|
    ensures After(st, LoseCounter) == st.(journal := st.journal.(counter := None))
    ensures
      var after := After(st, Skip(readable));
      if st.journal.dream < |st.issued| then
        && after.journal == st.journal.(dream := |st.issued|) && after.issued == st.issued
        && |after.passed| == |st.passed| + 1 && Last(after.passed).Skipped?
      else after == st
  {
    NextCursorIsFresh(st, readable);
  }
}
