/** The memory store's journal operations as the store performs them: on its files, with
    loops over their entries. */
module MemoryStore {
  import opened JournalSpec
  import opened Sequences
  import opened Wrappers

  lemma PrefixStep(s: seq<Entry>, n: nat)
    requires n < |s|
    ensures Init(s[..n + 1]) == s[..n] && Last(s[..n + 1]) == s[n]
  {
  }

  class Store {
    var historyFile: seq<Entry>
    var cursorFile: Option<nat>
    var dreamCursor: nat
    const maxHistoryEntries: int

    ghost function View(): Journal
      reads this
    {
      Journal(historyFile, cursorFile, dreamCursor)
    }

    constructor (maxHistoryEntries: int)
      ensures View() == Initial().journal && this.maxHistoryEntries == maxHistoryEntries
    {
      historyFile, cursorFile, dreamCursor := [], None, 0;
      this.maxHistoryEntries := maxHistoryEntries;
    }

    method ScanMaxCursor() returns (largest: nat)
      ensures largest == MaxCursor(historyFile)
    {
      largest := 0;
      for n := 0 to |historyFile|
        invariant largest == MaxCursor(historyFile[..n])
      {
        PrefixStep(historyFile, n);
        if historyFile[n].cursor > largest { largest := historyFile[n].cursor; }
      }
      assert historyFile[..|historyFile|] == historyFile;
    }

    /** `_next_cursor`; `readable` says whether the tail read succeeds. */
    method AllocateCursor(readable: bool) returns (next: nat)
      ensures next == NextCursor(View(), readable)
    {
      var last := if readable && historyFile != [] then Some(Last(historyFile).cursor) else None;
      if cursorFile.Some? {
        if last.Some? { return Max(cursorFile.value, last.value) + 1; }
        var scanned := ScanMaxCursor();
        return Max(cursorFile.value, scanned) + 1;
      }
      if last.Some? { return last.value + 1; }
      var scanned := ScanMaxCursor();
      next := scanned + 1;
    }

    /** `append_history`, under its lock; a crash may come between the two writes. */
    method AppendHistory(readable: bool, content: string, session: string, crashes: bool) returns (cursor: nat)
      modifies this
      ensures cursor == NextCursor(old(View()), readable)
      ensures View() == Append(old(View()), readable, content, session, crashes)
    {
      cursor := AllocateCursor(readable);
      historyFile := historyFile + [Entry(cursor, content, session)];
      if crashes { return; }
      cursorFile := Some(cursor);
    }

    method FindUnprocessed() returns (first: nat)
      ensures first == FirstUnprocessed(historyFile, dreamCursor) <= |historyFile|
    {
      first := 0;
      while first < |historyFile| && historyFile[first].cursor <= dreamCursor
        invariant first <= |historyFile|
        invariant FirstUnprocessed(historyFile, dreamCursor) ==
            first + FirstUnprocessed(historyFile[first..], dreamCursor)
      {
        assert historyFile[first..][1..] == historyFile[first + 1..];
        first := first + 1;
      }
    }

    method CompactHistory()
      modifies this
      ensures View() == Compact(old(View()), maxHistoryEntries)
    {
      if maxHistoryEntries <= 0 { return; }
      if |historyFile| <= maxHistoryEntries { return; }
      var first := FindUnprocessed();
      var keepFrom := |historyFile| - maxHistoryEntries;
      if first < keepFrom { keepFrom := first; }
      historyFile := historyFile[keepFrom..];
    }

    method ReadUnprocessedHistory(since: nat) returns (entries: seq<Entry>)
      ensures entries == Unprocessed(historyFile, since)
    {
      entries := [];
      for n := 0 to |historyFile|
        invariant entries == Unprocessed(historyFile[..n], since)
      {
        PrefixStep(historyFile, n);
        if historyFile[n].cursor > since { entries := entries + [historyFile[n]]; }
      }
      assert historyFile[..|historyFile|] == historyFile;
    }

    /** The batch that `build_dream_prompt` shows, and the cursor to commit afterwards. */
    method BuildDreamBatch() returns (batch: Option<(seq<Entry>, nat)>)
      ensures batch.None? <==> NextBatch(View()).entries == []
      ensures batch.Some? ==> batch.value == (NextBatch(View()).entries, Last(NextBatch(View()).entries).cursor)
    {
      var entries := ReadUnprocessedHistory(dreamCursor);
      if entries == [] { return None; }
      if |entries| > BATCH_SIZE { entries := entries[..BATCH_SIZE]; }
      batch := Some((entries, Last(entries).cursor));
    }

    method SetLastDreamCursor(cursor: nat)
      modifies `dreamCursor
      ensures dreamCursor == cursor
    {
      dreamCursor := cursor;
    }

    method GetLatestCursor(readable: bool) returns (latest: nat)
      ensures latest == LatestCursor(View(), readable)
    {
      var next := AllocateCursor(readable);
      latest := Max(next - 1, 0);
    }

    /** `_advance_dream_cursor_if_behind`, of a gateway that starts with Dream disabled. */
    method AdvanceDreamCursorIfBehind(readable: bool)
      modifies `dreamCursor
      ensures View() == Advance(old(View()), readable)
    {
      var latest := GetLatestCursor(readable);
      if dreamCursor < latest { SetLastDreamCursor(latest); }
    }
  }
}
