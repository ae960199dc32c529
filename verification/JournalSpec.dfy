/** The memory journal and its readers. The journal is a file of entries with cursors, a
    counter file and the cursor of the last Dream run; a crash, a lost counter file and
    an unreadable tail are ordinary events. Dream runs build a batch, take a long time,
    and commit by setting the cursor, so several can be under way at once. A gateway that
    has Dream switched off moves the cursor to the end without a run. */
module JournalSpec {
  import opened Sequences
  import opened Wrappers

  const BATCH_SIZE := 20

  datatype Entry = Entry(cursor: nat, content: string, session: string)

  /** A Dream run: the cursor it started from and the entries it was given. Or what was
      skipped without a run. */
  datatype Batch = Batch(since: nat, entries: seq<Entry>) | Skipped(since: nat, entries: seq<Entry>)

  datatype Journal = Journal(file: seq<Entry>, counter: Option<nat>, dream: nat)

  /** The journal with its history: all entries ever written, what the cursor was moved
      past, by a commit or by skipping, in that order, and the runs under way. */
  datatype State = State(journal: Journal, issued: seq<Entry>, passed: seq<Batch>, flights: seq<Batch>)

  function Initial(): State {
    State(Journal([], None, 0), [], [], [])
  }

  // ---------------------------------------------------------------- cursor allocation

  function Max(a: nat, b: nat): nat { if a < b then b else a }

  function MaxCursor(file: seq<Entry>): nat {
    if file == [] then 0 else Max(MaxCursor(Init(file)), Last(file).cursor)
  }

  /** The tail of the file, when it can be read. */
  function LastCursor(j: Journal, readable: bool): Option<nat> {
    if readable && j.file != [] then Some(Last(j.file).cursor) else None
  }

  function NextCursor(j: Journal, readable: bool): nat {
    var last := LastCursor(j, readable);
    if j.counter.Some? then
      if last.Some? then Max(j.counter.value, last.value) + 1 else Max(j.counter.value, MaxCursor(j.file)) + 1
    else if last.Some? then last.value + 1
    else MaxCursor(j.file) + 1
  }

  /** The record is written before the counter; a crash in between loses the latter. */
  function Append(j: Journal, readable: bool, content: string, session: string, crashes: bool): Journal {
    var cursor := NextCursor(j, readable);
    var written := j.(file := j.file + [Entry(cursor, content, session)]);
    if crashes then written else written.(counter := Some(cursor))
  }

  // ------------------------------------------------------------------------- compaction

  function FirstUnprocessed(file: seq<Entry>, dream: nat): nat {
    if file == [] then 0 else if file[0].cursor > dream then 0 else 1 + FirstUnprocessed(file[1..], dream)
  }

  function KeepFrom(j: Journal, limit: int): nat {
    if limit <= 0 || |j.file| <= limit then 0
    else
      var first := FirstUnprocessed(j.file, j.dream);
      if |j.file| - limit < first then |j.file| - limit else first
  }

  lemma FirstUnprocessedFits(file: seq<Entry>, dream: nat)
    ensures FirstUnprocessed(file, dream) <= |file|
  {
  }

  function Compact(j: Journal, limit: int): Journal {
    FirstUnprocessedFits(j.file, j.dream);
    j.(file := j.file[KeepFrom(j, limit)..])
  }

  // ------------------------------------------------------------------------- Dream runs

  function Unprocessed(file: seq<Entry>, since: nat): seq<Entry> {
    if file == [] then []
    else Unprocessed(Init(file), since) + if Last(file).cursor > since then [Last(file)] else []
  }

  function NextBatch(j: Journal): Batch {
    var entries := Unprocessed(j.file, j.dream);
    Batch(j.dream, if |entries| <= BATCH_SIZE then entries else entries[..BATCH_SIZE])
  }

  function LatestCursor(j: Journal, readable: bool): nat {
    NextCursor(j, readable) - 1
  }

  /** `_advance_dream_cursor_if_behind` */
  function Advance(j: Journal, readable: bool): Journal {
    if j.dream < LatestCursor(j, readable) then j.(dream := LatestCursor(j, readable)) else j
  }

  // ----------------------------------------------------------------------------- steps

  datatype Step =
    | Write(readable: bool, content: string, session: string, crashes: bool)
    | LoseCounter
    | Trim(limit: int)
    | Build
    | Commit(run: nat)
    | Abandon(run: nat)
    | Skip(readable: bool)

  predicate Enabled(st: State, step: Step) {
    match step
    case Build => NextBatch(st.journal).entries != []
    case Commit(i) => i < |st.flights| && st.flights[i].entries != []
    case Abandon(i) => i < |st.flights|
    case _ => true
  }

  function Without<T>(s: seq<T>, i: nat): seq<T>
    requires i < |s|
  {
    s[..i] + s[i + 1..]
  }

  function After(st: State, step: Step): State
    requires Enabled(st, step)
  {
    match step
    case Write(readable, content, session, crashes) =>
      st.(journal := Append(st.journal, readable, content, session, crashes),
          issued := st.issued + [Entry(NextCursor(st.journal, readable), content, session)])
    case LoseCounter => st.(journal := st.journal.(counter := None))
    case Trim(limit) => st.(journal := Compact(st.journal, limit))
    case Build => st.(flights := st.flights + [NextBatch(st.journal)])
    case Commit(i) =>
      st.(journal := st.journal.(dream := Last(st.flights[i].entries).cursor),
          passed := st.passed + [st.flights[i]], flights := Without(st.flights, i))
    case Abandon(i) => st.(flights := Without(st.flights, i))
    case Skip(readable) =>
      if Advance(st.journal, readable) == st.journal then st
      else st.(journal := Advance(st.journal, readable),
               passed := st.passed + [Skipped(st.journal.dream, Unprocessed(st.journal.file, st.journal.dream))])
  }

  predicate Runs(st: State, steps: seq<Step>)
    decreases |steps|
  {
    steps == [] || (Enabled(st, steps[0]) && Runs(After(st, steps[0]), steps[1..]))
  }

  function RunOf(st: State, steps: seq<Step>): State
    requires Runs(st, steps)
    decreases |steps|
  {
    if steps == [] then st else RunOf(After(st, steps[0]), steps[1..])
  }
}
