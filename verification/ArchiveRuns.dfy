/** What an archival achieves, from its start to its end, with turns appending meanwhile; and
    what can be said of all archived slices at any time. */
module ArchiveRuns {
  import opened ArchiveSpec
  import opened Sequences
  import opened Texts
  import opened Wrappers

  /** What the journal gets for one slice. */
  function Left(r: Rendering, slice: seq<Message>, a: Attempt): seq<Record> {
    var record := RecordOf(r, slice, a);
    if record.Some? then [record.value] else []
  }

  /** An archival that is under way goes on to its end, whatever is appended meanwhile, and
      takes the watermark to the end of the slice it captured. */
  lemma {:induction false} Finishes(st: State, more: seq<Message>, r: Rendering, a: Attempt)
    requires st.job.Some? && st.job.value.start <= st.job.value.end <= |st.messages|
    ensures
      var job, steps := st.job.value, [Append(more), Finish(r, a)];
      && Runs(st, steps)
      && RunOf(st, steps) ==
           State(st.messages + more, job.end, st.journal + Left(r, st.messages[job.start..job.end], a), None,
                 st.slices + [Slice(job, a)])
  {
    var job := st.job.value;
    var st1 := After(st, Append(more));
    assert st1.messages[job.start..job.end] == st.messages[job.start..job.end];
    var last := [Finish(r, a)];
    assert [Append(more), Finish(r, a)][1..] == last && last[1..] == [];
    assert Runs(After(st1, Finish(r, a)), []) && Runs(st1, last);
    assert RunOf(st1, last) == RunOf(After(st1, Finish(r, a)), []);
    assert RunOf(st, [Append(more), Finish(r, a)]) == RunOf(st1, last);
  }

  /** Idle compaction archives everything there was when it began. */
  lemma {:induction false} IdlenessArchivesEverything(st: State, more: seq<Message>, r: Rendering, a: Attempt)
    requires st.job.None? && st.lastArchived < |st.messages|
    ensures
      var steps := [BeginIdle, Append(more), Finish(r, a)];
      && Runs(st, steps)
      && RunOf(st, steps).messages == st.messages + more && RunOf(st, steps).job.None?
      && RunOf(st, steps).lastArchived == |st.messages|
      && RunOf(st, steps).journal == st.journal + Left(r, st.messages[st.lastArchived..], a)
  {
    var st1 := After(st, BeginIdle);
    Finishes(st1, more, r, a);
    assert [BeginIdle, Append(more), Finish(r, a)][1..] == [Append(more), Finish(r, a)];
    assert st.messages[st.lastArchived..|st.messages|] == st.messages[st.lastArchived..];
  }

  /** Token pressure archives up to the last user message that leaves eight messages behind
      it, if that is past the watermark. */
  lemma {:induction false} PressureArchivesUpToTheTail(
      st: State, b: nat, more: seq<Message>, r: Rendering, a: Attempt)
    requires st.job.None? && st.lastArchived < b && b + 8 <= |st.messages| && st.messages[b].fromUser
    requires forall i :: b < i && i + 8 <= |st.messages| ==> !st.messages[i].fromUser
    ensures
      var steps := [BeginToken, Append(more), Finish(r, a)];
      && Runs(st, steps)
      && RunOf(st, steps).messages == st.messages + more && RunOf(st, steps).job.None?
      && RunOf(st, steps).lastArchived == b
      && RunOf(st, steps).journal == st.journal + Left(r, st.messages[st.lastArchived..b], a)
  {
    BoundaryIsLastUserBeforeTail(st.messages, st.lastArchived);
    assert PickBoundary(st.messages, st.lastArchived) == Some(b);
    Finishes(After(st, BeginToken), more, r, a);
    assert [BeginToken, Append(more), Finish(r, a)][1..] == [Append(more), Finish(r, a)];
  }

  /** One archival at a time; giving up leaves everything as it was before. */
  lemma {:induction false} OneAtATime(st: State)
    ensures st.job.Some? ==> !Enabled(st, BeginToken) && !Enabled(st, BeginIdle)
    ensures st.job.None? && st.lastArchived < |st.messages| ==>
      Enabled(st, BeginIdle) && Enabled(After(st, BeginIdle), Abandon)
      && After(After(st, BeginIdle), Abandon) == st
  {
  }

  // ------------------------------------------------------------------- at any time

  lemma {:induction false} TilesAreConsecutive(slices: seq<Slice>, end: nat, i: nat)
    requires Tiles(slices, end) && i < |slices|
    ensures slices[i].job.start < slices[i].job.end
    ensures slices[i].job.start == if i == 0 then 0 else slices[i - 1].job.end
    ensures end == slices[|slices| - 1].job.end
  {
    if i < |slices| - 1 {
      TilesAreConsecutive(Init(slices), Last(slices).job.start, i);
    } else if i > 0 {
      TilesAreConsecutive(Init(slices), Last(slices).job.start, i - 1);
      assert Init(slices)[|slices| - 2] == slices[i - 1];
    }
  }

  /** In every reachable state: the slices follow each other from the first message to the
      watermark, none is empty, what was cut under token pressure ended right before a user
      message with at least eight messages from there on, and the journal is what their
      requests left, slice by slice. */
  lemma {:induction false} SlicesAtAnyTime(r: Rendering, steps: seq<Step>, i: nat)
    requires Runs(Initial(), steps) && Renders(steps, r) && i < |RunOf(Initial(), steps).slices|
    ensures
      var st := RunOf(Initial(), steps);
      var job := st.slices[i].job;
      && job.start < job.end <= |st.messages|
      && job.start == (if i == 0 then 0 else st.slices[i - 1].job.end)
      && st.lastArchived == st.slices[|st.slices| - 1].job.end
      && (job.trigger.TokenPressure? ==> job.end + 8 <= |st.messages| && st.messages[job.end].fromUser)
      && RecordOf(r, st.messages[job.start..job.end], st.slices[i].attempt) == RecordAt(r, st, i)
      && st.journal == RecordsOf(r, st.messages, st.slices)
  {
    ArchivedSlicesTile(r, Initial(), steps);
    var st := RunOf(Initial(), steps);
    TilesAreConsecutive(st.slices, st.lastArchived, i);
    assert FitsIn(st.slices[i].job, st.messages);
  }

  function RecordAt(r: Rendering, st: State, i: nat): Option<Record>
    requires i < |st.slices|
  {
    RecordOf(r, Part(st.messages, st.slices[i].job), st.slices[i].attempt)
  }
}
