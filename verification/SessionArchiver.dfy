/** The archiver and the consolidator at work on one session, and the guard that keeps idle
    compaction to one task per session. */
module SessionArchiver {
  import opened ArchiveSpec
  import opened Sequences
  import opened Texts
  import opened Wrappers

  const SAFETY_BUFFER := 1024

  class ArchivedSession {
    var messages: seq<Message>
    var lastArchived: nat
    var journal: seq<Record>
    var job: Option<Job>
    ghost var slices: seq<Slice>
    const rendering: Rendering

    ghost function View(): State
      reads this
    {
      State(messages, lastArchived, journal, job, slices)
    }

    constructor (rendering: Rendering)
      ensures View() == Initial() && this.rendering == rendering
    {
      messages, lastArchived, journal, job, slices := [], 0, [], None, [];
      this.rendering := rendering;
    }

    /** `pick_consolidation_boundary`. */
    method PickConsolidationBoundary() returns (picked: Option<nat>)
      ensures picked == PickBoundary(messages, lastArchived)
    {
      if messages == [] { return None; }
      var boundary: nat := if |messages| > REPLAY_TAIL then |messages| - REPLAY_TAIL else 0;
      ghost var start := boundary;
      while boundary > 0 && !messages[boundary].fromUser
        invariant boundary < |messages|
        invariant BackToUser(messages, boundary) == BackToUser(messages, start)
      {
        boundary := boundary - 1;
      }
      if boundary <= lastArchived || !messages[boundary].fromUser { return None; }
      picked := Some(boundary);
    }

    /** The first half of `maybe_consolidate_by_tokens`, up to the provider call: the estimate
        reaches what the window leaves for the prompt, and there is a boundary. */
    method BeginTokenConsolidation(contextWindow: int, maxTokens: int, estimated: int) returns (begun: bool)
      requires job.None?
      modifies this
      ensures begun ==
        (contextWindow > 0 && estimated > 0 && estimated >= contextWindow - maxTokens - 1024
         && PickBoundary(old(messages), old(lastArchived)).Some?)
      ensures View() == if begun then After(old(View()), BeginToken) else old(View())
    {
      if contextWindow <= 0 || messages == [] { return false; }
      var budget := contextWindow - maxTokens - SAFETY_BUFFER;
      if estimated <= 0 { return false; }
      if estimated < budget { return false; }
      var end := PickConsolidationBoundary();
      if end.None? { return false; }
      job := Some(Job(TokenPressure, lastArchived, end.value));
      begun := true;
    }

    /** The first half of `compact_idle_session`. */
    method BeginIdleCompaction() returns (begun: bool)
      requires Sound(rendering, View()) && job.None?
      modifies this
      ensures begun == (old(lastArchived) < |old(messages)|)
      ensures View() == if begun then After(old(View()), BeginIdle) else old(View())
    {
      var captured := messages[lastArchived..];
      if captured == [] { return false; }
      job := Some(Job(Idle, lastArchived, lastArchived + |captured|));
      begun := true;
    }

    method AppendHistory(entry: string, limit: nat, summary: bool)
      modifies `journal
      ensures journal == old(journal) +
        [if summary then Summary(Stored(rendering, entry, limit)) else RawDump(Stored(rendering, entry, limit))]
    {
      var raw := TrimRight(entry);
      if |raw| > limit { raw := rendering.truncate(raw, limit); }
      var content := rendering.stripThink(raw);
      journal := journal + [if summary then Summary(content) else RawDump(content)];
    }

    method RawArchive(slice: seq<Message>)
      modifies `journal
      ensures journal == old(journal) + [Dump(rendering, slice)]
    {
      var formatted := rendering.truncate(rendering.format(slice), RAW_LIMIT);
      AppendHistory(rendering.heading(|slice|) + formatted, ENTRY_LIMIT, false);
    }

    /** `archive`: one record for every response but "(nothing)". */
    method Archive(slice: seq<Message>, response: Response, ghost a: Attempt) returns (summary: Option<string>)
      requires slice != [] && Sent(a) && a.response == response
      modifies `journal
      ensures journal == old(journal) + Entered(rendering, slice, a)
      ensures summary == if Usable(a) then (if SaysNothing(a) then Some(NOTHING) else response.content) else None
    {
      if response.Raised? {
        RawArchive(slice);
        return None;
      }
      if response.finish.ErrorFinish? || response.finish.LengthFinish? {
        RawArchive(slice);
        return None;
      }
      if response.toolCalls {
        RawArchive(slice);
        return None;
      }
      if response.content.None? || Strip(response.content.value) == "" {
        RawArchive(slice);
        return None;
      }
      if Strip(response.content.value) == NOTHING { return Some(NOTHING); }
      AppendHistory(response.content.value, SUMMARY_LIMIT, true);
      summary := response.content;
    }

    /** `archive_session`: what cannot be sent is dumped. */
    method ArchiveSession(slice: seq<Message>, a: Attempt) returns (summary: Option<string>)
      requires slice != []
      modifies `journal
      ensures journal == old(journal) + Entered(rendering, slice, a)
      ensures summary.Some? <==> Usable(a)
    {
      if a.budget <= 0 {
        RawArchive(slice);
        return None;
      }
      if !a.replayable {
        RawArchive(slice);
        return None;
      }
      if a.estimate > a.budget {
        RawArchive(slice);
        return None;
      }
      summary := Archive(slice, a.response, a);
    }

    /** The second half of both: the watermark advances over the captured slice only. */
    method FinishArchive(a: Attempt) returns (summary: Option<string>)
      requires Sound(rendering, View()) && job.Some?
      modifies this
      ensures View() == FinishJob(old(View()), rendering, a)
      ensures summary.Some? <==> Usable(a)
    {
      summary := ArchiveSession(messages[job.value.start..job.value.end], a);
      lastArchived := job.value.end;
      slices := slices + [Slice(job.value, a)];
      job := None;
    }
  }

  /** The records an attempt adds: none or one. */
  function Entered(r: Rendering, slice: seq<Message>, a: Attempt): seq<Record> {
    var record := RecordOf(r, slice, a);
    if record.Some? then [record.value] else []
  }

  // -------------------------------------------------------------------- idle compaction

  /** What the idle scan knows of a session. */
  datatype Info = Info(key: string, internal: bool, expired: bool, unarchived: bool, resolvable: bool)

  predicate Due(info: Info, active: set<string>) {
    info.key != "" && !info.internal && info.key !in active && info.expired && info.unarchived && info.resolvable
  }

  /** How `compact_idle_session` ends, and the summary that is then stored with the session. */
  datatype Outcome = Failed | Compacted(summary: Option<string>, stored: Option<string>)

  predicate HasSummary(outcome: Outcome) {
    outcome.Compacted? && outcome.summary.Some? && outcome.summary.value != "" && outcome.summary.value != NOTHING
    && outcome.stored.Some?
  }

  class AutoCompact {
    var archiving: set<string>
    var summaries: map<string, string>
    ghost var tasks: multiset<string>

    /** A key is marked exactly while its one archival task is alive. */
    ghost predicate Guarded()
      reads this
    {
      forall k :: tasks[k] == if k in archiving then 1 else 0
    }

    constructor ()
      ensures Guarded() && archiving == {} && summaries == map[]
    {
      archiving, summaries, tasks := {}, map[], multiset{};
    }

    /** `check_expired`: marks and schedules every due session that is not being archived. */
    method CheckExpired(infos: seq<Info>, active: set<string>)
      requires Guarded()
      modifies `archiving, `tasks
      ensures Guarded()
      ensures archiving == old(archiving) + set i | 0 <= i < |infos| && Due(infos[i], active) :: infos[i].key
      ensures forall i :: 0 <= i < |infos| && infos[i].key !in old(archiving) ==>
        (infos[i].key in archiving <==>
          exists j :: 0 <= j < |infos| && infos[j].key == infos[i].key && infos[j].key != "" && !infos[j].internal
            && infos[j].key !in active && infos[j].expired && infos[j].unarchived && infos[j].resolvable)
    {
      for n := 0 to |infos|
        invariant Guarded()
        invariant archiving == old(archiving) + set i | 0 <= i < n && Due(infos[i], active) :: infos[i].key
      {
        var info := infos[n];
        if info.key == "" || info.internal || info.key in archiving { continue; }
        if info.key in active { continue; }
        if info.expired && info.unarchived && info.resolvable {
          archiving := archiving + {info.key};
          tasks := tasks + multiset{info.key};
        }
      }
    }

    /** `_archive` from the end of the compaction on: a failure is swallowed, a summary is
        kept for the next turn, and in every case the mark goes with the task. */
    method FinishTask(key: string, internal: bool, outcome: Outcome)
      requires Guarded() && key in archiving
      modifies this
      ensures Guarded() && archiving == old(archiving) - {key} && tasks == old(tasks) - multiset{key}
      ensures summaries ==
        if !internal && HasSummary(outcome) then old(summaries)[key := outcome.stored.value] else old(summaries)
      ensures summaries != old(summaries) ==>
        && !internal && outcome.Compacted? && outcome.summary.Some? && outcome.summary.value !in {"", "(nothing)"}
        && outcome.stored.Some? && key in summaries && summaries[key] == outcome.stored.value
      ensures !internal && outcome.Compacted? && outcome.summary.Some? && outcome.summary.value !in {"", "(nothing)"}
              && outcome.stored.Some? ==>
        key in summaries && summaries[key] == outcome.stored.value
    {
      if internal {
        archiving := archiving - {key};
        tasks := tasks - multiset{key};
        return;
      }
      if outcome.Compacted? {
        if outcome.summary.Some? && outcome.summary.value != "" && outcome.summary.value != NOTHING {
          if outcome.stored.Some? { summaries := summaries[key := outcome.stored.value]; }
        }
      }
      archiving := archiving - {key};
      tasks := tasks - multiset{key};
    }

    /** `prepare_session`: hands a kept summary out once. Internal sessions are unmarked and
        get none; they are never marked. */
    method PrepareSession(key: string, internal: bool, persisted: Option<string>) returns (summary: Option<string>)
      requires Guarded() && (internal ==> key !in archiving)
      modifies this
      ensures Guarded() && archiving == old(archiving) && summaries == old(summaries) - {key}
      ensures summary ==
        if internal then None else if key in old(summaries) then Some(old(summaries)[key]) else persisted
    {
      if internal {
        archiving, summaries := archiving - {key}, summaries - {key};
        return None;
      }
      if key in summaries {
        summary := Some(summaries[key]);
        summaries := summaries - {key};
      } else {
        summary := persisted;
      }
    }
  }
}
