/** How far a session has been archived. Token pressure and idleness both archive the
    messages after the watermark, under the session's consolidation lock; a provider call
    lies between capturing a slice and advancing the watermark, and turns append
    messages meanwhile. */
module ArchiveSpec {
  import opened Sequences
  import opened Texts
  import opened Wrappers

  const REPLAY_TAIL := 8

  datatype Message = Message(fromUser: bool, text: string)

  /** One record of the memory journal: a summary, or a dump of the messages. */
  datatype Record = Summary(content: string) | RawDump(content: string)

  datatype Trigger = TokenPressure | Idle

  datatype FinishReason = ErrorFinish | LengthFinish | OtherFinish

  /** What the provider call comes to. */
  datatype Response = Raised | Reply(finish: FinishReason, toolCalls: bool, content: Option<string>)

  /** One archive request: the input budget, whether the slice can be replayed in full, the
      estimate of the request, and the response in case it is sent. */
  datatype Attempt = Attempt(budget: int, replayable: bool, estimate: int, response: Response)

  /** How texts are made: unknown functions of the program. `heading` counts the messages. */
  datatype Rendering = Rendering(
    format: seq<Message> -> string, heading: nat -> string,
    truncate: (string, nat) -> string, stripThink: string -> string)

  /** A slice being archived, and one that has been, with what its request came to. */
  datatype Job = Job(trigger: Trigger, start: nat, end: nat)
  datatype Slice = Slice(job: Job, attempt: Attempt)

  datatype State = State(
    messages: seq<Message>, lastArchived: nat, journal: seq<Record>, job: Option<Job>, slices: seq<Slice>)

  function Initial(): State {
    State([], 0, [], None, [])
  }

  /** From `boundary` back to the nearest user message, or 0. */
  function BackToUser(messages: seq<Message>, boundary: nat): (b: nat)
    requires boundary < |messages|
    ensures b <= boundary
  {
    if boundary == 0 || messages[boundary].fromUser then boundary else BackToUser(messages, boundary - 1)
  }

  function PickBoundary(messages: seq<Message>, lastArchived: nat): Option<nat> {
    if messages == [] then None
    else
      var boundary := BackToUser(messages, if |messages| > REPLAY_TAIL then |messages| - REPLAY_TAIL else 0);
      if boundary <= lastArchived || !messages[boundary].fromUser then None else Some(boundary)
  }

  // ------------------------------------------------------------ one archive request

  const NOTHING := "(nothing)"
  const RAW_LIMIT := 16000
  const SUMMARY_LIMIT := 8000
  const ENTRY_LIMIT := 64000

  /** The text that `append_history` stores. */
  function Stored(r: Rendering, entry: string, limit: nat): string {
    var raw := TrimRight(entry);
    r.stripThink(if |raw| > limit then r.truncate(raw, limit) else raw)
  }

  function Dump(r: Rendering, slice: seq<Message>): Record {
    RawDump(Stored(r, r.heading(|slice|) + r.truncate(r.format(slice), RAW_LIMIT), ENTRY_LIMIT))
  }

  /** The request is sent. */
  predicate Sent(a: Attempt) {
    0 < a.budget && a.replayable && a.estimate <= a.budget
  }

  /** The response completes and says something. */
  predicate Usable(a: Attempt) {
    && Sent(a) && a.response.Reply? && a.response.finish.OtherFinish? && !a.response.toolCalls
    && a.response.content.Some? && Strip(a.response.content.value) != ""
  }

  predicate SaysNothing(a: Attempt) {
    Usable(a) && Strip(a.response.content.value) == NOTHING
  }

  /** What an attempt puts into the journal. */
  function RecordOf(r: Rendering, slice: seq<Message>, a: Attempt): Option<Record> {
    if SaysNothing(a) then None
    else if Usable(a) then Some(Summary(Stored(r, a.response.content.value, SUMMARY_LIMIT)))
    else Some(Dump(r, slice))
  }

  datatype Step =
    | Append(messages: seq<Message>)
    | BeginToken
    | BeginIdle
    | Finish(rendering: Rendering, attempt: Attempt)
    | Abandon

  predicate Enabled(st: State, step: Step) {
    match step
    case Append(_) => true
    case BeginToken => st.job.None? && PickBoundary(st.messages, st.lastArchived).Some?
    case BeginIdle => st.job.None? && st.lastArchived < |st.messages|
    case Finish(_, _) => st.job.Some?
    case Abandon => st.job.Some?
  }

  function Part(messages: seq<Message>, job: Job): seq<Message> {
    if job.start <= job.end <= |messages| then messages[job.start..job.end] else []
  }

  function FinishJob(st: State, r: Rendering, a: Attempt): State
    requires st.job.Some?
  {
    var record := RecordOf(r, Part(st.messages, st.job.value), a);
    st.(lastArchived := st.job.value.end,
        journal := st.journal + if record.Some? then [record.value] else [],
        job := None, slices := st.slices + [Slice(st.job.value, a)])
  }

  function After(st: State, step: Step): State
    requires Enabled(st, step)
  {
    match step
    case Append(messages) => st.(messages := st.messages + messages)
    case BeginToken =>
      st.(job := Some(Job(TokenPressure, st.lastArchived, PickBoundary(st.messages, st.lastArchived).value)))
    case BeginIdle => st.(job := Some(Job(Idle, st.lastArchived, |st.messages|)))
    case Finish(r, a) => FinishJob(st, r, a)
    case Abandon => st.(job := None)
  }

  predicate Runs(st: State, steps: seq<Step>)
    decreases |steps|
  {
    steps == [] || (Enabled(st, steps[0]) && Runs(After(st, steps[0]), steps[1..]))
  }

  function RunOf(st: State, steps: seq<Step>): State
    requires Runs(st, steps)
    decreases |steps|
  {
    if steps == [] then st else RunOf(After(st, steps[0]), steps[1..])
  }

  // ------------------------------------------------------------------- the invariants

  /** The slices follow each other without gap or overlap, from 0 to `end`. */
  predicate Tiles(slices: seq<Slice>, end: nat) {
    if slices == [] then end == 0
    else
      var last := Last(slices).job;
      last.start < last.end && last.end == end && Tiles(Init(slices), last.start)
  }

  /** The journal that the slices give: what each attempt leaves, in order. */
  function RecordsOf(r: Rendering, messages: seq<Message>, slices: seq<Slice>): seq<Record> {
    if slices == [] then []
    else
      var record := RecordOf(r, Part(messages, Last(slices).job), Last(slices).attempt);
      RecordsOf(r, messages, Init(slices)) + if record.Some? then [record.value] else []
  }

  /** A slice within the messages; one cut under token pressure ends at a user message
      that comes before the replay tail. */
  predicate FitsIn(job: Job, messages: seq<Message>) {
    && job.start < job.end <= |messages|
    && (job.trigger.TokenPressure? ==> job.end + REPLAY_TAIL <= |messages| && messages[job.end].fromUser)
  }

  predicate AllFit(slices: seq<Slice>, messages: seq<Message>) {
    forall i :: 0 <= i < |slices| ==> FitsIn(slices[i].job, messages)
  }

  predicate Sound(r: Rendering, st: State) {
    && st.lastArchived <= |st.messages|
    && Tiles(st.slices, st.lastArchived)
    && st.journal == RecordsOf(r, st.messages, st.slices)
    && AllFit(st.slices, st.messages)
    && (st.job.Some? ==> st.job.value.start == st.lastArchived && FitsIn(st.job.value, st.messages))
  }

  // ------------------------------------------------------------------ the record counts

  /** How many slices were answered with "(nothing)". */
  function Nothings(slices: seq<Slice>): nat {
    if slices == [] then 0 else Nothings(Init(slices)) + if SaysNothing(Last(slices).attempt) then 1 else 0
  }

  /** One record for each slice but those. */
  lemma {:induction false} OneRecordPerSlice(r: Rendering, messages: seq<Message>, slices: seq<Slice>)
    ensures |RecordsOf(r, messages, slices)| + Nothings(slices) == |slices|
  {
    if slices != [] { OneRecordPerSlice(r, messages, Init(slices)); }
  }

  /** A summary is stored exactly for a reply that completed: sent within a positive budget
      with the whole slice in it, not cut off, no error, no tool calls, and with something to
      say. Such a reply that says "(nothing)" leaves no record. Everything else leaves a dump
      of the slice. */
  lemma {:induction false} OnlyCompletedRepliesAreStored(r: Rendering, slice: seq<Message>, a: Attempt)
    ensures
      var completed :=
        && a.budget > 0 && a.replayable && a.estimate <= a.budget
        && a.response.Reply? && !a.response.finish.ErrorFinish? && !a.response.finish.LengthFinish?
        && !a.response.toolCalls && a.response.content.Some? && Strip(a.response.content.value) != "";
      var record := RecordOf(r, slice, a);
      && (record.Some? && record.value.Summary? <==> completed && Strip(a.response.content.value) != "(nothing)")
      && (record.None? <==> completed && Strip(a.response.content.value) == "(nothing)")
      && (record.Some? && record.value.RawDump? <==> !completed)
  {
  }

  /** A summary of at most 8000 characters is stored whole, but for thoughts and blanks at its
      end; so is a dump that fits in 64000, and its messages are cut at 16000. */
  lemma {:induction false} ShortTextsAreStoredWhole(r: Rendering, slice: seq<Message>, a: Attempt)
    requires RecordOf(r, slice, a).Some?
    ensures
      match RecordOf(r, slice, a).value
      case Summary(content) =>
        var text := TrimRight(a.response.content.value);
        content == r.stripThink(if |text| <= 8000 then text else r.truncate(text, 8000))
      case RawDump(content) =>
        var text := TrimRight(r.heading(|slice|) + r.truncate(r.format(slice), 16000));
        content == r.stripThink(if |text| <= 64000 then text else r.truncate(text, 64000))
  {
  }

  // ---------------------------------------------------------------------- the boundary

  lemma {:induction false} BackToUserIsNearest(messages: seq<Message>, boundary: nat)
    requires boundary < |messages|
    ensures
      var b := BackToUser(messages, boundary);
      && b <= boundary
      && (b == 0 || messages[b].fromUser)
      && forall i :: b < i <= boundary ==> !messages[i].fromUser
  {
    if boundary > 0 && !messages[boundary].fromUser { BackToUserIsNearest(messages, boundary - 1); }
  }

  /** The boundary is the last user message before the replay tail, provided it is past
      the watermark; there is none exactly when no such message exists. */
  lemma {:induction false} BoundaryIsLastUserBeforeTail(messages: seq<Message>, lastArchived: nat)
    ensures
      match PickBoundary(messages, lastArchived)
      case Some(b) =>
        && lastArchived < b && b + 8 <= |messages| && messages[b].fromUser
        && (forall i :: b < i && i + 8 <= |messages| ==> !messages[i].fromUser)
      case None =>
        forall i :: lastArchived < i && i + 8 <= |messages| ==> !messages[i].fromUser
  {
    if messages != [] {
      BackToUserIsNearest(messages, if |messages| > REPLAY_TAIL then |messages| - REPLAY_TAIL else 0);
    }
  }

  // --------------------------------------------------------------------- every step

  lemma {:induction false} RecordsOfMore(r: Rendering, messages: seq<Message>, more: seq<Message>, slices: seq<Slice>)
    requires AllFit(slices, messages)
    ensures RecordsOf(r, messages + more, slices) == RecordsOf(r, messages, slices) && AllFit(slices, messages + more)
  {
    if slices != [] {
      var job := Last(slices).job;
      assert FitsIn(job, messages);
      RecordsOfMore(r, messages, more, Init(slices));
      assert (messages + more)[job.start..job.end] == messages[job.start..job.end];
      forall i | 0 <= i < |slices| ensures FitsIn(slices[i].job, messages + more) {
        assert FitsIn(slices[i].job, messages);
      }
    }
  }

  lemma {:induction false} AppendKeepsSound(r: Rendering, st: State, more: seq<Message>)
    requires Sound(r, st)
    ensures Sound(r, After(st, Append(more)))
  {
    RecordsOfMore(r, st.messages, more, st.slices);
  }

  lemma {:induction false} FinishKeepsSound(r: Rendering, st: State, a: Attempt)
    requires Sound(r, st) && st.job.Some?
    ensures Sound(r, FinishJob(st, r, a))
  {
    InitSnoc(st.slices, Slice(st.job.value, a));
  }

  lemma {:induction false} StepKeepsSound(r: Rendering, st: State, step: Step)
    requires Sound(r, st) && Enabled(st, step) && (step.Finish? ==> step.rendering == r)
    ensures Sound(r, After(st, step))
    ensures st.lastArchived <= After(st, step).lastArchived
    ensures step.Finish? ==> st.lastArchived < After(st, step).lastArchived
  {
    match step
    case Append(more) => AppendKeepsSound(r, st, more);
    case BeginToken => BoundaryIsLastUserBeforeTail(st.messages, st.lastArchived);
    case BeginIdle =>
    case Finish(_, a) => FinishKeepsSound(r, st, a);
    case Abandon =>
  }

  /** The texts are made by the same functions throughout. */
  ghost predicate Renders(steps: seq<Step>, r: Rendering) {
    forall i :: 0 <= i < |steps| && steps[i].Finish? ==> steps[i].rendering == r
  }

  /** Over any run: the watermark never moves back and stays within the messages, the
      archived slices tile everything before it, and the journal is what their attempts
      leave, in order. */
  lemma {:induction false} ArchivedSlicesTile(r: Rendering, st: State, steps: seq<Step>)
    requires Sound(r, st) && Runs(st, steps) && Renders(steps, r)
    ensures Sound(r, RunOf(st, steps)) && st.lastArchived <= RunOf(st, steps).lastArchived
    decreases |steps|
  {
    if steps != [] {
      StepKeepsSound(r, st, steps[0]);
      ArchivedSlicesTile(r, After(st, steps[0]), steps[1..]);
    }
  }

  /** Every message before the watermark is in exactly one archived slice. */
  lemma {:induction false} EachMessageInOneSlice(slices: seq<Slice>, end: nat, k: nat) returns (i: nat)
    requires Tiles(slices, end) && k < end
    ensures i < |slices| && slices[i].job.start <= k < slices[i].job.end
    ensures forall j :: 0 <= j < |slices| && slices[j].job.start <= k < slices[j].job.end ==> j == i
  {
    var last := Last(slices).job;
    if last.start <= k {
      i := |slices| - 1;
      SlicesEndBefore(Init(slices), last.start);
    } else {
      i := EachMessageInOneSlice(Init(slices), last.start, k);
    }
  }

  lemma {:induction false} SlicesEndBefore(slices: seq<Slice>, end: nat)
    requires Tiles(slices, end)
    ensures forall j :: 0 <= j < |slices| ==> slices[j].job.end <= end
  {
    if slices != [] { SlicesEndBefore(Init(slices), Last(slices).job.start); }
  }
}
