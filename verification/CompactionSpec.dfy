/** The tiers that shrink tool results, as functions on message values, and what
    they may and may not change. */
module CompactionSpec {
  import opened Sequences
  import opened Wrappers
  import opened ChatMessages

  const SNIP_SAFETY_BUFFER := 1024
  const MICROCOMPACT_MIN_CHARS := 500

  /** The part of the configuration that decides. Tokenizers, the result store and
      text helpers are unknown functions; `persist` yields nothing when it raises. */
  datatype Config = Config(
    contextWindowTokens: int,           // 0 stands for unset
    contextBlockLimit: int,             // 0 stands for unset
    maxTokens: Option<int>,
    providerMaxTokens: Option<int>,
    inflightStartIndex: int,
    compactableNames: set<string>,
    maxToolResultChars: int,
    ensureNonEmpty: (string, Content) -> Content,
    persist: (string, Content) -> Option<Content>,
    truncate: (string, int) -> string,
    compactionNotice: string -> string,
    promptTokens: seq<Message> -> int,
    messageTokens: Message -> nat)

  function InputBudget(config: Config): (budget: nat) {
    if config.contextWindowTokens == 0 then 0
    else
      var maxOutput :=
        if config.maxTokens.Some? then config.maxTokens.value
        else if config.providerMaxTokens.Some? then config.providerMaxTokens.value
        else 4096;
      var budget :=
        if config.contextBlockLimit != 0 then config.contextBlockLimit
        else config.contextWindowTokens - maxOutput - SNIP_SAFETY_BUFFER;
      if budget > 0 then budget else 0
  }

  // ------------------------------------------------------------- what may change

  /** `b` is `a` with other contents in its tool results. */
  predicate SameShape(a: seq<Message>, b: seq<Message>) {
    |a| == |b| &&
    forall i | 0 <= i < |a| :: b[i] == if a[i].role.Tool? then a[i].(content := b[i].content) else a[i]
  }

  // ------------------------------------------------------------- tier 1: offload

  function Normalized(config: Config, id: string, name: string, result: Content): Content {
    var nonEmpty := config.ensureNonEmpty(name, result);
    if name == "read_file" then nonEmpty
    else
      var stored := config.persist(id, nonEmpty);
      var content := if stored.Some? then stored.value else nonEmpty;
      if content.Text? && |content.text| > config.maxToolResultChars
      then Text(config.truncate(content.text, config.maxToolResultChars))
      else content
  }

  function Digits(n: nat): string {
    if n < 10 then [('0' as int + n) as char] else Digits(n / 10) + [('0' as int + n % 10) as char]
  }

  function OffloadedMessage(config: Config, m: Message, idx: nat): Message {
    if !m.role.Tool? then m
    else
      var id := if m.toolCallId != "" then m.toolCallId else "tool_" + Digits(idx);
      var name := if m.name.Some? && m.name.value != "" then m.name.value else "tool";
      m.(content := Normalized(config, id, name, m.content))
  }

  function Offloaded(config: Config, ms: seq<Message>): seq<Message> {
    seq(|ms|, i requires 0 <= i < |ms| => OffloadedMessage(config, ms[i], i))
  }

  // ------------------------------------------------- tier 2: in-flight compaction

  /** The notice that replaces a result; it depends on the tool's name only. */
  function CompactionText(config: Config, m: Message): string {
    config.compactionNotice(if m.name.Some? then m.name.value else "tool")
  }

  function Compacted(config: Config, m: Message): Message {
    m.(content := Text(CompactionText(config, m)))
  }

  predicate Recorded(m: Message, ids: set<string>) {
    m.role.Tool? && m.toolCallId != "" && m.toolCallId in ids
  }

  /** What replaying a recorded id set makes of a history. */
  function ApplyRecorded(config: Config, ms: seq<Message>, ids: set<string>): seq<Message> {
    seq(|ms|, i requires 0 <= i < |ms| => if Recorded(ms[i], ids) then Compacted(config, ms[i]) else ms[i])
  }

  datatype Candidate = Candidate(idx: nat, id: string)

  predicate IsCandidate(config: Config, m: Message, idx: nat, ids: set<string>) {
    && idx >= config.inflightStartIndex
    && m.role.Tool? && m.name.Some? && m.name.value in config.compactableNames
    && m.toolCallId != "" && m.toolCallId !in ids
    && m.content.Text? && |m.content.text| >= MICROCOMPACT_MIN_CHARS
  }

  function Candidates(config: Config, ms: seq<Message>, ids: set<string>): seq<Candidate> {
    if ms == [] then []
    else
      Candidates(config, Init(ms), ids) +
      if IsCandidate(config, Last(ms), |ms| - 1, ids) then [Candidate(|ms| - 1, Last(ms).toolCallId)] else []
  }

  /** `int(budget * 0.85)` */
  function Target(budget: nat): nat {
    budget * 85 / 100
  }

  /** Where the compaction loop stands; `taken` counts the candidates it passed. */
  datatype Progress = Progress(messages: seq<Message>, ids: set<string>, taken: nat, estimate: int)

  /** The loop's state once it has compacted its current candidate. */
  function Passed(config: Config, candidates: seq<Candidate>, p: Progress): Progress
    requires p.taken < |candidates| && candidates[p.taken].idx < |p.messages|
  {
    var c := candidates[p.taken];
    var messages := p.messages[c.idx := Compacted(config, p.messages[c.idx])];
    Progress(messages, p.ids + {c.id}, p.taken + 1, config.promptTokens(messages))
  }

  /** The loop from a given point on. */
  function CompactLoop(config: Config, candidates: seq<Candidate>, p: Progress): (r: Progress)
    requires p.taken <= |candidates|
    requires forall c | c in candidates :: c.idx < |p.messages|
    ensures r.taken <= |candidates| && |r.messages| == |p.messages|
    decreases |candidates| - p.taken
  {
    var budget := InputBudget(config);
    if p.taken == |candidates| then p
    else if p.taken == |candidates| - 1 && p.estimate <= budget then p
    else
      var c := candidates[p.taken];
      if c.id in p.ids then CompactLoop(config, candidates, p.(taken := p.taken + 1))
      else
        var next := Passed(config, candidates, p);
        if next.estimate <= Target(budget) then next else CompactLoop(config, candidates, next)
  }

  lemma {:induction false} CandidatesInRange(config: Config, ms: seq<Message>, ids: set<string>)
    ensures forall c | c in Candidates(config, ms, ids) ::
              c.idx < |ms| && IsCandidate(config, ms[c.idx], c.idx, ids) && c.id == ms[c.idx].toolCallId
    ensures forall i, j | 0 <= i < j < |Candidates(config, ms, ids)| ::
              Candidates(config, ms, ids)[i].idx < Candidates(config, ms, ids)[j].idx
  {
    if ms != [] {
      CandidatesInRange(config, Init(ms), ids);
      var cs := Candidates(config, Init(ms), ids);
      assert forall i | 0 <= i < |cs| :: cs[i] in cs;
    }
  }

  function Start(config: Config, ms: seq<Message>, ids: set<string>): Progress {
    var updated := ApplyRecorded(config, ms, ids);
    Progress(updated, ids, 0, config.promptTokens(updated))
  }

  /** The whole tier: nothing without a budget; otherwise a replay, and the loop if
      the replay alone does not fit. */
  function CompactInflight(config: Config, ms: seq<Message>, ids: set<string>): (r: Progress)
    ensures |r.messages| == |ms|
  {
    var start := Start(config, ms, ids);
    if InputBudget(config) <= 0 then start.(messages := ms)
    else if start.estimate <= InputBudget(config) then start
    else
      CandidatesInRange(config, start.messages, ids);
      CompactLoop(config, Candidates(config, start.messages, ids), start)
  }
}
