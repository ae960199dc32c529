/** The four passes that turn a broken history into a legal one, as functions on
    message values. Each is defined prefix by prefix, the order in which the
    program's loops build their result. */
module RepairPasses {
  import opened Sequences
  import opened Texts
  import opened Wrappers
  import opened ChatMessages

  const BACKFILL_CONTENT := "[Tool result unavailable \U{2014} call was interrupted or lost]"
  const PLACEHOLDER_TEXT := "[Previous assistant message omitted.]"

  // --------------------------------------------------- pass 1: bare placeholders

  predicate IsPlaceholderText(c: Content) {
    c.Text? && Strip(c.text) == PLACEHOLDER_TEXT
  }

  predicate BarePlaceholder(m: Message) {
    m.role.Assistant? && IsPlaceholderText(m.content) && m.toolCalls == []
  }

  predicate NoBarePlaceholder(ms: seq<Message>) {
    ms == [] || (NoBarePlaceholder(Init(ms)) && !BarePlaceholder(Last(ms)))
  }

  function StripPlaceholders(ms: seq<Message>): seq<Message> {
    if ms == [] then []
    else StripPlaceholders(Init(ms)) + if BarePlaceholder(Last(ms)) then [] else [Last(ms)]
  }

  // ----------------------------------------------------- pass 2: malformed calls

  function ValidCalls(calls: seq<ToolCall>): seq<ToolCall> {
    if calls == [] then []
    else ValidCalls(Init(calls)) + if NameIsValid(Last(calls)) then [Last(calls)] else []
  }

  /** What is left of one message: itself, itself with fewer calls, or nothing. */
  function WithoutMalformed(m: Message): seq<Message> {
    var kept := ValidCalls(m.toolCalls);
    if !m.role.Assistant? || |kept| == |m.toolCalls| then [m]
    else if kept == [] && !HasContent(m.content) then []
    else [m.(toolCalls := kept)]
  }

  function StripMalformed(ms: seq<Message>): seq<Message> {
    if ms == [] then [] else StripMalformed(Init(ms)) + WithoutMalformed(Last(ms))
  }

  // ------------------------------------------------------ pass 3: orphan results

  /** Whether the result `m` survives behind the history `before`. */
  predicate KeepsResult(before: seq<Message>, m: Message)
    decreases |before|, 1
  {
    m.toolCallId != "" && m.toolCallId in Declared(before) && m.toolCallId !in Answered(DropOrphans(before))
  }

  function DropOrphans(ms: seq<Message>): seq<Message>
    decreases |ms|, 0
  {
    if ms == [] then []
    else
      DropOrphans(Init(ms)) + if Last(ms).role.Tool? && !KeepsResult(Init(ms), Last(ms)) then [] else [Last(ms)]
  }

  // ----------------------------------------------------- pass 4: missing results

  function BackfillName(tc: ToolCall): string {
    if tc.Call? && tc.fn.Some? then
      match tc.fn.value
      case NoName => ""
      case StringName(t) => t
      case OtherName(t) => t
    else ""
  }

  function BackfillMessage(id: string, name: string): Message {
    Message(Tool, Text(BACKFILL_CONTENT), [], id, Some(name))
  }

  function Synthetic(tc: ToolCall): Message {
    BackfillMessage(CallId(tc), BackfillName(tc))
  }

  /** One synthetic result for each of the calls that nothing answers. */
  function MissingFor(calls: seq<ToolCall>, answered: multiset<string>): seq<Message> {
    if calls == [] then []
    else
      var tc := Last(calls);
      MissingFor(Init(calls), answered) + if CallId(tc) != "" && CallId(tc) !in answered then [Synthetic(tc)] else []
  }

  function Missing(ms: seq<Message>, answered: multiset<string>): seq<seq<Message>> {
    seq(|ms|, i requires 0 <= i < |ms| => MissingFor(CallsOf(ms[i]), answered))
  }

  /** Places `extra[i]` behind the run of tool results that follows `ms[i]`. The
      first component is the text so far, the second what the current run still
      has to be followed by. */
  function Weave(ms: seq<Message>, extra: seq<seq<Message>>): (w: (seq<Message>, seq<Message>))
    requires |ms| == |extra|
  {
    if ms == [] then ([], [])
    else
      var (done, due) := Weave(Init(ms), Init(extra));
      if Last(ms).role.Tool? then (done + [Last(ms)], due + Last(extra))
      else (done + due + [Last(ms)], Last(extra))
  }

  function Woven(ms: seq<Message>, extra: seq<seq<Message>>): seq<Message>
    requires |ms| == |extra|
  {
    Weave(ms, extra).0 + Weave(ms, extra).1
  }

  function Backfill(ms: seq<Message>): seq<Message> {
    Woven(ms, Missing(ms, Answered(ms)))
  }

  // ------------------------------------------------------------------ the phase

  function Cleaned(ms: seq<Message>): seq<Message> {
    DropOrphans(StripMalformed(StripPlaceholders(ms)))
  }

  function Repair(ms: seq<Message>): seq<Message> {
    Backfill(Cleaned(ms))
  }
}
