/** Messages as the tiers that rewrite results in place hold them: objects that other
    lists share. Only the content of a message is ever assigned, so only it is
    mutable.

    The tiers have no `modifies` clause for rows. The verifier therefore rejects any
    write to a row that existed before the call, whichever list it came from: the
    session history is never touched. */
module MessageRows {
  import opened Wrappers
  import opened ChatMessages

  class Row {
    const role: Role
    const toolCalls: seq<ToolCall>
    const toolCallId: string
    const name: Option<string>
    var content: Content

    constructor (m: Message)
      ensures Value() == m
    {
      role, toolCalls, toolCallId, name, content := m.role, m.toolCalls, m.toolCallId, m.name, m.content;
    }

    function Value(): Message
      reads this
    {
      Message(role, content, toolCalls, toolCallId, name)
    }
  }

  /** The values of a list of rows. */
  function View(rows: seq<Row>): (values: seq<Message>)
    reads rows
    ensures |values| == |rows|
    ensures forall i | 0 <= i < |rows| :: values[i] == rows[i].Value()
  {
    seq(|rows|, i requires 0 <= i < |rows| reads rows => rows[i].Value())
  }

  /** `[dict(m) for m in rows]`: new rows with the same values. */
  method Copies(rows: seq<Row>) returns (copies: seq<Row>)
    ensures |copies| == |rows| && forall i | 0 <= i < |rows| :: fresh(copies[i]) && copies[i].Value() == rows[i].Value()
    ensures forall i, j | 0 <= i < j < |copies| :: copies[i] != copies[j]
  {
    copies := [];
    for i := 0 to |rows|
      invariant |copies| == i
      invariant forall k | 0 <= k < i :: fresh(copies[k]) && copies[k].Value() == rows[k].Value()
      invariant forall k, l | 0 <= k < l < i :: copies[k] != copies[l]
    {
      var copy := new Row(rows[i].Value());
      copies := copies + [copy];
    }
  }

  /** Rows for a list of values. */
  method Rows(values: seq<Message>) returns (rows: seq<Row>)
    ensures |rows| == |values| && forall i | 0 <= i < |rows| :: rows[i].Value() == values[i]
  {
    rows := [];
    for i := 0 to |values|
      invariant |rows| == i
      invariant forall k | 0 <= k < i :: rows[k].Value() == values[k]
    {
      var row := new Row(values[i]);
      rows := rows + [row];
    }
  }
}
