/** The messages of a conversation, and which tool calls they leave unanswered. */
module Conversation {

  datatype ToolCall = ToolCall(id: string, name: string, args: string, thoughtSignature: string)

  datatype Block =
    | Text(text: string, textSignature: string)
    | Thinking(thinking: string, thinkingSignature: string, redacted: bool)
    | Image(data: string, mimeType: string)
    | Call(call: ToolCall)

  datatype StopReason = Unset | Stop | Length | ToolUse | Error | Aborted

  datatype Message =
    | User(content: seq<Block>, timestamp: int)
    | Assistant(content: seq<Block>, api: string, provider: string, model: string, usage: int,
                stop: StopReason, errorMessage: string, timestamp: int)
    | ToolResult(callId: string, toolName: string, content: seq<Block>, isError: bool, timestamp: int)

  datatype Model = Model(provider: string, api: string, id: string)

  /** The tool calls among content blocks, in order. */
  function Calls(bs: seq<Block>): seq<ToolCall> {
    if bs == [] then []
    else
      var last := bs[|bs| - 1];
      Calls(bs[..|bs| - 1]) + if last.Call? then [last.call] else []
  }

  lemma CallsSnoc(bs: seq<Block>, b: Block)
    ensures Calls(bs + [b]) == Calls(bs) + if b.Call? then [b.call] else []
  {
    assert (bs + [b])[..|bs|] == bs;
  }

  function CallIds(m: Message): set<string> {
    if m.Assistant? then set c | c in Calls(m.content) :: c.id else {}
  }

  method ExtractToolCalls(m: Message) returns (calls: seq<ToolCall>)
    requires m.Assistant?
    ensures calls == Calls(m.content)
  {
    calls := [];
    for i := 0 to |m.content|
      invariant calls == Calls(m.content[..i])
    {
      CallsSnoc(m.content[..i], m.content[i]);
      assert m.content[..i] + [m.content[i]] == m.content[..i + 1];
      if m.content[i].Call? {
        calls := calls + [m.content[i].call];
      }
    }
    assert m.content[..|m.content|] == m.content;
  }

  // ---- open calls ----

  /** The ids that one more message leaves open: an assistant message replaces them by its own
      calls, and a tool result closes one. */
  function OpenAfter(open: set<string>, m: Message): set<string> {
    match m
    case Assistant(_, _, _, _, _, _, _, _) => CallIds(m)
    case ToolResult(id, _, _, _, _) => open - {id}
    case User(_, _) => open
  }

  function OpenIds(ms: seq<Message>): set<string> {
    if ms == [] then {} else OpenAfter(OpenIds(ms[..|ms| - 1]), ms[|ms| - 1])
  }

  lemma OpenIdsSnoc(ms: seq<Message>, m: Message)
    ensures OpenIds(ms + [m]) == OpenAfter(OpenIds(ms), m)
  {
    assert (ms + [m])[..|ms|] == ms;
  }

  ghost predicate NoAssistantIn(ms: seq<Message>, from: int, to: int)
    requires 0 <= from && to <= |ms|
  {
    forall j :: from <= j < to ==> !ms[j].Assistant?
  }

  ghost predicate AnswersAt(ms: seq<Message>, j: nat, id: string) {
    j < |ms| && ms[j].ToolResult? && ms[j].callId == id
  }

  /** The call `id` of message `a` gets a result before the next assistant message or the end. */
  ghost predicate Answered(ms: seq<Message>, a: nat, id: string) {
    exists j :: a < j < |ms| && AnswersAt(ms, j, id) && NoAssistantIn(ms, a + 1, j)
  }

  ghost predicate AskedAt(ms: seq<Message>, a: nat, id: string) {
    a < |ms| && ms[a].Assistant? && id in CallIds(ms[a])
  }

  /** Every tool call of every assistant message is answered in time. */
  ghost predicate AllAnswered(ms: seq<Message>) {
    forall a: nat, id :: AskedAt(ms, a, id) ==> Answered(ms, a, id)
  }

  /** A call of the last assistant message that nothing has answered since. */
  ghost predicate OpenAt(ms: seq<Message>, a: nat, id: string) {
    AskedAt(ms, a, id) && NoAssistantIn(ms, a + 1, |ms|) && !Answered(ms, a, id)
  }

  /** What the running set of open ids means. */
  lemma {:induction false} OpenMeans(ms: seq<Message>, id: string)
    ensures id in OpenIds(ms) <==>
            exists a: nat :: OpenAt(ms, a, id)
  {
    if ms == [] {
      return;
    }
    var n := |ms| - 1;
    var init, last := ms[..n], ms[n];
    OpenMeans(init, id);
    assert forall j :: 0 <= j < n ==> init[j] == ms[j];
    match last
    case Assistant(_, _, _, _, _, _, _, _) =>
      if id in CallIds(last) {
        assert OpenAt(ms, n, id);
      }
    case ToolResult(callId, _, _, _, _) =>
      forall a: nat | AskedAt(init, a, id) && NoAssistantIn(init, a + 1, n)
        ensures OpenAt(ms, a, id) <==> OpenAt(init, a, id) && callId != id
      {
        AnsweredInLonger(init, ms, a, id);
        if callId == id {
          assert AnswersAt(ms, n, id) && NoAssistantIn(ms, a + 1, n);
        }
      }
      OpenStep(init, ms, id);
    case User(_, _) =>
      forall a: nat | AskedAt(init, a, id) && NoAssistantIn(init, a + 1, n)
        ensures OpenAt(ms, a, id) <==> OpenAt(init, a, id)
      {
        AnsweredInLonger(init, ms, a, id);
      }
      OpenStep(init, ms, id);
  }

  lemma AnsweredInLonger(init: seq<Message>, ms: seq<Message>, a: nat, id: string)
    requires ms != [] && init == ms[..|ms| - 1]
    ensures Answered(init, a, id) ==> Answered(ms, a, id)
    ensures Answered(ms, a, id) ==> Answered(init, a, id) || AnswersAt(ms, |ms| - 1, id)
  {
    if Answered(init, a, id) {
      var j :| a < j < |init| && AnswersAt(init, j, id) && NoAssistantIn(init, a + 1, j);
      assert AnswersAt(ms, j, id) && NoAssistantIn(ms, a + 1, j);
    }
    if Answered(ms, a, id) {
      var j :| a < j < |ms| && AnswersAt(ms, j, id) && NoAssistantIn(ms, a + 1, j);
      if j < |ms| - 1 {
        assert AnswersAt(init, j, id) && NoAssistantIn(init, a + 1, j);
      }
    }
  }

  /** A message that is not from the assistant neither asks nor moves what was asked. */
  lemma OpenStep(init: seq<Message>, ms: seq<Message>, id: string)
    requires ms != [] && init == ms[..|ms| - 1] && !ms[|ms| - 1].Assistant?
    ensures forall a: nat :: AskedAt(ms, a, id) && NoAssistantIn(ms, a + 1, |ms|) <==>
              AskedAt(init, a, id) && NoAssistantIn(init, a + 1, |init|)
  {
    assert forall j :: 0 <= j < |init| ==> init[j] == ms[j];
  }

  // ---- settled conversations ----

  /** At every assistant message nothing is open. */
  ghost predicate Settled(ms: seq<Message>) {
    ms == [] || (Settled(ms[..|ms| - 1]) && (ms[|ms| - 1].Assistant? ==> OpenIds(ms[..|ms| - 1]) == {}))
  }

  /** ... and nothing is open at the end. */
  ghost predicate Complete(ms: seq<Message>) {
    Settled(ms) && OpenIds(ms) == {}
  }

  lemma SettledSnoc(ms: seq<Message>, m: Message)
    ensures Settled(ms + [m]) <==> Settled(ms) && (m.Assistant? ==> OpenIds(ms) == {})
  {
    assert (ms + [m])[..|ms|] == ms;
  }

  /** In a settled conversation only calls of the last assistant message can lack an answer. */
  lemma {:induction false} SettledMeans(ms: seq<Message>, a: nat, id: string)
    requires Settled(ms) && AskedAt(ms, a, id)
    ensures Answered(ms, a, id) || (NoAssistantIn(ms, a + 1, |ms|) && id in OpenIds(ms))
  {
    var n := |ms| - 1;
    var init := ms[..n];
    if a == n {
      OpenMeans(ms, id);
      assert NoAssistantIn(ms, a + 1, |ms|);
    } else {
      assert AskedAt(init, a, id);
      SettledMeans(init, a, id);
      if Answered(init, a, id) {
        AnsweredInLonger(init, ms, a, id);
      } else if AnswersAt(ms, n, id) {
        assert NoAssistantIn(ms, a + 1, n);
        assert Answered(ms, a, id);
      }
    }
  }

  lemma CompleteAnswersAll(ms: seq<Message>)
    requires Complete(ms)
    ensures AllAnswered(ms)
  {
    forall a: nat, id | AskedAt(ms, a, id)
      ensures Answered(ms, a, id)
    {
      SettledMeans(ms, a, id);
    }
  }
}
