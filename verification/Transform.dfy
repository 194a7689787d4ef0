/** Preparing a conversation for replay: messages are rewritten for the target model, renamed
    tool calls keep their results, and calls that nobody answered get a synthetic result. */
module Transform {
  import opened Wrappers
  import opened StringOrder
  import opened Conversation

  /** Maps the id of a call when its message came from another model. */
  type Normalizer = (string, Model, Message) -> string

  // ---- first pass: rewriting ----

  predicate Retained(m: Message) {
    m.Assistant? ==> m.stop != Error && m.stop != Aborted
  }

  predicate SameModel(m: Message, target: Model)
    requires m.Assistant?
  {
    m.provider == target.provider && m.api == target.api && m.model == target.id
  }

  function NewId(m: Message, id: string, target: Model, norm: Option<Normalizer>): string
    requires m.Assistant?
  {
    if norm.Some? && !SameModel(m, target) then norm.value(id, target, m) else id
  }

  function NewBlock(b: Block, m: Message, target: Model, norm: Option<Normalizer>): seq<Block>
    requires m.Assistant?
  {
    var same := SameModel(m, target);
    match b
    case Text(text, _) => if same then [b] else [Text(text, "")]
    case Thinking(thinking, _, redacted) =>
      if same then [b]
      else if redacted || thinking == "" then []
      else [Text(thinking, "")]
    case Image(_, _) => []
    case Call(c) =>
      [Call(ToolCall(NewId(m, c.id, target, norm), c.name, c.args, if same then c.thoughtSignature else ""))]
  }

  function NewContent(bs: seq<Block>, m: Message, target: Model, norm: Option<Normalizer>): seq<Block>
    requires m.Assistant?
  {
    if bs == [] then []
    else NewContent(bs[..|bs| - 1], m, target, norm) + NewBlock(bs[|bs| - 1], m, target, norm)
  }

  /** The ids that changed, after the blocks of one more message. */
  function Renames(ids: map<string, string>, bs: seq<Block>, m: Message, target: Model,
                   norm: Option<Normalizer>): map<string, string>
    requires m.Assistant?
  {
    if bs == [] then ids
    else
      var before := Renames(ids, bs[..|bs| - 1], m, target, norm);
      var b := bs[|bs| - 1];
      if b.Call? && NewId(m, b.call.id, target, norm) != b.call.id
      then before[b.call.id := NewId(m, b.call.id, target, norm)]
      else before
  }

  function Lookup(ids: map<string, string>, id: string): string {
    if id in ids then ids[id] else id
  }

  /** A message rewritten, given the ids that changed before it. */
  function Rewritten(m: Message, ids: map<string, string>, target: Model, norm: Option<Normalizer>): Message {
    match m
    case User(_, _) => m
    case Assistant(_, _, _, _, _, _, _, _) =>
      m.(content := NewContent(m.content, m, target, norm), errorMessage := "")
    case ToolResult(id, _, _, _, _) => m.(callId := Lookup(ids, id))
  }

  datatype Pass = Pass(out: seq<Message>, ids: map<string, string>)

  function Rewrite(ms: seq<Message>, target: Model, norm: Option<Normalizer>): Pass {
    if ms == [] then Pass([], map[])
    else RewriteOne(Rewrite(ms[..|ms| - 1], target, norm), ms[|ms| - 1], target, norm)
  }

  function RewriteOne(p: Pass, m: Message, target: Model, norm: Option<Normalizer>): Pass {
    if !Retained(m) then p
    else Pass(p.out + [Rewritten(m, p.ids, target, norm)],
              if m.Assistant? then Renames(p.ids, m.content, m, target, norm) else p.ids)
  }

  // ---- second pass: synthetic results ----

  /** A message of the output: one of the input's, or one that the pass made. */
  datatype Slot = Given(m: Message) | Made(m: Message)

  datatype Filled = Filled(out: seq<Slot>, pending: map<string, ToolCall>, last: int)

  function Synthetic(id: string, c: ToolCall, timestamp: int): Message {
    ToolResult(id, c.name, [Text("No result provided", "")], true, timestamp)
  }

  function SyntheticAll(ids: seq<string>, pending: map<string, ToolCall>, timestamp: int): seq<Slot>
    requires forall id :: id in ids ==> id in pending
  {
    if ids == [] then []
    else
      var last := ids[|ids| - 1];
      SyntheticAll(ids[..|ids| - 1], pending, timestamp) + [Made(Synthetic(last, pending[last], timestamp))]
  }

  ghost function Flush(f: Filled, timestamp: int): Filled {
    forall id { ListingHas(f.pending.Keys, id); }
    Filled(f.out + SyntheticAll(Listing(f.pending.Keys), f.pending, timestamp), map[], f.last)
  }

  /** The pending calls after the blocks of one more assistant message. */
  function Await(pending: map<string, ToolCall>, cs: seq<ToolCall>): map<string, ToolCall> {
    if cs == [] then pending
    else Await(pending, cs[..|cs| - 1])[cs[|cs| - 1].id := cs[|cs| - 1]]
  }

  ghost function FillOne(f: Filled, m: Message): Filled {
    match m
    case Assistant(_, _, _, _, _, _, _, _) =>
      var g := Flush(f, m.timestamp);
      Filled(g.out + [Given(m)], Await(g.pending, Calls(m.content)), m.timestamp)
    case ToolResult(id, _, _, _, _) => Filled(f.out + [Given(m)], f.pending - {id}, m.timestamp)
    case User(_, _) => Filled(f.out + [Given(m)], f.pending, m.timestamp)
  }

  ghost function Fill(ms: seq<Message>): Filled {
    if ms == [] then Filled([], map[], 0) else FillOne(Fill(ms[..|ms| - 1]), ms[|ms| - 1])
  }

  /** The output of the second pass; `now` is the clock, used when no message has a timestamp. */
  ghost function FillAll(ms: seq<Message>, now: int): seq<Slot> {
    var f := Fill(ms);
    Flush(f, if f.last == 0 then now else f.last).out
  }

  function Messages(slots: seq<Slot>): seq<Message> {
    seq(|slots|, i requires 0 <= i < |slots| => slots[i].m)
  }

  lemma MessagesConcat(a: seq<Slot>, b: seq<Slot>)
    ensures Messages(a + b) == Messages(a) + Messages(b)
  {
  }

  /** The whole transform. */
  ghost function Transformed(ms: seq<Message>, target: Model, norm: Option<Normalizer>, now: int): seq<Message> {
    Messages(FillAll(Rewrite(ms, target, norm).out, now))
  }

  // ---- the code ----

  method TransformAssistantMessage(m: Message, target: Model, norm: Option<Normalizer>, ids: map<string, string>)
    returns (t: Option<Message>, ids': map<string, string>)
    requires m.Assistant?
    ensures t.Some? <==> Retained(m)
    ensures t.Some? ==> t.value == Rewritten(m, ids, target, norm)
    ensures ids' == if Retained(m) then Renames(ids, m.content, m, target, norm) else ids
  {
    if m.stop == Error || m.stop == Aborted {
      return None, ids;
    }
    ids' := ids;
    var same := m.provider == target.provider && m.api == target.api && m.model == target.id;
    var content: seq<Block> := [];
    for i := 0 to |m.content|
      invariant content == NewContent(m.content[..i], m, target, norm)
      invariant ids' == Renames(ids, m.content[..i], m, target, norm)
    {
      var b := m.content[i];
      assert m.content[..i + 1][..i] == m.content[..i];
      match b
      case Text(text, _) =>
        content := content + [if same then b else Text(text, "")];
      case Thinking(thinking, _, redacted) =>
        if same {
          content := content + [b];
        } else if redacted {
        } else if thinking != "" {
          content := content + [Text(thinking, "")];
        }
      case Image(_, _) =>
      case Call(c) =>
        var tc := ToolCall(c.id, c.name, c.args, if same then c.thoughtSignature else "");
        if norm.Some? && !same {
          var newId := norm.value(c.id, target, m);
          if newId != c.id {
            ids' := ids'[c.id := newId];
            tc := tc.(id := newId);
          }
        }
        content := content + [Call(tc)];
    }
    assert m.content[..|m.content|] == m.content;
    t := Some(Assistant(content, m.api, m.provider, m.model, m.usage, m.stop, "", m.timestamp));
  }

  method InsertSyntheticToolResults(ms: seq<Message>, now: int) returns (result: seq<Message>)
    ensures result == Messages(FillAll(ms, now))
  {
    result := [];
    var pending: map<string, ToolCall> := map[];
    var last := 0;
    for i := 0 to |ms|
      invariant result == Messages(Fill(ms[..i]).out)
      invariant pending == Fill(ms[..i]).pending
      invariant last == Fill(ms[..i]).last
    {
      assert ms[..i + 1][..i] == ms[..i];
      match ms[i]
      case Assistant(content, _, _, _, _, _, _, timestamp) =>
        result := FlushPending(result, pending, timestamp, Fill(ms[..i]));
        var calls := ExtractToolCalls(ms[i]);
        pending := AwaitCalls(calls);
        last := timestamp;
        result := result + [ms[i]];
      case ToolResult(callId, _, _, _, timestamp) =>
        pending := pending - {callId};
        last := timestamp;
        result := result + [ms[i]];
      case User(_, timestamp) =>
        last := timestamp;
        result := result + [ms[i]];
    }
    assert ms[..|ms|] == ms;
    if last == 0 {
      result := FlushPending(result, pending, now, Fill(ms));
    } else {
      result := FlushPending(result, pending, last, Fill(ms));
    }
  }

  method FlushPending(result: seq<Message>, pending: map<string, ToolCall>, timestamp: int, ghost f: Filled)
    returns (flushed: seq<Message>)
    requires result == Messages(f.out) && pending == f.pending
    ensures flushed == Messages(Flush(f, timestamp).out)
  {
    var ids := SortedKeys(pending.Keys);
    forall id { ListingHas(pending.Keys, id); }
    var made := SyntheticResults(ids, pending, timestamp);
    MessagesConcat(f.out, SyntheticAll(ids, pending, timestamp));
    flushed := result + made;
  }

  method SyntheticResults(ids: seq<string>, pending: map<string, ToolCall>, timestamp: int)
    returns (made: seq<Message>)
    requires forall id :: id in ids ==> id in pending
    ensures made == Messages(SyntheticAll(ids, pending, timestamp))
  {
    made := [];
    for i := 0 to |ids|
      invariant made == Messages(SyntheticAll(ids[..i], pending, timestamp))
    {
      assert ids[..i + 1][..i] == ids[..i];
      MessagesConcat(SyntheticAll(ids[..i], pending, timestamp), [Made(Synthetic(ids[i], pending[ids[i]], timestamp))]);
      made := made + [Synthetic(ids[i], pending[ids[i]], timestamp)];
    }
    assert ids[..|ids|] == ids;
  }

  method AwaitCalls(calls: seq<ToolCall>) returns (pending: map<string, ToolCall>)
    ensures pending == Await(map[], calls)
  {
    pending := map[];
    for i := 0 to |calls|
      invariant pending == Await(map[], calls[..i])
    {
      assert calls[..i + 1][..i] == calls[..i];
      pending := pending[calls[i].id := calls[i]];
    }
    assert calls[..|calls|] == calls;
  }

  method TransformMessages(ms: seq<Message>, target: Model, norm: Option<Normalizer>, now: int)
    returns (out: seq<Message>)
    ensures out == Transformed(ms, target, norm, now)
  {
    var ids: map<string, string> := map[];
    var transformed: seq<Message> := [];
    for i := 0 to |ms|
      invariant transformed == Rewrite(ms[..i], target, norm).out
      invariant ids == Rewrite(ms[..i], target, norm).ids
    {
      assert ms[..i + 1][..i] == ms[..i];
      match ms[i]
      case User(_, _) =>
        transformed := transformed + [ms[i]];
      case Assistant(_, _, _, _, _, _, _, _) =>
        var t, ids' := TransformAssistantMessage(ms[i], target, norm, ids);
        ids := ids';
        if t.Some? {
          transformed := transformed + [t.value];
        }
      case ToolResult(callId, _, _, _, _) =>
        transformed := transformed + [ms[i].(callId := if callId in ids then ids[callId] else callId)];
    }
    assert ms[..|ms|] == ms;
    out := InsertSyntheticToolResults(transformed, now);
  }
}
