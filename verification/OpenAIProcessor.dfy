/** The code that turns the chunks of a completion into events and a final message. */
module OpenAIProcessor {
  import opened Wrappers
  import opened Conversation
  import opened EventStreams
  import opened OpenAIStream
  import opened IntOrder

  method BlocksOf(calls: seq<ToolCall>) returns (blocks: seq<Block>)
    ensures blocks == CallBlocks(calls)
  {
    blocks := [];
    for i := 0 to |calls|
      invariant blocks == CallBlocks(calls[..i])
    {
      blocks := blocks + [Call(calls[i])];
      assert calls[..i + 1][..i] == calls[..i];
    }
    assert calls[..|calls|] == calls;
  }

  /** A choice is its texts, then its tool parts, then its finish reason. */
  lemma ChoiceInSteps(json: Json, s: Step, c: Choice, t: Step, u: Step)
    requires t == OnAtoms(json, s, TextAtoms(c.content) + ThinkingAtoms(c.reasoning))
    requires u == OnAtoms(json, t, PartAtoms(c.tools))
    ensures OnAtoms(json, s, ChoiceAtoms(c)) ==
            if u.Go? && c.finish.Some? then Go(u.acc.(stop := MapStopReason(c.finish.value)), u.sent) else u
  {
    var texts, parts, finish := TextAtoms(c.content) + ThinkingAtoms(c.reasoning), PartAtoms(c.tools), FinishAtoms(c.finish);
    OnAtomsAppends(json, s, texts, parts);
    OnAtomsAppends(json, s, texts + parts, finish);
    if u.Stopped? {
      StoppedStays(json, u, finish);
    } else if c.finish.Some? {
      OnAtomsSnoc(json, u, [], FinishAtom(c.finish.value));
      assert [] + [FinishAtom(c.finish.value)] == finish;
    }
  }

  class Accumulator {
    const model: Model
    const json: Json
    var contentBuf: string
    var reasoningBuf: string
    var toolStates: map<int, ToolState>
    var stopReason: StopReason
    var usage: int
    var started: bool
    var finalToolCalls: seq<ToolCall>

    function View(): Acc
      reads this
    {
      Acc(contentBuf, reasoningBuf, toolStates, stopReason, usage)
    }

    /** Where the work stands. */
    ghost function Now(es: EventStream): Step
      reads this, es
    {
      Go(View(), es.events)
    }

    /** The stream is open and has no result yet. */
    ghost predicate Live(es: EventStream)
      reads es
    {
      es.Valid() && !es.closed && !es.terminated
    }

    /** A call that returns err has come to s. */
    ghost predicate Reached(es: EventStream, s: Step, err: Option<StreamError>)
      reads this, es
    {
      Live(es) && es.events == s.sent && if s.Go? then err.None? && View() == s.acc else err == Some(s.error)
    }

    constructor (model: Model, json: Json)
      ensures View() == FRESH && !started && finalToolCalls == []
      ensures this.model == model && this.json == json
    {
      this.model, this.json := model, json;
      contentBuf, reasoningBuf, toolStates, stopReason, usage := "", "", map[], Stop, 0;
      started, finalToolCalls := false, [];
    }

    /** Sends the start event of a new index. */
    method OpenCall(es: EventStream, idx: int, tc: ToolPart)
      requires Live(es) && idx == ToolIndex(tc)
      modifies this`toolStates, es
      ensures Live(es) && View() == AfterOpen(old(View()), tc)
      ensures es.events == old(es.events) + OpenEvents(old(View()), tc)
    {
      if idx !in toolStates {
        toolStates := toolStates[idx := ToolState(tc.id, tc.name, "", [])];
        es.Send(ToolStart(idx, ToolCall(tc.id, tc.name, "", "")));
      }
    }

    /** Appends arguments to a call and relays them, unless the lexer rejects them. */
    method AppendDelta(es: EventStream, idx: int, arguments: string) returns (err: Option<StreamError>)
      requires Live(es) && idx in toolStates
      modifies this`toolStates, es
      ensures Live(es)
      ensures var next := AfterDelta(old(View()), idx, arguments);
              if json.feeds(next.tools[idx].fed)
              then err.None? && View() == next
                && es.events == old(es.events) + [ToolDelta(idx, arguments, PartialCall(json, next.tools[idx]))]
              else err == Some(BadDelta) && es.events == old(es.events)
    {
      var t := toolStates[idx];
      t := t.(raw := t.raw + arguments, fed := t.fed + [arguments]);
      toolStates := toolStates[idx := t];
      if !json.feeds(t.fed) {
        return Some(BadDelta);
      }
      var args := json.partial(t.fed);
      es.Send(ToolDelta(idx, arguments, if args.Some? then Some(ToolCall(t.id, t.name, args.value, "")) else None));
      err := None;
    }

    method ProcessToolCallDelta(es: EventStream, tc: ToolPart) returns (err: Option<StreamError>)
      requires Live(es)
      modifies this`toolStates, es
      ensures Reached(es, OnPart(json, old(View()), old(es.events), tc), err)
    {
      var idx := if tc.index.Some? then tc.index.value else 0;
      OpenCall(es, idx, tc);
      err := None;
      if tc.arguments != "" {
        err := AppendDelta(es, idx, tc.arguments);
      }
    }

    method ProcessToolCalls(es: EventStream, tools: seq<ToolPart>) returns (err: Option<StreamError>)
      requires Live(es)
      modifies this`toolStates, es
      ensures Reached(es, OnAtoms(json, old(Now(es)), PartAtoms(tools)), err)
    {
      ghost var s := Now(es);
      for i := 0 to |tools|
        invariant Reached(es, OnAtoms(json, s, PartAtoms(tools[..i])), None)
      {
        assert tools[..i + 1][..i] == tools[..i];
        OnAtomsSnoc(json, s, PartAtoms(tools[..i]), PartAtom(tools[i]));
        err := ProcessToolCallDelta(es, tools[i]);
        if err.Some? {
          PartsStop(json, s, tools, i + 1);
          return;
        }
      }
      assert tools[..|tools|] == tools;
      err := None;
    }

    /** The text and the reasoning of a choice. */
    method ProcessTexts(es: EventStream, c: Choice)
      requires Live(es)
      modifies this`contentBuf, this`reasoningBuf, es
      ensures Reached(es, OnAtoms(json, old(Now(es)), TextAtoms(c.content) + ThinkingAtoms(c.reasoning)), None)
    {
      ghost var s := Now(es);
      if c.content.Some? && c.content.value != "" {
        contentBuf := contentBuf + c.content.value;
        es.Send(TextDelta(c.content.value));
        OnAtomsSnoc(json, s, [], TextAtom(c.content.value));
      }
      ghost var t := Now(es);
      assert t == OnAtoms(json, s, TextAtoms(c.content));
      if c.reasoning.Some? && c.reasoning.value != "" {
        reasoningBuf := reasoningBuf + c.reasoning.value;
        es.Send(ThinkingDelta(c.reasoning.value));
        OnAtomsSnoc(json, t, [], ThinkingAtom(c.reasoning.value));
      }
      OnAtomsAppends(json, s, TextAtoms(c.content), ThinkingAtoms(c.reasoning));
    }

    method ProcessChoice(es: EventStream, c: Choice) returns (err: Option<StreamError>)
      requires Live(es)
      modifies this, es
      ensures started == old(started) && finalToolCalls == old(finalToolCalls)
      ensures Reached(es, OnAtoms(json, old(Now(es)), ChoiceAtoms(c)), err)
    {
      ghost var s := Now(es);
      ProcessTexts(es, c);
      ghost var t := Now(es);
      err := ProcessToolCalls(es, c.tools);
      ghost var u := OnAtoms(json, t, PartAtoms(c.tools));
      ChoiceInSteps(json, s, c, t, u);
      if err.Some? {
        return;
      }
      if c.finish.Some? {
        stopReason := MapStopReason(c.finish.value);
      }
    }

    method ProcessChoices(es: EventStream, choices: seq<Choice>) returns (err: Option<StreamError>)
      requires Live(es)
      modifies this, es
      ensures started == old(started) && finalToolCalls == old(finalToolCalls)
      ensures Reached(es, OnAtoms(json, old(Now(es)), ChoicesAtoms(choices)), err)
    {
      ghost var s := Now(es);
      for i := 0 to |choices|
        invariant started == old(started) && finalToolCalls == old(finalToolCalls)
        invariant Reached(es, OnAtoms(json, s, ChoicesAtoms(choices[..i])), None)
      {
        assert choices[..i + 1][..i] == choices[..i];
        OnAtomsAppends(json, s, ChoicesAtoms(choices[..i]), ChoiceAtoms(choices[i]));
        err := ProcessChoice(es, choices[i]);
        if err.Some? {
          ChoicesStop(json, s, choices, i + 1);
          return;
        }
      }
      assert choices[..|choices|] == choices;
      err := None;
    }

    /** The first chunk also announces the message. */
    method ProcessChunk(es: EventStream, chunk: Chunk) returns (err: Option<StreamError>)
      requires Live(es)
      modifies this, es
      ensures started && finalToolCalls == old(finalToolCalls)
      ensures Reached(es, OnAtoms(json, old(if started then Now(es) else Go(View(), es.events + [Start])), ChunkAtoms(chunk)), err)
    {
      if !started {
        started := true;
        es.Send(Start);
      }
      ghost var s := Now(es);
      ghost var head := if chunk.usage.Some? then [UsageAtom(chunk.usage.value)] else [];
      if chunk.usage.Some? {
        usage := chunk.usage.value;
        OnAtomsSnoc(json, s, [], UsageAtom(chunk.usage.value));
      }
      OnAtomsAppends(json, s, head, ChoicesAtoms(chunk.choices));
      err := ProcessChoices(es, chunk.choices);
    }

    /** Ends one call. */
    method EndCall(es: EventStream, idx: int) returns (err: Option<StreamError>)
      requires Live(es) && idx in toolStates
      modifies this`finalToolCalls, es
      ensures Live(es)
      ensures var t := toolStates[idx];
              var args := FinalArgs(json, t.raw);
              if args.None? then err == Some(BadArguments(t.name, idx)) && es.events == old(es.events)
              else var call := ToolCall(t.id, t.name, args.value, "");
                   err.None? && es.events == old(es.events) + [ToolEnd(idx, call)]
                   && finalToolCalls == old(finalToolCalls) + [call]
    {
      var state := toolStates[idx];
      var args := FinalArgs(json, state.raw);
      if args.None? {
        return Some(BadArguments(state.name, idx));
      }
      var tc := ToolCall(state.id, state.name, args.value, "");
      finalToolCalls := finalToolCalls + [tc];
      es.Send(ToolEnd(idx, tc));
      err := None;
    }

    /** Ends the calls in the order of their indices. */
    method FinalizeToolCalls(es: EventStream) returns (err: Option<StreamError>, indices: seq<int>)
      requires Live(es) && finalToolCalls == []
      modifies this`finalToolCalls, es
      ensures Lists(View(), indices) && Reached(es, OnEnds(json, View(), old(es.events), indices), err)
      ensures err.None? ==> finalToolCalls == FinalCalls(json, View(), indices)
    {
      ghost var before, acc := es.events, View();
      indices := SortedInts(toolStates.Keys);
      for k := 0 to |indices|
        invariant Reached(es, OnEnds(json, acc, before, indices[..k]), None)
        invariant finalToolCalls == FinalCalls(json, acc, indices[..k])
      {
        assert indices[..k + 1][..k] == indices[..k];
        err := EndCall(es, indices[k]);
        if err.Some? {
          EndsStop(json, acc, before, indices, k + 1);
          return;
        }
      }
      assert indices[..|indices|] == indices;
      err := None;
    }

    /** Ends the stream with the final message, unless some arguments do not parse. */
    method FinishStream(es: EventStream, now: int) returns (err: Option<StreamError>, indices: seq<int>)
      requires Live(es) && finalToolCalls == []
      modifies this`finalToolCalls, es
      ensures Lists(View(), indices)
      ensures var s := OnEnds(json, View(), old(es.events), indices);
              if s.Stopped? then Live(es) && err == Some(s.error)
              else err.None? && es.Valid() && !es.closed && Finished(es, s.sent, FinalMessage(model, View(), FinalCalls(json, View(), indices), now))
    {
      err, indices := FinalizeToolCalls(es);
      if err.Some? {
        return;
      }
      var content := [];
      if |reasoningBuf| > 0 {
        content := content + [Thinking(reasoningBuf, "", false)];
      }
      if |contentBuf| > 0 {
        content := content + [Text(contentBuf, "")];
      }
      assert content == ThinkingBlocks(reasoningBuf) + TextBlocks(contentBuf);
      var calls := BlocksOf(finalToolCalls);
      content := content + calls;
      var m := Assistant(content, model.api, model.provider, model.id, usage, stopReason, "", now);
      es.Send(Done(Some(m)));
    }
  }

  /** The stream has ended with the message m after these events, and m is its result. */
  ghost predicate Finished(es: EventStream, body: seq<StreamEvent>, m: Message)
    reads es
  {
    es.events == body + [Done(Some(m))] && es.published == es.result == [Outcome(m, None)]
  }

  /** Nothing went wrong on the way to the end of the input: no cancellation was seen, no chunk
      was malformed, and the underlying scanner did not fail. */
  predicate Undisturbed(ws: seq<Wire>, cancelled: nat -> bool, scanFails: bool) {
    var n := Accepted(ws);
    && (forall i :: 0 <= i < n ==> !ws[i].Malformed?)
    && (forall i :: 0 <= i < |ws| && i <= n ==> !cancelled(i))
    && (n == |ws| ==> !scanFails)
  }

  /** The input is undisturbed, every delta is accepted and all final arguments parse. */
  ghost predicate Accepts(json: Json, ws: seq<Wire>, cancelled: nat -> bool, scanFails: bool, indices: seq<int>) {
    var s := OnWires(json, ws[..Accepted(ws)]);
    && Undisturbed(ws, cancelled, scanFails)
    && s.Go? && Lists(s.acc, indices) && OnEnds(json, s.acc, s.sent, indices).Go?
  }

  /** The work on these wire events is done. */
  ghost predicate Caught(acc: Accumulator, es: EventStream, ws: seq<Wire>)
    reads acc, es
  {
    && acc.Live(es) && acc.finalToolCalls == [] && acc.started == HasData(ws)
    && OnWires(acc.json, ws) == acc.Now(es)
  }

  /** Handles one wire event that does not end the input. */
  method ReadChunk(acc: Accumulator, es: EventStream, ghost before: seq<Wire>, w: Wire) returns (err: Option<StreamError>)
    requires Caught(acc, es, before) && (w.Blank? || w.Data?)
    modifies acc, es
    ensures acc.Live(es) && acc.finalToolCalls == []
    ensures if err.None? then Caught(acc, es, before + [w]) else OnWires(acc.json, before + [w]) == Stopped(err.value, es.events)
  {
    if w.Blank? {
      BlankChangesNothing(acc.json, before);
      return None;
    }
    OnWiresSnoc(acc.json, before, w);
    assert (before + [w])[..|before|] == before;
    if !acc.started {
      Unstarted(acc.json, before);
      assert es.events + [Start] == [Start];
    }
    err := acc.ProcessChunk(es, w.chunk);
  }

  /** The first n wire events were read, and none of them was a reason to end. */
  predicate Passed(ws: seq<Wire>, cancelled: nat -> bool, n: nat) {
    n <= |ws| && forall i :: 0 <= i < n ==> !ws[i].Malformed? && !ws[i].DoneMark? && !cancelled(i)
  }

  /** Behind the first n wire events the input is over. */
  predicate Over(ws: seq<Wire>, cancelled: nat -> bool, scanFails: bool, n: nat)
    requires n <= |ws|
  {
    if n < |ws| then ws[n].DoneMark? && !cancelled(n) else !scanFails
  }

  /** Behind the first n wire events something is wrong. */
  predicate Broken(ws: seq<Wire>, cancelled: nat -> bool, scanFails: bool, n: nat)
    requires n <= |ws|
  {
    if n < |ws| then cancelled(n) || ws[n].Malformed? else scanFails
  }

  lemma {:induction false} PassedIsAccepted(ws: seq<Wire>, cancelled: nat -> bool, n: nat)
    requires Passed(ws, cancelled, n)
    ensures n <= Accepted(ws)
    ensures n < |ws| && ws[n].DoneMark? ==> n == Accepted(ws)
  {
    var end := Accepted(ws);
    assert end < |ws| ==> ws[end].DoneMark?;
  }

  /** The input can be handled to its end. */
  ghost predicate Acceptable(json: Json, ws: seq<Wire>, cancelled: nat -> bool, scanFails: bool) {
    exists indices :: Accepts(json, ws, cancelled, scanFails, indices)
  }

  /** Only the increasing list of the indices in use counts, so one list decides. */
  lemma OneListDecides(json: Json, ws: seq<Wire>, cancelled: nat -> bool, scanFails: bool, indices: seq<int>)
    requires var s := OnWires(json, ws[..Accepted(ws)]); s.Go? && Lists(s.acc, indices)
    ensures Acceptable(json, ws, cancelled, scanFails) <==> Accepts(json, ws, cancelled, scanFails, indices)
  {
    forall other | Accepts(json, ws, cancelled, scanFails, other)
      ensures other == indices
    {
      IncreasingIsUnique(other, indices);
    }
  }

  /** What is wrong with wire event n, or with the end of the input, if all is well before. */
  ghost function ErrorAt(json: Json, ws: seq<Wire>, cancelled: nat -> bool, scanFails: bool, n: nat): Option<StreamError> {
    if n >= |ws| then if scanFails then Some(ScanFailed) else None
    else if cancelled(n) then Some(Canceled)
    else if ws[n].DoneMark? then None
    else if ws[n].Malformed? then Some(BadChunk)
    else if OnWires(json, ws[..n + 1]).Stopped? then Some(OnWires(json, ws[..n + 1]).error)
    else None
  }

  /** The first error between two places. */
  function FirstOf(at: nat -> Option<StreamError>, n: nat, end: nat): Option<StreamError>
    requires n <= end
    decreases end - n
  {
    if at(n).Some? || n == end then at(n) else FirstOf(at, n + 1, end)
  }

  /** It is the error at the first place that has one, and there is none if no place has one. */
  lemma {:induction false} FirstOfMeans(at: nat -> Option<StreamError>, n: nat, end: nat)
    requires n <= end
    ensures var err := FirstOf(at, n, end);
            if err.None? then forall i :: n <= i <= end ==> at(i).None?
            else exists k :: n <= k <= end && at(k) == err && forall i :: n <= i < k ==> at(i).None?
    decreases end - n
  {
    if at(n).None? && n < end {
      FirstOfMeans(at, n + 1, end);
    }
  }

  /** The first thing that is wrong from wire event n up to the done mark. */
  ghost function FirstError(json: Json, ws: seq<Wire>, cancelled: nat -> bool, scanFails: bool, n: nat): Option<StreamError>
    requires n <= Accepted(ws)
  {
    FirstOf((i: nat) => ErrorAt(json, ws, cancelled, scanFails, i), n, Accepted(ws))
  }

  /** What ends the reading at wire event n. */
  lemma ErrorHere(json: Json, ws: seq<Wire>, cancelled: nat -> bool, scanFails: bool, n: nat)
    requires Passed(ws, cancelled, n)
    ensures n <= Accepted(ws)
    ensures var err := FirstError(json, ws, cancelled, scanFails, n);
            if n == |ws| then err == if scanFails then Some(ScanFailed) else None
            else if cancelled(n) then err == Some(Canceled)
            else if ws[n].DoneMark? then err == None
            else ws[n].Malformed? ==> err == Some(BadChunk)
  {
    PassedIsAccepted(ws, cancelled, n);
  }

  /** What one more wire event makes of it. */
  lemma ErrorStep(json: Json, ws: seq<Wire>, cancelled: nat -> bool, scanFails: bool, n: nat, before: seq<Wire>)
    requires n < |ws| && before == ws[..n] && Passed(ws, cancelled, n + 1)
    ensures before + [ws[n]] == ws[..n + 1] && n < Accepted(ws)
    ensures var s := OnWires(json, before + [ws[n]]);
            FirstError(json, ws, cancelled, scanFails, n) ==
            if s.Stopped? then Some(s.error) else FirstError(json, ws, cancelled, scanFails, n + 1)
  {
    PassedIsAccepted(ws, cancelled, n + 1);
    StopAt(json, ws, cancelled, scanFails, n, before);
  }

  lemma StopAt(json: Json, ws: seq<Wire>, cancelled: nat -> bool, scanFails: bool, n: nat, before: seq<Wire>)
    requires n < |ws| && before == ws[..n] && Passed(ws, cancelled, n + 1)
    ensures before + [ws[n]] == ws[..n + 1]
    ensures var s := OnWires(json, before + [ws[n]]);
            ErrorAt(json, ws, cancelled, scanFails, n) == if s.Stopped? then Some(s.error) else None
  {
    assert before + [ws[n]] == ws[..n + 1];
  }

  /** Reads the input up to the done mark. */
  method ReadChunks(acc: Accumulator, es: EventStream, ws: seq<Wire>, cancelled: nat -> bool, scanFails: bool)
    returns (err: Option<StreamError>, n: nat)
    requires Caught(acc, es, [])
    modifies acc, es
    ensures acc.Live(es) && acc.finalToolCalls == [] && Passed(ws, cancelled, n)
    ensures err.None? ==> Over(ws, cancelled, scanFails, n) && Caught(acc, es, ws[..n])
    ensures err.Some? ==> Broken(ws, cancelled, scanFails, n) || OnWires(acc.json, ws[..n]).Stopped?
    ensures err == FirstError(acc.json, ws, cancelled, scanFails, 0)
  {
    n := 0;
    ghost var before: seq<Wire> := [];
    ghost var first := FirstError(acc.json, ws, cancelled, scanFails, 0);
    while n < |ws|
      invariant Passed(ws, cancelled, n) && before == ws[..n] && n <= Accepted(ws)
      invariant Caught(acc, es, before) && FirstError(acc.json, ws, cancelled, scanFails, n) == first
    {
      ErrorHere(acc.json, ws, cancelled, scanFails, n);
      if cancelled(n) {
        return Some(Canceled), n;
      }
      if ws[n].DoneMark? {
        return None, n;
      }
      if ws[n].Malformed? {
        return Some(BadChunk), n;
      }
      ErrorStep(acc.json, ws, cancelled, scanFails, n, before);
      err := ReadChunk(acc, es, before, ws[n]);
      before := before + [ws[n]];
      n := n + 1;
      if err.Some? {
        return;
      }
    }
    ErrorHere(acc.json, ws, cancelled, scanFails, n);
    err := if scanFails then Some(ScanFailed) else None;
  }

  /** Reading ends without an error exactly when the input is undisturbed and can be handled. */
  lemma ReadMeans(json: Json, ws: seq<Wire>, cancelled: nat -> bool, scanFails: bool, n: nat)
    requires Passed(ws, cancelled, n)
    ensures Over(ws, cancelled, scanFails, n) ==> n == Accepted(ws) && Undisturbed(ws, cancelled, scanFails)
    ensures Broken(ws, cancelled, scanFails, n) ==> !Undisturbed(ws, cancelled, scanFails)
    ensures OnWires(json, ws[..n]).Stopped? ==> OnWires(json, ws[..Accepted(ws)]).Stopped?
  {
    PassedIsAccepted(ws, cancelled, n);
    if OnWires(json, ws[..n]).Stopped? {
      StopsAt(json, ws, n);
    }
  }

  lemma BlankChangesNothing(json: Json, ws: seq<Wire>)
    ensures OnWires(json, ws + [Blank]) == OnWires(json, ws) && HasData(ws + [Blank]) == HasData(ws)
  {
    OnWiresSnoc(json, ws, Blank);
    assert (ws + [Blank])[..|ws|] == ws;
  }

  lemma Unstarted(json: Json, ws: seq<Wire>)
    requires !HasData(ws)
    ensures OnWires(json, ws) == Begin(false)
  {
    NoAtoms(ws);
  }

  lemma StopsAt(json: Json, ws: seq<Wire>, k: nat)
    requires k <= Accepted(ws) && OnWires(json, ws[..k]).Stopped?
    ensures OnWires(json, ws[..Accepted(ws)]).Stopped?
  {
    assert ws[..Accepted(ws)][..k] == ws[..k];
    WiresStop(json, ws[..Accepted(ws)], k);
  }

  /** What is wrong with the arguments of the calls, once the input was read. */
  ghost function EndError(json: Json, ws: seq<Wire>, indices: seq<int>): Option<StreamError>
    requires OnWires(json, ws).Go? && Lists(OnWires(json, ws).acc, indices)
  {
    var s := OnWires(json, ws);
    var end := OnEnds(json, s.acc, s.sent, indices);
    if end.Stopped? then Some(end.error) else None
  }

  /** The error that an input ends in: the first one met in reading it, or else the first call in
      the order of the indices whose arguments do not parse. */
  ghost predicate EndsWith(json: Json, ws: seq<Wire>, cancelled: nat -> bool, scanFails: bool, indices: seq<int>,
                           err: Option<StreamError>) {
    var read, s := FirstError(json, ws, cancelled, scanFails, 0), OnWires(json, ws[..Accepted(ws)]);
    if read.Some? then err == read
    else s.Go? && Lists(s.acc, indices) && err == EndError(json, ws[..Accepted(ws)], indices)
  }

  /** For every input: it is accepted or the stream has no result; and if it is accepted, the one
      result is the final message, which is faithful to the events and echoes the input. */
  method ProcessStream(json: Json, model: Model, ws: seq<Wire>, cancelled: nat -> bool, scanFails: bool,
                       es: EventStream, now: int)
    returns (err: Option<StreamError>, ghost indices: seq<int>)
    requires es.Valid() && !es.closed && !es.terminated && es.events == []
    modifies es
    ensures err.None? <==> Acceptable(json, ws, cancelled, scanFails)
    ensures err.None? ==> Accepts(json, ws, cancelled, scanFails, indices)
    ensures EndsWith(json, ws, cancelled, scanFails, indices, err)
    ensures es.Valid() && !es.closed && (err.Some? ==> !es.terminated)
    ensures err.None? ==> Complete(json, model, ws[..Accepted(ws)], es, indices, now)
  {
    var acc := new Accumulator(model, json);
    var n;
    err, n := ReadChunks(acc, es, ws, cancelled, scanFails);
    ReadMeans(json, ws, cancelled, scanFails, n);
    indices := [];
    if err.Some? {
      return;
    }
    err, indices := acc.FinishStream(es, now);
    OneListDecides(json, ws, cancelled, scanFails, indices);
    if err.None? {
      MessageIsFaithful(json, model, ws[..Accepted(ws)], indices, now);
    }
  }

  /** The stream ended with a message that is faithful to the events before it and echoes the input. */
  ghost predicate Complete(json: Json, model: Model, ws: seq<Wire>, es: EventStream, indices: seq<int>, now: int)
    requires OnWires(json, ws).Go? && Lists(OnWires(json, ws).acc, indices)
    reads es
  {
    var s := OnWires(json, ws);
    var calls := FinalCalls(json, s.acc, indices);
    var m := FinalMessage(model, s.acc, calls, now);
    var body := OnEnds(json, s.acc, s.sent, indices).sent;
    Finished(es, body, m) && Faithful(json, m, body, indices, calls) && Echoes(m, body, Atoms(ws))
  }

  /** The whole stream: whatever happens, exactly one result is published, and it is a message
      without a failure exactly when nothing went wrong. */
  method RunStream(json: Json, model: Model, provider: string, requestError: Option<StreamError>, ws: seq<Wire>,
                   cancelled: nat -> bool, scanFails: bool, errorText: StreamError -> string, now: int)
    returns (es: EventStream, err: Option<StreamError>, ghost indices: seq<int>)
    ensures es.Valid() && es.closed && |es.published| == 1 && es.result == es.published
    ensures es.published[0].failure.None? <==> err.None?
    ensures err.Some? ==>
              es.published[0] == Outcome(ErrorMessage(model.(provider := provider), errorText(err.value), now),
                                         Some(ProviderFailure(errorText(err.value))))
    ensures if requestError.Some? then err == requestError else EndsWith(json, ws, cancelled, scanFails, indices, err)
    ensures err.None? <==> requestError.None? && Acceptable(json, ws, cancelled, scanFails)
    ensures err.None? ==> Accepts(json, ws, cancelled, scanFails, indices)
    ensures err.None? ==> Complete(json, model, ws[..Accepted(ws)], es, indices, now)
  {
    es := new EventStream();
    err, indices := requestError, [];
    if err.None? {
      err, indices := ProcessStream(json, model, ws, cancelled, scanFails, es, now);
    }
    if err.Some? {
      es.Send(Failed(Some(ErrorMessage(model.(provider := provider), errorText(err.value), now))));
    }
    es.Close(now);
  }
}
