/** How the chunks of a streamed completion add up: what is sent on while they come in, and what
    the final message says. JSON parsing is a parameter. */
module OpenAIStream {
  import opened Wrappers
  import opened Conversation
  import opened EventStreams
  import opened IntOrder

  // ---- what comes in ----

  datatype ToolPart = ToolPart(index: Option<int>, id: string, name: string, arguments: string)

  datatype Choice = Choice(content: Option<string>, reasoning: Option<string>, tools: seq<ToolPart>, finish: Option<string>)

  datatype Chunk = Chunk(usage: Option<int>, choices: seq<Choice>)

  /** One event of the underlying stream, as its data read. */
  datatype Wire = Blank | DoneMark | Malformed | Data(chunk: Chunk)

  datatype Parsed = Unparsable | Null | Object(args: string)

  /** The JSON code: whether the incremental lexer takes a chunk after those before it, the
      arguments it makes of them so far, whether a text is blank, and the final parse. */
  datatype Json = Json(
    feeds: seq<string> -> bool,
    partial: seq<string> -> Option<string>,
    blank: string -> bool,
    parse: string -> Parsed)

  const NO_ARGS: string := "{}"

  /** The arguments a complete text stands for; blank text and null stand for none. */
  function FinalArgs(json: Json, raw: string): Option<string> {
    if json.blank(raw) then Some(NO_ARGS)
    else
      match json.parse(raw)
      case Unparsable => None
      case Null => Some(NO_ARGS)
      case Object(args) => Some(args)
  }

  function MapStopReason(reason: string): StopReason {
    if reason == "tool_calls" then ToolUse else if reason == "length" then Length else Stop
  }

  function ToolIndex(p: ToolPart): int {
    if p.index.Some? then p.index.value else 0
  }

  datatype StreamError = Canceled | BadChunk | ScanFailed | BadDelta | BadArguments(name: string, index: int)

  /** The same input, taken apart into its smallest pieces in the order they are handled. */
  datatype Atom =
    | TextAtom(text: string)
    | ThinkingAtom(text: string)
    | PartAtom(part: ToolPart)
    | FinishAtom(reason: string)
    | UsageAtom(usage: int)

  function PartAtoms(ps: seq<ToolPart>): seq<Atom> {
    if ps == [] then [] else PartAtoms(ps[..|ps| - 1]) + [PartAtom(ps[|ps| - 1])]
  }

  function TextAtoms(s: Option<string>): seq<Atom> {
    if s.Some? && s.value != "" then [TextAtom(s.value)] else []
  }

  function ThinkingAtoms(s: Option<string>): seq<Atom> {
    if s.Some? && s.value != "" then [ThinkingAtom(s.value)] else []
  }

  function FinishAtoms(s: Option<string>): seq<Atom> {
    if s.Some? then [FinishAtom(s.value)] else []
  }

  function ChoiceAtoms(c: Choice): seq<Atom> {
    TextAtoms(c.content) + ThinkingAtoms(c.reasoning) + PartAtoms(c.tools) + FinishAtoms(c.finish)
  }

  function ChoicesAtoms(cs: seq<Choice>): seq<Atom> {
    if cs == [] then [] else ChoicesAtoms(cs[..|cs| - 1]) + ChoiceAtoms(cs[|cs| - 1])
  }

  function ChunkAtoms(c: Chunk): seq<Atom> {
    (if c.usage.Some? then [UsageAtom(c.usage.value)] else []) + ChoicesAtoms(c.choices)
  }

  function Atoms(ws: seq<Wire>): seq<Atom> {
    if ws == [] then []
    else
      var last := ws[|ws| - 1];
      Atoms(ws[..|ws| - 1]) + if last.Data? then ChunkAtoms(last.chunk) else []
  }

  // ---- strands of text ----

  /** The texts that deltas build up. */
  datatype Strand = Answer | Reasoning | ArgumentsOf(index: int)

  function AtomText(v: Strand, a: Atom): string {
    match a
    case TextAtom(s) => if v.Answer? then s else ""
    case ThinkingAtom(s) => if v.Reasoning? then s else ""
    case PartAtom(p) => if v == ArgumentsOf(ToolIndex(p)) then p.arguments else ""
    case _ => ""
  }

  function EventText(v: Strand, e: StreamEvent): string {
    match e
    case TextDelta(s) => if v.Answer? then s else ""
    case ThinkingDelta(s) => if v.Reasoning? then s else ""
    case ToolDelta(i, s, _) => if v == ArgumentsOf(i) then s else ""
    case _ => ""
  }

  /** What the input says on a strand. */
  function Said(v: Strand, atoms: seq<Atom>): string {
    if atoms == [] then "" else Said(v, atoms[..|atoms| - 1]) + AtomText(v, atoms[|atoms| - 1])
  }

  /** What the deltas sent so far say on a strand. */
  function Sent(v: Strand, events: seq<StreamEvent>): string {
    if events == [] then "" else Sent(v, events[..|events| - 1]) + EventText(v, events[|events| - 1])
  }

  /** The tool call that the first part with this index opens. */
  function Opened(i: int, atoms: seq<Atom>): seq<ToolCall> {
    if atoms == [] then []
    else
      var before, last := Opened(i, atoms[..|atoms| - 1]), atoms[|atoms| - 1];
      if before == [] && last.PartAtom? && ToolIndex(last.part) == i
      then [ToolCall(last.part.id, last.part.name, "", "")] else before
  }

  /** The start events and the end events for an index. */
  function Starts(i: int, events: seq<StreamEvent>): seq<ToolCall> {
    if events == [] then []
    else
      var last := events[|events| - 1];
      Starts(i, events[..|events| - 1]) + if last.ToolStart? && last.index == i then [last.call] else []
  }

  function Ends(i: int, events: seq<StreamEvent>): seq<ToolCall> {
    if events == [] then []
    else
      var last := events[|events| - 1];
      Ends(i, events[..|events| - 1]) + if last.ToolEnd? && last.index == i then [last.call] else []
  }

  function LastFinish(atoms: seq<Atom>): StopReason {
    if atoms == [] then Stop
    else
      var last := atoms[|atoms| - 1];
      if last.FinishAtom? then MapStopReason(last.reason) else LastFinish(atoms[..|atoms| - 1])
  }

  function LastUsage(atoms: seq<Atom>): int {
    if atoms == [] then 0
    else
      var last := atoms[|atoms| - 1];
      if last.UsageAtom? then last.usage else LastUsage(atoms[..|atoms| - 1])
  }

  // ---- one more ----

  /** What one more atom changes. */
  lemma AtomSnoc(atoms: seq<Atom>, a: Atom)
    ensures forall v :: Said(v, atoms + [a]) == Said(v, atoms) + AtomText(v, a)
    ensures forall i :: Opened(i, atoms + [a])
                     == if Opened(i, atoms) == [] && a.PartAtom? && ToolIndex(a.part) == i
                        then [ToolCall(a.part.id, a.part.name, "", "")] else Opened(i, atoms)
    ensures LastFinish(atoms + [a]) == if a.FinishAtom? then MapStopReason(a.reason) else LastFinish(atoms)
    ensures LastUsage(atoms + [a]) == if a.UsageAtom? then a.usage else LastUsage(atoms)
  {
    assert (atoms + [a])[..|atoms|] == atoms;
  }

  /** What one more event changes. */
  lemma EventSnoc(events: seq<StreamEvent>, e: StreamEvent)
    ensures forall v :: Sent(v, events + [e]) == Sent(v, events) + EventText(v, e)
    ensures forall i :: Starts(i, events + [e])
                     == Starts(i, events) + if e.ToolStart? && e.index == i then [e.call] else []
    ensures forall i :: Ends(i, events + [e])
                     == Ends(i, events) + if e.ToolEnd? && e.index == i then [e.call] else []
  {
    assert (events + [e])[..|events|] == events;
  }

  // ---- the accumulator against what was sent and what came in ----

  datatype ToolState = ToolState(id: string, name: string, raw: string, fed: seq<string>)

  /** The accumulator's fields. */
  datatype Acc = Acc(content: string, reasoning: string, tools: map<int, ToolState>, stop: StopReason, usage: int)

  const FRESH := Acc("", "", map[], Stop, 0)

  /** The accumulated tool call of one index is what was sent for it. */
  ghost predicate ToolTidy(tools: map<int, ToolState>, events: seq<StreamEvent>, i: int) {
    if i in tools then
      && Starts(i, events) == [ToolCall(tools[i].id, tools[i].name, "", "")]
      && Sent(ArgumentsOf(i), events) == tools[i].raw
    else
      Starts(i, events) == [] && Sent(ArgumentsOf(i), events) == ""
  }

  /** The accumulator holds what was sent, and no call has ended yet. */
  ghost predicate Tidy(acc: Acc, events: seq<StreamEvent>) {
    && Sent(Answer, events) == acc.content
    && Sent(Reasoning, events) == acc.reasoning
    && forall i :: ToolTidy(acc.tools, events, i) && Ends(i, events) == []
  }

  /** What was sent is what came in. */
  ghost predicate Relayed(acc: Acc, events: seq<StreamEvent>, atoms: seq<Atom>) {
    && (forall v :: Sent(v, events) == Said(v, atoms))
    && (forall i :: Starts(i, events) == Opened(i, atoms))
    && acc.stop == LastFinish(atoms) && acc.usage == LastUsage(atoms)
  }

  ghost predicate Good(acc: Acc, events: seq<StreamEvent>, atoms: seq<Atom>) {
    Tidy(acc, events) && Relayed(acc, events, atoms)
  }

  lemma TextKeeps(acc: Acc, events: seq<StreamEvent>, atoms: seq<Atom>, s: string)
    requires Good(acc, events, atoms)
    ensures Good(acc.(content := acc.content + s), events + [TextDelta(s)], atoms + [TextAtom(s)])
  {
    Still(acc, events, TextDelta(s));
    SameText(events, atoms, TextDelta(s), TextAtom(s));
    assert EventText(Answer, TextDelta(s)) == s && EventText(Reasoning, TextDelta(s)) == "";
  }

  lemma ThinkingKeeps(acc: Acc, events: seq<StreamEvent>, atoms: seq<Atom>, s: string)
    requires Good(acc, events, atoms)
    ensures Good(acc.(reasoning := acc.reasoning + s), events + [ThinkingDelta(s)], atoms + [ThinkingAtom(s)])
  {
    Still(acc, events, ThinkingDelta(s));
    SameText(events, atoms, ThinkingDelta(s), ThinkingAtom(s));
    assert EventText(Answer, ThinkingDelta(s)) == "" && EventText(Reasoning, ThinkingDelta(s)) == s;
  }

  /** A delta that says what its atom says keeps both sides equal. */
  lemma SameText(events: seq<StreamEvent>, atoms: seq<Atom>, e: StreamEvent, a: Atom)
    requires forall v :: Sent(v, events) == Said(v, atoms)
    requires forall i :: Starts(i, events) == Opened(i, atoms)
    requires forall v :: EventText(v, e) == AtomText(v, a)
    requires (e.TextDelta? && a.TextAtom?) || (e.ThinkingDelta? && a.ThinkingAtom?)
    ensures forall v :: Sent(v, events + [e]) == Said(v, atoms + [a])
    ensures forall i :: Starts(i, events + [e]) == Opened(i, atoms + [a])
    ensures forall v :: Sent(v, events + [e]) == Sent(v, events) + EventText(v, e)
    ensures LastFinish(atoms + [a]) == LastFinish(atoms) && LastUsage(atoms + [a]) == LastUsage(atoms)
  {
    AtomSnoc(atoms, a);
    EventSnoc(events, e);
    forall v ensures Sent(v, events + [e]) == Said(v, atoms + [a]) {
      assert Sent(v, events) == Said(v, atoms);
    }
    forall i ensures Starts(i, events + [e]) == Opened(i, atoms + [a]) {
      assert Starts(i, events) == Opened(i, atoms);
    }
  }

  /** An event that is not about tools leaves the tool calls as they are. */
  lemma Still(acc: Acc, events: seq<StreamEvent>, e: StreamEvent)
    requires Tidy(acc, events) && !e.ToolStart? && !e.ToolDelta? && !e.ToolEnd?
    ensures forall i :: ToolTidy(acc.tools, events + [e], i) && Ends(i, events + [e]) == []
  {
    EventSnoc(events, e);
    forall i ensures ToolTidy(acc.tools, events + [e], i) && Ends(i, events + [e]) == [] {
      assert ToolTidy(acc.tools, events, i) && Ends(i, events) == [];
      assert Sent(ArgumentsOf(i), events + [e]) == Sent(ArgumentsOf(i), events) + EventText(ArgumentsOf(i), e);
    }
  }

  lemma FinishKeeps(acc: Acc, events: seq<StreamEvent>, atoms: seq<Atom>, reason: string)
    requires Good(acc, events, atoms)
    ensures Good(acc.(stop := MapStopReason(reason)), events, atoms + [FinishAtom(reason)])
  {
    AtomSnoc(atoms, FinishAtom(reason));
  }

  lemma UsageKeeps(acc: Acc, events: seq<StreamEvent>, atoms: seq<Atom>, usage: int)
    requires Good(acc, events, atoms)
    ensures Good(acc.(usage := usage), events, atoms + [UsageAtom(usage)])
  {
    AtomSnoc(atoms, UsageAtom(usage));
  }

  lemma StartKeeps(acc: Acc, events: seq<StreamEvent>, atoms: seq<Atom>)
    requires Good(acc, events, atoms)
    ensures Good(acc, events + [Start], atoms)
  {
    EventSnoc(events, Start);
    Still(acc, events, Start);
  }

  // ---- tool parts ----

  /** The accumulator and the events after a part's start event, if it needs one. */
  function AfterOpen(acc: Acc, p: ToolPart): Acc {
    if ToolIndex(p) in acc.tools then acc
    else acc.(tools := acc.tools[ToolIndex(p) := ToolState(p.id, p.name, "", [])])
  }

  function OpenEvents(acc: Acc, p: ToolPart): seq<StreamEvent> {
    if ToolIndex(p) in acc.tools then [] else [ToolStart(ToolIndex(p), ToolCall(p.id, p.name, "", ""))]
  }

  lemma OpenKeepsTidy(acc: Acc, events: seq<StreamEvent>, p: ToolPart)
    requires Tidy(acc, events)
    ensures Tidy(AfterOpen(acc, p), events + OpenEvents(acc, p))
    ensures forall v :: Sent(v, events + OpenEvents(acc, p)) == Sent(v, events)
  {
    var i0 := ToolIndex(p);
    assert ToolTidy(acc.tools, events, i0);
    if i0 in acc.tools {
      assert events + OpenEvents(acc, p) == events;
    } else {
      var e := ToolStart(i0, ToolCall(p.id, p.name, "", ""));
      EventSnoc(events, e);
      forall v ensures Sent(v, events + [e]) == Sent(v, events) {
        assert Sent(v, events + [e]) == Sent(v, events) + EventText(v, e);
      }
      forall i ensures ToolTidy(AfterOpen(acc, p).tools, events + [e], i) && Ends(i, events + [e]) == [] {
        assert ToolTidy(acc.tools, events, i) && Ends(i, events) == [];
      }
    }
  }

  /** The accumulator after a part's arguments were appended. */
  function AfterDelta(acc: Acc, i: int, s: string): Acc
    requires i in acc.tools
  {
    var t := acc.tools[i];
    acc.(tools := acc.tools[i := t.(raw := t.raw + s, fed := t.fed + [s])])
  }

  lemma SentSnoc(v: Strand, events: seq<StreamEvent>, e: StreamEvent)
    ensures Sent(v, events + [e]) == Sent(v, events) + EventText(v, e)
  {
    assert (events + [e])[..|events|] == events;
  }

  lemma DeltaOnOne(acc: Acc, events: seq<StreamEvent>, i: int, s: string, partial: Option<ToolCall>, j: int)
    requires ToolTidy(acc.tools, events, j) && Ends(j, events) == [] && i in acc.tools
    ensures ToolTidy(AfterDelta(acc, i, s).tools, events + [ToolDelta(i, s, partial)], j)
    ensures Ends(j, events + [ToolDelta(i, s, partial)]) == []
  {
    var e := ToolDelta(i, s, partial);
    SentSnoc(ArgumentsOf(j), events, e);
    assert (events + [e])[..|events|] == events;
  }

  lemma DeltaKeepsTidy(acc: Acc, events: seq<StreamEvent>, i: int, s: string, partial: Option<ToolCall>)
    requires Tidy(acc, events) && i in acc.tools
    ensures Tidy(AfterDelta(acc, i, s), events + [ToolDelta(i, s, partial)])
  {
    var e := ToolDelta(i, s, partial);
    SentSnoc(Answer, events, e);
    SentSnoc(Reasoning, events, e);
    forall j ensures ToolTidy(AfterDelta(acc, i, s).tools, events + [e], j) && Ends(j, events + [e]) == [] {
      assert ToolTidy(acc.tools, events, j) && Ends(j, events) == [];
      DeltaOnOne(acc, events, i, s, partial, j);
    }
  }

  /** Events that say what a part says relay it. */
  lemma PartRelayed(acc: Acc, events: seq<StreamEvent>, atoms: seq<Atom>, p: ToolPart, acc': Acc, events': seq<StreamEvent>)
    requires Good(acc, events, atoms) && acc'.stop == acc.stop && acc'.usage == acc.usage
    requires forall v :: Sent(v, events') == Sent(v, events) + AtomText(v, PartAtom(p))
    requires forall i :: Starts(i, events')
                      == Starts(i, events) + if i == ToolIndex(p) && i !in acc.tools then [ToolCall(p.id, p.name, "", "")] else []
    ensures Relayed(acc', events', atoms + [PartAtom(p)])
  {
    AtomSnoc(atoms, PartAtom(p));
    forall i ensures Starts(i, events') == Opened(i, atoms + [PartAtom(p)]) {
      assert ToolTidy(acc.tools, events, i);
      assert Starts(i, events) == Opened(i, atoms);
    }
    forall v ensures Sent(v, events') == Said(v, atoms + [PartAtom(p)]) {
      assert Sent(v, events) == Said(v, atoms);
    }
  }

  /** A part without arguments: a start event for a new index. */
  lemma BarePartKeeps(acc: Acc, events: seq<StreamEvent>, atoms: seq<Atom>, p: ToolPart)
    requires Good(acc, events, atoms) && p.arguments == ""
    ensures Good(AfterOpen(acc, p), events + OpenEvents(acc, p), atoms + [PartAtom(p)])
  {
    OpenKeepsTidy(acc, events, p);
    OpenStarts(acc, events, p);
    PartRelayed(acc, events, atoms, p, AfterOpen(acc, p), events + OpenEvents(acc, p));
  }

  /** A part with arguments: also a delta. */
  lemma PartKeeps(acc: Acc, events: seq<StreamEvent>, atoms: seq<Atom>, p: ToolPart, partial: Option<ToolCall>)
    requires Good(acc, events, atoms)
    ensures Good(AfterDelta(AfterOpen(acc, p), ToolIndex(p), p.arguments),
                 events + OpenEvents(acc, p) + [ToolDelta(ToolIndex(p), p.arguments, partial)], atoms + [PartAtom(p)])
  {
    var i, s := ToolIndex(p), p.arguments;
    var grown, sent := AfterOpen(acc, p), events + OpenEvents(acc, p);
    var e := ToolDelta(i, s, partial);
    assert Tidy(AfterDelta(grown, i, s), sent + [e]) by {
      OpenKeepsTidy(acc, events, p);
      DeltaKeepsTidy(grown, sent, i, s, partial);
    }
    DeltaSays(acc, events, p, partial);
    PartRelayed(acc, events, atoms, p, AfterDelta(grown, i, s), sent + [e]);
  }

  lemma DeltaSays(acc: Acc, events: seq<StreamEvent>, p: ToolPart, partial: Option<ToolCall>)
    requires Tidy(acc, events)
    ensures var all := events + OpenEvents(acc, p) + [ToolDelta(ToolIndex(p), p.arguments, partial)];
            && (forall v :: Sent(v, all) == Sent(v, events) + AtomText(v, PartAtom(p)))
            && (forall i :: Starts(i, all)
                  == Starts(i, events) + if i == ToolIndex(p) && i !in acc.tools then [ToolCall(p.id, p.name, "", "")] else [])
  {
    var sent, e := events + OpenEvents(acc, p), ToolDelta(ToolIndex(p), p.arguments, partial);
    OpenKeepsTidy(acc, events, p);
    OpenStarts(acc, events, p);
    EventSnoc(sent, e);
    forall v ensures Sent(v, sent + [e]) == Sent(v, events) + AtomText(v, PartAtom(p)) {
      assert Sent(v, sent) == Sent(v, events);
    }
    forall i ensures Starts(i, sent + [e]) == Starts(i, sent) {
      assert Starts(i, sent + [e]) == Starts(i, sent) + [];
    }
  }

  lemma OpenStarts(acc: Acc, events: seq<StreamEvent>, p: ToolPart)
    ensures forall i :: Starts(i, events + OpenEvents(acc, p))
                     == Starts(i, events) + if i == ToolIndex(p) && i !in acc.tools then [ToolCall(p.id, p.name, "", "")] else []
  {
    if ToolIndex(p) in acc.tools {
      assert events + OpenEvents(acc, p) == events;
    } else {
      EventSnoc(events, OpenEvents(acc, p)[0]);
    }
  }

  // ---- whole inputs ----

  /** Where handling the input has come: the accumulator and everything sent, or an error. */
  datatype Step = Go(acc: Acc, sent: seq<StreamEvent>) | Stopped(error: StreamError, sent: seq<StreamEvent>)

  function PartialCall(json: Json, t: ToolState): Option<ToolCall> {
    var args := json.partial(t.fed);
    if args.Some? then Some(ToolCall(t.id, t.name, args.value, "")) else None
  }

  function OnPart(json: Json, acc: Acc, sent: seq<StreamEvent>, p: ToolPart): Step {
    var i, grown, more := ToolIndex(p), AfterOpen(acc, p), sent + OpenEvents(acc, p);
    if p.arguments == "" then Go(grown, more)
    else
      var next := AfterDelta(grown, i, p.arguments);
      if json.feeds(next.tools[i].fed)
      then Go(next, more + [ToolDelta(i, p.arguments, PartialCall(json, next.tools[i]))])
      else Stopped(BadDelta, more)
  }

  function OnAtom(json: Json, acc: Acc, sent: seq<StreamEvent>, a: Atom): Step {
    match a
    case TextAtom(s) => Go(acc.(content := acc.content + s), sent + [TextDelta(s)])
    case ThinkingAtom(s) => Go(acc.(reasoning := acc.reasoning + s), sent + [ThinkingDelta(s)])
    case PartAtom(p) => OnPart(json, acc, sent, p)
    case FinishAtom(reason) => Go(acc.(stop := MapStopReason(reason)), sent)
    case UsageAtom(u) => Go(acc.(usage := u), sent)
  }

  function Next(json: Json, s: Step, a: Atom): Step {
    if s.Go? then OnAtom(json, s.acc, s.sent, a) else s
  }

  function OnAtoms(json: Json, s: Step, atoms: seq<Atom>): Step {
    if atoms == [] then s else Next(json, OnAtoms(json, s, atoms[..|atoms| - 1]), atoms[|atoms| - 1])
  }

  lemma OnAtomsSnoc(json: Json, s: Step, atoms: seq<Atom>, a: Atom)
    ensures OnAtoms(json, s, atoms + [a]) == Next(json, OnAtoms(json, s, atoms), a)
  {
    assert (atoms + [a])[..|atoms|] == atoms;
  }

  lemma {:induction false} OnAtomsAppends(json: Json, s: Step, xs: seq<Atom>, ys: seq<Atom>)
    ensures OnAtoms(json, s, xs + ys) == OnAtoms(json, OnAtoms(json, s, xs), ys)
  {
    if ys == [] {
      assert xs + ys == xs;
    } else {
      OnAtomsAppends(json, s, xs, ys[..|ys| - 1]);
      assert (xs + ys)[..|xs + ys| - 1] == xs + ys[..|ys| - 1];
    }
  }

  lemma {:induction false} StoppedStays(json: Json, s: Step, atoms: seq<Atom>)
    requires s.Stopped?
    ensures OnAtoms(json, s, atoms) == s
  {
    if atoms != [] {
      StoppedStays(json, s, atoms[..|atoms| - 1]);
    }
  }

  /** However much of the input was handled, the accumulator holds what was sent and what was
      sent is what came in. */
  lemma {:induction false} RunIsGood(json: Json, s: Step, atoms: seq<Atom>)
    requires s.Go? && Good(s.acc, s.sent, []) && OnAtoms(json, s, atoms).Go?
    ensures var r := OnAtoms(json, s, atoms); Good(r.acc, r.sent, atoms)
  {
    if atoms != [] {
      var front, a := atoms[..|atoms| - 1], atoms[|atoms| - 1];
      RunIsGood(json, s, front);
      assert front + [a] == atoms;
      StepIsGood(json, OnAtoms(json, s, front), front, a, atoms);
    }
  }

  lemma StepIsGood(json: Json, s: Step, front: seq<Atom>, a: Atom, atoms: seq<Atom>)
    requires s.Go? && Good(s.acc, s.sent, front) && atoms == front + [a] && Next(json, s, a).Go?
    ensures var r := Next(json, s, a); Good(r.acc, r.sent, atoms)
  {
    AtomKeeps(json, s.acc, s.sent, front, a);
  }

  lemma AtomKeeps(json: Json, acc: Acc, sent: seq<StreamEvent>, atoms: seq<Atom>, a: Atom)
    requires Good(acc, sent, atoms) && OnAtom(json, acc, sent, a).Go?
    ensures var r := OnAtom(json, acc, sent, a); Good(r.acc, r.sent, atoms + [a])
  {
    match a
    case TextAtom(s) => TextKeeps(acc, sent, atoms, s);
    case ThinkingAtom(s) => ThinkingKeeps(acc, sent, atoms, s);
    case FinishAtom(reason) => FinishKeeps(acc, sent, atoms, reason);
    case UsageAtom(u) => UsageKeeps(acc, sent, atoms, u);
    case PartAtom(p) =>
      if p.arguments == "" {
        BarePartKeeps(acc, sent, atoms, p);
      } else {
        var next := AfterDelta(AfterOpen(acc, p), ToolIndex(p), p.arguments);
        PartKeeps(acc, sent, atoms, p, PartialCall(json, next.tools[ToolIndex(p)]));
      }
  }

  /** The state before any atom: the start event has been sent if there was a chunk. */
  function Begin(started: bool): Step {
    Go(FRESH, if started then [Start] else [])
  }

  lemma BeginIsGood(started: bool)
    ensures Good(FRESH, Begin(started).sent, [])
  {
    assert Good(FRESH, [], []);
    StartKeeps(FRESH, [], []);
    assert [] + [Start] == [Start];
  }

  predicate HasData(ws: seq<Wire>) {
    ws != [] && (HasData(ws[..|ws| - 1]) || ws[|ws| - 1].Data?)
  }

  /** Everything up to the done mark, handled. */
  function OnWires(json: Json, ws: seq<Wire>): Step {
    OnAtoms(json, Begin(HasData(ws)), Atoms(ws))
  }

  // ---- the end ----

  /** The tool call that a text of arguments completes; it is one if they parse. */
  function Completed(json: Json, started: seq<ToolCall>, raw: string): Option<ToolCall> {
    var args := FinalArgs(json, raw);
    if started == [] || args.None? then None else Some(ToolCall(started[0].id, started[0].name, args.value, ""))
  }

  /** The call that the events up to now complete for an index. */
  function CallFor(json: Json, events: seq<StreamEvent>, i: int): Option<ToolCall> {
    Completed(json, Starts(i, events), Sent(ArgumentsOf(i), events))
  }

  /** End events were sent for these indices and no others, each with its completed call. */
  ghost predicate EndedAs(json: Json, before: seq<StreamEvent>, events: seq<StreamEvent>, indices: seq<int>) {
    && (forall v :: Sent(v, events) == Sent(v, before))
    && (forall i :: Starts(i, events) == Starts(i, before))
    && (forall i :: i in indices ==> CallFor(json, before, i).Some?)
    && (forall i :: Ends(i, events) == if i in indices then [CallFor(json, before, i).value] else [])
  }

  lemma EndStep(json: Json, before: seq<StreamEvent>, events: seq<StreamEvent>, indices: seq<int>, i: int)
    requires EndedAs(json, before, events, indices) && i !in indices && CallFor(json, before, i).Some?
    ensures EndedAs(json, before, events + [ToolEnd(i, CallFor(json, before, i).value)], indices + [i])
  {
    var e := ToolEnd(i, CallFor(json, before, i).value);
    EventSnoc(events, e);
    forall v ensures Sent(v, events + [e]) == Sent(v, before) {
      assert Sent(v, events + [e]) == Sent(v, events) + EventText(v, e);
    }
    forall j ensures Starts(j, events + [e]) == Starts(j, before) {
      assert Starts(j, events) == Starts(j, before);
    }
    forall j ensures Ends(j, events + [e]) == if j in indices + [i] then [CallFor(json, before, j).value] else [] {
      assert Ends(j, events) == if j in indices then [CallFor(json, before, j).value] else [];
    }
  }

  /** The events that end the calls of these indices, one by one, unless some arguments do not parse. */
  function OnEnds(json: Json, acc: Acc, sent: seq<StreamEvent>, indices: seq<int>): Step
    requires forall i :: i in indices ==> i in acc.tools
  {
    if indices == [] then Go(acc, sent)
    else
      var s, i := OnEnds(json, acc, sent, indices[..|indices| - 1]), indices[|indices| - 1];
      var t := acc.tools[i];
      var args := FinalArgs(json, t.raw);
      if s.Stopped? then s
      else if args.None? then Stopped(BadArguments(t.name, i), s.sent)
      else Go(acc, s.sent + [ToolEnd(i, ToolCall(t.id, t.name, args.value, ""))])
  }

  /** The completed calls of these indices. */
  function FinalCalls(json: Json, acc: Acc, indices: seq<int>): seq<ToolCall>
    requires forall i :: i in indices ==> i in acc.tools
  {
    if indices == [] then []
    else
      var i := indices[|indices| - 1];
      var t := acc.tools[i];
      var args := FinalArgs(json, t.raw);
      FinalCalls(json, acc, indices[..|indices| - 1])
      + if args.Some? then [ToolCall(t.id, t.name, args.value, "")] else []
  }

  lemma CallOf(json: Json, acc: Acc, sent: seq<StreamEvent>, i: int)
    requires Tidy(acc, sent) && i in acc.tools
    ensures var args := FinalArgs(json, acc.tools[i].raw);
            CallFor(json, sent, i) ==
            if args.Some? then Some(ToolCall(acc.tools[i].id, acc.tools[i].name, args.value, "")) else None
  {
    assert ToolTidy(acc.tools, sent, i);
  }

  lemma NoEnds(json: Json, acc: Acc, sent: seq<StreamEvent>)
    requires Tidy(acc, sent)
    ensures EndedAs(json, sent, sent, [])
  {
    forall i ensures Ends(i, sent) == [] {
      assert ToolTidy(acc.tools, sent, i) && Ends(i, sent) == [];
    }
  }

  lemma {:induction false} EndsAreSent(json: Json, acc: Acc, sent: seq<StreamEvent>, indices: seq<int>)
    requires Tidy(acc, sent) && Increasing(indices) && forall i :: i in indices ==> i in acc.tools
    requires OnEnds(json, acc, sent, indices).Go?
    ensures EndedAs(json, sent, OnEnds(json, acc, sent, indices).sent, indices)
  {
    if indices == [] {
      NoEnds(json, acc, sent);
    } else {
      var front, i := indices[..|indices| - 1], indices[|indices| - 1];
      EndsAreSent(json, acc, sent, front);
      assert CallFor(json, sent, i).Some?
          && OnEnds(json, acc, sent, indices).sent
             == OnEnds(json, acc, sent, front).sent + [ToolEnd(i, CallFor(json, sent, i).value)] by {
        CallOf(json, acc, sent, i);
      }
      assert i !in front;
      EndStep(json, sent, OnEnds(json, acc, sent, front).sent, front, i);
      assert front + [i] == indices;
    }
  }

  lemma {:induction false} CallsAreComplete(json: Json, acc: Acc, sent: seq<StreamEvent>, indices: seq<int>)
    requires Tidy(acc, sent) && forall i :: i in indices ==> i in acc.tools
    requires OnEnds(json, acc, sent, indices).Go?
    ensures var calls := FinalCalls(json, acc, indices);
            |calls| == |indices| && forall k :: 0 <= k < |calls| ==> CallFor(json, sent, indices[k]) == Some(calls[k])
  {
    if indices != [] {
      var front, i := indices[..|indices| - 1], indices[|indices| - 1];
      CallsAreComplete(json, acc, sent, front);
      CallOf(json, acc, sent, i);
    }
  }

  // ---- an error stays ----

  lemma {:induction false} PartsStop(json: Json, s: Step, ps: seq<ToolPart>, k: nat)
    requires k <= |ps| && OnAtoms(json, s, PartAtoms(ps[..k])).Stopped?
    ensures OnAtoms(json, s, PartAtoms(ps)) == OnAtoms(json, s, PartAtoms(ps[..k]))
  {
    if k == |ps| {
      assert ps[..k] == ps;
    } else {
      var front := ps[..|ps| - 1];
      assert front[..k] == ps[..k];
      PartsStop(json, s, front, k);
      OnAtomsSnoc(json, s, PartAtoms(front), PartAtom(ps[|ps| - 1]));
    }
  }

  lemma {:induction false} ChoicesStop(json: Json, s: Step, cs: seq<Choice>, k: nat)
    requires k <= |cs| && OnAtoms(json, s, ChoicesAtoms(cs[..k])).Stopped?
    ensures OnAtoms(json, s, ChoicesAtoms(cs)) == OnAtoms(json, s, ChoicesAtoms(cs[..k]))
  {
    if k == |cs| {
      assert cs[..k] == cs;
    } else {
      var front := cs[..|cs| - 1];
      assert front[..k] == cs[..k];
      ChoicesStop(json, s, front, k);
      OnAtomsAppends(json, s, ChoicesAtoms(front), ChoiceAtoms(cs[|cs| - 1]));
      StoppedStays(json, OnAtoms(json, s, ChoicesAtoms(front)), ChoiceAtoms(cs[|cs| - 1]));
    }
  }

  /** A wire event that changes nothing, or one more chunk. */
  lemma OnWiresSnoc(json: Json, ws: seq<Wire>, w: Wire)
    ensures OnWires(json, ws + [w]) ==
            if w.Data? then OnAtoms(json, if HasData(ws) then OnWires(json, ws) else Begin(true), ChunkAtoms(w.chunk))
            else OnWires(json, ws)
  {
    assert (ws + [w])[..|ws|] == ws;
    if w.Data? {
      if !HasData(ws) {
        NoAtoms(ws);
      }
      OnAtomsAppends(json, Begin(true), Atoms(ws), ChunkAtoms(w.chunk));
    } else {
      assert Atoms(ws) + [] == Atoms(ws);
    }
  }

  lemma {:induction false} NoAtoms(ws: seq<Wire>)
    requires !HasData(ws)
    ensures Atoms(ws) == []
  {
    if ws != [] {
      NoAtoms(ws[..|ws| - 1]);
    }
  }

  lemma {:induction false} WiresStop(json: Json, ws: seq<Wire>, k: nat)
    requires k <= |ws| && OnWires(json, ws[..k]).Stopped?
    ensures OnWires(json, ws) == OnWires(json, ws[..k])
  {
    if k == |ws| {
      assert ws[..k] == ws;
    } else {
      var front, w := ws[..|ws| - 1], ws[|ws| - 1];
      assert front[..k] == ws[..k] && front + [w] == ws;
      WiresStop(json, front, k);
      OnWiresSnoc(json, front, w);
      if !HasData(front) {
        NoAtoms(front);
      } else if w.Data? {
        StoppedStays(json, OnWires(json, front), ChunkAtoms(w.chunk));
      }
    }
  }

  lemma {:induction false} EndsStop(json: Json, acc: Acc, sent: seq<StreamEvent>, indices: seq<int>, k: nat)
    requires k <= |indices| && forall i :: i in indices ==> i in acc.tools
    requires OnEnds(json, acc, sent, indices[..k]).Stopped?
    ensures OnEnds(json, acc, sent, indices) == OnEnds(json, acc, sent, indices[..k])
  {
    if k == |indices| {
      assert indices[..k] == indices;
    } else {
      var front := indices[..|indices| - 1];
      assert front[..k] == indices[..k];
      EndsStop(json, acc, sent, front, k);
    }
  }

  function ThinkingBlocks(s: string): seq<Block> {
    if s != "" then [Thinking(s, "", false)] else []
  }

  function TextBlocks(s: string): seq<Block> {
    if s != "" then [Text(s, "")] else []
  }

  function CallBlocks(calls: seq<ToolCall>): seq<Block> {
    if calls == [] then [] else CallBlocks(calls[..|calls| - 1]) + [Call(calls[|calls| - 1])]
  }

  /** The final message m says what the events before it said: the texts are the concatenated
      deltas, and the calls are those started, in the order of their indices, each started once
      and ended once, with the arguments that its own deltas make up. */
  ghost predicate Faithful(json: Json, m: Message, events: seq<StreamEvent>, indices: seq<int>, calls: seq<ToolCall>) {
    && m.Assistant?
    && m.content == ThinkingBlocks(Sent(Reasoning, events)) + TextBlocks(Sent(Answer, events)) + CallBlocks(calls)
    && Increasing(indices) && |calls| == |indices|
    && (forall k :: 0 <= k < |calls| ==> CallFor(json, events, indices[k]) == Some(calls[k]))
    && (forall i :: if i in indices then |Starts(i, events)| == 1 && Ends(i, events) == [CallFor(json, events, i).value]
                    else Starts(i, events) == [] && Ends(i, events) == [])
  }

  /** The events and the message m say what the input said. */
  ghost predicate Echoes(m: Message, events: seq<StreamEvent>, atoms: seq<Atom>) {
    && (forall v :: Sent(v, events) == Said(v, atoms))
    && (forall i :: Starts(i, events) == Opened(i, atoms))
    && m.Assistant? && m.stop == LastFinish(atoms) && m.usage == LastUsage(atoms)
  }

  /** How much of the input counts: everything before the first done mark. */
  function Accepted(ws: seq<Wire>): (n: nat)
    ensures n <= |ws| && (n < |ws| ==> ws[n].DoneMark?)
    ensures forall i :: 0 <= i < n ==> !ws[i].DoneMark?
  {
    if ws == [] || ws[0].DoneMark? then 0 else 1 + Accepted(ws[1..])
  }

  function FinalMessage(model: Model, acc: Acc, calls: seq<ToolCall>, now: int): Message {
    Assistant(ThinkingBlocks(acc.reasoning) + TextBlocks(acc.content) + CallBlocks(calls),
              model.api, model.provider, model.id, acc.usage, acc.stop, "", now)
  }

  /** The indices are exactly those in use, in increasing order. */
  ghost predicate Lists(acc: Acc, indices: seq<int>) {
    Increasing(indices) && forall i :: i in indices <==> i in acc.tools
  }

  /** Whatever input is handled to its end, the final message is faithful to the events sent
      before it, and these echo the input. */
  lemma MessageIsFaithful(json: Json, model: Model, ws: seq<Wire>, indices: seq<int>, now: int)
    requires OnWires(json, ws).Go? && Lists(OnWires(json, ws).acc, indices)
    requires var r := OnWires(json, ws); OnEnds(json, r.acc, r.sent, indices).Go?
    ensures var r := OnWires(json, ws);
            var body, calls := OnEnds(json, r.acc, r.sent, indices).sent, FinalCalls(json, r.acc, indices);
            var m := FinalMessage(model, r.acc, calls, now);
            Faithful(json, m, body, indices, calls) && Echoes(m, body, Atoms(ws))
  {
    var r := OnWires(json, ws);
    BeginIsGood(HasData(ws));
    RunIsGood(json, Begin(HasData(ws)), Atoms(ws));
    EndsAreSent(json, r.acc, r.sent, indices);
    CallsAreComplete(json, r.acc, r.sent, indices);
    EndedIsFaithful(json, model, r.acc, r.sent, OnEnds(json, r.acc, r.sent, indices).sent, indices, Atoms(ws), now);
  }

  lemma EndedIsFaithful(json: Json, model: Model, acc: Acc, before: seq<StreamEvent>, body: seq<StreamEvent>,
                        indices: seq<int>, atoms: seq<Atom>, now: int)
    requires Good(acc, before, atoms) && Lists(acc, indices) && EndedAs(json, before, body, indices)
    requires var calls := FinalCalls(json, acc, indices);
             |calls| == |indices| && forall k :: 0 <= k < |calls| ==> CallFor(json, before, indices[k]) == Some(calls[k])
    ensures var calls := FinalCalls(json, acc, indices);
            var m := FinalMessage(model, acc, calls, now);
            Faithful(json, m, body, indices, calls) && Echoes(m, body, atoms)
  {
    forall i ensures CallFor(json, body, i) == CallFor(json, before, i) {
      assert Starts(i, body) == Starts(i, before) && Sent(ArgumentsOf(i), body) == Sent(ArgumentsOf(i), before);
    }
    forall i
      ensures if i in indices then |Starts(i, body)| == 1 && Ends(i, body) == [CallFor(json, body, i).value]
              else Starts(i, body) == [] && Ends(i, body) == []
    {
      assert ToolTidy(acc.tools, before, i) && Starts(i, body) == Starts(i, before);
      assert Ends(i, body) == if i in indices then [CallFor(json, before, i).value] else [];
    }
    forall v ensures Sent(v, body) == Said(v, atoms) {
      assert Sent(v, body) == Sent(v, before);
    }
    forall i ensures Starts(i, body) == Opened(i, atoms) {
      assert Starts(i, body) == Starts(i, before);
    }
  }
}
