/** What a run of the native driver comes to, as a function of the provider's answers, the tools'
    outcomes and the commands waiting, when no other caller interferes. */
module DriverRuns {
  import opened Wrappers
  import opened Whitespace
  import opened Conversation
  import opened Transform
  import opened TransformFacts
  import opened DriverLog
  import opened ControlQueues
  import opened AgentProtocol

  datatype Tool = Tool(name: string, terminal: bool)

  /** What a tool returned: its content, its own error flag, and an error. */
  datatype Outcome = Outcome(content: seq<Block>, isError: bool, err: Option<string>)

  /** One answer of the provider, with what each tool it calls will return. */
  datatype Reply = Reply(message: Message, outcomes: ToolCall -> Outcome, time: int)

  /** The first tool of that name, if there is one. */
  function ToolNamed(tools: seq<Tool>, name: string): (tool: Option<Tool>)
    ensures tool.Some? ==> tool.value in tools && tool.value.name == name
    ensures tool.None? ==> forall t :: t in tools ==> t.name != name
  {
    if tools == [] then None
    else if tools[0].name == name then Some(tools[0])
    else ToolNamed(tools[1..], name)
  }

  predicate IsTerminal(tools: seq<Tool>, name: string) {
    ToolNamed(tools, name).Some? && ToolNamed(tools, name).value.terminal
  }

  function TerminalIn(tools: seq<Tool>): Terminal {
    name => IsTerminal(tools, name)
  }

  // ---- one answer ----

  /** The result that is logged for a call. */
  function ResultOf(tools: seq<Tool>, c: ToolCall, o: Outcome, time: int): Message {
    if ToolNamed(tools, c.name).None? then
      ToolResult(c.id, c.name, [Text("tool not found: " + c.name, "")], true, time)
    else
      var content := if o.err.Some? && o.content == [] then [Text(o.err.value, "")] else o.content;
      ToolResult(c.id, c.name, content, o.isError || o.err.Some?, time)
  }

  /** The results of the calls in order, up to the first terminal one. */
  function ResultsOf(tools: seq<Tool>, calls: seq<ToolCall>, outcomes: ToolCall -> Outcome, time: int): seq<Message> {
    if calls == [] then []
    else
      [ResultOf(tools, calls[0], outcomes(calls[0]), time)]
      + if IsTerminal(tools, calls[0].name) then [] else ResultsOf(tools, calls[1..], outcomes, time)
  }

  /** The log takes the results one at a time. */
  lemma ResultsStep(tools: seq<Tool>, log: seq<Message>, calls: seq<ToolCall>, k: nat, outcomes: ToolCall -> Outcome, time: int)
    requires k < |calls|
    ensures log + ResultsOf(tools, calls[k..], outcomes, time)
            == log + [ResultOf(tools, calls[k], outcomes(calls[k]), time)]
               + if IsTerminal(tools, calls[k].name) then [] else ResultsOf(tools, calls[k + 1..], outcomes, time)
  {
    assert calls[k..][0] == calls[k] && calls[k..][1..] == calls[k + 1..];
  }

  predicate AnyTerminal(tools: seq<Tool>, calls: seq<ToolCall>) {
    exists k :: 0 <= k < |calls| && IsTerminal(tools, calls[k].name)
  }

  /** The agent after an answer with its tools, or after a refusal to run them. */
  function Replied(tools: seq<Tool>, g: Agent, reply: Reply): (Agent, bool)
    requires reply.message.Assistant?
  {
    var calls, logged := Calls(reply.message.content), Append(g, reply.message);
    if calls == [] then (logged, false)
    else if TransitionErr(logged.state, ToolExecution).Some? then (logged, true)
    else
      var busy := Transit(logged, ToolExecution);
      (busy.(log := busy.log + ResultsOf(tools, calls, reply.outcomes, reply.time)), false)
  }

  /** The turn ends with this answer. */
  predicate EndsTurn(tools: seq<Tool>, reply: Reply)
    requires reply.message.Assistant?
  {
    var calls := Calls(reply.message.content);
    calls == [] || AnyTerminal(tools, calls)
  }

  // ---- one turn ----

  /** What happens once the provider's answers are used up: the next call fails, or the context is
      found cancelled before it, either in a turn or between turns. */
  datatype Ending = CallFails | CancelledInTurn | CancelledBetweenTurns

  /** What a driver is built with, the time, and how the answers end. */
  datatype Setup = Setup(tools: seq<Tool>, model: Model, now: int, ending: Ending)

  /** The agent, and what the provider was sent at each call. */
  datatype Desk = Desk(agent: Agent, contexts: seq<seq<Message>>)

  predicate AllAssistant(script: seq<Reply>) {
    forall i :: 0 <= i < |script| ==> script[i].message.Assistant?
  }

  /** The provider is asked with the transformed log. */
  ghost function Asked(model: Model, now: int, d: Desk): Desk {
    Desk(Transit(d.agent, Streaming), d.contexts + [Transformed(d.agent.log, model, None, now)])
  }

  /** Where a turn ended, whether it failed, and the answers left. */
  datatype Turned = Turned(desk: Desk, failed: bool, rest: seq<Reply>)

  /** A turn: the provider is asked until it wants no more tools or a terminal one ran. It fails
      when the answers are used up. */
  ghost function Turn(p: Setup, d: Desk, script: seq<Reply>): (t: Turned)
    requires AllAssistant(script)
    ensures |t.rest| <= |script| && t.rest == script[|script| - |t.rest|..]
    ensures !t.failed ==> |t.rest| < |script|
    decreases |script|
  {
    if script == [] && !p.ending.CallFails? then Turned(d, true, [])
    else if TransitionErr(d.agent.state, Streaming).Some? then Turned(d, true, script)
    else if script == [] then Turned(Asked(p.model, p.now, d), true, [])
    else
      var (next, refused) := Replied(p.tools, Asked(p.model, p.now, d).agent, script[0]);
      var after := Desk(next, Asked(p.model, p.now, d).contexts);
      if refused || EndsTurn(p.tools, script[0]) then Turned(after, refused, script[1..])
      else Turn(p, after, script[1..])
  }

  // ---- a run ----

  function PromptMessages(prompt: string, time: int): seq<Message> {
    if Trimmed(prompt) == "" then [] else [User([Text(Trimmed(prompt), "")], time)]
  }

  function Prompted(p: Setup, d: Desk, prompt: string): Desk {
    d.(agent := d.agent.(log := d.agent.log + PromptMessages(prompt, p.now)))
  }

  /** The steer and the follow-ups the driver holds, and the commands waiting for it. */
  datatype Pending = Pending(steer: string, followUps: seq<string>, queue: seq<Command>)

  datatype Driven = Driven(desk: Desk, pending: Pending, delivered: seq<string>, turns: nat)

  function Decided(w: Pending): Decision {
    Decide(w.queue, w.steer, w.followUps)
  }

  function Remaining(w: Pending): Pending {
    Pending(Decided(w).steer, Decided(w).followUps, [])
  }

  /** The run finds the context cancelled before its next turn. */
  predicate StopsBetween(p: Setup, script: seq<Reply>) {
    script == [] && p.ending.CancelledBetweenTurns?
  }

  /** Turn after turn, as long as the context is alive, a turn succeeds and a steer or a follow-up
      is left to do. A follow-up counts as delivered when it becomes the next prompt, even if the
      context is found cancelled then. */
  ghost function Drive(p: Setup, d: Desk, prompt: string, script: seq<Reply>, w: Pending): Driven
    requires AllAssistant(script)
    decreases |script|
  {
    var t := Turn(p, Prompted(p, d, prompt), script);
    if StopsBetween(p, script) then Driven(d, w, [], 0)
    else if t.failed then Driven(t.desk, w, [], 1)
    else if Decided(w).source.Nothing? then Driven(t.desk, Remaining(w), [], 1)
    else
      var rest := Drive(p, t.desk, Decided(w).prompt, t.rest, Remaining(w));
      Driven(rest.desk, rest.pending, Delivered(Decided(w)) + rest.delivered, rest.turns + 1)
  }

  /** Back to idle. */
  function AtRest(g: Agent): Agent {
    Transit(g, Idle).(running := false)
  }

  // ---- what every run keeps ----

  /** Between turns: a session, a history that is a path, a log in order, and a state that the
      driver goes on from. */
  ghost predicate Ready(g: Agent, terminal: Terminal) {
    && g.hasSession && GoodHistory(g) && StatusOf(g.log, terminal) == Quiet
    && (g.state == Idle || g.state == Streaming || g.state == ToolExecution)
  }

  ghost predicate AllContextsAnswered(contexts: seq<seq<Message>>) {
    forall i :: 0 <= i < |contexts| ==> AllAnswered(contexts[i])
  }

  ghost predicate Fine(p: Setup, d: Desk) {
    Ready(d.agent, TerminalIn(p.tools)) && AllContextsAnswered(d.contexts)
  }

  /** Nothing logged and nothing sent is taken back. */
  ghost predicate Extends(d: Desk, after: Desk) {
    d.agent.log <= after.agent.log && d.contexts <= after.contexts
  }

  lemma ExtendsTwice(a: Desk, b: Desk, c: Desk)
    requires Extends(a, b) && Extends(b, c)
    ensures Extends(a, c)
  {
  }

  /** The results of a block finish it. */
  lemma {:induction false} ResultsFinish(tools: seq<Tool>, log: seq<Message>, calls: seq<ToolCall>, k: nat,
                                         outcomes: ToolCall -> Outcome, time: int)
    requires k < |calls| && StatusOf(log, TerminalIn(tools)) == Owing(calls, k)
    ensures StatusOf(log + ResultsOf(tools, calls[k..], outcomes, time), TerminalIn(tools)) == Quiet
    decreases |calls| - k
  {
    var m := ResultOf(tools, calls[k], outcomes(calls[k]), time);
    StatusSnoc(log, m, TerminalIn(tools));
    ResultsStep(tools, log, calls, k, outcomes, time);
    assert log + [m] + [] == log + [m];
    if !IsTerminal(tools, calls[k].name) {
      if k + 1 < |calls| {
        ResultsFinish(tools, log + [m], calls, k + 1, outcomes, time);
      }
    }
  }

  lemma RepliedIsReady(tools: seq<Tool>, g: Agent, reply: Reply)
    requires reply.message.Assistant? && Ready(g, TerminalIn(tools)) && g.state == Streaming
    ensures var (next, refused) := Replied(tools, g, reply);
            !refused && Ready(next, TerminalIn(tools)) && g.log < next.log
  {
    var calls := Calls(reply.message.content);
    StatusSnoc(g.log, reply.message, TerminalIn(tools));
    if calls != [] {
      ResultsFinish(tools, g.log + [reply.message], calls, 0, reply.outcomes, reply.time);
      assert calls[0..] == calls;
    }
  }

  lemma AskedIsFine(p: Setup, d: Desk)
    requires Fine(p, d)
    ensures Fine(p, Asked(p.model, p.now, d)) && Asked(p.model, p.now, d).agent.state == Streaming && Extends(d, Asked(p.model, p.now, d))
    ensures TransitionErr(d.agent.state, Streaming).None?
  {
    TransformAnswersAll(d.agent.log, p.model, None, p.now);
  }

  lemma {:induction false} TurnIsFine(p: Setup, d: Desk, script: seq<Reply>)
    requires AllAssistant(script) && Fine(p, d)
    ensures Fine(p, Turn(p, d, script).desk) && Extends(d, Turn(p, d, script).desk)
    decreases |script|
  {
    var asked := Asked(p.model, p.now, d);
    AskedIsFine(p, d);
    if script != [] {
      RepliedIsReady(p.tools, asked.agent, script[0]);
      var after := Desk(Replied(p.tools, asked.agent, script[0]).0, asked.contexts);
      ExtendsTwice(d, asked, after);
      if !EndsTurn(p.tools, script[0]) {
        TurnIsFine(p, after, script[1..]);
        ExtendsTwice(d, after, Turn(p, after, script[1..]).desk);
      }
    }
  }

  lemma PromptedIsFine(p: Setup, d: Desk, prompt: string)
    requires Fine(p, d)
    ensures Fine(p, Prompted(p, d, prompt)) && Extends(d, Prompted(p, d, prompt))
  {
    if Trimmed(prompt) == "" {
      assert d.agent.log + [] == d.agent.log;
    } else {
      StatusSnoc(d.agent.log, PromptMessages(prompt, p.now)[0], TerminalIn(p.tools));
    }
  }

  /** After any run the log owes nothing and extends the old one, the history is a path, and
      everything the provider was ever sent answers all its tool calls. */
  lemma {:induction false} DriveIsFine(p: Setup, d: Desk, prompt: string, script: seq<Reply>, w: Pending)
    requires AllAssistant(script) && Fine(p, d)
    ensures Fine(p, Drive(p, d, prompt, script, w).desk) && Extends(d, Drive(p, d, prompt, script, w).desk)
    decreases |script|
  {
    var start := Prompted(p, d, prompt);
    var t := Turn(p, start, script);
    PromptedIsFine(p, d, prompt);
    TurnIsFine(p, start, script);
    ExtendsTwice(d, start, t.desk);
    if !StopsBetween(p, script) && !t.failed && !Decided(w).source.Nothing? {
      DriveIsFine(p, t.desk, Decided(w).prompt, t.rest, Remaining(w));
      ExtendsTwice(d, t.desk, Drive(p, t.desk, Decided(w).prompt, t.rest, Remaining(w)).desk);
    }
  }

  lemma RestIsFine(p: Setup, d: Desk, end: Desk)
    requires Fine(p, d) && end == d.(agent := AtRest(d.agent))
    ensures Fine(p, end) && Extends(d, end) && end.agent.state == Idle && !end.agent.running
  {
  }

  /** And in the end the agent is idle. */
  lemma RunIsFine(p: Setup, d: Desk, prompt: string, script: seq<Reply>, w: Pending, end: Desk)
    requires AllAssistant(script) && Fine(p, d)
    requires var r := Drive(p, d, prompt, script, w).desk; end == r.(agent := AtRest(r.agent))
    ensures Fine(p, end) && Extends(d, end) && end.agent.state == Idle && !end.agent.running
  {
    var r := Drive(p, d, prompt, script, w).desk;
    DriveIsFine(p, d, prompt, script, w);
    RestIsFine(p, r, end);
    ExtendsTwice(d, r, end);
  }

  /** A run delivers follow-ups in order and loses none: if its first turn fails or is never begun
      the commands are left waiting, and otherwise what was held and waiting ahead of an abort is what was
      delivered and what is held now. */
  lemma {:induction false} DriveConserves(p: Setup, d: Desk, prompt: string, script: seq<Reply>, w: Pending)
    requires AllAssistant(script)
    ensures var r := Drive(p, d, prompt, script, w);
            if StopsBetween(p, script) || Turn(p, Prompted(p, d, prompt), script).failed then r.pending == w && r.delivered == []
            else r.pending.queue == [] && w.followUps + Admitted(w.queue) == r.delivered + r.pending.followUps
    decreases |script|
  {
    var t := Turn(p, Prompted(p, d, prompt), script);
    var c, left := Decided(w), Remaining(w);
    DecideConserves(w.queue, w.steer, w.followUps);
    if !StopsBetween(p, script) && !t.failed && !c.source.Nothing? {
      var r := Drive(p, t.desk, c.prompt, t.rest, left);
      DriveConserves(p, t.desk, c.prompt, t.rest, left);
      assert left.followUps == r.delivered + r.pending.followUps && r.pending.queue == [] by {
        assert left.followUps + Admitted([]) == left.followUps;
      }
      Regroup(w.followUps + Admitted(w.queue), Delivered(c), left.followUps, r);
    }
  }

  lemma Regroup(all: seq<string>, delivered: seq<string>, held: seq<string>, r: Driven)
    requires all == delivered + held && held == r.delivered + r.pending.followUps
    ensures all == (delivered + r.delivered) + r.pending.followUps
  {
  }
}
