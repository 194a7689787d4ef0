/** An agent bound to the native driver, as an interleaving of its callers' requests, its control
    queue and the driver's steps, split wherever the agent's lock is given up. */
module AgentProtocol {
  import opened Wrappers
  import opened Whitespace
  import opened Conversation
  import opened Transform
  import opened TransformFacts
  import opened DriverLog
  import opened ControlQueues

  // ---- the state machine of an agent ----

  datatype AgentState = Idle | Streaming | ToolExecution | WaitingFollowUp | Exited

  predicate ValidTransition(from: AgentState, to: AgentState) {
    match from
    case Idle => to == Streaming || to == Exited
    case Streaming => to == ToolExecution || to == WaitingFollowUp || to == Idle || to == Exited
    case ToolExecution => to == Streaming || to == Idle || to == Exited
    case WaitingFollowUp => to == Streaming || to == Idle || to == Exited
    case Exited => false
  }

  datatype TransitionError = StoppedError | InvalidStateError(from: AgentState, to: AgentState)

  function TransitionErr(from: AgentState, to: AgentState): Option<TransitionError> {
    if from == Exited then Some(StoppedError)
    else if from == to || ValidTransition(from, to) then None
    else Some(InvalidStateError(from, to))
  }

  /** The state after a request to change it. */
  function Moved(from: AgentState, to: AgentState): AgentState {
    if TransitionErr(from, to).None? then to else from
  }

  /** The history after that request: it grows exactly when the state changes. */
  function Logged(history: seq<AgentState>, from: AgentState, to: AgentState): seq<AgentState> {
    if TransitionErr(from, to).None? && from != to then history + [to] else history
  }

  /** Every step of the history is in the transition table. */
  ghost predicate Path(h: seq<AgentState>) {
    forall i :: 0 <= i < |h| - 1 ==> ValidTransition(h[i], h[i + 1])
  }

  // ---- the protocol ----

  /** Where the driver's goroutine stands. */
  datatype Pc =
    | NoRun
    | LoopHead(prompt: string)
    | Prompting(prompt: string)
    | TurnStart
    | InnerHead
    | ToStreaming
    | Calling
    | Appending(reply: Message)
    | ToTools(calls: seq<ToolCall>)
    | Tools(calls: seq<ToolCall>, next: nat)
    | Draining(cmds: seq<Command>)
    | Failing
    | ToIdle
    | Leaving
    | Left

  /** The agent's record: its state, its session's state history and conversation log, and
      whether a run is on. */
  datatype Agent = Agent(
    state: AgentState,
    history: seq<AgentState>,
    hasSession: bool,
    log: seq<Message>,
    running: bool)

  /** What happened: the commands the queue took, the batches the driver drained, and the
      follow-ups it delivered. */
  datatype Ledger = Ledger(sent: seq<Command>, batches: seq<seq<Command>>, delivered: seq<string>)

  datatype State = State(
    agent: Agent,
    queue: seq<Command>,
    closed: bool,
    driverRunning: bool,
    cancelled: bool,
    pc: Pc,
    steer: string,
    followUps: seq<string>,
    ledger: Ledger)

  datatype Action =
    | SetSession
    | Prompt(text: string)
    | Continue
    | Stop
    | CancelContext
    | Enqueue(cmd: Command)
    | Step
    | ProviderFails
    | ProviderReplies(reply: Message)
    | ToolReplies(content: seq<Block>, isError: bool, timestamp: int)
    | Receive

  datatype Config = Config(capacity: nat, terminal: Terminal)

  const INIT: State :=
    State(Agent(Idle, [], false, [], false), [], false, false, false, NoRun, "", [], Ledger([], [], []))

  function Transit(g: Agent, to: AgentState): Agent {
    g.(state := Moved(g.state, to),
       history := if g.hasSession then Logged(g.history, g.state, to) else g.history)
  }

  function Append(g: Agent, m: Message): Agent {
    g.(log := g.log + [m])
  }

  predicate Enabled(s: State, a: Action) {
    match a
    case SetSession => !s.agent.running && s.agent.state == Idle
    case Step =>
      !(s.pc.NoRun? || s.pc.Calling? || s.pc.Tools? || (s.pc.Draining? && s.queue != []))
    case ProviderFails => s.pc.Calling?
    case ProviderReplies(reply) => s.pc.Calling? && reply.Assistant?
    case ToolReplies(_, _, _) => s.pc.Tools? && s.pc.next < |s.pc.calls|
    case Receive => s.pc.Draining? && s.queue != []
    case _ => true
  }

  /** Start on the agent's own session, from the busy check to the driver's answer. */
  function Started(s: State, prompt: string): State {
    var g := s.agent;
    if g.state == Exited || g.running then s
    else if TransitionErr(g.state, Streaming).Some? then s
    else
      var up := Transit(g, Streaming);
      if s.driverRunning || !g.hasSession then s.(agent := Transit(up, Idle))
      else s.(agent := up.(running := true), driverRunning := true, cancelled := false, pc := LoopHead(prompt))
  }

  function Continued(s: State): State {
    var g := s.agent;
    if g.state == Exited || g.running || !g.hasSession || s.driverRunning then s
    else s.(agent := g.(running := true), driverRunning := true, cancelled := false, pc := LoopHead(""))
  }

  function Stopped(s: State): State {
    if s.agent.state == Exited then s
    else s.(agent := Transit(s.agent.(running := false), Exited), cancelled := true, driverRunning := false, closed := true)
  }

  /** What the driver's own steps do to the agent. */
  function SteppedAgent(g: Agent, pc: Pc): Agent {
    match pc
    case Prompting(prompt) =>
      if Trimmed(prompt) == "" then g else Append(g, User([Text(Trimmed(prompt), "")], 0))
    case ToStreaming => Transit(g, Streaming)
    case Appending(reply) => Append(g, reply)
    case ToTools(_) => Transit(g, ToolExecution)
    case ToIdle => Transit(g, Idle)
    case Left => g.(running := false)
    case _ => g
  }

  /** Where the driver goes next, given the agent's state and what was decided. */
  function SteppedPc(pc: Pc, state: AgentState, cancelled: bool, d: Decision): Pc {
    match pc
    case LoopHead(prompt) => if cancelled then ToIdle else Prompting(prompt)
    case Prompting(_) => TurnStart
    case TurnStart => InnerHead
    case InnerHead => if cancelled then Failing else ToStreaming
    case ToStreaming => if TransitionErr(state, Streaming).None? then Calling else Failing
    case Appending(reply) =>
      if reply.Assistant? && Calls(reply.content) != [] then ToTools(Calls(reply.content)) else Draining([])
    case ToTools(calls) => if TransitionErr(state, ToolExecution).None? then Tools(calls, 0) else Failing
    case Draining(_) => if d.source == Nothing then ToIdle else LoopHead(d.prompt)
    case Failing => ToIdle
    case ToIdle => Leaving
    case Leaving => Left
    case Left => NoRun
    case _ => pc
  }

  /** The driver's own steps, those that wait for nobody. */
  function Stepped(s: State): State {
    var d := Decide(if s.pc.Draining? then s.pc.cmds else [], s.steer, s.followUps);
    var s' := s.(agent := SteppedAgent(s.agent, s.pc), pc := SteppedPc(s.pc, s.agent.state, s.cancelled, d));
    if s.pc.Draining? then
      s'.(steer := d.steer, followUps := d.followUps,
          ledger := s.ledger.(delivered := s.ledger.delivered + Delivered(d), batches := s.ledger.batches + [s.pc.cmds]))
    else if s.pc.Leaving? then s'.(driverRunning := false)
    else s'
  }

  function ToolDone(s: State, terminal: Terminal, content: seq<Block>, isError: bool, timestamp: int): State
    requires s.pc.Tools? && s.pc.next < |s.pc.calls|
  {
    var c := s.pc.calls[s.pc.next];
    s.(agent := Append(s.agent, ToolResult(c.id, c.name, content, isError, timestamp)),
       pc := if terminal(c.name) then Draining([])
             else if s.pc.next + 1 < |s.pc.calls| then Tools(s.pc.calls, s.pc.next + 1)
             else InnerHead)
  }

  function Apply(c: Config, s: State, a: Action): State
    requires Enabled(s, a)
  {
    match a
    case SetSession => s.(agent := s.agent.(hasSession := true, log := [], history := [s.agent.state]))
    case Prompt(text) => Started(s, text)
    case Continue => Continued(s)
    case Stop => Stopped(s)
    case CancelContext => s.(cancelled := true)
    case Enqueue(cmd) =>
      if EnqueueError(cmd, s.closed, |s.queue|, c.capacity).Some? then s
      else s.(queue := s.queue + [cmd], ledger := s.ledger.(sent := s.ledger.sent + [cmd]))
    case Step => Stepped(s)
    case ProviderFails => s.(pc := Failing)
    case ProviderReplies(reply) => s.(pc := Appending(reply))
    case ToolReplies(content, isError, timestamp) => ToolDone(s, c.terminal, content, isError, timestamp)
    case Receive => s.(queue := s.queue[1..], pc := Draining(s.pc.cmds + [s.queue[0]]))
  }

  // ---- invariants ----

  /** With a session, the history is a path in the transition table that ends where the agent is. */
  ghost predicate GoodHistory(g: Agent) {
    g.hasSession ==> g.history != [] && Path(g.history) && g.history[|g.history| - 1] == g.state
  }

  /** What the driver's position says about the agent, unless the agent was stopped. */
  ghost predicate GoodPosition(s: State) {
    && (!s.pc.NoRun? ==> s.agent.hasSession)
    && (s.pc.Appending? ==> s.pc.reply.Assistant?)
    && (s.agent.state != Exited ==>
          && s.agent.running == !s.pc.NoRun?
          && s.driverRunning == !(s.pc.NoRun? || s.pc.Left?)
          && match s.pc
             case NoRun => s.agent.state == Idle
             case Leaving => s.agent.state == Idle
             case Left => s.agent.state == Idle
             case Calling => s.agent.state == Streaming
             case Appending(_) => s.agent.state == Streaming
             case ToTools(_) => s.agent.state == Streaming
             case Tools(_, _) => s.agent.state == ToolExecution
             case _ => s.agent.state == Idle || s.agent.state == Streaming || s.agent.state == ToolExecution)
  }

  /** What the driver's position says about the log. Results are left owing only by Stop. */
  ghost predicate GoodLog(c: Config, s: State) {
    var st := StatusOf(s.agent.log, c.terminal);
    match s.pc
    case ToTools(calls) => calls != [] && st == Owing(calls, 0)
    case Tools(calls, k) => k < |calls| && st == Owing(calls, k)
    case Failing => st == Quiet || (s.agent.state == Exited && st.Owing?)
    case ToIdle => st == Quiet || (s.agent.state == Exited && st.Owing?)
    case Leaving => st == Quiet || (s.agent.state == Exited && st.Owing?)
    case Left => st == Quiet || (s.agent.state == Exited && st.Owing?)
    case NoRun => st == Quiet || (s.agent.state == Exited && st.Owing?)
    case _ => st == Quiet
  }

  function Flatten<T>(ss: seq<seq<T>>): seq<T> {
    if ss == [] then [] else Flatten(ss[..|ss| - 1]) + ss[|ss| - 1]
  }

  /** All follow-ups that the drained batches admit, in order. */
  function AdmittedIn(batches: seq<seq<Command>>): seq<string> {
    if batches == [] then [] else AdmittedIn(batches[..|batches| - 1]) + Admitted(batches[|batches| - 1])
  }

  /** The batch that the driver is draining. */
  function InHand(pc: Pc): seq<Command> {
    if pc.Draining? then pc.cmds else []
  }

  /** Commands reach the driver in the order they were sent, and follow-ups the provider in the
      order they were admitted; none is lost or doubled on the way. */
  ghost predicate GoodLedger(s: State) {
    && s.ledger.sent == Flatten(s.ledger.batches) + InHand(s.pc) + s.queue
    && s.ledger.delivered + s.followUps == AdmittedIn(s.ledger.batches)
  }

  ghost predicate Inv(c: Config, s: State) {
    GoodHistory(s.agent) && GoodPosition(s) && GoodLog(c, s) && GoodLedger(s)
  }

  // ---- every step keeps them ----

  lemma TransitKeepsHistory(g: Agent, to: AgentState)
    requires GoodHistory(g)
    ensures GoodHistory(Transit(g, to))
  {
  }

  lemma DriverKeepsHistory(g: Agent, pc: Pc)
    requires GoodHistory(g)
    ensures GoodHistory(SteppedAgent(g, pc))
  {
    match pc
    case ToStreaming => TransitKeepsHistory(g, Streaming);
    case ToTools(_) => TransitKeepsHistory(g, ToolExecution);
    case ToIdle => TransitKeepsHistory(g, Idle);
    case _ =>
  }

  lemma StepKeepsHistory(c: Config, s: State, a: Action)
    requires GoodHistory(s.agent) && Enabled(s, a)
    ensures GoodHistory(Apply(c, s, a).agent)
  {
    match a
    case Step =>
      DriverKeepsHistory(s.agent, s.pc);
      assert Apply(c, s, a).agent == SteppedAgent(s.agent, s.pc);
    case Prompt(_) =>
      TransitKeepsHistory(s.agent, Streaming);
      TransitKeepsHistory(Transit(s.agent, Streaming), Idle);
    case Stop => TransitKeepsHistory(s.agent.(running := false), Exited);
    case _ =>
  }

  lemma StepKeepsPosition(c: Config, s: State, a: Action)
    requires GoodPosition(s) && GoodLog(c, s) && Enabled(s, a)
    ensures GoodPosition(Apply(c, s, a))
  {
    match a
    case Step => DriverStepKeepsPosition(c, s);
    case _ =>
  }

  lemma DriverStepKeepsPosition(c: Config, s: State)
    requires GoodPosition(s) && GoodLog(c, s) && Enabled(s, Step)
    ensures GoodPosition(Stepped(s))
  {
  }

  lemma DriverStepKeepsLog(c: Config, s: State)
    requires GoodPosition(s) && GoodLog(c, s) && Enabled(s, Step)
    ensures GoodLog(c, Stepped(s))
  {
    match s.pc
    case Prompting(_) => PromptStepKeepsLog(c, s);
    case Appending(_) => ReplyStepKeepsLog(c, s);
    case _ =>
  }

  lemma PromptStepKeepsLog(c: Config, s: State)
    requires GoodPosition(s) && GoodLog(c, s) && Enabled(s, Step) && s.pc.Prompting?
    ensures GoodLog(c, Stepped(s))
  {
    StatusSnoc(s.agent.log, User([Text(Trimmed(s.pc.prompt), "")], 0), c.terminal);
  }

  lemma ReplyStepKeepsLog(c: Config, s: State)
    requires GoodPosition(s) && GoodLog(c, s) && Enabled(s, Step) && s.pc.Appending?
    ensures GoodLog(c, Stepped(s))
  {
    StatusSnoc(s.agent.log, s.pc.reply, c.terminal);
  }

  lemma StepKeepsLog(c: Config, s: State, a: Action)
    requires GoodPosition(s) && GoodLog(c, s) && Enabled(s, a)
    ensures GoodLog(c, Apply(c, s, a))
  {
    match a
    case Step => DriverStepKeepsLog(c, s);
    case ToolReplies(content, isError, timestamp) =>
      var call := s.pc.calls[s.pc.next];
      StatusSnoc(s.agent.log, ToolResult(call.id, call.name, content, isError, timestamp), c.terminal);
    case _ =>
  }

  lemma FlattenSnoc<T>(ss: seq<seq<T>>, s: seq<T>)
    ensures Flatten(ss + [s]) == Flatten(ss) + s
  {
    assert (ss + [s])[..|ss|] == ss;
  }

  lemma DrainKeepsLedger(s: State)
    requires GoodLedger(s) && s.pc.Draining? && s.queue == []
    ensures GoodLedger(Stepped(s))
  {
    var cmds, held := s.pc.cmds, s.followUps;
    var d := Decide(cmds, s.steer, held);
    DecideConserves(cmds, s.steer, held);
    FlattenSnoc(s.ledger.batches, cmds);
    assert (s.ledger.batches + [cmds])[..|s.ledger.batches|] == s.ledger.batches;
    calc {
      s.ledger.delivered + Delivered(d) + d.followUps;
      s.ledger.delivered + (Delivered(d) + d.followUps);
      s.ledger.delivered + (held + Admitted(cmds));
      s.ledger.delivered + held + Admitted(cmds);
    }
  }

  lemma OtherStepKeepsLedger(s: State)
    requires GoodLedger(s) && !s.pc.Draining?
    ensures GoodLedger(Stepped(s))
  {
    assert InHand(Stepped(s).pc) == [] == InHand(s.pc);
  }

  lemma QueueKeepsLedger(c: Config, s: State, a: Action)
    requires GoodLedger(s) && Enabled(s, a) && (a.Enqueue? || a.Receive?)
    ensures GoodLedger(Apply(c, s, a))
  {
    var done := Flatten(s.ledger.batches);
    if a.Enqueue? {
      assert done + InHand(s.pc) + s.queue + [a.cmd] == done + InHand(s.pc) + (s.queue + [a.cmd]);
    } else {
      assert s.queue == [s.queue[0]] + s.queue[1..];
      assert done + InHand(s.pc) + s.queue == done + (InHand(s.pc) + [s.queue[0]]) + s.queue[1..];
    }
  }

  lemma StepKeepsLedger(c: Config, s: State, a: Action)
    requires GoodPosition(s) && GoodLedger(s) && Enabled(s, a)
    ensures GoodLedger(Apply(c, s, a))
  {
    match a
    case Step =>
      if s.pc.Draining? {
        DrainKeepsLedger(s);
      } else {
        OtherStepKeepsLedger(s);
      }
    case Enqueue(_) => QueueKeepsLedger(c, s, a);
    case Receive => QueueKeepsLedger(c, s, a);
    case _ =>
      assert Apply(c, s, a).ledger == s.ledger && Apply(c, s, a).queue == s.queue;
      assert InHand(Apply(c, s, a).pc) == InHand(s.pc);
  }

  lemma StepKeepsInv(c: Config, s: State, a: Action)
    requires Inv(c, s) && Enabled(s, a)
    ensures Inv(c, Apply(c, s, a))
  {
    StepKeepsHistory(c, s, a);
    StepKeepsPosition(c, s, a);
    StepKeepsLog(c, s, a);
    StepKeepsLedger(c, s, a);
  }

  // ---- whole runs ----

  datatype Run = Run(states: seq<State>, actions: seq<Action>)

  ghost predicate IsRun(c: Config, r: Run) {
    && |r.states| == |r.actions| + 1
    && r.states[0] == INIT
    && forall i :: 0 <= i < |r.actions| ==>
         Enabled(r.states[i], r.actions[i]) && r.states[i + 1] == Apply(c, r.states[i], r.actions[i])
  }

  lemma {:induction false} RunKeepsInv(c: Config, r: Run, i: nat)
    requires IsRun(c, r) && i < |r.states|
    ensures Inv(c, r.states[i])
  {
    if i > 0 {
      RunKeepsInv(c, r, i - 1);
      StepKeepsInv(c, r.states[i - 1], r.actions[i - 1]);
    }
  }

  /** At every moment of every run the state history of the session is a path in the transition
      table that ends at the agent's state. */
  lemma HistoryIsPath(c: Config, r: Run, i: nat)
    requires IsRun(c, r) && i < |r.states| && r.states[i].agent.hasSession
    ensures var g := r.states[i].agent;
            g.history != [] && Path(g.history) && g.history[|g.history| - 1] == g.state
  {
    RunKeepsInv(c, r, i);
  }

  /** The driver never asks for a transition that the table refuses; if it is refused, the agent
      was stopped. */
  lemma DriverIsNeverRefused(c: Config, r: Run, i: nat)
    requires IsRun(c, r) && i < |r.states|
    ensures var s := r.states[i];
            && (s.pc.ToStreaming? ==> TransitionErr(s.agent.state, Streaming).None? || s.agent.state == Exited)
            && (s.pc.ToTools? ==> TransitionErr(s.agent.state, ToolExecution).None? || s.agent.state == Exited)
            && (s.pc.ToIdle? ==> TransitionErr(s.agent.state, Idle).None? || s.agent.state == Exited)
            && s.agent.state != WaitingFollowUp
  {
    RunKeepsInv(c, r, i);
  }

  lemma StepKeepsExited(c: Config, s: State, a: Action)
    requires Inv(c, s) && Enabled(s, a) && s.agent.state == Exited
    ensures Apply(c, s, a).agent.state == Exited
  {
    if a.Step? {
      SteppedStaysExited(s);
    }
  }

  lemma SteppedStaysExited(s: State)
    requires Enabled(s, Step) && s.agent.state == Exited
    ensures Stepped(s).agent.state == Exited
  {
    assert Stepped(s).agent == SteppedAgent(s.agent, s.pc);
  }

  lemma {:induction false} ExitedForever(c: Config, r: Run, i: nat, j: nat)
    requires IsRun(c, r) && i <= j < |r.states| && r.states[i].agent.state == Exited
    ensures r.states[j].agent.state == Exited
    decreases j
  {
    if i < j {
      ExitedForever(c, r, i, j - 1);
      RunKeepsInv(c, r, j - 1);
      StepKeepsExited(c, r.states[j - 1], r.actions[j - 1]);
    }
  }

  /** The log never holds a message out of place, and it owes results only while the driver is
      about to run or is running the tools, or because Stop came in between. */
  lemma LogIsInOrder(c: Config, r: Run, i: nat)
    requires IsRun(c, r) && i < |r.states|
    ensures var s := r.states[i];
            var st := StatusOf(s.agent.log, c.terminal);
            st != Broken && (st.Owing? ==> s.pc.ToTools? || s.pc.Tools? || s.agent.state == Exited)
  {
    RunKeepsInv(c, r, i);
  }

  /** Whenever the driver calls the provider, the transformed log answers every tool call; every
      result the transform made up is the one result for a call that a terminal tool cut off, and
      stands in its block; and if no answer ended in an error, each block is exactly as BlockIs
      says. */
  lemma ProviderSeesAnswers(c: Config, r: Run, i: nat, target: Model, now: int)
    requires IsRun(c, r) && i < |r.states| && r.states[i].pc.Calling?
    ensures AllAnswered(Transformed(r.states[i].agent.log, target, None, now))
    ensures var log := r.states[i].agent.log;
            var slots := FillAll(Rewrite(log, target, None).out, now);
            forall k :: 0 <= k < |slots| && slots[k].Made? ==> ForCutOff(log, slots, target, c.terminal, k)
    ensures var log := r.states[i].agent.log;
            AllRetained(log) ==> forall a: nat :: a < |log| && log[a].Assistant? ==>
              exists n: nat :: BlockIs(log, target, c.terminal, a, n)
  {
    RunKeepsInv(c, r, i);
    var log := r.states[i].agent.log;
    assert StatusOf(log, c.terminal) == Quiet;
    TransformAnswersAll(log, target, None, now);
    QuietNeedsLittle(log, target, c.terminal, now);
    if AllRetained(log) {
      forall a: nat | a < |log| && log[a].Assistant?
        ensures exists n: nat :: BlockIs(log, target, c.terminal, a, n)
      {
        var n := QuietBlock(log, target, c.terminal, a);
      }
    }
  }

  /** Across all runs: the commands drained so far, in hand and queued are the commands sent, in
      order; the follow-ups delivered so far and held are the admitted ones, in order. */
  lemma FollowUpsAreConserved(c: Config, r: Run, i: nat)
    requires IsRun(c, r) && i < |r.states|
    ensures var s := r.states[i];
            && s.ledger.sent == Flatten(s.ledger.batches) + InHand(s.pc) + s.queue
            && s.ledger.delivered + s.followUps == AdmittedIn(s.ledger.batches)
  {
    RunKeepsInv(c, r, i);
  }

  /** A follow-up is delivered one at a time, as the next prompt, and only when the steers drained
      with it and before it left none pending. */
  lemma DeliveredOnlyWithoutSteer(c: Config, r: Run, i: nat)
    requires IsRun(c, r) && i < |r.actions|
    requires r.states[i + 1].ledger.delivered != r.states[i].ledger.delivered
    ensures var s, s' := r.states[i], r.states[i + 1];
            && s.pc.Draining? && s'.pc.LoopHead?
            && s'.ledger.delivered == s.ledger.delivered + [s'.pc.prompt]
            && Absorb(s.pc.cmds, s.steer, s.followUps).steer == "" && s'.steer == ""
  {
    var s, a := r.states[i], r.actions[i];
    assert r.states[i + 1] == Apply(c, s, a);
    assert a.Step? && s.pc.Draining?;
    DecideConserves(s.pc.cmds, s.steer, s.followUps);
  }
}
