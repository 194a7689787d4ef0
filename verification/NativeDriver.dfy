/** The agent's record and the native driver's loop as the code runs them, one run at a time,
    against the functions of DriverRuns. Interleavings with other callers are the subject of
    AgentProtocol. */
module NativeDrivers {
  import opened Wrappers
  import opened Whitespace
  import opened Conversation
  import opened Transform
  import opened ControlQueues
  import opened AgentProtocol
  import opened DriverRuns

  class AgentRecord {
    var state: AgentState
    var history: seq<AgentState>
    var hasSession: bool
    var log: seq<Message>
    var running: bool

    function View(): Agent
      reads this
    {
      Agent(state, history, hasSession, log, running)
    }

    constructor ()
      ensures View() == INIT.agent
    {
      state, history, hasSession, log, running := Idle, [], false, [], false;
    }

    /** Takes over a session's log and history, or drops the session. */
    method SetSession(session: Option<(seq<Message>, seq<AgentState>)>)
      modifies this`hasSession, this`log, this`history
      ensures session.None? ==> View() == old(View()).(hasSession := false)
      ensures session.Some? ==>
                View() == old(View()).(hasSession := true, log := session.value.0,
                                       history := if session.value.1 == [] then [state] else session.value.1)
      ensures session.Some? && session.value.1 == [] ==> GoodHistory(View())
    {
      if session.None? {
        hasSession := false;
        return;
      }
      hasSession, log, history := true, session.value.0, session.value.1;
      if |history| == 0 {
        history := history + [state];
      }
    }

    method Transition(to: AgentState) returns (err: Option<TransitionError>)
      modifies this`state, this`history
      ensures err == TransitionErr(old(state), to)
      ensures View() == Transit(old(View()), to)
      ensures old(GoodHistory(View())) ==> GoodHistory(View())
    {
      var from := state;
      if from == Exited {
        return Some(StoppedError);
      }
      if from == to {
        return None;
      }
      if !ValidTransition(from, to) {
        return Some(InvalidStateError(from, to));
      }
      state := to;
      if hasSession {
        history := history + [to];
      }
      return None;
    }

    method AppendConversation(m: Message) returns (err: bool)
      modifies this`log
      ensures err == !hasSession
      ensures log == if err then old(log) else old(log) + [m]
    {
      if !hasSession {
        return true;
      }
      log := log + [m];
      return false;
    }
  }

  method LookupTool(tools: seq<Tool>, name: string) returns (tool: Option<Tool>)
    ensures tool == ToolNamed(tools, name)
  {
    for i := 0 to |tools|
      invariant ToolNamed(tools[i..], name) == ToolNamed(tools, name)
    {
      if tools[i].name == name {
        return Some(tools[i]);
      }
      assert tools[i..][1..] == tools[i + 1..];
    }
    return None;
  }

  class NativeDriver {
    const agent: AgentRecord
    const queue: ControlQueue
    const steering: Steering
    const tools: seq<Tool>
    const model: Model
    var turn: nat
    /** What the provider was given at each call. */
    var contexts: seq<seq<Message>>

    constructor (agent: AgentRecord, queue: ControlQueue, tools: seq<Tool>, model: Model)
      ensures this.agent == agent && this.queue == queue && this.tools == tools && this.model == model
      ensures turn == 0 && contexts == [] && fresh(steering)
      ensures steering.pendingSteer == "" && steering.followUps == []
    {
      this.agent := agent;
      this.queue := queue;
      this.tools := tools;
      this.model := model;
      turn, contexts := 0, [];
      this.steering := new Steering();
    }

    method AppendUserMessage(prompt: string, time: int)
      requires agent.hasSession
      modifies agent`log
      ensures agent.log == old(agent.log) + PromptMessages(prompt, time)
    {
      var trimmed := Trimmed(prompt);
      if trimmed == "" {
        return;
      }
      var _ := agent.AppendConversation(User([Text(trimmed, "")], time));
    }

    /** Runs one tool and logs its result, also when there is no such tool or it fails. */
    method ExecuteTool(c: ToolCall, outcome: Outcome, time: int) returns (err: bool)
      modifies agent`log
      ensures err == !agent.hasSession
      ensures agent.log == if err then old(agent.log) else old(agent.log) + [ResultOf(tools, c, outcome, time)]
    {
      var tool := LookupTool(tools, c.name);
      if tool.None? {
        err := agent.AppendConversation(ToolResult(c.id, c.name, [Text("tool not found: " + c.name, "")], true, time));
        return;
      }
      var content, isError := outcome.content, outcome.isError;
      if outcome.err.Some? {
        isError := true;
        if |content| == 0 {
          content := [Text(outcome.err.value, "")];
        }
      }
      err := agent.AppendConversation(ToolResult(c.id, c.name, content, isError, time));
    }

    /** The tool loop of one provider answer. */
    method ExecuteTools(calls: seq<ToolCall>, outcomes: ToolCall -> Outcome, time: int) returns (terminal: bool)
      requires agent.hasSession
      modifies agent`log
      ensures agent.log == old(agent.log) + ResultsOf(tools, calls, outcomes, time)
      ensures terminal == AnyTerminal(tools, calls)
    {
      ghost var all := old(agent.log) + ResultsOf(tools, calls, outcomes, time);
      assert calls[0..] == calls;
      for i := 0 to |calls|
        modifies agent`log
        invariant agent.log + ResultsOf(tools, calls[i..], outcomes, time) == all
        invariant forall k :: 0 <= k < i ==> !IsTerminal(tools, calls[k].name)
      {
        ResultsStep(tools, agent.log, calls, i, outcomes, time);
        var _ := ExecuteTool(calls[i], outcomes(calls[i]), time);
        var tool := LookupTool(tools, calls[i].name);
        if tool.Some? && tool.value.terminal {
          assert agent.log + [] == agent.log;
          return true;
        }
      }
      assert agent.log + [] == agent.log;
      return false;
    }

    /** Logs an answer and runs its tools. */
    method OneReply(reply: Reply) returns (failed: bool, ended: bool)
      requires agent.hasSession && reply.message.Assistant?
      modifies agent
      ensures (agent.View(), failed) == Replied(tools, old(agent.View()), reply)
      ensures !failed ==> ended == EndsTurn(tools, reply)
    {
      var _ := agent.AppendConversation(reply.message);
      var calls := ExtractToolCalls(reply.message);
      if |calls| == 0 {
        return false, true;
      }
      var error := agent.Transition(ToolExecution);
      if error.Some? {
        return true, true;
      }
      ended := ExecuteTools(calls, reply.outcomes, reply.time);
      return false, ended;
    }

    /** Transforms the log for the provider. */
    method CallProvider(now: int)
      modifies this`contexts
      ensures contexts == old(contexts) + [Transformed(agent.log, model, None, now)]
    {
      var context := TransformMessages(agent.log, model, None, now);
      contexts := contexts + [context];
    }

    function View(): Desk
      reads this, agent
    {
      Desk(agent.View(), contexts)
    }

    /** Enters streaming and sends the log, unless the state refuses. */
    method AskProvider(now: int) returns (refused: bool)
      requires agent.hasSession
      modifies agent, this`contexts
      ensures refused == TransitionErr(old(agent.state), Streaming).Some?
      ensures View() == if refused then old(View()) else Asked(model, now, old(View()))
    {
      var error := agent.Transition(Streaming);
      if error.Some? {
        return true;
      }
      CallProvider(now);
      return false;
    }

    /** One pass of the turn's loop: the turn is over, or it goes on from here to the same end. */
    method OnePass(script: seq<Reply>, now: int, ending: Ending) returns (over: bool, failed: bool, rest: seq<Reply>)
      requires agent.hasSession && AllAssistant(script)
      modifies agent, this`contexts
      ensures agent.hasSession
      ensures var t := Turn(Setup(tools, model, now, ending), old(View()), script);
              if over then Turned(View(), failed, rest) == t
              else |rest| < |script| && AllAssistant(rest) && Turn(Setup(tools, model, now, ending), View(), rest) == t
    {
      if |script| == 0 && !ending.CallFails? {
        return true, true, script;
      }
      failed := AskProvider(now);
      if failed || |script| == 0 {
        return true, true, script;
      }
      failed, over := OneReply(script[0]);
      return over || failed, failed, script[1..];
    }

    method ExecuteSingleTurn(script: seq<Reply>, now: int, ending: Ending) returns (failed: bool, rest: seq<Reply>)
      requires agent.hasSession && AllAssistant(script)
      modifies agent, this`turn, this`contexts
      ensures turn == old(turn) + 1 && agent.hasSession
      ensures Turned(View(), failed, rest) == Turn(Setup(tools, model, now, ending), old(View()), script)
    {
      turn := turn + 1;
      failed, rest := false, script;
      var over := false;
      while !over
        invariant agent.hasSession && turn == old(turn) + 1 && AllAssistant(rest)
        invariant var t := Turn(Setup(tools, model, now, ending), old(View()), script);
                  if over then Turned(View(), failed, rest) == t else Turn(Setup(tools, model, now, ending), View(), rest) == t
        decreases !over, |rest|
      {
        over, failed, rest := OnePass(rest, now, ending);
      }
    }

    /** A turn with its prompt. */
    method PromptedTurn(prompt: string, script: seq<Reply>, now: int, ending: Ending) returns (failed: bool, rest: seq<Reply>)
      requires agent.hasSession && AllAssistant(script)
      modifies agent, this`turn, this`contexts
      ensures turn == old(turn) + 1 && agent.hasSession
      ensures var p := Setup(tools, model, now, ending);
              Turned(View(), failed, rest) == Turn(p, Prompted(p, old(View()), prompt), script)
    {
      if prompt != "" {
        AppendUserMessage(prompt, now);
      }
      assert prompt == "" ==> old(agent.log) + PromptMessages(prompt, now) == old(agent.log);
      failed, rest := ExecuteSingleTurn(script, now, ending);
    }

    function Waiting(): Pending
      reads steering, queue
    {
      Pending(steering.pendingSteer, steering.followUps, queue.ch)
    }

    /** One turn of a run, and what to do next. */
    method Advance(prompt: string, script: seq<Reply>, now: int, ending: Ending)
      returns (failed: bool, done: bool, next: string, rest: seq<Reply>)
      requires agent.hasSession && AllAssistant(script) && queue.Valid()
      modifies agent, this`turn, this`contexts, steering, queue`ch
      ensures turn == old(turn) + 1 && agent.hasSession && queue.Valid()
      ensures var p := Setup(tools, model, now, ending);
              Turned(View(), failed, rest) == Turn(p, Prompted(p, old(View()), prompt), script)
      ensures var d := Decided(old(Waiting()));
              if failed then Waiting() == old(Waiting())
              else Waiting() == Remaining(old(Waiting())) && done == d.source.Nothing? && next == d.prompt
    {
      done, next := true, "";
      failed, rest := PromptedTurn(prompt, script, now, ending);
      if !failed {
        next, done := steering.NextPromptFromControlQueue(queue);
      }
    }

    /** A run from its prompt until nothing is left to do: where it ends, what is left waiting and
        how many turns it took. */
    method Run(initialPrompt: string, script: seq<Reply>, now: int, ending: Ending)
      requires agent.hasSession && AllAssistant(script) && queue.Valid()
      modifies agent, this`turn, this`contexts, steering, queue`ch
      ensures var d := Drive(Setup(tools, model, now, ending), old(View()), initialPrompt, script, old(Waiting()));
              && View() == d.desk.(agent := AtRest(d.desk.agent)) && Waiting() == d.pending && turn == old(turn) + d.turns
    {
      ghost var p := Setup(tools, model, now, ending);
      ghost var d := Drive(p, View(), initialPrompt, script, Waiting());
      var next, rest := initialPrompt, script;
      while true
        invariant agent.hasSession && AllAssistant(rest) && queue.Valid()
        invariant SameEnd(Drive(p, View(), next, rest, Waiting()), turn, d, old(turn))
        decreases |rest|
      {
        if |rest| == 0 && ending.CancelledBetweenTurns? {
          break;
        }
        var failed, done;
        failed, done, next, rest := Advance(next, rest, now, ending);
        if failed || done {
          break;
        }
      }
      var _ := agent.Transition(Idle);
      agent.running := false;
    }
  }

  /** The two runs end the same way, each counted from its own turn. */
  ghost predicate SameEnd(a: Driven, turnA: nat, b: Driven, turnB: nat) {
    a.desk == b.desk && a.pending == b.pending && turnA + a.turns == turnB + b.turns
  }
}
