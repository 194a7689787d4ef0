/** One proxied session of the orchestrator: what each API call and health check does to
    its record, first as functions on values and then as the methods of the shared object
    that proxy.go and health.go update under the entry's lock. */
module SessionEntries {
  import opened Wrappers
  import opened Whitespace

  datatype SessionState = Creating | Active | Paused | Unhealthy | Destroyed

  datatype Placement = AgentDirect | AgentSandbox | ToolsSandbox

  /** A connection handle to the agent service that backs a session. */
  type Service = nat

  datatype RpcError =
    | Unavailable(detail: Option<string>)
    | FailedPrecondition(state: SessionState)
    | ResourceExhausted
    | AlreadyExists
    | NotFound
    | Internal
    | Backend(message: string)

  /** The fields of a session record that some operation reads or writes. `control` says
      whether the record holds a sandbox controller. */
  datatype Entry = Entry(
    sessionId: string,
    remoteSessionId: string,
    placement: Placement,
    sandboxId: string,
    processId: string,
    control: bool,
    service: Option<Service>,
    state: SessionState,
    healthFailures: nat,
    healthErr: Option<string>)

  /** What the sandbox controller answers while a session is paused. */
  datatype PauseReply = PauseReply(canPause: bool, error: Option<string>)

  /** What the controller and the service factory answer while a session is resumed. */
  datatype ResumeReply = ResumeReply(
    error: Option<string>,
    launched: Result<string, string>,
    connected: Result<Service, string>)

  /** The calls the orchestrator makes to the outside, in the order it makes them. Those that
      acquire something are listed when they succeed, the others when they are made. */
  datatype Call =
    | CreatedSandbox(sandbox: string)
    | LaunchedProcess(sandbox: string, process: string)
    | OpenedService(service: Service)
    | CreatedRemote(service: Service, name: string)
    | AbortedTurn(service: Service, name: string)
    | SuspendedSandbox(sandbox: string)
    | ResumedSandbox(sandbox: string)
    | DestroyedRemote(service: Service, name: string)
    | ClosedService(service: Service)
    | KilledProcess(sandbox: string, process: string)
    | DestroyedSandbox(sandbox: string)
    | ClosedLoop
    | ClosedDirect
    | ClosedNode

  /** The backend's name of the session, or the client's name where the backend gave none. */
  function RemoteName(e: Entry): string {
    if Blank(e.remoteSessionId) then e.sessionId else e.remoteSessionId
  }

  // ---- operations on values ----

  function ProxyTarget(e: Entry): Result<(string, Service), RpcError> {
    if e.state == Unhealthy then Err(Unavailable(e.healthErr))
    else if e.service.None? then Err(Internal)
    else Ok((RemoteName(e), e.service.value))
  }

  /** Health checks skip sessions in these states, both before and after the probe. */
  predicate Skipped(s: SessionState) {
    s == Creating || s == Paused || s == Destroyed
  }

  /** The write half of a health check, given what the probe found. */
  function AfterProbe(e: Entry, probe: Option<string>): Entry {
    if Skipped(e.state) then e
    else if probe.Some? then
      e.(healthFailures := e.healthFailures + 1, healthErr := probe, state := Unhealthy)
    else
      e.(healthFailures := 0, healthErr := None, state := Active)
  }

  function PauseError(e: Entry, reply: PauseReply): Option<RpcError> {
    if e.state != Active then Some(FailedPrecondition(e.state))
    else if !e.control then Some(Internal)
    else if reply.canPause && e.placement == AgentDirect && e.service.None? then Some(Internal)
    else if reply.error.Some? then Some(Backend(reply.error.value))
    else None
  }

  function AfterPause(e: Entry, reply: PauseReply): Entry {
    if PauseError(e, reply).Some? then e else e.(state := Paused)
  }

  /** A pause that loses the agent's process stops its turn first. */
  function PauseCalls(e: Entry, reply: PauseReply): seq<Call> {
    if e.state != Active || !e.control then []
    else
      var lossy := reply.canPause && e.placement == AgentDirect;
      if lossy && e.service.None? then []
      else
        (if lossy then [AbortedTurn(e.service.value, e.remoteSessionId)] else [])
        + (if reply.error.Some? then [] else [SuspendedSandbox(e.sandboxId)])
  }

  function ResumeError(e: Entry, reply: ResumeReply): Option<RpcError> {
    if e.state != Paused then Some(FailedPrecondition(e.state))
    else if !e.control then Some(Internal)
    else if reply.error.Some? then Some(Backend(reply.error.value))
    else if e.placement != AgentDirect then None
    else if reply.launched.Err? then Some(Backend(reply.launched.error))
    else if reply.connected.Err? then Some(Backend(reply.connected.error))
    else None
  }

  function AfterResume(e: Entry, reply: ResumeReply): Entry {
    if ResumeError(e, reply).Some? then e
    else
      var back := e.(state := Active, healthFailures := 0, healthErr := None);
      if e.placement == AgentDirect && reply.launched.Ok? && reply.connected.Ok? then
        back.(processId := reply.launched.value, service := Some(reply.connected.value))
      else back
  }

  /** A process that was launched and could not be reached is killed again; a connection that
      is replaced is closed. */
  function ResumeCalls(e: Entry, reply: ResumeReply): seq<Call> {
    if e.state != Paused || !e.control || reply.error.Some? then []
    else if e.placement != AgentDirect || reply.launched.Err? then [ResumedSandbox(e.sandboxId)]
    else
      var up := [ResumedSandbox(e.sandboxId), LaunchedProcess(e.sandboxId, reply.launched.value)];
      if reply.connected.Err? then up + [KilledProcess(e.sandboxId, reply.launched.value)]
      else
        up + [OpenedService(reply.connected.value)]
        + (if e.service.Some? then [ClosedService(e.service.value)] else [])
  }

  // ---- what the record means ----

  /** A session that is offered to callers has a clean health record, and a session that is
      refused to them says why. */
  ghost predicate HealthCoherent(e: Entry) {
    && (e.state == Active || e.state == Paused ==> e.healthFailures == 0 && e.healthErr == None)
    && (e.state == Unhealthy ==> e.healthFailures > 0 && e.healthErr.Some?)
  }

  /** The identity of a session never changes once its record exists. */
  ghost predicate SameIdentity(e: Entry, e': Entry) {
    && e'.sessionId == e.sessionId
    && e'.remoteSessionId == e.remoteSessionId
    && e'.placement == e.placement
    && e'.sandboxId == e.sandboxId
    && e'.control == e.control
  }

  /** A run of probe verdicts on one session. */
  function AfterProbes(e: Entry, probes: seq<Option<string>>): Entry {
    if probes == [] then e else AfterProbe(AfterProbes(e, probes[..|probes| - 1]), probes[|probes| - 1])
  }

  /** How many of the last verdicts were failures. */
  function FailedTail(probes: seq<Option<string>>): nat {
    if probes == [] || probes[|probes| - 1].None? then 0 else FailedTail(probes[..|probes| - 1]) + 1
  }

  /** Only the last verdict decides whether a checked session is proxied, and the count is the
      length of the failing tail, on top of the old count if nothing ever succeeded. */
  lemma {:induction false} LastProbeDecides(e: Entry, probes: seq<Option<string>>)
    requires probes != [] && !Skipped(e.state) && e.service.Some?
    ensures var last, after := probes[|probes| - 1], AfterProbes(e, probes);
            && ProxyTarget(after) == (if last.Some? then Err(Unavailable(last)) else Ok((RemoteName(e), e.service.value)))
            && after.healthFailures == FailedTail(probes) + (if FailedTail(probes) == |probes| then e.healthFailures else 0)
            && !Skipped(after.state) && HealthCoherent(after) && after.service == e.service && RemoteName(after) == RemoteName(e)
  {
    if |probes| > 1 {
      LastProbeDecides(e, probes[..|probes| - 1]);
    }
  }

  /** The session record as proxy.go and health.go share it. Each method body runs under the
      entry's lock. */
  class SessionEntry {
    const sessionId: string
    const placement: Placement
    const createdAt: int
    var remoteSessionId: string
    var sandboxId: string
    var processId: string
    var control: bool
    var service: Option<Service>
    var state: SessionState
    var healthFailures: nat
    var healthErr: Option<string>

    function View(): Entry
      reads this
    {
      Entry(sessionId, remoteSessionId, placement, sandboxId, processId, control, service,
            state, healthFailures, healthErr)
    }

    constructor (sessionId: string, placement: Placement, createdAt: int)
      ensures this.createdAt == createdAt
      ensures View() == Entry(sessionId, "", placement, "", "", false, None, Creating, 0, None)
    {
      this.sessionId := sessionId;
      this.placement := placement;
      this.createdAt := createdAt;
      remoteSessionId, sandboxId, processId := "", "", "";
      control, service := false, None;
      state, healthFailures, healthErr := Creating, 0, None;
    }

    method SnapshotProxyTarget() returns (r: Result<(string, Service), RpcError>)
      ensures r == ProxyTarget(View())
      ensures state == Unhealthy ==> r == Err(Unavailable(healthErr))
      ensures r.Ok? ==> service == Some(r.value.1) && (r.value.0 == sessionId || !Blank(r.value.0))
    {
      if state == Unhealthy {
        return Err(Unavailable(healthErr));
      }
      if service.None? {
        return Err(Internal);
      }
      var remote := remoteSessionId;
      if Blank(remote) {
        remote := sessionId;
      }
      return Ok((remote, service.value));
    }

    /** Writes a probe's verdict back. The session may have been paused, destroyed or probed
        by another check since this check read it. */
    method FinishHealthCheck(probe: Option<string>)
      modifies this
      ensures View() == AfterProbe(old(View()), probe)
      ensures old(HealthCoherent(View())) ==> HealthCoherent(View())
    {
      if state == Creating || state == Paused || state == Destroyed {
        return;
      }
      if probe.Some? {
        healthFailures := healthFailures + 1;
        healthErr := probe;
        state := Unhealthy;
        return;
      }
      healthFailures := 0;
      healthErr := None;
      state := Active;
    }

    method Pause(reply: PauseReply) returns (err: Option<RpcError>, calls: seq<Call>)
      modifies this
      ensures err == PauseError(old(View()), reply) && calls == PauseCalls(old(View()), reply)
      ensures View() == AfterPause(old(View()), reply)
      ensures old(HealthCoherent(View())) ==> HealthCoherent(View())
    {
      calls := [];
      if state != Active {
        return Some(FailedPrecondition(state)), calls;
      }
      if !control {
        return Some(Internal), calls;
      }
      if reply.canPause && placement == AgentDirect {
        if service.None? {
          return Some(Internal), calls;
        }
        calls := calls + [AbortedTurn(service.value, remoteSessionId)];
      }
      if reply.error.Some? {
        return Some(Backend(reply.error.value)), calls;
      }
      calls := calls + [SuspendedSandbox(sandboxId)];
      state := Paused;
      return None, calls;
    }

    method Resume(reply: ResumeReply) returns (err: Option<RpcError>, calls: seq<Call>)
      modifies this
      ensures err == ResumeError(old(View()), reply) && calls == ResumeCalls(old(View()), reply)
      ensures View() == AfterResume(old(View()), reply)
      ensures old(HealthCoherent(View())) ==> HealthCoherent(View())
    {
      calls := [];
      if state != Paused {
        return Some(FailedPrecondition(state)), calls;
      }
      if !control {
        return Some(Internal), calls;
      }
      if reply.error.Some? {
        return Some(Backend(reply.error.value)), calls;
      }
      calls := calls + [ResumedSandbox(sandboxId)];
      if placement == AgentDirect {
        if reply.launched.Err? {
          return Some(Backend(reply.launched.error)), calls;
        }
        calls := calls + [LaunchedProcess(sandboxId, reply.launched.value)];
        if reply.connected.Err? {
          calls := calls + [KilledProcess(sandboxId, reply.launched.value)];
          return Some(Backend(reply.connected.error)), calls;
        }
        calls := calls + [OpenedService(reply.connected.value)];
        if service.Some? {
          calls := calls + [ClosedService(service.value)];
        }
        processId := reply.launched.value;
        service := Some(reply.connected.value);
      }
      state := Active;
      healthFailures := 0;
      healthErr := None;
      return None, calls;
    }
  }
}
