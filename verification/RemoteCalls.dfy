/** What the orchestrator acquires from the outside and gives back: creation with its
    compensations, resumption and teardown. */
module RemoteCalls {
  import opened Wrappers
  import opened Whitespace
  import opened SessionEntries

  /** What the outside answers while one session is created. */
  datatype Replies = Replies(
    sandbox: Result<string, string>,
    launch: Result<string, string>,
    connect: Result<Service, string>,
    remote: Result<string, string>)

  /** The name the backend goes by. */
  function NameFrom(sid: string, reply: string): string {
    if Blank(reply) then sid else reply
  }

  /** Undoing a session that the backend may have. */
  function Abandoning(v: Service, name: string, sb: string, p: string): seq<Call> {
    [DestroyedRemote(v, name), ClosedService(v), KilledProcess(sb, p), DestroyedSandbox(sb)]
  }

  /** The calls from the connection on. */
  function SessionCalls(sid: string, sb: string, p: string, v: Service, remote: Result<string, string>, refused: bool): seq<Call> {
    if remote.Err? then [OpenedService(v)] + Abandoning(v, sid, sb, p)
    else
      var name := NameFrom(sid, remote.value);
      [OpenedService(v), CreatedRemote(v, name)] + if refused then Abandoning(v, name, sb, p) else []
  }

  /** The calls that a creation of an agent-direct or agent-sandbox session leaves behind, given
      what addSession says about it at the end. */
  function CreationCalls(sid: string, rs: Replies, refused: bool): seq<Call> {
    if rs.sandbox.Err? then []
    else
      var sb := rs.sandbox.value;
      if rs.launch.Err? then [CreatedSandbox(sb), DestroyedSandbox(sb)]
      else
        var p := rs.launch.value;
        [CreatedSandbox(sb), LaunchedProcess(sb, p)]
        + if rs.connect.Err? then [KilledProcess(sb, p), DestroyedSandbox(sb)]
          else SessionCalls(sid, sb, p, rs.connect.value, rs.remote, refused)
  }

  /** What the outside answers while a failed creation is undone. */
  datatype UndoReplies = UndoReplies(remote: Option<string>, close: Option<string>, kill: Option<string>, sandbox: Option<string>)

  /** The errors among these answers, in order. */
  function Joined(fs: seq<Option<string>>): seq<RpcError> {
    if fs == [] then []
    else
      var last := fs[|fs| - 1];
      Joined(fs[..|fs| - 1]) + if last.Some? then [Backend(last.value)] else []
  }

  function AbandonErrors(u: UndoReplies): seq<RpcError> {
    Joined([u.remote, u.close, u.kill, u.sandbox])
  }

  /** The errors from the connection on, given the refusal of addSession, if any. */
  function SessionErrors(remote: Result<string, string>, refusal: Option<RpcError>, u: UndoReplies): seq<RpcError> {
    if remote.Err? then [Backend(remote.error)] + AbandonErrors(u)
    else if refusal.Some? then [refusal.value] + AbandonErrors(u)
    else []
  }

  /** The errors that a creation returns: its cause, joined with those of the compensating calls. */
  function CreationErrors(rs: Replies, refusal: Option<RpcError>, u: UndoReplies): seq<RpcError> {
    if rs.sandbox.Err? then [Backend(rs.sandbox.error)]
    else if rs.launch.Err? then [Backend(rs.launch.error)] + Joined([u.sandbox])
    else if rs.connect.Err? then [Backend(rs.connect.error)] + Joined([u.kill, u.sandbox])
    else SessionErrors(rs.remote, refusal, u)
  }

  predicate Succeeds(rs: Replies, refused: bool) {
    rs.sandbox.Ok? && rs.launch.Ok? && rs.connect.Ok? && rs.remote.Ok? && !refused
  }

  /** Stopping the agent: its session, then its process. */
  function AgentCalls(e: Entry): seq<Call> {
    (if e.service.Some? then [DestroyedRemote(e.service.value, RemoteName(e))] else [])
    + (if e.processId != "" && e.control then [KilledProcess(e.sandboxId, e.processId)] else [])
  }

  /** Then the sandbox and the connection. */
  function SandboxCalls(e: Entry): seq<Call> {
    (if e.sandboxId != "" && e.control then [DestroyedSandbox(e.sandboxId)] else [])
    + (if e.service.Some? then [ClosedService(e.service.value)] else [])
  }

  function TeardownCalls(e: Entry): seq<Call> {
    AgentCalls(e) + SandboxCalls(e)
  }

  /** A failed call; some faults of a teardown do not matter. */
  datatype Fault = Fault(message: string, ignorable: bool)

  datatype TeardownReplies = TeardownReplies(
    remote: Option<Fault>,
    kill: Option<Fault>,
    sandbox: Option<Fault>,
    close: Option<Fault>)

  function Reported(f: Option<Fault>): seq<string> {
    if f.Some? && !f.value.ignorable then [f.value.message] else []
  }

  function AgentErrors(e: Entry, rs: TeardownReplies): seq<string> {
    (if e.service.Some? then Reported(rs.remote) else [])
    + (if e.processId != "" && e.control then Reported(rs.kill) else [])
  }

  /** A failed close always counts. */
  function SandboxErrors(e: Entry, rs: TeardownReplies): seq<string> {
    (if e.sandboxId != "" && e.control then Reported(rs.sandbox) else [])
    + (if e.service.Some? && rs.close.Some? then [rs.close.value.message] else [])
  }

  /** The errors a teardown returns: every step is tried whatever the others answer. */
  function TeardownErrors(e: Entry, rs: TeardownReplies): seq<string> {
    AgentErrors(e, rs) + SandboxErrors(e, rs)
  }

  /** What Close itself owns: the loop service, and controllers that can be closed. */
  datatype Owned = Owned(loop: bool, direct: bool, node: bool)

  datatype OwnedReplies = OwnedReplies(loop: Option<string>, direct: Option<string>, node: Option<string>)

  function OwnedCalls(o: Owned): seq<Call> {
    (if o.loop then [ClosedLoop] else []) + (if o.direct then [ClosedDirect] else []) + (if o.node then [ClosedNode] else [])
  }

  function OwnedErrors(o: Owned, rs: OwnedReplies): seq<string> {
    (if o.loop && rs.loop.Some? then [rs.loop.value] else [])
    + (if o.direct && rs.direct.Some? then [rs.direct.value] else [])
    + (if o.node && rs.node.Some? then [rs.node.value] else [])
  }

  // ---- what is held ----

  /** What is held after one more call. */
  function Tally(held: set<Call>, c: Call): set<Call> {
    match c
    case CreatedSandbox(_) => held + {c}
    case LaunchedProcess(_, _) => held + {c}
    case OpenedService(_) => held + {c}
    case CreatedRemote(_, _) => held + {c}
    case DestroyedRemote(v, name) => held - {CreatedRemote(v, name)}
    case ClosedService(v) => held - {OpenedService(v)}
    case KilledProcess(sb, p) => held - {LaunchedProcess(sb, p)}
    case DestroyedSandbox(sb) => held - {CreatedSandbox(sb)}
    case _ => held
  }

  /** What is held after a list of calls. */
  function Held(before: set<Call>, calls: seq<Call>): set<Call>
    decreases |calls|
  {
    if calls == [] then before else Held(Tally(before, calls[0]), calls[1..])
  }

  lemma {:induction false} HeldThen(before: set<Call>, a: seq<Call>, b: seq<Call>)
    ensures Held(before, a + b) == Held(Held(before, a), b)
    decreases |a|
  {
    if a == [] {
      assert a + b == b;
    } else {
      assert (a + b)[0] == a[0] && (a + b)[1..] == a[1..] + b;
      HeldThen(Tally(before, a[0]), a[1..], b);
    }
  }

  lemma HeldAfterTwo(before: set<Call>, a: Call, b: Call)
    ensures Held(before, [a, b]) == Tally(Tally(before, a), b)
  {
    assert [a, b][1..] == [b];
    assert Held(Tally(before, a), [b]) == Held(Tally(Tally(before, a), b), [b][1..]);
  }

  lemma HeldAfterThree(before: set<Call>, a: Call, b: Call, c: Call)
    ensures Held(before, [a, b, c]) == Tally(Tally(Tally(before, a), b), c)
  {
    assert [a, b, c][1..] == [b, c];
    HeldAfterTwo(Tally(before, a), b, c);
  }

  /** The sandbox, the process, the connection and the remote session of a creation. */
  function Acquired(sid: string, rs: Replies): set<Call>
    requires Succeeds(rs, false)
  {
    {CreatedSandbox(rs.sandbox.value), LaunchedProcess(rs.sandbox.value, rs.launch.value),
     OpenedService(rs.connect.value), CreatedRemote(rs.connect.value, NameFrom(sid, rs.remote.value))}
  }

  /** A creation either fails and gives back all it acquired, whichever step failed, or succeeds
      and keeps exactly its sandbox, its process, its connection and its remote session. */
  lemma CreationGivesBack(sid: string, rs: Replies, refused: bool)
    ensures Held({}, CreationCalls(sid, rs, refused)) == if Succeeds(rs, refused) then Acquired(sid, rs) else {}
  {
    if rs.sandbox.Ok? {
      var sb := rs.sandbox.value;
      if rs.launch.Err? {
        HeldAfterTwo({}, CreatedSandbox(sb), DestroyedSandbox(sb));
      } else {
        Launched(sid, rs, refused, sb, rs.launch.value);
      }
    }
  }

  lemma Launched(sid: string, rs: Replies, refused: bool, sb: string, p: string)
    requires rs.sandbox == Ok(sb) && rs.launch == Ok(p)
    ensures Held({}, CreationCalls(sid, rs, refused)) == if Succeeds(rs, refused) then Acquired(sid, rs) else {}
  {
    var up, both := [CreatedSandbox(sb), LaunchedProcess(sb, p)], {CreatedSandbox(sb), LaunchedProcess(sb, p)};
    HeldAfterTwo({}, up[0], up[1]);
    assert Held({}, up) == both;
    if rs.connect.Err? {
      HeldThen({}, up, [KilledProcess(sb, p), DestroyedSandbox(sb)]);
      HeldAfterTwo(both, KilledProcess(sb, p), DestroyedSandbox(sb));
    } else {
      HeldThen({}, up, SessionCalls(sid, sb, p, rs.connect.value, rs.remote, refused));
      Opened(both, sid, sb, p, rs.connect.value, rs.remote, refused);
    }
  }

  lemma Opened(both: set<Call>, sid: string, sb: string, p: string, v: Service, remote: Result<string, string>, refused: bool)
    requires both == {CreatedSandbox(sb), LaunchedProcess(sb, p)}
    ensures Held(both, SessionCalls(sid, sb, p, v, remote, refused)) ==
            if remote.Ok? && !refused then both + {OpenedService(v), CreatedRemote(v, NameFrom(sid, remote.value))} else {}
  {
    if remote.Err? {
      HeldThen(both, [OpenedService(v)], Abandoning(v, sid, sb, p));
      assert [OpenedService(v)][1..] == [];
      Abandoned(both + {OpenedService(v)}, v, sid, sb, p);
    } else {
      var name := NameFrom(sid, remote.value);
      var more := [OpenedService(v), CreatedRemote(v, name)];
      HeldAfterTwo(both, more[0], more[1]);
      assert Held(both, more) == both + {OpenedService(v), CreatedRemote(v, name)};
      if refused {
        HeldThen(both, more, Abandoning(v, name, sb, p));
        Abandoned(both + {OpenedService(v), CreatedRemote(v, name)}, v, name, sb, p);
      } else {
        assert more + [] == more;
      }
    }
  }

  lemma Abandoned(held: set<Call>, v: Service, name: string, sb: string, p: string)
    requires {CreatedSandbox(sb), LaunchedProcess(sb, p)} <= held
    requires held <= {CreatedSandbox(sb), LaunchedProcess(sb, p), OpenedService(v), CreatedRemote(v, name)}
    ensures Held(held, Abandoning(v, name, sb, p)) == {}
  {
    var first, last := [DestroyedRemote(v, name), ClosedService(v)], [KilledProcess(sb, p), DestroyedSandbox(sb)];
    assert Abandoning(v, name, sb, p) == first + last;
    HeldThen(held, first, last);
    HeldAfterTwo(held, first[0], first[1]);
    HeldAfterTwo(Held(held, first), last[0], last[1]);
  }

  /** Tearing down a session that was created gives everything back exactly when its sandbox and
      its process have names: a backend that answers with an empty id is never told to stop. */
  lemma TeardownGivesBackIff(e: Entry, rs: Replies)
    requires Succeeds(rs, false)
    requires e.control && e.sandboxId == rs.sandbox.value && e.processId == rs.launch.value
    requires e.service == Some(rs.connect.value) && RemoteName(e) == NameFrom(e.sessionId, rs.remote.value)
    ensures Held(Acquired(e.sessionId, rs), TeardownCalls(e)) == {} <==> e.sandboxId != "" && e.processId != ""
  {
    var all, v, name := Acquired(e.sessionId, rs), e.service.value, RemoteName(e);
    var first, last := [DestroyedRemote(v, name)], [ClosedService(v)];
    var kill := if e.processId != "" then [KilledProcess(e.sandboxId, e.processId)] else [];
    var gone := if e.sandboxId != "" then [DestroyedSandbox(e.sandboxId)] else [];
    assert TeardownCalls(e) == first + kill + gone + last;
    HeldThen(all, first, kill);
    HeldThen(all, first + kill, gone);
    HeldThen(all, first + kill + gone, last);
    var end := Held(all, TeardownCalls(e));
    assert CreatedSandbox(e.sandboxId) in end <==> e.sandboxId == "";
    assert LaunchedProcess(e.sandboxId, e.processId) in end <==> e.processId == "";
    assert end <= {CreatedSandbox(e.sandboxId), LaunchedProcess(e.sandboxId, e.processId)};
  }

  /** A resumption that fails leaves nothing new behind. One that succeeds keeps the new process
      and the new connection in place of the old connection. */
  lemma ResumeHolds(e: Entry, reply: ResumeReply, held: set<Call>)
    requires reply.launched.Ok? ==> LaunchedProcess(e.sandboxId, reply.launched.value) !in held
    requires reply.connected.Ok? ==> OpenedService(reply.connected.value) !in held && e.service != Some(reply.connected.value)
    ensures Held(held, ResumeCalls(e, reply)) ==
            if ResumeError(e, reply).Some? || e.placement != AgentDirect then held
            else held - (if e.service.Some? then {OpenedService(e.service.value)} else {})
                 + {LaunchedProcess(e.sandboxId, reply.launched.value), OpenedService(reply.connected.value)}
  {
    var calls := ResumeCalls(e, reply);
    if 3 <= |calls| {
      HeldAfterThree(held, calls[0], calls[1], calls[2]);
      HeldThen(held, calls[..3], calls[3..]);
      assert calls[..3] == [calls[0], calls[1], calls[2]] && calls == calls[..3] + calls[3..];
    }
  }
}
