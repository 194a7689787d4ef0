/** Creating, destroying, pausing, probing and closing sessions as an interleaving of steps,
    split wherever the orchestrator gives up a lock or waits for an external call. */
module SessionProtocol {
  import opened Wrappers
  import opened Whitespace
  import opened SessionEntries

  type Thread = nat

  /** The compensating calls of a failed creation. */
  datatype Cleanup = DestroyRemote | CloseService | KillProcess | DestroySandbox

  /** Tearing a session down: first its lock, then one call or field update at a time. */
  datatype Teardown =
    | WaitingForLock(sid: string)
    | Holding(sid: string, stage: TeardownStage)

  datatype TeardownStage =
    | AgentStage | ProcessStage | SandboxStage | ServiceStage | MarkStage | RemoveStage

  /** Where an operation counted by the wait group stands. */
  datatype Op =
    | Begun(sid: string, placement: Placement)
    | SandboxUp(sid: string, placement: Placement, sandbox: string)
    | ProcessUp(sid: string, placement: Placement, sandbox: string, process: string)
    | Connected(sid: string, placement: Placement, sandbox: string, process: string, service: Service)
    | Ready(entry: Entry)
    | Undoing(sandbox: string, todo: seq<Cleanup>)
    | LookingUp(target: string)
    | TearingDown(td: Teardown)
    | Returning

  datatype Closer =
    | NotClosing
    | Draining
    | Destroying(todo: seq<string>, current: Option<Teardown>)
    | Closed

  datatype Actor = Operation(thread: Thread) | CloseCall

  datatype Config = Config(maxSessions: int, loopService: Service)

  /** `entries` holds every record that was ever registered, because callers keep pointers to
      removed ones; `sessions` is the key set of the orchestrator's map. `created` and
      `destroyCalled` record the sandboxes the controller made and was told to destroy. */
  datatype State = State(
    closing: bool,
    issued: set<string>,
    sessions: set<string>,
    entries: map<string, Entry>,
    locks: map<string, Actor>,
    ops: map<Thread, Op>,
    closer: Closer,
    probes: map<Thread, string>,
    created: set<string>,
    destroyCalled: set<string>)

  datatype Action =
    | BeginCreate(t: Thread, sid: string, placement: Placement)
    | BeginDestroy(t: Thread, sid: string)
    | SandboxReply(t: Thread, sandbox: Option<string>)
    | LaunchReply(t: Thread, process: Option<string>)
    | ConnectReply(t: Thread, service: Option<Service>)
    | RemoteReply(t: Thread, remote: Option<string>)
    | AddSession(t: Thread)
    | Undo(t: Thread)
    | LookUp(t: Thread)
    | AdvanceTeardown(actor: Actor)
    | EndOperation(t: Thread)
    | PauseSession(sid: string, pause: PauseReply)
    | ResumeSession(sid: string, resume: ResumeReply)
    | ReadHealth(t: Thread, sid: string)
    | WriteHealth(t: Thread, probe: Option<string>)
    | BeginClose
    | ListForClose(order: seq<string>)
    | DestroyNext
    | EndClose
    | CloseAgain

  const INIT: State :=
    State(false, {}, {}, map[], map[], map[], NotClosing, map[], {}, {})

  // ---- the steps ----

  /** The compensation for a session that got as far as a remote session. */
  function UndoAll(placement: Placement): seq<Cleanup> {
    if placement == ToolsSandbox then [DestroyRemote, DestroySandbox]
    else [DestroyRemote, CloseService, KillProcess, DestroySandbox]
  }

  /** The record as creation leaves it just before it is registered. */
  function NewEntry(sid: string, placement: Placement, sandbox: string, process: string,
                    service: Service, remote: string): Entry {
    Entry(sid, if Blank(remote) then sid else remote, placement, sandbox, process, true,
          Some(service), Active, 0, None)
  }

  /** Why addSession refuses an entry, if it does. */
  function AddError(maxSessions: int, closing: bool, count: nat, exists_: bool): Option<RpcError> {
    if closing then Some(Unavailable(None))
    else if maxSessions > 0 && count >= maxSessions then Some(ResourceExhausted)
    else if exists_ then Some(AlreadyExists)
    else None
  }

  function TeardownOf(s: State, a: Actor): Option<Teardown> {
    match a
    case Operation(t) =>
      if t in s.ops && s.ops[t].TearingDown? then Some(s.ops[t].td) else None
    case CloseCall =>
      if s.closer.Destroying? then s.closer.current else None
  }

  predicate Enabled(s: State, a: Action) {
    match a
    case BeginCreate(t, sid, _) => t !in s.ops && !s.closing && sid !in s.issued
    case BeginDestroy(t, _) => t !in s.ops && !s.closing
    case SandboxReply(t, sb) =>
      t in s.ops && s.ops[t].Begun? && (sb.Some? ==> sb.value != "" && sb.value !in s.created)
    case LaunchReply(t, _) =>
      t in s.ops && s.ops[t].SandboxUp? && s.ops[t].placement != ToolsSandbox
    case ConnectReply(t, _) => t in s.ops && s.ops[t].ProcessUp?
    case RemoteReply(t, _) =>
      t in s.ops && (s.ops[t].Connected? ||
                     (s.ops[t].SandboxUp? && s.ops[t].placement == ToolsSandbox))
    case AddSession(t) => t in s.ops && s.ops[t].Ready?
    case Undo(t) => t in s.ops && s.ops[t].Undoing? && s.ops[t].todo != []
    case LookUp(t) => t in s.ops && s.ops[t].LookingUp?
    case AdvanceTeardown(actor) =>
      var td := TeardownOf(s, actor);
      td.Some? && td.value.sid in s.entries && (td.value.WaitingForLock? ==> td.value.sid !in s.locks)
    case EndOperation(t) =>
      t in s.ops && (s.ops[t].Returning? || (s.ops[t].Undoing? && s.ops[t].todo == []))
    case PauseSession(sid, _) => sid in s.entries && sid !in s.locks
    case ResumeSession(sid, _) => sid in s.entries && sid !in s.locks
    case ReadHealth(t, sid) => t !in s.probes && sid in s.entries && sid !in s.locks
    case WriteHealth(t, _) =>
      t in s.probes && s.probes[t] in s.entries && s.probes[t] !in s.locks
    case BeginClose => !s.closing
    case ListForClose(order) =>
      s.closer == Draining && s.ops == map[] && (set sid | sid in order) == s.sessions
    case DestroyNext => s.closer.Destroying? && s.closer.current.None? && s.closer.todo != []
    case EndClose => s.closer.Destroying? && s.closer.current.None? && s.closer.todo == []
    case CloseAgain => s.closing
  }

  function SetOp(s: State, t: Thread, op: Op): State {
    s.(ops := s.ops[t := op])
  }

  /** The same state with the actor's teardown moved on, or over. */
  function PutTeardown(s: State, a: Actor, td: Option<Teardown>): State {
    match a
    case Operation(t) => SetOp(s, t, if td.Some? then TearingDown(td.value) else Returning)
    case CloseCall =>
      if s.closer.Destroying? then s.(closer := s.closer.(current := td)) else s
  }

  function SetEntry(s: State, e: Entry): State {
    s.(entries := s.entries[e.sessionId := e])
  }

  function NextTeardown(td: Teardown): Option<Teardown> {
    match td
    case WaitingForLock(sid) => Some(Holding(sid, AgentStage))
    case Holding(sid, AgentStage) => Some(Holding(sid, ProcessStage))
    case Holding(sid, ProcessStage) => Some(Holding(sid, SandboxStage))
    case Holding(sid, SandboxStage) => Some(Holding(sid, ServiceStage))
    case Holding(sid, ServiceStage) => Some(Holding(sid, MarkStage))
    case Holding(sid, MarkStage) => Some(Holding(sid, RemoveStage))
    case Holding(sid, RemoveStage) => None
  }

  /** What one step of a teardown does to the shared state. The calls to the agent, to the
      process and to the service can fail without changing what happens next; the call to the
      sandbox controller is recorded whether or not it succeeds. */
  function Effect(s: State, a: Actor, td: Teardown): State
    requires td.sid in s.entries
  {
    match td
    case WaitingForLock(sid) => s.(locks := s.locks[sid := a])
    case Holding(sid, SandboxStage) =>
      var e := s.entries[sid];
      s.(destroyCalled := s.destroyCalled + if e.sandboxId != "" && e.control then {e.sandboxId} else {})
    case Holding(sid, MarkStage) =>
      s.(entries := s.entries[sid := s.entries[sid].(state := Destroyed)])
    case Holding(sid, RemoveStage) =>
      s.(sessions := s.sessions - {sid}, locks := s.locks - {sid})
    case Holding(_, _) => s
  }

  function Advance(s: State, a: Actor, td: Teardown): State
    requires td.sid in s.entries
  {
    PutTeardown(Effect(s, a, td), a, NextTeardown(td))
  }

  function Apply(c: Config, s: State, a: Action): State
    requires Enabled(s, a)
  {
    match a
    case BeginCreate(t, sid, p) =>
      SetOp(s.(issued := s.issued + {sid}), t, Begun(sid, p))
    case BeginDestroy(t, sid) => SetOp(s, t, LookingUp(sid))
    case SandboxReply(t, reply) =>
      var op := s.ops[t];
      if reply.None? then SetOp(s, t, Returning)
      else SetOp(s.(created := s.created + {reply.value}), t,
                 SandboxUp(op.sid, op.placement, reply.value))
    case LaunchReply(t, reply) =>
      var op := s.ops[t];
      if reply.None? then SetOp(s, t, Undoing(op.sandbox, [DestroySandbox]))
      else SetOp(s, t, ProcessUp(op.sid, op.placement, op.sandbox, reply.value))
    case ConnectReply(t, reply) =>
      var op := s.ops[t];
      if reply.None? then SetOp(s, t, Undoing(op.sandbox, [KillProcess, DestroySandbox]))
      else SetOp(s, t, Connected(op.sid, op.placement, op.sandbox, op.process, reply.value))
    case RemoteReply(t, reply) =>
      var op := s.ops[t];
      if op.Connected? then
        if reply.None? then SetOp(s, t, Undoing(op.sandbox, UndoAll(op.placement)))
        else SetOp(s, t, Ready(NewEntry(op.sid, op.placement, op.sandbox, op.process, op.service, reply.value)))
      else
        if reply.None? then SetOp(s, t, Undoing(op.sandbox, [DestroySandbox]))
        else SetOp(s, t, Ready(NewEntry(op.sid, op.placement, op.sandbox, "", c.loopService, reply.value)))
    case AddSession(t) =>
      var e := s.ops[t].entry;
      if AddError(c.maxSessions, s.closing, |s.sessions|, e.sessionId in s.sessions).Some? then
        SetOp(s, t, Undoing(e.sandboxId, UndoAll(e.placement)))
      else
        SetOp(SetEntry(s.(sessions := s.sessions + {e.sessionId}), e), t, Returning)
    case Undo(t) =>
      var op := s.ops[t];
      var told := if op.todo[0] == DestroySandbox then {op.sandbox} else {};
      SetOp(s.(destroyCalled := s.destroyCalled + told), t, Undoing(op.sandbox, op.todo[1..]))
    case LookUp(t) =>
      var sid := s.ops[t].target;
      if sid in s.sessions then SetOp(s, t, TearingDown(WaitingForLock(sid)))
      else SetOp(s, t, Returning)
    case AdvanceTeardown(actor) => Advance(s, actor, TeardownOf(s, actor).value)
    case EndOperation(t) => s.(ops := s.ops - {t})
    case PauseSession(sid, reply) => SetEntry(s, AfterPause(s.entries[sid], reply))
    case ResumeSession(sid, reply) => SetEntry(s, AfterResume(s.entries[sid], reply))
    case ReadHealth(t, sid) =>
      if Skipped(s.entries[sid].state) then s else s.(probes := s.probes[t := sid])
    case WriteHealth(t, probe) =>
      SetEntry(s.(probes := s.probes - {t}), AfterProbe(s.entries[s.probes[t]], probe))
    case BeginClose => s.(closing := true, closer := Draining)
    case ListForClose(order) => s.(closer := Destroying(order, None))
    case DestroyNext =>
      s.(closer := Destroying(s.closer.todo[1..], Some(WaitingForLock(s.closer.todo[0]))))
    case EndClose => s.(closer := Closed)
    case CloseAgain => s
  }

  // ---- the invariant ----

  /** The operation still answers for the sandbox. */
  predicate Owns(op: Op, sandbox: string) {
    match op
    case SandboxUp(_, _, sb) => sb == sandbox
    case ProcessUp(_, _, sb, _) => sb == sandbox
    case Connected(_, _, sb, _, _) => sb == sandbox
    case Ready(e) => e.sandboxId == sandbox
    case Undoing(sb, todo) => sb == sandbox && DestroySandbox in todo
    case _ => false
  }

  /** The name that an unfinished creation will register, if any. */
  function NameOf(op: Op): Option<string> {
    match op
    case Begun(sid, _) => Some(sid)
    case SandboxUp(sid, _, _) => Some(sid)
    case ProcessUp(sid, _, _, _) => Some(sid)
    case Connected(sid, _, _, _, _) => Some(sid)
    case Ready(e) => Some(e.sessionId)
    case _ => None
  }

  ghost predicate Accounted(s: State, sandbox: string) {
    || sandbox in s.destroyCalled
    || (exists sid :: sid in s.sessions && sid in s.entries && s.entries[sid].sandboxId == sandbox)
    || (exists t :: t in s.ops && Owns(s.ops[t], sandbox))
  }

  /** No sandbox is forgotten: it has been told to go, or a registered session or an operation
      in flight still answers for it. */
  ghost predicate NoLeak(s: State) {
    forall sandbox :: sandbox in s.created ==> Accounted(s, sandbox)
  }

  ghost predicate WithinCapacity(c: Config, s: State) {
    c.maxSessions > 0 ==> |s.sessions| <= c.maxSessions
  }

  ghost predicate GoodEntry(sid: string, e: Entry) {
    e.sessionId == sid && e.sandboxId != "" && e.control && e.service.Some? && HealthCoherent(e)
  }

  ghost predicate GoodEntries(s: State) {
    && (forall sid :: sid in s.sessions ==> sid in s.entries)
    && (forall sid :: sid in s.entries ==> GoodEntry(sid, s.entries[sid]))
  }

  /** An unfinished creation has an issued name that is not registered yet, and once it has a
      sandbox it has that sandbox's non-empty name. */
  ghost predicate GoodOp(s: State, op: Op) {
    && (NameOf(op).Some? ==> NameOf(op).value in s.issued && NameOf(op).value !in s.entries)
    && !Owns(op, "")
    && (op.Ready? ==> GoodEntry(op.entry.sessionId, op.entry))
  }

  ghost predicate GoodOps(s: State) {
    forall t :: t in s.ops ==> GoodOp(s, s.ops[t])
  }

  /** No two unfinished creations share a name. */
  ghost predicate DistinctNames(s: State) {
    forall t, u :: t in s.ops && u in s.ops && t != u && NameOf(s.ops[t]).Some? ==>
      NameOf(s.ops[t]) != NameOf(s.ops[u])
  }

  ghost predicate GoodNames(s: State) {
    s.entries.Keys <= s.issued && GoodOps(s) && DistinctNames(s)
  }

  /** A teardown holds the lock of a known record; past the sandbox call the record's sandbox
      has been told to go, and past the marking the record is destroyed. */
  ghost predicate GoodTeardown(s: State, a: Actor, td: Teardown) {
    && td.sid in s.entries
    && (td.Holding? ==>
          && td.sid in s.locks && s.locks[td.sid] == a
          && (td.stage == ServiceStage || td.stage == MarkStage || td.stage == RemoveStage ==>
                s.entries[td.sid].sandboxId in s.destroyCalled)
          && (td.stage == RemoveStage ==> s.entries[td.sid].state == Destroyed))
  }

  ghost predicate GoodTeardowns(s: State) {
    forall a :: TeardownOf(s, a).Some? ==> GoodTeardown(s, a, TeardownOf(s, a).value)
  }

  /** Once Close has seen the wait group empty nothing else registers or removes sessions, and
      every registered session is still on its list. */
  ghost predicate GoodClose(s: State) {
    && (s.closer != NotClosing ==> s.closing)
    && (s.closer.Destroying? || s.closer.Closed? ==> s.ops == map[])
    && (s.closer.Destroying? ==>
          && (forall sid :: sid in s.closer.todo ==> sid in s.entries)
          && (forall sid :: sid in s.sessions ==>
                || sid in s.closer.todo
                || (s.closer.current.Some? && s.closer.current.value.sid == sid)))
    && (s.closer.Closed? ==> s.sessions == {})
  }

  ghost predicate Inv(c: Config, s: State) {
    NoLeak(s) && WithinCapacity(c, s) && GoodEntries(s) && GoodNames(s) && GoodTeardowns(s) && GoodClose(s)
  }

  // ---- every step keeps the invariant ----

  /** The state after operation `t` has become `op`, or ended. */
  function Moved(s: State, t: Thread, op: Option<Op>, issued: set<string>, created: set<string>,
                 destroyCalled: set<string>): State {
    s.(ops := if op.Some? then s.ops[t := op.value] else s.ops - {t},
       issued := issued, created := created, destroyCalled := destroyCalled)
  }

  /** What an operation may turn into: it keeps answering for its sandboxes, and it has its old
      name or a new one. */
  ghost predicate MayMove(s: State, t: Thread, op: Option<Op>, issued: set<string>,
                          created: set<string>, destroyCalled: set<string>) {
    && s.issued <= issued && s.created <= created && s.destroyCalled <= destroyCalled
    && (s.closer.NotClosing? || s.closer.Draining?)
    && (t in s.ops ==> forall sb :: Owns(s.ops[t], sb) ==>
          sb in destroyCalled || (op.Some? && Owns(op.value, sb)))
    && (forall sb :: sb in created && sb !in s.created ==> op.Some? && Owns(op.value, sb))
    && (op.Some? ==>
          && GoodOp(s.(issued := issued), op.value)
          && (op.value.TearingDown? ==> op.value.td.WaitingForLock? && op.value.td.sid in s.entries)
          && (NameOf(op.value).Some? ==>
                NameOf(op.value).value !in s.issued || (t in s.ops && NameOf(s.ops[t]) == NameOf(op.value))))
  }

  lemma MoveKeepsNoLeak(s: State, t: Thread, op: Option<Op>, issued: set<string>,
                        created: set<string>, destroyCalled: set<string>)
    requires NoLeak(s) && MayMove(s, t, op, issued, created, destroyCalled)
    ensures NoLeak(Moved(s, t, op, issued, created, destroyCalled))
  {
    var s' := Moved(s, t, op, issued, created, destroyCalled);
    forall sb | sb in created
      ensures Accounted(s', sb)
    {
      if sb !in s.created {
        assert t in s'.ops && Owns(s'.ops[t], sb);
      } else {
        assert Accounted(s, sb);
        if u :| u in s.ops && Owns(s.ops[u], sb) {
          assert u != t ==> u in s'.ops && Owns(s'.ops[u], sb);
          assert u == t && op.Some? && Owns(op.value, sb) ==> t in s'.ops && Owns(s'.ops[t], sb);
        }
      }
    }
  }

  lemma MoveKeepsNames(s: State, t: Thread, op: Option<Op>, issued: set<string>,
                       created: set<string>, destroyCalled: set<string>)
    requires GoodNames(s) && MayMove(s, t, op, issued, created, destroyCalled)
    ensures GoodNames(Moved(s, t, op, issued, created, destroyCalled))
  {
    var s' := Moved(s, t, op, issued, created, destroyCalled);
    forall u | u in s'.ops
      ensures GoodOp(s', s'.ops[u])
    {
      assert u != t ==> GoodOp(s, s.ops[u]);
    }
    forall u, v | u in s'.ops && v in s'.ops && u != v && NameOf(s'.ops[u]).Some?
      ensures NameOf(s'.ops[u]) != NameOf(s'.ops[v])
    {
      assert u != t ==> GoodOp(s, s.ops[u]);
      assert v != t ==> GoodOp(s, s.ops[v]);
    }
  }

  /** Teardowns depend on the rest of the state only through records, locks and calls. */
  lemma TeardownFrame(s: State, s': State, a: Actor, td: Teardown)
    requires GoodTeardown(s, a, td)
    requires s'.locks == s.locks && s.destroyCalled <= s'.destroyCalled
    requires td.sid in s'.entries && s'.entries[td.sid].sandboxId == s.entries[td.sid].sandboxId
    requires td.sid in s.locks ==> s'.entries[td.sid] == s.entries[td.sid]
    ensures GoodTeardown(s', a, td)
  {
  }

  lemma MoveKeepsTeardowns(s: State, t: Thread, op: Option<Op>, issued: set<string>,
                           created: set<string>, destroyCalled: set<string>)
    requires GoodTeardowns(s) && MayMove(s, t, op, issued, created, destroyCalled)
    ensures GoodTeardowns(Moved(s, t, op, issued, created, destroyCalled))
  {
    var s' := Moved(s, t, op, issued, created, destroyCalled);
    forall x | TeardownOf(s', x).Some?
      ensures GoodTeardown(s', x, TeardownOf(s', x).value)
    {
      if x != Operation(t) {
        assert TeardownOf(s, x) == TeardownOf(s', x);
        TeardownFrame(s, s', x, TeardownOf(s, x).value);
      }
    }
  }

  lemma MoveKeepsInv(c: Config, s: State, t: Thread, op: Option<Op>, issued: set<string>,
                     created: set<string>, destroyCalled: set<string>)
    requires Inv(c, s) && MayMove(s, t, op, issued, created, destroyCalled)
    ensures Inv(c, Moved(s, t, op, issued, created, destroyCalled))
  {
    MoveKeepsNoLeak(s, t, op, issued, created, destroyCalled);
    MoveKeepsNames(s, t, op, issued, created, destroyCalled);
    MoveKeepsTeardowns(s, t, op, issued, created, destroyCalled);
  }

  lemma BeginStepKeepsInv(c: Config, s: State, a: Action)
    requires Inv(c, s) && Enabled(s, a)
    requires a.BeginCreate? || a.BeginDestroy?
    ensures Inv(c, Apply(c, s, a))
  {
    if a.BeginCreate? {
      MoveKeepsInv(c, s, a.t, Some(Begun(a.sid, a.placement)), s.issued + {a.sid}, s.created, s.destroyCalled);
    } else {
      MoveKeepsInv(c, s, a.t, Some(LookingUp(a.sid)), s.issued, s.created, s.destroyCalled);
    }
  }

  /** An operation that only changes where it stands. */
  lemma ReplaceKeepsInv(c: Config, s: State, t: Thread, op: Op)
    requires Inv(c, s) && t in s.ops && GoodOp(s, op)
    requires forall sb :: Owns(s.ops[t], sb) ==> Owns(op, sb)
    requires op.TearingDown? ==> op.td.WaitingForLock? && op.td.sid in s.entries
    requires NameOf(op).Some? ==> NameOf(s.ops[t]) == NameOf(op)
    ensures Inv(c, SetOp(s, t, op))
  {
    MoveKeepsInv(c, s, t, Some(op), s.issued, s.created, s.destroyCalled);
  }

  lemma SandboxReplyKeepsInv(c: Config, s: State, a: Action)
    requires Inv(c, s) && Enabled(s, a) && a.SandboxReply?
    ensures Inv(c, Apply(c, s, a))
  {
    var op := s.ops[a.t];
    assert GoodOp(s, op);
    if a.sandbox.None? {
      ReplaceKeepsInv(c, s, a.t, Returning);
    } else {
      MoveKeepsInv(c, s, a.t, Some(SandboxUp(op.sid, op.placement, a.sandbox.value)), s.issued,
                   s.created + {a.sandbox.value}, s.destroyCalled);
    }
  }

  lemma LaunchReplyKeepsInv(c: Config, s: State, t: Thread, process: Option<string>)
    requires Inv(c, s) && Enabled(s, LaunchReply(t, process))
    ensures Inv(c, Apply(c, s, LaunchReply(t, process)))
  {
    var op := s.ops[t];
    assert GoodOp(s, op);
    ReplaceKeepsInv(c, s, t,
      if process.None? then Undoing(op.sandbox, [DestroySandbox])
      else ProcessUp(op.sid, op.placement, op.sandbox, process.value));
  }

  lemma ConnectReplyKeepsInv(c: Config, s: State, t: Thread, service: Option<Service>)
    requires Inv(c, s) && Enabled(s, ConnectReply(t, service))
    ensures Inv(c, Apply(c, s, ConnectReply(t, service)))
  {
    var op := s.ops[t];
    assert GoodOp(s, op);
    ReplaceKeepsInv(c, s, t,
      if service.None? then Undoing(op.sandbox, [KillProcess, DestroySandbox])
      else Connected(op.sid, op.placement, op.sandbox, op.process, service.value));
  }

  lemma RemoteReplyKeepsInv(c: Config, s: State, t: Thread, remote: Option<string>)
    requires Inv(c, s) && Enabled(s, RemoteReply(t, remote))
    ensures Inv(c, Apply(c, s, RemoteReply(t, remote)))
  {
    var op := s.ops[t];
    assert GoodOp(s, op) && Owns(op, op.sandbox);
    var next := Apply(c, s, RemoteReply(t, remote)).ops[t];
    assert GoodOp(s, next);
    ReplaceKeepsInv(c, s, t, next);
  }

  lemma UndoKeepsInv(c: Config, s: State, t: Thread)
    requires Inv(c, s) && Enabled(s, Undo(t))
    ensures Inv(c, Apply(c, s, Undo(t)))
  {
    var op := s.ops[t];
    assert GoodOp(s, op);
    var told := if op.todo[0] == DestroySandbox then {op.sandbox} else {};
    assert DestroySandbox in op.todo ==> DestroySandbox in op.todo[1..] || op.todo[0] == DestroySandbox;
    MoveKeepsInv(c, s, t, Some(Undoing(op.sandbox, op.todo[1..])), s.issued, s.created, s.destroyCalled + told);
  }

  lemma LookUpKeepsInv(c: Config, s: State, t: Thread)
    requires Inv(c, s) && Enabled(s, LookUp(t))
    ensures Inv(c, Apply(c, s, LookUp(t)))
  {
    var sid := s.ops[t].target;
    ReplaceKeepsInv(c, s, t, if sid in s.sessions then TearingDown(WaitingForLock(sid)) else Returning);
  }

  lemma EndOperationKeepsInv(c: Config, s: State, t: Thread)
    requires Inv(c, s) && Enabled(s, EndOperation(t))
    ensures Inv(c, Apply(c, s, EndOperation(t)))
  {
    MoveKeepsInv(c, s, t, None, s.issued, s.created, s.destroyCalled);
  }

  /** Registering a session passes its sandbox from the operation to the registry. */
  lemma RegisterKeepsInv(c: Config, s: State, t: Thread, e: Entry)
    requires Inv(c, s) && t in s.ops && s.ops[t] == Ready(e)
    requires AddError(c.maxSessions, s.closing, |s.sessions|, e.sessionId in s.sessions).None?
    ensures Inv(c, SetOp(SetEntry(s.(sessions := s.sessions + {e.sessionId}), e), t, Returning))
  {
    var s' := SetOp(SetEntry(s.(sessions := s.sessions + {e.sessionId}), e), t, Returning);
    assert GoodOp(s, s.ops[t]);
    forall sb | sb in s'.created
      ensures Accounted(s', sb)
    {
      assert Accounted(s, sb);
      if sid :| sid in s.sessions && sid in s.entries && s.entries[sid].sandboxId == sb {
        assert sid in s'.sessions && s'.entries[sid].sandboxId == sb;
      } else if u :| u in s.ops && Owns(s.ops[u], sb) {
        assert u == t ==> e.sessionId in s'.sessions && s'.entries[e.sessionId].sandboxId == sb;
        assert u != t ==> u in s'.ops && Owns(s'.ops[u], sb);
      }
    }
    forall u | u in s'.ops
      ensures GoodOp(s', s'.ops[u])
    {
      assert GoodOp(s, s.ops[u]);
      assert u != t ==> NameOf(s.ops[t]) != NameOf(s.ops[u]);
    }
    forall x | TeardownOf(s', x).Some?
      ensures GoodTeardown(s', x, TeardownOf(s', x).value)
    {
      assert TeardownOf(s, x) == TeardownOf(s', x);
      TeardownFrame(s, s', x, TeardownOf(s, x).value);
    }
  }

  lemma AddSessionKeepsInv(c: Config, s: State, a: Action)
    requires Inv(c, s) && Enabled(s, a) && a.AddSession?
    ensures Inv(c, Apply(c, s, a))
  {
    var e := s.ops[a.t].entry;
    assert GoodOp(s, s.ops[a.t]);
    if AddError(c.maxSessions, s.closing, |s.sessions|, e.sessionId in s.sessions).Some? {
      MoveKeepsInv(c, s, a.t, Some(Undoing(e.sandboxId, UndoAll(e.placement))), s.issued, s.created, s.destroyCalled);
    } else {
      RegisterKeepsInv(c, s, a.t, e);
    }
  }

  /** Updating a record that nobody holds, without changing which session it is. */
  lemma SetEntryKeepsInv(c: Config, s: State, e: Entry)
    requires Inv(c, s) && e.sessionId in s.entries && e.sessionId !in s.locks
    requires SameIdentity(s.entries[e.sessionId], e) && GoodEntry(e.sessionId, e)
    ensures Inv(c, SetEntry(s, e))
  {
    var s' := SetEntry(s, e);
    forall sb | sb in s'.created
      ensures Accounted(s', sb)
    {
      assert Accounted(s, sb);
      if sid :| sid in s.sessions && sid in s.entries && s.entries[sid].sandboxId == sb {
        assert sid in s'.sessions && s'.entries[sid].sandboxId == sb;
      }
    }
    forall u | u in s'.ops
      ensures GoodOp(s', s'.ops[u])
    {
      assert GoodOp(s, s.ops[u]);
    }
    forall x | TeardownOf(s', x).Some?
      ensures GoodTeardown(s', x, TeardownOf(s', x).value)
    {
      assert TeardownOf(s, x) == TeardownOf(s', x);
      TeardownFrame(s, s', x, TeardownOf(s, x).value);
    }
  }

  /** Health checks in flight are nobody else's business. */
  lemma ProbesKeepInv(c: Config, s: State, probes: map<Thread, string>)
    requires Inv(c, s)
    ensures Inv(c, s.(probes := probes))
  {
    var s' := s.(probes := probes);
    forall sb | sb in s'.created ensures Accounted(s', sb) { assert Accounted(s, sb); }
    forall u | u in s'.ops ensures GoodOp(s', s'.ops[u]) { assert GoodOp(s, s.ops[u]); }
    forall x | TeardownOf(s', x).Some?
      ensures GoodTeardown(s', x, TeardownOf(s', x).value)
    {
      assert TeardownOf(s, x) == TeardownOf(s', x);
      TeardownFrame(s, s', x, TeardownOf(s, x).value);
    }
  }

  lemma EntryStepKeepsInv(c: Config, s: State, a: Action)
    requires Inv(c, s) && Enabled(s, a)
    requires a.PauseSession? || a.ResumeSession? || a.ReadHealth? || a.WriteHealth?
    ensures Inv(c, Apply(c, s, a))
  {
    match a
    case PauseSession(sid, reply) =>
      assert GoodEntry(sid, s.entries[sid]);
      SetEntryKeepsInv(c, s, AfterPause(s.entries[sid], reply));
    case ResumeSession(sid, reply) =>
      assert GoodEntry(sid, s.entries[sid]);
      SetEntryKeepsInv(c, s, AfterResume(s.entries[sid], reply));
    case ReadHealth(t, sid) =>
      ProbesKeepInv(c, s, s.probes[t := sid]);
    case WriteHealth(t, probe) =>
      var sid := s.probes[t];
      assert GoodEntry(sid, s.entries[sid]);
      ProbesKeepInv(c, s, s.probes - {t});
      SetEntryKeepsInv(c, s.(probes := s.probes - {t}), AfterProbe(s.entries[sid], probe));
  }

  // ---- tearing a session down ----

  /** Setting one actor's teardown leaves the others'. */
  lemma PutTeardownOf(s: State, a: Actor, td: Option<Teardown>, x: Actor)
    requires TeardownOf(s, a).Some?
    ensures TeardownOf(PutTeardown(s, a, td), x) == if x == a then td else TeardownOf(s, x)
  {
  }

  lemma EffectOnSelf(s: State, a: Actor, td: Teardown)
    requires GoodTeardown(s, a, td) && GoodEntry(td.sid, s.entries[td.sid])
    requires NextTeardown(td).Some?
    ensures GoodTeardown(Effect(s, a, td), a, NextTeardown(td).value)
  {
  }

  lemma EffectOnOther(s: State, a: Actor, td: Teardown, x: Actor, other: Teardown)
    requires GoodTeardown(s, a, td) && GoodTeardown(s, x, other) && x != a
    requires td.WaitingForLock? ==> td.sid !in s.locks
    ensures GoodTeardown(Effect(s, a, td), x, other)
  {
  }

  lemma AdvanceKeepsTeardowns(s: State, a: Actor)
    requires GoodTeardowns(s) && GoodEntries(s) && Enabled(s, AdvanceTeardown(a))
    ensures GoodTeardowns(Advance(s, a, TeardownOf(s, a).value))
  {
    var td := TeardownOf(s, a).value;
    var s' := Advance(s, a, td);
    forall x | TeardownOf(s', x).Some?
      ensures GoodTeardown(s', x, TeardownOf(s', x).value)
    {
      AdvanceKeepsTeardown(s, a, td, x);
    }
  }

  lemma AdvanceKeepsTeardown(s: State, a: Actor, td: Teardown, x: Actor)
    requires GoodTeardowns(s) && GoodEntries(s) && Enabled(s, AdvanceTeardown(a)) && TeardownOf(s, a) == Some(td)
    requires TeardownOf(Advance(s, a, td), x).Some?
    ensures GoodTeardown(Advance(s, a, td), x, TeardownOf(Advance(s, a, td), x).value)
  {
    var mid := Effect(s, a, td);
    var s' := Advance(s, a, td);
    assert TeardownOf(mid, x) == TeardownOf(s, x) && TeardownOf(mid, a) == TeardownOf(s, a);
    PutTeardownOf(mid, a, NextTeardown(td), x);
    if x != a {
      EffectOnOther(s, a, td, x, TeardownOf(s, x).value);
    } else {
      EffectOnSelf(s, a, td);
    }
    TeardownFrame(mid, s', x, TeardownOf(s', x).value);
  }

  /** Removing a session is safe because its sandbox was told to go before. */
  lemma AdvanceKeepsNoLeak(s: State, a: Actor)
    requires GoodTeardowns(s) && Enabled(s, AdvanceTeardown(a)) && NoLeak(s)
    ensures NoLeak(Advance(s, a, TeardownOf(s, a).value))
  {
    var td := TeardownOf(s, a).value;
    var mid := Effect(s, a, td);
    var s' := PutTeardown(mid, a, NextTeardown(td));
    assert GoodTeardown(s, a, td);
    EffectKeepsCalls(s, a, td);
    PutTeardownFrame(mid, a, NextTeardown(td));
    forall sb | sb in s'.created
      ensures Accounted(s', sb)
    {
      assert Accounted(s, sb);
      if sid :| sid in s.sessions && sid in s.entries && s.entries[sid].sandboxId == sb {
        EffectOnSession(s, a, td, sid);
      } else if u :| u in s.ops && Owns(s.ops[u], sb) {
        OwnerStays(s, a, td, u, sb);
      }
    }
  }

  lemma EffectKeepsCalls(s: State, a: Actor, td: Teardown)
    requires td.sid in s.entries
    ensures s.destroyCalled <= Effect(s, a, td).destroyCalled && Effect(s, a, td).created == s.created
    ensures Effect(s, a, td).ops == s.ops && Effect(s, a, td).issued == s.issued
  {
  }

  lemma EffectOnEntries(s: State, a: Actor, td: Teardown)
    requires td.sid in s.entries
    ensures var es := Effect(s, a, td).entries;
            es == s.entries || es == s.entries[td.sid := s.entries[td.sid].(state := Destroyed)]
  {
  }

  /** Noting how far a teardown has come changes nothing else. */
  lemma PutTeardownFrame(s: State, a: Actor, td: Option<Teardown>)
    ensures var s' := PutTeardown(s, a, td);
            s'.created == s.created && s'.sessions == s.sessions && s'.entries == s.entries && s'.destroyCalled == s.destroyCalled
  {
  }

  /** An operation that answers for a sandbox is not the one that tears a session down. */
  lemma OwnerStays(s: State, a: Actor, td: Teardown, u: Thread, sb: string)
    requires TeardownOf(s, a) == Some(td) && td.sid in s.entries && u in s.ops && Owns(s.ops[u], sb)
    ensures var s' := Advance(s, a, td); u in s'.ops && Owns(s'.ops[u], sb)
  {
    EffectKeepsCalls(s, a, td);
  }

  lemma EffectOnSession(s: State, a: Actor, td: Teardown, sid: string)
    requires GoodTeardown(s, a, td) && sid in s.sessions && sid in s.entries
    ensures sid in Effect(s, a, td).entries
    ensures Effect(s, a, td).entries[sid].sandboxId == s.entries[sid].sandboxId
    ensures sid in Effect(s, a, td).sessions || s.entries[sid].sandboxId in Effect(s, a, td).destroyCalled
    ensures s.destroyCalled <= Effect(s, a, td).destroyCalled
  {
  }

  lemma EffectKeepsEntries(s: State, a: Actor, td: Teardown)
    requires GoodEntries(s) && td.sid in s.entries
    ensures GoodEntries(Effect(s, a, td))
    ensures Effect(s, a, td).entries.Keys == s.entries.Keys
    ensures Effect(s, a, td).sessions <= s.sessions
  {
    var s' := Effect(s, a, td);
    EffectOnEntries(s, a, td);
    forall sid | sid in s'.entries
      ensures GoodEntry(sid, s'.entries[sid])
    {
      assert GoodEntry(sid, s.entries[sid]);
    }
  }

  lemma PutTeardownKeepsNames(s: State, a: Actor, td: Option<Teardown>)
    requires GoodNames(s) && TeardownOf(s, a).Some?
    ensures GoodNames(PutTeardown(s, a, td))
  {
    var s' := PutTeardown(s, a, td);
    forall u | u in s'.ops
      ensures GoodOp(s', s'.ops[u])
    {
      assert u in s.ops && GoodOp(s, s.ops[u]);
    }
  }

  lemma EffectKeepsNames(s: State, a: Actor, td: Teardown)
    requires GoodNames(s) && GoodEntries(s) && td.sid in s.entries
    ensures GoodNames(Effect(s, a, td))
  {
    EffectKeepsEntries(s, a, td);
    EffectKeepsCalls(s, a, td);
    var s' := Effect(s, a, td);
    forall u | u in s'.ops
      ensures GoodOp(s', s'.ops[u])
    {
      assert GoodOp(s, s.ops[u]);
    }
  }

  lemma AdvanceKeepsRest(c: Config, s: State, a: Actor)
    requires Inv(c, s) && Enabled(s, AdvanceTeardown(a))
    ensures WithinCapacity(c, Advance(s, a, TeardownOf(s, a).value))
    ensures GoodEntries(Advance(s, a, TeardownOf(s, a).value))
    ensures GoodNames(Advance(s, a, TeardownOf(s, a).value))
  {
    var td := TeardownOf(s, a).value;
    EffectKeepsEntries(s, a, td);
    EffectKeepsNames(s, a, td);
    PutTeardownKeepsNames(Effect(s, a, td), a, NextTeardown(td));
    SubsetCount(Effect(s, a, td).sessions, s.sessions);
  }

  lemma SubsetCount(a: set<string>, b: set<string>)
    requires a <= b
    ensures |a| <= |b|
  {
    assert |b| == |a| + |b - a| by { assert b == a + (b - a); }
  }

  lemma AdvanceKeepsClose(s: State, a: Actor)
    requires GoodClose(s) && Enabled(s, AdvanceTeardown(a))
    ensures GoodClose(Advance(s, a, TeardownOf(s, a).value))
  {
  }

  lemma TeardownStepKeepsInv(c: Config, s: State, a: Action)
    requires Inv(c, s) && Enabled(s, a) && a.AdvanceTeardown?
    ensures Inv(c, Apply(c, s, a))
  {
    AdvanceKeepsTeardowns(s, a.actor);
    AdvanceKeepsNoLeak(s, a.actor);
    AdvanceKeepsRest(c, s, a.actor);
    AdvanceKeepsClose(s, a.actor);
  }

  // ---- closing ----

  /** Close's own bookkeeping, from the flag to the list it works off. */
  lemma CloseStepKeepsInv(c: Config, s: State, a: Action)
    requires Inv(c, s) && Enabled(s, a)
    requires a.BeginClose? || a.ListForClose? || a.DestroyNext? || a.EndClose?
    ensures Inv(c, Apply(c, s, a))
  {
    var s' := Apply(c, s, a);
    forall sb | sb in s'.created ensures Accounted(s', sb) { assert Accounted(s, sb); }
    forall u | u in s'.ops ensures GoodOp(s', s'.ops[u]) { assert GoodOp(s, s.ops[u]); }
    forall x | TeardownOf(s', x).Some?
      ensures GoodTeardown(s', x, TeardownOf(s', x).value)
    {
      if x.Operation? {
        assert TeardownOf(s, x) == TeardownOf(s', x);
        TeardownFrame(s, s', x, TeardownOf(s, x).value);
      }
    }
    if a.ListForClose? {
      assert forall sid :: sid in a.order <==> sid in (set x | x in a.order);
    }
  }

  lemma StepKeepsInv(c: Config, s: State, a: Action)
    requires Inv(c, s) && Enabled(s, a)
    ensures Inv(c, Apply(c, s, a))
  {
    match a
    case BeginCreate(_, _, _) => BeginStepKeepsInv(c, s, a);
    case BeginDestroy(_, _) => BeginStepKeepsInv(c, s, a);
    case SandboxReply(_, _) => SandboxReplyKeepsInv(c, s, a);
    case LaunchReply(t, process) => LaunchReplyKeepsInv(c, s, t, process);
    case ConnectReply(t, service) => ConnectReplyKeepsInv(c, s, t, service);
    case RemoteReply(t, remote) => RemoteReplyKeepsInv(c, s, t, remote);
    case AddSession(_) => AddSessionKeepsInv(c, s, a);
    case Undo(t) => UndoKeepsInv(c, s, t);
    case LookUp(t) => LookUpKeepsInv(c, s, t);
    case EndOperation(t) => EndOperationKeepsInv(c, s, t);
    case AdvanceTeardown(_) => TeardownStepKeepsInv(c, s, a);
    case PauseSession(_, _) => EntryStepKeepsInv(c, s, a);
    case ResumeSession(_, _) => EntryStepKeepsInv(c, s, a);
    case ReadHealth(_, _) => EntryStepKeepsInv(c, s, a);
    case WriteHealth(_, _) => EntryStepKeepsInv(c, s, a);
    case BeginClose => CloseStepKeepsInv(c, s, a);
    case ListForClose(_) => CloseStepKeepsInv(c, s, a);
    case DestroyNext => CloseStepKeepsInv(c, s, a);
    case EndClose => CloseStepKeepsInv(c, s, a);
    case CloseAgain =>
  }

  /** A destroyed session stays destroyed, whatever a stale health check, pause or resume that
      still holds a pointer to its record does. */
  lemma StepKeepsDestroyed(c: Config, s: State, a: Action, sid: string)
    requires Inv(c, s) && Enabled(s, a) && IsDestroyed(s, sid)
    ensures IsDestroyed(Apply(c, s, a), sid)
  {
    if a.AddSession? {
      AddSessionKeepsDestroyed(c, s, a, sid);
    } else if a.AdvanceTeardown? {
      TeardownKeepsDestroyed(s, a.actor, TeardownOf(s, a.actor).value, sid);
    } else if a.PauseSession? || a.ResumeSession? || a.WriteHealth? {
      EntryStepKeepsDestroyed(c, s, a, sid);
    } else {
      OtherStepsKeepEntries(c, s, a);
    }
  }

  ghost predicate IsDestroyed(s: State, sid: string) {
    sid in s.entries && s.entries[sid].state == Destroyed
  }

  lemma AddSessionKeepsDestroyed(c: Config, s: State, a: Action, sid: string)
    requires Inv(c, s) && Enabled(s, a) && a.AddSession? && IsDestroyed(s, sid)
    ensures IsDestroyed(Apply(c, s, a), sid)
  {
    assert GoodOp(s, s.ops[a.t]);
  }

  lemma OtherStepsKeepEntries(c: Config, s: State, a: Action)
    requires Enabled(s, a)
    requires !a.AddSession? && !a.AdvanceTeardown? && !a.PauseSession? && !a.ResumeSession? && !a.WriteHealth?
    ensures Apply(c, s, a).entries == s.entries
  {
  }

  lemma TeardownKeepsDestroyed(s: State, actor: Actor, td: Teardown, sid: string)
    requires td.sid in s.entries && IsDestroyed(s, sid)
    ensures IsDestroyed(Advance(s, actor, td), sid)
  {
    EffectOnEntries(s, actor, td);
    PutTeardownFrame(Effect(s, actor, td), actor, NextTeardown(td));
  }

  lemma EntryStepKeepsDestroyed(c: Config, s: State, a: Action, sid: string)
    requires Inv(c, s) && Enabled(s, a) && IsDestroyed(s, sid)
    requires a.PauseSession? || a.ResumeSession? || a.WriteHealth?
    ensures IsDestroyed(Apply(c, s, a), sid)
  {
    var at := if a.WriteHealth? then s.probes[a.t] else a.sid;
    assert GoodEntry(at, s.entries[at]);
  }

  // ---- whole runs ----

  datatype Run = Run(states: seq<State>, actions: seq<Action>)

  ghost predicate IsRun(c: Config, r: Run) {
    && |r.states| == |r.actions| + 1
    && r.states[0] == INIT
    && forall i :: 0 <= i < |r.actions| ==>
         Enabled(r.states[i], r.actions[i]) && r.states[i + 1] == Apply(c, r.states[i], r.actions[i])
  }

  lemma {:induction false} RunKeepsInv(c: Config, r: Run, i: nat)
    requires IsRun(c, r) && i < |r.states|
    ensures Inv(c, r.states[i])
  {
    if i > 0 {
      RunKeepsInv(c, r, i - 1);
      StepKeepsInv(c, r.states[i - 1], r.actions[i - 1]);
    }
  }

  /** In every interleaving, at every moment: no sandbox is lost, the session limit holds, and
      the health record of every session says what its state says. */
  lemma RunsAreSafe(c: Config, r: Run, i: nat)
    requires IsRun(c, r) && i < |r.states|
    ensures forall sandbox :: sandbox in r.states[i].created ==> Accounted(r.states[i], sandbox)
    ensures c.maxSessions > 0 ==> |r.states[i].sessions| <= c.maxSessions
    ensures forall sid :: sid in r.states[i].entries ==> HealthCoherent(r.states[i].entries[sid])
    ensures forall sid :: sid in r.states[i].entries && r.states[i].entries[sid].state == Unhealthy ==>
              ProxyTarget(r.states[i].entries[sid]) == Err(Unavailable(r.states[i].entries[sid].healthErr))
  {
    RunKeepsInv(c, r, i);
    forall sid | sid in r.states[i].entries
      ensures HealthCoherent(r.states[i].entries[sid])
    {
      assert GoodEntry(sid, r.states[i].entries[sid]);
    }
  }

  /** Once the closing call has returned, no session is registered and every sandbox that was
      ever created has been told to go. */
  lemma CloseLeavesNothing(c: Config, r: Run, i: nat)
    requires IsRun(c, r) && i < |r.states| && r.states[i].closer == Closed
    ensures r.states[i].sessions == {}
    ensures r.states[i].created <= r.states[i].destroyCalled
  {
    RunKeepsInv(c, r, i);
    var s := r.states[i];
    forall sandbox | sandbox in s.created
      ensures sandbox in s.destroyCalled
    {
      assert Accounted(s, sandbox);
    }
  }

  /** Every sandbox has been told to go. */
  ghost predicate AllToldToGo(s: State) {
    s.created <= s.destroyCalled
  }

  /** The sandbox is there and nobody has told it to go. */
  ghost predicate Lingers(s: State, sandbox: string) {
    sandbox in s.created && sandbox !in s.destroyCalled
  }

  /** No operation in flight and no registered session answers for such a sandbox. */
  ghost predicate NobodyHolds(s: State) {
    && (forall t, sandbox :: t in s.ops && Owns(s.ops[t], sandbox) ==> !Lingers(s, sandbox))
    && (forall sid :: sid in s.sessions && sid in s.entries ==> !Lingers(s, s.entries[sid].sandboxId))
  }

  /** What a closing call leaves when it returns. The first call leaves no session and no sandbox.
      A later call returns at once: every sandbox has been told to go by then exactly when neither
      an operation nor a registered session answers for one that was not. While sessions are torn
      down no operation does, so no sandbox lingers if no session is left; and none does for sure
      once the first call has returned. */
  lemma ReturningCloseLeaves(c: Config, r: Run, i: nat)
    requires IsRun(c, r) && i < |r.actions| && (r.actions[i].EndClose? || r.actions[i].CloseAgain?)
    ensures r.actions[i].EndClose? ==> r.states[i + 1].sessions == {} && AllToldToGo(r.states[i + 1])
    ensures r.actions[i].CloseAgain? ==> (AllToldToGo(r.states[i + 1]) <==> NobodyHolds(r.states[i]))
    ensures r.actions[i].CloseAgain? && r.states[i].closer.Destroying? && r.states[i].sessions == {} ==>
              AllToldToGo(r.states[i + 1])
    ensures r.actions[i].CloseAgain? && r.states[i].closer == Closed ==>
              r.states[i + 1].sessions == {} && AllToldToGo(r.states[i + 1])
  {
    RunKeepsInv(c, r, i);
    var s := r.states[i];
    assert r.states[i + 1] == Apply(c, s, r.actions[i]);
    if r.states[i + 1].closer == Closed {
      CloseLeavesNothing(c, r, i + 1);
    }
    if NobodyHolds(s) {
      forall sandbox | sandbox in s.created ensures sandbox in s.destroyCalled {
        assert Accounted(s, sandbox) && (Lingers(s, sandbox) || sandbox in s.destroyCalled);
      }
    }
  }

  function Last(r: Run): State
    requires r.states != []
  {
    r.states[|r.states| - 1]
  }

  function Then(c: Config, r: Run, a: Action): Run
    requires r.states != [] && Enabled(Last(r), a)
  {
    Run(r.states + [Apply(c, Last(r), a)], r.actions + [a])
  }

  lemma RunGoesOn(c: Config, r: Run, a: Action)
    requires IsRun(c, r) && Enabled(Last(r), a)
    ensures IsRun(c, Then(c, r, a))
  {
  }

  /** A run that is about to register a session. */
  lemma SessionReady(c: Config) returns (r: Run, e: Entry)
    ensures IsRun(c, r) && e.sessionId == "s"
    ensures Last(r) == INIT.(issued := {"s"}, created := {"b"}, ops := map[1 := Ready(e)])
  {
    r := Run([INIT], []);
    r := Took(c, r, BeginCreate(1, "s", ToolsSandbox), INIT.(issued := {"s"}, ops := map[1 := Begun("s", ToolsSandbox)]));
    r := Took(c, r, SandboxReply(1, Some("b")), Last(r).(created := {"b"}, ops := map[1 := SandboxUp("s", ToolsSandbox, "b")]));
    e := NewEntry("s", ToolsSandbox, "b", "", c.loopService, "r");
    r := Took(c, r, RemoteReply(1, Some("r")), Last(r).(ops := map[1 := Ready(e)]));
  }

  /** A run that registers one session. */
  lemma OneSession(c: Config) returns (r: Run)
    ensures IsRun(c, r)
    ensures Last(r).sessions == {"s"} && Last(r).ops == map[] && !Last(r).closing && Last(r).closer == NotClosing
  {
    var e;
    r, e := SessionReady(c);
    r := Took(c, r, AddSession(1), Last(r).(sessions := {"s"}, entries := map["s" := e], ops := map[1 := Returning]));
    r := Took(c, r, EndOperation(1), Last(r).(ops := map[]));
  }

  /** One more step of a run, which leads to s. */
  lemma Took(c: Config, r: Run, a: Action, s: State) returns (r': Run)
    requires IsRun(c, r) && Enabled(Last(r), a) && Apply(c, Last(r), a) == s
    ensures IsRun(c, r') && Last(r') == s && r'.states == r.states + [s] && r'.actions == r.actions + [a]
  {
    RunGoesOn(c, r, a);
    r' := Then(c, r, a);
  }

  /** A second call can return with a session still registered, both while the first one waits
      for operations and while it tears sessions down. */
  lemma SecondCloseReturnsEarly(c: Config) returns (r: Run, i: nat, j: nat)
    ensures IsRun(c, r) && i < j < |r.actions|
    ensures r.actions[i] == CloseAgain && r.states[i].closer == Draining && r.states[i + 1].sessions == {"s"}
    ensures r.actions[j] == CloseAgain && r.states[j].closer.Destroying? && r.states[j + 1].sessions == {"s"}
  {
    r := OneSession(c);
    r := Took(c, r, BeginClose, Last(r).(closing := true, closer := Draining));
    i := |r.actions|;
    r := Took(c, r, CloseAgain, Last(r));
    assert forall sid :: sid in ["s"] <==> sid in {"s"};
    r := Took(c, r, ListForClose(["s"]), Last(r).(closer := Destroying(["s"], None)));
    j := |r.actions|;
    r := Took(c, r, CloseAgain, Last(r));
  }

  lemma {:induction false} DestroyedForever(c: Config, r: Run, i: nat, j: nat, sid: string)
    requires IsRun(c, r) && i <= j < |r.states|
    requires IsDestroyed(r.states[i], sid)
    ensures IsDestroyed(r.states[j], sid)
    decreases j
  {
    if i < j {
      DestroyedForever(c, r, i, j - 1, sid);
      RunKeepsInv(c, r, j - 1);
      StepKeepsDestroyed(c, r.states[j - 1], r.actions[j - 1], sid);
    }
  }

  lemma StepKeepsClosed(c: Config, s: State, a: Action)
    requires Inv(c, s) && Enabled(s, a) && s.closer == Closed
    ensures Apply(c, s, a).closer == Closed && Apply(c, s, a).created == s.created
  {
  }

  /** Closing is final: nothing is created, registered or torn down afterwards. */
  lemma {:induction false} ClosedForever(c: Config, r: Run, i: nat, j: nat)
    requires IsRun(c, r) && i <= j < |r.states| && r.states[i].closer == Closed
    ensures r.states[j].closer == Closed
    ensures r.states[j].created == r.states[i].created && r.states[j].sessions == {}
    decreases j
  {
    if i < j {
      ClosedForever(c, r, i, j - 1);
      RunKeepsInv(c, r, j - 1);
      StepKeepsClosed(c, r.states[j - 1], r.actions[j - 1]);
    }
    CloseLeavesNothing(c, r, j);
  }
}
