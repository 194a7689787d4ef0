/** The orchestrator object itself: the session registry, the creation flow with its
    compensations, teardown and Close, each as the code runs it between interleavings. The
    interleavings are the subject of SessionProtocol. */
module Orchestrators {
  import opened Wrappers
  import opened Whitespace
  import opened SessionEntries
  import opened SessionProtocol
  import opened RemoteCalls
  import opened StringOrder

  /** The order of a listing: by age, then by name. */
  predicate Earlier(a: SessionEntry, b: SessionEntry) {
    || a.createdAt < b.createdAt
    || (a.createdAt == b.createdAt && !AtMost(b.sessionId, a.sessionId))
  }

  ghost predicate InOrder(entries: seq<SessionEntry>) {
    forall i, j :: 0 <= i < j < |entries| ==> Earlier(entries[i], entries[j])
  }

  lemma EarlierTwice(a: SessionEntry, b: SessionEntry, c: SessionEntry)
    requires Earlier(a, b) && Earlier(b, c)
    ensures Earlier(a, c)
  {
    if AtMost(c.sessionId, a.sessionId) {
      Total(a.sessionId, b.sessionId);
      if AtMost(a.sessionId, b.sessionId) {
        Transitive(c.sessionId, a.sessionId, b.sessionId);
      }
    }
  }

  /** Inserts an entry where it belongs. */
  method Enlist(entries: seq<SessionEntry>, e: SessionEntry) returns (r: seq<SessionEntry>)
    requires InOrder(entries) && forall i :: 0 <= i < |entries| ==> entries[i].sessionId != e.sessionId
    ensures InOrder(r) && forall x :: x in r <==> x == e || x in entries
  {
    var i := 0;
    while i < |entries| && Earlier(entries[i], e)
      invariant 0 <= i <= |entries|
      invariant forall k :: 0 <= k < i ==> Earlier(entries[k], e)
    {
      i := i + 1;
    }
    if i < |entries| {
      Total(e.sessionId, entries[i].sessionId);
      if AtMost(e.sessionId, entries[i].sessionId) && AtMost(entries[i].sessionId, e.sessionId) {
        Antisymmetric(e.sessionId, entries[i].sessionId);
      }
    }
    r := entries[..i] + [e] + entries[i..];
    InsertedIsInOrder(entries, e, i);
    forall x ensures x in r <==> x == e || x in entries {
      InsertedHolds(entries, e, i, x);
    }
  }

  lemma InsertedIsInOrder(entries: seq<SessionEntry>, e: SessionEntry, i: nat)
    requires InOrder(entries) && i <= |entries|
    requires (forall k :: 0 <= k < i ==> Earlier(entries[k], e)) && (i < |entries| ==> Earlier(e, entries[i]))
    ensures InOrder(entries[..i] + [e] + entries[i..])
  {
    var r := entries[..i] + [e] + entries[i..];
    forall k | i <= k < |entries| ensures Earlier(e, entries[k]) {
      if k > i {
        EarlierTwice(e, entries[i], entries[k]);
      }
    }
    forall j, k | 0 <= j < k < |r| ensures Earlier(r[j], r[k]) {
      assert r[j] == if j < i then entries[j] else if j == i then e else entries[j - 1];
      assert r[k] == if k < i then entries[k] else if k == i then e else entries[k - 1];
    }
  }

  lemma InsertedHolds(entries: seq<SessionEntry>, e: SessionEntry, i: nat, x: SessionEntry)
    requires i <= |entries|
    ensures x in entries[..i] + [e] + entries[i..] <==> x == e || x in entries
  {
    assert entries == entries[..i] + entries[i..];
  }

  /** What tearing down the entries one after the other calls and reports. */
  function AllCalls(es: seq<Entry>): seq<Call> {
    if es == [] then [] else AllCalls(es[..|es| - 1]) + TeardownCalls(es[|es| - 1])
  }

  function AllErrors(es: seq<Entry>, replies: string -> TeardownReplies): seq<string> {
    if es == [] then []
    else AllErrors(es[..|es| - 1], replies) + TeardownErrors(es[|es| - 1], replies(es[|es| - 1].sessionId))
  }

  method JoinErrors(fs: seq<Option<string>>) returns (errs: seq<RpcError>)
    ensures errs == Joined(fs)
  {
    errs := [];
    for i := 0 to |fs|
      invariant errs == Joined(fs[..i])
    {
      if fs[i].Some? {
        errs := errs + [Backend(fs[i].value)];
      }
      assert fs[..i + 1][..i] == fs[..i];
    }
    assert fs[..|fs|] == fs;
  }

  lemma AllStep(before: seq<Call>, es: seq<Entry>, i: nat, replies: string -> TeardownReplies)
    requires i < |es|
    ensures before + AllCalls(es[..i + 1]) == before + AllCalls(es[..i]) + TeardownCalls(es[i])
    ensures AllErrors(es[..i + 1], replies) == AllErrors(es[..i], replies) + TeardownErrors(es[i], replies(es[i].sessionId))
  {
    assert es[..i + 1][..i] == es[..i];
  }

  class Orchestrator {
    var sessions: map<string, SessionEntry>
    var closing: bool
    var inFlight: nat
    var calls: seq<Call>
    const maxSessions: int
    const owned: Owned

    /** Every record is filed under its own name. */
    ghost predicate Valid()
      reads this
    {
      forall sid :: sid in sessions ==> sessions[sid].sessionId == sid
    }

    constructor (maxSessions: int, owned: Owned)
      ensures Valid() && sessions == map[] && !closing && inFlight == 0 && calls == []
      ensures this.maxSessions == maxSessions && this.owned == owned
    {
      this.maxSessions, this.owned := maxSessions, owned;
      sessions, closing, inFlight, calls := map[], false, 0, [];
    }

    method BeginOperation() returns (err: Option<RpcError>)
      modifies this`inFlight
      ensures err.Some? <==> closing
      ensures inFlight == if closing then old(inFlight) else old(inFlight) + 1
    {
      if closing {
        return Some(Unavailable(None));
      }
      inFlight := inFlight + 1;
      return None;
    }

    method EndOperation()
      requires inFlight > 0
      modifies this`inFlight
      ensures inFlight == old(inFlight) - 1
    {
      inFlight := inFlight - 1;
    }

    method AddSession(entry: SessionEntry) returns (err: Option<RpcError>)
      requires Valid()
      modifies this`sessions
      ensures Valid()
      ensures err == AddError(maxSessions, closing, |old(sessions)|, entry.sessionId in old(sessions))
      ensures sessions == if err.Some? then old(sessions) else old(sessions)[entry.sessionId := entry]
      ensures maxSessions > 0 && |old(sessions)| <= maxSessions ==> |sessions| <= maxSessions
    {
      if closing {
        return Some(Unavailable(None));
      }
      if maxSessions > 0 && |sessions| >= maxSessions {
        return Some(ResourceExhausted);
      }
      if entry.sessionId in sessions {
        return Some(AlreadyExists);
      }
      sessions := sessions[entry.sessionId := entry];
      return None;
    }

    /** Records what a creation acquired, just before the session is registered. */
    static method Fill(entry: SessionEntry, remote: string, sandbox: string, process: string, service: Service)
      requires !Blank(remote) || remote == entry.sessionId
      modifies entry
      ensures entry.View() == NewEntry(entry.sessionId, entry.placement, sandbox, process, service, remote)
    {
      entry.remoteSessionId := remote;
      entry.sandboxId := sandbox;
      entry.processId := process;
      entry.control := true;
      entry.service := Some(service);
      entry.state := Active;
      entry.healthFailures := 0;
      entry.healthErr := None;
    }

    /** What addSession would say of a session of that name. */
    ghost function Refusal(sid: string): Option<RpcError>
      reads this
    {
      AddError(maxSessions, closing, |sessions|, sid in sessions)
    }

    /** The creation from the connection on. */
    method StartSession(entry: SessionEntry, sandbox: string, process: string, service: Service, reply: Result<string, string>,
                        u: UndoReplies)
      returns (r: Result<string, seq<RpcError>>)
      requires Valid()
      modifies this`sessions, this`calls, entry
      ensures Valid()
      ensures var refusal := old(Refusal(entry.sessionId));
              && r.Ok? == (reply.Ok? && refusal.None?)
              && calls == old(calls) + SessionCalls(entry.sessionId, sandbox, process, service, reply, refusal.Some?)
              && (r.Err? ==> sessions == old(sessions) && r.error == SessionErrors(reply, refusal, u))
      ensures r.Ok? ==>
                && r.value == entry.sessionId
                && sessions == old(sessions)[entry.sessionId := entry]
                && entry.View() == NewEntry(entry.sessionId, entry.placement, sandbox, process, service, reply.value)
    {
      calls := calls + [OpenedService(service)];
      if reply.Err? {
        var more := Abandon(service, entry.sessionId, sandbox, process, u);
        return Err([Backend(reply.error)] + more);
      }
      var remote := reply.value;
      if Blank(remote) {
        remote := entry.sessionId;
      }
      calls := calls + [CreatedRemote(service, remote)];
      Fill(entry, remote, sandbox, process, service);
      var err := AddSession(entry);
      if err.Some? {
        var more := Abandon(service, remote, sandbox, process, u);
        return Err([err.value] + more);
      }
      return Ok(entry.sessionId);
    }

    method Abandon(service: Service, remote: string, sandbox: string, process: string, u: UndoReplies) returns (errs: seq<RpcError>)
      modifies this`calls
      ensures calls == old(calls) + Abandoning(service, remote, sandbox, process) && errs == AbandonErrors(u)
    {
      calls := calls + [DestroyedRemote(service, remote), ClosedService(service),
                        KilledProcess(sandbox, process), DestroyedSandbox(sandbox)];
      errs := JoinErrors([u.remote, u.close, u.kill, u.sandbox]);
    }

    /** The shared flow of agent-direct and agent-sandbox creations. */
    method CreateRemoteAgentSession(entry: SessionEntry, rs: Replies, u: UndoReplies) returns (r: Result<string, seq<RpcError>>)
      requires Valid()
      modifies this`sessions, this`calls, entry
      ensures Valid()
      ensures var refusal := old(Refusal(entry.sessionId));
              && r.Ok? == Succeeds(rs, refusal.Some?)
              && calls == old(calls) + CreationCalls(entry.sessionId, rs, refusal.Some?)
              && (r.Err? ==> sessions == old(sessions) && r.error == CreationErrors(rs, refusal, u))
      ensures r.Ok? ==>
                && r.value == entry.sessionId
                && sessions == old(sessions)[entry.sessionId := entry]
                && entry.View() == NewEntry(entry.sessionId, entry.placement, rs.sandbox.value,
                                            rs.launch.value, rs.connect.value, rs.remote.value)
    {
      if rs.sandbox.Err? {
        return Err([Backend(rs.sandbox.error)]);
      }
      var sandbox := rs.sandbox.value;
      calls := calls + [CreatedSandbox(sandbox)];
      if rs.launch.Err? {
        calls := calls + [DestroyedSandbox(sandbox)];
        var more := JoinErrors([u.sandbox]);
        return Err([Backend(rs.launch.error)] + more);
      }
      var process := rs.launch.value;
      calls := calls + [LaunchedProcess(sandbox, process)];
      if rs.connect.Err? {
        calls := calls + [KilledProcess(sandbox, process), DestroyedSandbox(sandbox)];
        var more := JoinErrors([u.kill, u.sandbox]);
        return Err([Backend(rs.connect.error)] + more);
      }
      assert calls == old(calls) + [CreatedSandbox(sandbox), LaunchedProcess(sandbox, process)];
      r := StartSession(entry, sandbox, process, rs.connect.value, rs.remote, u);
    }

    method StopAgent(entry: SessionEntry, rs: TeardownReplies) returns (errs: seq<string>)
      modifies this`calls
      ensures calls == old(calls) + AgentCalls(entry.View()) && errs == AgentErrors(entry.View(), rs)
    {
      errs := [];
      var remote := entry.remoteSessionId;
      if Blank(remote) {
        remote := entry.sessionId;
      }
      if entry.service.Some? {
        calls := calls + [DestroyedRemote(entry.service.value, remote)];
        errs := errs + Reported(rs.remote);
      }
      if entry.processId != "" && entry.control {
        calls := calls + [KilledProcess(entry.sandboxId, entry.processId)];
        errs := errs + Reported(rs.kill);
      }
    }

    method StopSandbox(entry: SessionEntry, rs: TeardownReplies) returns (errs: seq<string>)
      modifies this`calls
      ensures calls == old(calls) + SandboxCalls(entry.View()) && errs == SandboxErrors(entry.View(), rs)
    {
      errs := [];
      if entry.sandboxId != "" && entry.control {
        calls := calls + [DestroyedSandbox(entry.sandboxId)];
        errs := errs + Reported(rs.sandbox);
      }
      if entry.service.Some? {
        calls := calls + [ClosedService(entry.service.value)];
        if rs.close.Some? {
          errs := errs + [rs.close.value.message];
        }
      }
    }

    /** Every step is tried and the session goes, whatever the outside answers. */
    method DestroySessionEntry(entry: SessionEntry, rs: TeardownReplies) returns (errs: seq<string>)
      requires Valid()
      modifies this`sessions, this`calls, entry`state
      ensures Valid()
      ensures calls == old(calls) + TeardownCalls(old(entry.View()))
      ensures errs == TeardownErrors(old(entry.View()), rs)
      ensures entry.View() == old(entry.View()).(state := Destroyed)
      ensures sessions == old(sessions) - {entry.sessionId}
    {
      errs := StopAgent(entry, rs);
      var more := StopSandbox(entry, rs);
      errs := errs + more;
      entry.state := Destroyed;
      sessions := sessions - {entry.sessionId};
    }

    /** The registered entries, each once. */
    ghost predicate Lists(entries: seq<SessionEntry>)
      reads this
    {
      && InOrder(entries)
      && (forall e :: e in entries ==> e.sessionId in sessions && sessions[e.sessionId] == e)
      && (forall sid :: sid in sessions ==> sessions[sid] in entries)
    }

    /** Every entry once, oldest first, and by name among equally old ones. */
    method ListSessionEntries() returns (entries: seq<SessionEntry>)
      requires Valid()
      ensures Lists(entries)
    {
      entries := [];
      var rest := sessions.Keys;
      while rest != {}
        invariant rest <= sessions.Keys && InOrder(entries)
        invariant forall e :: e in entries <==>
                    e.sessionId in sessions && e.sessionId !in rest && sessions[e.sessionId] == e
      {
        var sid :| sid in rest;
        assert forall i :: 0 <= i < |entries| ==> entries[i] in entries;
        entries := Enlist(entries, sessions[sid]);
        rest := rest - {sid};
      }
    }

    /** The first half of Close. A call that is not the first returns here. */
    method BeginClose() returns (first: bool)
      modifies this`closing
      ensures closing && first == !old(closing)
    {
      first := !closing;
      closing := true;
    }

    static ghost predicate AllDistinct(entries: seq<SessionEntry>) {
      forall i, k :: 0 <= i < k < |entries| ==> entries[k] != entries[i]
    }

    static lemma AreDistinct(entries: seq<SessionEntry>)
      requires InOrder(entries)
      ensures AllDistinct(entries)
    {
      forall i, k | 0 <= i < k < |entries| ensures entries[k] != entries[i] {
        Total(entries[i].sessionId, entries[i].sessionId);
      }
    }

    /** The registered entries are among the listed ones from i on. */
    ghost predicate Registers(entries: seq<SessionEntry>, i: nat)
      reads this
    {
      i <= |entries| && forall sid :: sid in sessions ==> sessions[sid] in entries[i..]
    }

    /** The listed entries from i on are as they were. */
    ghost predicate Standing(entries: seq<SessionEntry>, i: nat, views: seq<Entry>)
      reads entries
    {
      |views| == |entries| && forall k :: i <= k < |entries| ==> entries[k].View() == views[k]
    }

    ghost predicate AllGone(entries: seq<SessionEntry>)
      reads entries
    {
      forall k :: 0 <= k < |entries| ==> entries[k].state == Destroyed
    }

    /** Tears down the entry at i. */
    method DestroyNext(entries: seq<SessionEntry>, i: nat, rs: TeardownReplies, ghost views: seq<Entry>) returns (errs: seq<string>)
      requires Valid() && i < |entries| && Registers(entries, i) && Standing(entries, i, views) && AllGone(entries[..i])
      requires AllDistinct(entries)
      modifies this`sessions, this`calls, {entries[i]}`state
      ensures Valid() && Registers(entries, i + 1) && Standing(entries, i + 1, views) && AllGone(entries[..i + 1])
      ensures calls == old(calls) + TeardownCalls(views[i]) && errs == TeardownErrors(views[i], rs)
    {
      errs := DestroySessionEntry(entries[i], rs);
      forall sid | sid in sessions ensures sessions[sid] in entries[i + 1..] {
        assert entries[i..] == [entries[i]] + entries[i + 1..];
      }
      assert entries[..i + 1] == entries[..i] + [entries[i]];
    }

    /** Tears the listed sessions down one after the other. */
    method DestroyAll(entries: seq<SessionEntry>, replies: string -> TeardownReplies) returns (errs: seq<string>)
      requires Valid() && Lists(entries)
      modifies this`sessions, this`calls, (set e | e in entries)`state
      ensures Valid() && sessions == map[] && AllGone(entries)
      ensures calls == old(calls) + AllCalls(old(Views(entries)))
      ensures errs == AllErrors(old(Views(entries)), replies)
    {
      ghost var views := Views(entries);
      errs := [];
      AreDistinct(entries);
      for i := 0 to |entries|
        invariant Valid() && Registers(entries, i) && Standing(entries, i, views) && AllGone(entries[..i])
        invariant calls == old(calls) + AllCalls(views[..i]) && errs == AllErrors(views[..i], replies)
      {
        var more := DestroyNext(entries, i, replies(entries[i].sessionId), views);
        errs := errs + more;
        AllStep(old(calls), views, i, replies);
      }
      assert views[..|entries|] == views && entries[..|entries|] == entries;
    }

    /** Closes what the orchestrator itself owns. */
    method CloseOwned(rs: OwnedReplies) returns (errs: seq<string>)
      modifies this`calls
      ensures calls == old(calls) + OwnedCalls(owned) && errs == OwnedErrors(owned, rs)
    {
      errs := [];
      if owned.loop {
        calls := calls + [ClosedLoop];
        errs := errs + if rs.loop.Some? then [rs.loop.value] else [];
      }
      if owned.direct {
        calls := calls + [ClosedDirect];
        errs := errs + if rs.direct.Some? then [rs.direct.value] else [];
      }
      if owned.node {
        calls := calls + [ClosedNode];
        errs := errs + if rs.node.Some? then [rs.node.value] else [];
      }
    }

    /** The second half of Close, once the operations in flight have returned: the sessions go in
        the order of the listing, then the orchestrator's own services, and the errors of all are
        returned. */
    method FinishClose(replies: string -> TeardownReplies, ownReplies: OwnedReplies)
      returns (errs: seq<string>, ghost entries: seq<SessionEntry>)
      requires Valid() && closing && inFlight == 0
      modifies this`sessions, this`calls, (set sid | sid in sessions :: sessions[sid])`state
      ensures closing && Valid() && sessions == map[]
      ensures old(allocated(entries)) && old(Lists(entries)) && AllGone(entries)
      ensures calls == old(calls) + AllCalls(old(Views(entries))) + OwnedCalls(owned)
      ensures errs == AllErrors(old(Views(entries)), replies) + OwnedErrors(owned, ownReplies)
    {
      var listed := ListSessionEntries();
      entries := listed;
      errs := DestroyAll(listed, replies);
      var more := CloseOwned(ownReplies);
      errs := errs + more;
    }
  }

  ghost function Views(entries: seq<SessionEntry>): seq<Entry>
    reads entries
  {
    seq(|entries|, i requires 0 <= i < |entries| reads entries => entries[i].View())
  }
}
