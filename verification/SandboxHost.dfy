/** The sandbox host's sessions and operations as the code runs them, one at a time, against the
    functions of SandboxSessions. */
module SandboxHosts {
  import opened Wrappers
  import opened SnapshotStore
  import opened SandboxSessions

  class Session {
    const dataset: string
    var state: SessionState
    var turnCount: nat
    var activeTools: int
    var rollingBack: bool
    var snapshots: seq<SnapshotEntry>

    function View(): Sess
      reads this
    {
      Sess(dataset, state, turnCount, activeTools, rollingBack, snapshots)
    }

    constructor (dataset: string)
      ensures View() == NewSess(dataset)
    {
      this.dataset := dataset;
      state, turnCount, activeTools, rollingBack, snapshots := Active, 0, 0, false, [];
    }
  }

  class SandboxHost {
    const cfg: HostConfig
    const store: MockManager
    var sessions: map<string, Session>

    ghost function Records(): set<Session>
      reads this
    {
      set id | id in sessions :: sessions[id]
    }

    ghost function View(): Host
      reads this, store, Records()
    {
      Host(store.View(), map id | id in sessions :: sessions[id].View())
    }

    /** Every session has a record of its own. */
    ghost predicate Apart()
      reads this
    {
      forall a, b :: a in sessions && b in sessions && a != b ==> sessions[a] != sessions[b]
    }

    ghost predicate Valid()
      reads this, store
    {
      Apart() && store.Valid()
    }

    constructor (cfg: HostConfig, store: MockManager)
      requires store.Valid()
      ensures Valid() && this.cfg == cfg && this.store == store && sessions == map[]
      ensures View() == Host(store.View(), map[])
    {
      this.cfg := cfg;
      this.store := store;
      sessions := map[];
    }

    /** Only this session's record has changed. */
    twostate lemma OneChanged(id: string)
      requires sessions == old(sessions) && id in sessions && Apart()
      requires forall o :: o in sessions && o != id ==> unchanged(sessions[o])
      ensures View().sessions == old(View()).sessions[id := sessions[id].View()]
      ensures sessions[id].View() == old(sessions[id].View()) ==> View().sessions == old(View()).sessions
    {
      assert old(View()).sessions[id] == old(sessions[id].View());
    }

    // ---- one session and the store ----

    /** Takes a snapshot and, if the store took it, enters it in the session's list. */
    method Track(sess: Session, name: string, isTurn: bool) returns (err: Option<StoreError>)
      requires store.Valid()
      modifies store`snapshots, store`next, sess`snapshots
      ensures store.Valid() && err == CreateError(old(store.View()), sess.dataset, name)
      ensures store.View() == AfterCreate(old(store.View()), sess.dataset, name)
      ensures sess.snapshots == if err.None? then old(sess.snapshots) + [SnapshotEntry(name, isTurn)] else old(sess.snapshots)
    {
      err := store.CreateSnapshot(sess.dataset, name);
      if err.None? {
        sess.snapshots := sess.snapshots + [SnapshotEntry(name, isTurn)];
      }
    }

    /** Trims the list to the cap and tells the store to destroy the rest, whether it does or not. */
    method CleanupOldSnapshots(sess: Session)
      requires store.Valid()
      modifies store`snapshots, sess`snapshots
      ensures store.Valid() && sess.snapshots == Retained(old(sess.snapshots), cfg.maxSnapshots)
      ensures store.View() == Dropped(old(store.View()), sess.dataset, Excess(old(sess.snapshots), cfg.maxSnapshots))
    {
      if cfg.maxSnapshots <= 0 || |sess.snapshots| <= cfg.maxSnapshots {
        return;
      }
      var drop := |sess.snapshots| - cfg.maxSnapshots;
      var toDelete := sess.snapshots[..drop];
      sess.snapshots := sess.snapshots[drop..];
      for i := 0 to |toDelete|
        modifies store`snapshots
        invariant store.Valid()
        invariant store.View() == Dropped(old(store.View()), sess.dataset, toDelete[..i])
      {
        assert toDelete[..i + 1][..i] == toDelete[..i];
        var _ := store.DestroySnapshot(sess.dataset, toDelete[i].name);
      }
      assert toDelete[..|toDelete|] == toDelete;
    }

    /** Cuts the list behind the first entry of that name and counts the turns left. */
    method ForgetLater(sess: Session, snapshot: string)
      modifies sess`snapshots, sess`turnCount
      ensures sess.View() == CutBack(old(sess.View()), snapshot)
    {
      var target := Find(sess.snapshots, snapshot);
      if target.Some? {
        sess.snapshots := sess.snapshots[..target.value + 1];
        sess.turnCount := CountTurns(sess.snapshots);
      }
    }

    // ---- the service's operations ----

    method CreateSession(id: string, base: string, quota: int, dir: Option<string>) returns (r: Result<(), HostError>)
      requires Valid()
      modifies this`sessions, store`datasets, store`snapshots
      ensures Valid() && (View(), r) == OnCreate(cfg, old(View()), id, base, quota, dir)
      ensures r.Err? ==> sessions == old(sessions)
      ensures r.Ok? ==> id in sessions && fresh(sessions[id]) && sessions == old(sessions)[id := sessions[id]]
    {
      assert old(View()).sessions.Keys == sessions.Keys;
      assert |old(View()).sessions| == |old(View()).sessions.Keys| == |sessions.Keys| == |sessions|;
      if cfg.maxSessions > 0 && |sessions| >= cfg.maxSessions {
        return Err(MaxSessionsReached);
      }
      if id in sessions {
        return Err(SessionExists);
      }
      if !cfg.zfs {
        if dir.Some? {
          return Err(LocalDisk(dir.value));
        }
        Register(id, "");
        return Ok(());
      }
      if base == "" {
        return Err(BaseSnapshotRequired);
      }
      var dataset := cfg.sessionsDataset + "/" + id;
      var err := Clone(dataset, base, quota);
      assert View().sessions == old(View()).sessions;
      if err.Some? {
        return Err(StoreFailed(err.value));
      }
      Register(id, dataset);
      return Ok(());
    }

    /** Clones and sets up a dataset, or leaves none. */
    method Clone(dataset: string, base: string, quota: int) returns (err: Option<StoreError>)
      requires store.Valid()
      modifies store`datasets, store`snapshots
      ensures store.Valid() && (store.View(), err) == Cloned(cfg, old(store.View()), dataset, base, quota)
    {
      err := store.CloneFromSnapshot(base, dataset);
      if err.Some? {
        return;
      }
      err := SetUp(dataset, quota);
      if err.Some? {
        var _ := store.DestroyDataset(dataset);
      }
    }

    method SetUp(dataset: string, quota: int) returns (err: Option<StoreError>)
      ensures err == SetUpError(cfg, store.View(), dataset, quota)
    {
      var q := if quota == 0 then cfg.defaultQuota else quota;
      if q > 0 {
        err := store.LookUp("SetProperty", dataset);
        if err.Some? {
          return;
        }
      }
      err := store.LookUp("GetMountpoint", dataset);
    }

    method Register(id: string, dataset: string)
      requires Apart() && id !in sessions
      modifies this`sessions
      ensures Apart() && id in sessions && fresh(sessions[id]) && sessions == old(sessions)[id := sessions[id]]
      ensures View().sessions == old(View()).sessions[id := NewSess(dataset)]
    {
      var sess := new Session(dataset);
      sessions := sessions[id := sess];
    }

    method TurnComplete(id: string) returns (r: Result<Option<(string, nat)>, HostError>)
      requires Valid()
      modifies store`snapshots, store`next, Records()
      ensures Valid() && sessions == old(sessions) && (View(), r) == OnTurn(cfg, old(View()), id)
    {
      if !cfg.zfs {
        return Ok(None);
      }
      if id !in sessions {
        return Err(SessionNotFound);
      }
      var sess := sessions[id];
      assert old(View()).sessions[id] == sess.View();
      if sess.state != Active || sess.rollingBack {
        return Err(InvalidState(sess.state));
      }
      var turn := sess.turnCount + 1;
      var name := TurnName(cfg.prefix, turn);
      var err := Track(sess, name, true);
      if err.Some? {
        OneChanged(id);
        return Err(StoreFailed(err.value));
      }
      sess.turnCount := turn;
      CleanupOldSnapshots(sess);
      OneChanged(id);
      return Ok(Some((name, turn)));
    }

    /** A snapshot that is not a turn. */
    method TrackNamed(id: string, name: string) returns (err: Option<StoreError>)
      requires Valid() && id in sessions
      modifies store`snapshots, store`next, Records()
      ensures Valid() && sessions == old(sessions)
      ensures err == CreateError(old(View()).store, old(View()).sessions[id].dataset, name)
      ensures View() == Tracked(old(View()), id, name)
    {
      assert old(View()).sessions[id] == sessions[id].View();
      err := Track(sessions[id], name, false);
      OneChanged(id);
    }

    method CreateSnapshot(id: string, name: string) returns (r: Result<string, HostError>)
      requires Valid()
      modifies store`snapshots, store`next, Records()
      ensures Valid() && sessions == old(sessions) && (View(), r) == OnSnapshot(cfg, old(View()), id, name)
    {
      if !cfg.zfs {
        return Err(SnapshotsNotAvailable);
      }
      if id !in sessions {
        return Err(SessionNotFound);
      }
      var err := TrackNamed(id, name);
      if err.Some? {
        return Err(StoreFailed(err.value));
      }
      return Ok(name);
    }

    /** The two admission checks: without the session's lock and again under it. */
    method Admit(id: string) returns (err: Option<HostError>)
      ensures err == AdmissionError(View(), id)
    {
      if id !in sessions {
        return Some(SessionNotFound);
      }
      assert View().sessions[id] == sessions[id].View();
      match sessions[id].state {
        case Active =>
        case Paused => return Some(SessionPaused);
        case Destroying => return Some(SessionDestroying);
        case _ => return Some(InvalidState(sessions[id].state));
      }
      if sessions[id].rollingBack {
        return Some(RollbackInProgress);
      }
      return None;
    }

    method ExecuteTool(id: string, outcome: Result<string, string>, callId: string, stamp: string)
      returns (r: Result<(string, Option<string>), HostError>)
      requires Valid()
      modifies store`snapshots, store`next, Records()
      ensures Valid() && sessions == old(sessions)
      ensures (View(), r) == OnTool(cfg, old(View()), id, outcome, callId, stamp)
    {
      var refused := Admit(id);
      if refused.Some? {
        return Err(refused.value);
      }
      var sess := sessions[id];
      sess.activeTools := sess.activeTools + 1;
      if outcome.Err? {
        sess.activeTools := sess.activeTools - 1;
        OneChanged(id);
        return Err(ToolFailed(outcome.error));
      }
      var snapshot := ToolSnapshot(id, callId, stamp);
      sess.activeTools := sess.activeTools - 1;
      OneChanged(id);
      return Ok((outcome.value, snapshot));
    }

    /** The snapshot after a successful tool call, if it is configured and the store takes it. */
    method ToolSnapshot(id: string, callId: string, stamp: string) returns (snapshot: Option<string>)
      requires Valid() && id in sessions
      modifies store`snapshots, store`next, sessions[id]
      ensures Valid() && sessions == old(sessions)
      ensures var name := ToolSnapshotName(callId, stamp);
              var wanted := cfg.perToolSnapshots && cfg.zfs && callId != "";
              var err := CreateError(old(store.View()), sessions[id].dataset, name);
              && snapshot == (if wanted && err.None? then Some(name) else None)
              && store.View() == (if wanted then AfterCreate(old(store.View()), sessions[id].dataset, name) else old(store.View()))
              && sessions[id].View() == if wanted && err.None?
                   then old(sessions[id].View()).(snapshots := old(sessions[id].snapshots) + [SnapshotEntry(name, false)])
                   else old(sessions[id].View())
    {
      snapshot := None;
      if cfg.perToolSnapshots && cfg.zfs && callId != "" {
        var name := ToolSnapshotName(callId, stamp);
        var err := Track(sessions[id], name, false);
        if err.None? {
          snapshot := Some(name);
        }
      }
    }

    method RollbackSession(id: string, snapshot: string) returns (r: Result<(), HostError>)
      requires Valid()
      modifies store`snapshots, Records()
      ensures Valid() && sessions == old(sessions) && (View(), r) == OnRollback(cfg, old(View()), id, snapshot)
    {
      if !cfg.zfs {
        return Err(SnapshotsNotAvailable);
      }
      if id !in sessions {
        return Err(SessionNotFound);
      }
      var sess := sessions[id];
      assert old(View()).sessions[id] == sess.View();
      if sess.state != Active {
        return Err(InvalidState(sess.state));
      }
      if sess.activeTools > 0 {
        return Err(ToolsInFlight);
      }
      sess.rollingBack := true;
      var err := store.Rollback(sess.dataset, snapshot, true);
      sess.rollingBack := false;
      if err.Some? {
        sess.state := Failed;
        OneChanged(id);
        return Err(StoreFailed(err.value));
      }
      ForgetLater(sess, snapshot);
      OneChanged(id);
      return Ok(());
    }
  }

  method RunOp(host: SandboxHost, op: Op)
    requires host.Valid()
    modifies host`sessions, host.store, host.Records()
    ensures host.Valid() && host.View() == Step(host.cfg, old(host.View()), op)
    ensures host.store.errors == old(host.store.errors)
    ensures forall s :: s in host.Records() ==> s in old(host.Records()) || fresh(s)
  {
    match op
    case CreateOp(id, base, quota, dir) => var _ := host.CreateSession(id, base, quota, dir);
    case TurnOp(id) => var _ := host.TurnComplete(id);
    case SnapshotOp(id, name) => var _ := host.CreateSnapshot(id, name);
    case ToolOp(id, outcome, callId, stamp) => var _ := host.ExecuteTool(id, outcome, callId, stamp);
    case RollbackOp(id, snapshot) => var _ := host.RollbackSession(id, snapshot);
  }

  /** Runs a script: the host's state is what the operations' functions make of it. */
  method RunOps(host: SandboxHost, script: Script)
    requires host.Valid()
    modifies host`sessions, host.store, host.Records()
    ensures host.Valid() && host.View() == RunAll(host.cfg, old(host.View()), script)
  {
    for i := 0 to |script|
      invariant host.Valid() && host.View() == RunAll(host.cfg, old(host.View()), script[..i])
      invariant forall s :: s in host.Records() ==> s in old(host.Records()) || fresh(s)
    {
      assert script[..i + 1][..i] == script[..i];
      host.store.errors := script[i].0;
      assert host.View() == Failing(RunAll(host.cfg, old(host.View()), script[..i]), script[i].0);
      RunOp(host, script[i].1);
    }
    assert script[..|script|] == script;
  }

  /** A new host over a given store, after any script: the lists are the store's listings and the
      turns are numbered. */
  method RunNew(cfg: HostConfig, store: MockManager, script: Script) returns (host: SandboxHost)
    requires store.Valid() && DestroysSucceed(cfg, script)
    modifies store
    ensures host.Valid() && host.View() == RunAll(cfg, Host(old(store.View()), map[]), script)
    ensures forall id :: id in host.View().sessions ==>
              var sess := host.View().sessions[id];
              && (cfg.zfs ==> InOrder(Names(sess.snapshots), host.View().store.snaps, DatasetOf(cfg, id)))
              && (cfg.maxSnapshots <= 0 ==> Numbered(cfg.prefix, sess.snapshots, sess.turnCount))
  {
    ghost var st := store.View();
    host := new SandboxHost(cfg, store);
    RunOps(host, script);
    forall id | id in host.View().sessions
      ensures var sess := host.View().sessions[id];
              && (cfg.zfs ==> InOrder(Names(sess.snapshots), host.View().store.snaps, DatasetOf(cfg, id)))
              && (cfg.maxSnapshots <= 0 ==> Numbered(cfg.prefix, sess.snapshots, sess.turnCount))
    {
      RunAgrees(cfg, st, script, id);
    }
  }

  method Find(es: seq<SnapshotEntry>, name: string) returns (at: Option<nat>)
    ensures at.None? <==> FirstAt(es, name) == |es|
    ensures at.Some? ==> at.value == FirstAt(es, name)
  {
    for i := 0 to |es|
      invariant forall k :: 0 <= k < i ==> es[k].name != name
    {
      if es[i].name == name {
        return Some(i);
      }
    }
    return None;
  }

  method CountTurns(es: seq<SnapshotEntry>) returns (n: nat)
    ensures n == |Turns(es)|
  {
    n := 0;
    for i := 0 to |es|
      invariant n == |Turns(es[..i])|
    {
      TurnsSnoc(es[..i], es[i]);
      assert es[..i] + [es[i]] == es[..i + 1];
      if es[i].isTurn {
        n := n + 1;
      }
    }
    assert es[..|es|] == es;
  }
}
