/** Snapshots, rollback and retention in the sandbox host, as functions of the host's state. Every
    session keeps its own list of snapshots; the store keeps the truth. The operations run one at
    a time. */
module SandboxSessions {
  import opened Wrappers
  import opened SnapshotStore

  datatype SessionState = Creating | Active | Paused | Destroying | Failed

  datatype SnapshotEntry = SnapshotEntry(name: string, isTurn: bool)

  datatype HostError =
    | SessionNotFound
    | SessionExists
    | SessionPaused
    | SessionDestroying
    | MaxSessionsReached
    | BaseSnapshotRequired
    | InvalidState(state: SessionState)
    | RollbackInProgress
    | ToolsInFlight
    | SnapshotsNotAvailable
    | ToolFailed(message: string)
    | LocalDisk(message: string)
    | StoreFailed(error: StoreError)

  /** `zfs` is false for sessions in plain directories. */
  datatype HostConfig = HostConfig(
    zfs: bool,
    sessionsDataset: string,
    prefix: string,
    maxSessions: int,
    maxSnapshots: int,
    defaultQuota: int,
    perToolSnapshots: bool)

  // ---- turn names ----

  function Digits(n: nat): string {
    if n < 10 then ['0' + n as char] else Digits(n / 10) + ['0' + (n % 10) as char]
  }

  function PadLeft(s: string, width: nat): string
    decreases width - |s|
  {
    if |s| >= width then s else PadLeft("0" + s, width)
  }

  /** "%s-%04d". */
  function TurnName(prefix: string, turn: nat): string {
    prefix + "-" + PadLeft(Digits(turn), 4)
  }

  /** The number that a string of digits denotes. */
  function Denotes(s: string): int {
    if s == [] then 0 else 10 * Denotes(s[..|s| - 1]) + (s[|s| - 1] as int - '0' as int)
  }

  lemma {:induction false} DigitsDenote(n: nat)
    ensures Denotes(Digits(n)) == n
  {
    var s := Digits(n);
    if n < 10 {
      assert s[..0] == [];
      assert Denotes(s[..0]) == 0;
    } else {
      DigitsDenote(n / 10);
      assert s[..|s| - 1] == Digits(n / 10);
    }
  }

  lemma {:induction false} ZeroDenotesNothing(s: string)
    ensures Denotes("0" + s) == Denotes(s)
  {
    if s == [] {
      assert ("0" + s)[..0] == [];
      assert Denotes(("0" + s)[..0]) == 0;
    } else {
      ZeroDenotesNothing(s[..|s| - 1]);
      assert ("0" + s)[..|s|] == "0" + s[..|s| - 1];
    }
  }

  lemma {:induction false} PadDenotes(s: string, width: nat)
    ensures Denotes(PadLeft(s, width)) == Denotes(s)
    decreases width - |s|
  {
    if |s| < width {
      ZeroDenotesNothing(s);
      PadDenotes("0" + s, width);
    }
  }

  /** Different turns have different names, also past turn 9999. */
  lemma TurnNamesDiffer(prefix: string, a: nat, b: nat)
    requires TurnName(prefix, a) == TurnName(prefix, b)
    ensures a == b
  {
    var x, y := PadLeft(Digits(a), 4), PadLeft(Digits(b), 4);
    assert x == TurnName(prefix, a)[|prefix| + 1..];
    assert y == TurnName(prefix, b)[|prefix| + 1..];
    PadDenotes(Digits(a), 4);
    PadDenotes(Digits(b), 4);
    DigitsDenote(a);
    DigitsDenote(b);
  }

  // ---- the session's own list ----

  function Names(es: seq<SnapshotEntry>): seq<string> {
    seq(|es|, i requires 0 <= i < |es| => es[i].name)
  }

  /** The names of the turn entries, oldest first. */
  function Turns(es: seq<SnapshotEntry>): seq<string> {
    if es == [] then []
    else
      var last := es[|es| - 1];
      Turns(es[..|es| - 1]) + if last.isTurn then [last.name] else []
  }

  lemma TurnsSnoc(es: seq<SnapshotEntry>, e: SnapshotEntry)
    ensures Turns(es + [e]) == Turns(es) + if e.isTurn then [e.name] else []
  {
    assert (es + [e])[..|es|] == es;
  }

  lemma {:induction false} TurnsPrefix(es: seq<SnapshotEntry>, k: nat)
    requires k <= |es|
    ensures Turns(es[..k]) <= Turns(es)
  {
    if k < |es| {
      TurnsPrefix(es[..|es| - 1], k);
      assert es[..|es| - 1][..k] == es[..k];
    } else {
      assert es[..k] == es;
    }
  }

  /** The turn entries are numbered 1, 2, ..., n. */
  ghost predicate Numbered(prefix: string, es: seq<SnapshotEntry>, n: nat) {
    && |Turns(es)| == n
    && forall i :: 0 <= i < n ==> Turns(es)[i] == TurnName(prefix, i + 1)
  }

  /** The name of the next turn is not among the tracked turns. */
  lemma NextTurnIsNew(prefix: string, es: seq<SnapshotEntry>, n: nat)
    requires Numbered(prefix, es, n)
    ensures TurnName(prefix, n + 1) !in Turns(es)
  {
    forall i | 0 <= i < n
      ensures Turns(es)[i] != TurnName(prefix, n + 1)
    {
      if TurnName(prefix, i + 1) == TurnName(prefix, n + 1) {
        TurnNamesDiffer(prefix, i + 1, n + 1);
      }
    }
  }

  /** What retention keeps of a list. */
  function Retained(es: seq<SnapshotEntry>, cap: int): seq<SnapshotEntry> {
    if cap <= 0 || |es| <= cap then es else es[|es| - cap..]
  }

  /** What it gives up. */
  function Excess(es: seq<SnapshotEntry>, cap: int): seq<SnapshotEntry> {
    if cap <= 0 || |es| <= cap then [] else es[..|es| - cap]
  }

  /** The index of the first entry of that name, or the length. */
  function FirstAt(es: seq<SnapshotEntry>, name: string): (i: nat)
    ensures i <= |es| && (i < |es| ==> es[i].name == name)
    ensures forall k :: 0 <= k < i ==> es[k].name != name
  {
    if es == [] || es[0].name == name then 0 else 1 + FirstAt(es[1..], name)
  }

  // ---- the host's operations ----

  datatype Sess = Sess(
    dataset: string,
    state: SessionState,
    turnCount: nat,
    activeTools: int,
    rollingBack: bool,
    snapshots: seq<SnapshotEntry>)

  datatype Host = Host(store: Store, sessions: map<string, Sess>)

  function NewSess(dataset: string): Sess {
    Sess(dataset, Active, 0, 0, false, [])
  }

  function DatasetOf(cfg: HostConfig, id: string): string {
    cfg.sessionsDataset + "/" + id
  }

  /** The store after it was told to destroy these snapshots; failures are ignored. */
  function Dropped(st: Store, dataset: string, es: seq<SnapshotEntry>): Store {
    if es == [] then st else AfterDestroy(Dropped(st, dataset, es[..|es| - 1]), dataset, es[|es| - 1].name)
  }

  /** Creating a session; `dir` is the error of making its directory, if any. */
  function OnCreate(cfg: HostConfig, h: Host, id: string, base: string, quota: int, dir: Option<string>)
    : (Host, Result<(), HostError>)
  {
    if cfg.maxSessions > 0 && |h.sessions| >= cfg.maxSessions then (h, Err(MaxSessionsReached))
    else if id in h.sessions then (h, Err(SessionExists))
    else if !cfg.zfs then
      if dir.Some? then (h, Err(LocalDisk(dir.value)))
      else (h.(sessions := h.sessions[id := NewSess("")]), Ok(()))
    else if base == "" then (h, Err(BaseSnapshotRequired))
    else
      var (st, err) := Cloned(cfg, h.store, DatasetOf(cfg, id), base, quota);
      if err.Some? then (h.(store := st), Err(StoreFailed(err.value)))
      else (Host(st, h.sessions[id := NewSess(DatasetOf(cfg, id))]), Ok(()))
  }

  /** The store after a session's dataset was cloned and set up; a clone that cannot be set up is
      destroyed again. */
  function Cloned(cfg: HostConfig, st: Store, dataset: string, base: string, quota: int): (Store, Option<StoreError>) {
    var cloned := AfterClone(st, base, dataset);
    if CloneError(st, base, dataset).Some? then (st, CloneError(st, base, dataset))
    else if SetUpError(cfg, cloned, dataset, quota).Some? then
      (AfterDestroyDataset(cloned, dataset), SetUpError(cfg, cloned, dataset, quota))
    else (cloned, None)
  }

  /** Setting the quota, if there is one, and asking for the mountpoint. */
  function SetUpError(cfg: HostConfig, st: Store, dataset: string, quota: int): Option<StoreError> {
    var q := if quota == 0 then cfg.defaultQuota else quota;
    if q > 0 && LookUpError(st, "SetProperty", dataset).Some? then LookUpError(st, "SetProperty", dataset)
    else LookUpError(st, "GetMountpoint", dataset)
  }

  function OnTurn(cfg: HostConfig, h: Host, id: string): (Host, Result<Option<(string, nat)>, HostError>) {
    if !cfg.zfs then (h, Ok(None))
    else if id !in h.sessions then (h, Err(SessionNotFound))
    else
      var sess := h.sessions[id];
      var turn := sess.turnCount + 1;
      var name := TurnName(cfg.prefix, turn);
      var err := CreateError(h.store, sess.dataset, name);
      if sess.state != Active || sess.rollingBack then (h, Err(InvalidState(sess.state)))
      else if err.Some? then (h, Err(StoreFailed(err.value)))
      else
        var list := sess.snapshots + [SnapshotEntry(name, true)];
        var st := Dropped(AfterCreate(h.store, sess.dataset, name), sess.dataset, Excess(list, cfg.maxSnapshots));
        (Host(st, h.sessions[id := sess.(turnCount := turn, snapshots := Retained(list, cfg.maxSnapshots))]),
         Ok(Some((name, turn))))
  }

  /** The session with one more snapshot, if the store takes it. */
  function Tracked(h: Host, id: string, name: string): Host
    requires id in h.sessions
  {
    var sess := h.sessions[id];
    if CreateError(h.store, sess.dataset, name).Some? then h
    else Host(AfterCreate(h.store, sess.dataset, name),
              h.sessions[id := sess.(snapshots := sess.snapshots + [SnapshotEntry(name, false)])])
  }

  function OnSnapshot(cfg: HostConfig, h: Host, id: string, name: string): (Host, Result<string, HostError>) {
    if !cfg.zfs then (h, Err(SnapshotsNotAvailable))
    else if id !in h.sessions then (h, Err(SessionNotFound))
    else
      var err := CreateError(h.store, h.sessions[id].dataset, name);
      (Tracked(h, id, name), if err.Some? then Err(StoreFailed(err.value)) else Ok(name))
  }

  /** Why a tool is not let in. */
  function AdmissionError(h: Host, id: string): Option<HostError> {
    if id !in h.sessions then Some(SessionNotFound)
    else
      var sess := h.sessions[id];
      if sess.state == Paused then Some(SessionPaused)
      else if sess.state == Destroying then Some(SessionDestroying)
      else if sess.state != Active then Some(InvalidState(sess.state))
      else if sess.rollingBack then Some(RollbackInProgress)
      else None
  }

  function ToolSnapshotName(callId: string, stamp: string): string {
    "tool-" + callId + "-" + stamp
  }

  /** One tool call from admission to return, given the tool's outcome. */
  function OnTool(cfg: HostConfig, h: Host, id: string, outcome: Result<string, string>, callId: string, stamp: string)
    : (Host, Result<(string, Option<string>), HostError>)
  {
    var refused := AdmissionError(h, id);
    if refused.Some? then (h, Err(refused.value))
    else if outcome.Err? then (h, Err(ToolFailed(outcome.error)))
    else if !(cfg.perToolSnapshots && cfg.zfs && callId != "") then (h, Ok((outcome.value, None)))
    else
      var name := ToolSnapshotName(callId, stamp);
      var err := CreateError(h.store, h.sessions[id].dataset, name);
      (Tracked(h, id, name), Ok((outcome.value, if err.Some? then None else Some(name))))
  }

  /** The session after the store has rolled back: cut behind the target, with its turns counted. */
  function CutBack(sess: Sess, snapshot: string): Sess {
    var i := FirstAt(sess.snapshots, snapshot);
    if i == |sess.snapshots| then sess
    else sess.(snapshots := sess.snapshots[..i + 1], turnCount := |Turns(sess.snapshots[..i + 1])|)
  }

  function OnRollback(cfg: HostConfig, h: Host, id: string, snapshot: string): (Host, Result<(), HostError>) {
    if !cfg.zfs then (h, Err(SnapshotsNotAvailable))
    else if id !in h.sessions then (h, Err(SessionNotFound))
    else
      var sess := h.sessions[id];
      var err := RollbackError(h.store, sess.dataset, snapshot);
      if sess.state != Active then (h, Err(InvalidState(sess.state)))
      else if sess.activeTools > 0 then (h, Err(ToolsInFlight))
      else if err.Some? then
        (h.(sessions := h.sessions[id := sess.(rollingBack := false, state := Failed)]), Err(StoreFailed(err.value)))
      else
        (Host(AfterRollback(h.store, sess.dataset, snapshot, true),
              h.sessions[id := CutBack(sess.(rollingBack := false), snapshot)]), Ok(()))
  }

  datatype Op =
    | CreateOp(id: string, base: string, quota: int, dir: Option<string>)
    | TurnOp(id: string)
    | SnapshotOp(id: string, name: string)
    | ToolOp(id: string, outcome: Result<string, string>, callId: string, stamp: string)
    | RollbackOp(id: string, snapshot: string)

  function Step(cfg: HostConfig, h: Host, op: Op): Host {
    match op
    case CreateOp(id, base, quota, dir) => OnCreate(cfg, h, id, base, quota, dir).0
    case TurnOp(id) => OnTurn(cfg, h, id).0
    case SnapshotOp(id, name) => OnSnapshot(cfg, h, id, name).0
    case ToolOp(id, outcome, callId, stamp) => OnTool(cfg, h, id, outcome, callId, stamp).0
    case RollbackOp(id, snapshot) => OnRollback(cfg, h, id, snapshot).0
  }

  /** A script of operations; before each the store is told which of its operations fail. */
  type Script = seq<(set<string>, Op)>

  function Failing(h: Host, errors: set<string>): Host {
    h.(store := h.store.(errors := errors))
  }

  function RunAll(cfg: HostConfig, h: Host, script: Script): Host {
    if script == [] then h
    else
      var (errors, op) := script[|script| - 1];
      Step(cfg, Failing(RunAll(cfg, h, script[..|script| - 1]), errors), op)
  }

  // ---- one dataset and the store ----

  /** The list is the dataset's listing, and nothing keeps its snapshots from being destroyed. */
  ghost predicate Tracks(st: Store, dataset: string, es: seq<SnapshotEntry>) {
    && ValidDatasetName(dataset) && dataset in st.datasets
    && InOrder(Names(es), st.snaps, dataset)
    && forall k :: k in st.snaps && st.snaps[k].dataset == dataset ==>
         st.snaps[k].tags == {} && ValidSnapshotName(st.snaps[k].name)
  }

  /** Nothing happened to any other dataset. */
  ghost predicate OthersSame(m: Snaps, m': Snaps, dataset: string) {
    forall d :: d != dataset ==> SameOn(m, m', d)
  }

  lemma TracksFrame(st: Store, st': Store, dataset: string, es: seq<SnapshotEntry>)
    requires GoodStore(st) && Tracks(st, dataset, es) && SameOn(st.snaps, st'.snaps, dataset) && dataset in st'.datasets
    ensures Tracks(st', dataset, es)
  {
    SameOnKeepsOrder(Names(es), st.snaps, st'.snaps, dataset, st.next);
  }

  /** In a tracked dataset the store has a snapshot exactly when the list has it. */
  lemma TracksMember(st: Store, dataset: string, es: seq<SnapshotEntry>, name: string)
    requires GoodStore(st) && Tracks(st, dataset, es)
    ensures Key(dataset, name) in st.snaps <==> name in Names(es)
    ensures name in Names(es) ==> ValidSnapshotName(name)
  {
    Listed(Names(es), st.snaps, dataset, st.next, name);
    if Key(dataset, name) in st.snaps {
      var snap := st.snaps[Key(dataset, name)];
      KeyIsInjective(snap.dataset, snap.name, dataset, name);
    }
  }

  lemma CreateTracks(st: Store, dataset: string, es: seq<SnapshotEntry>, e: SnapshotEntry)
    requires GoodStore(st) && Tracks(st, dataset, es) && CreateError(st, dataset, e.name).None?
    ensures var st' := AfterCreate(st, dataset, e.name);
            GoodStore(st') && Tracks(st', dataset, es + [e]) && OthersSame(st.snaps, st'.snaps, dataset)
  {
    AppendInOrder(Names(es), st.snaps, dataset, st.next, e.name);
    assert Names(es + [e]) == Names(es) + [e.name];
  }

  lemma RollbackTracks(st: Store, dataset: string, es: seq<SnapshotEntry>, name: string)
    requires GoodStore(st) && Tracks(st, dataset, es) && RollbackError(st, dataset, name).None?
    ensures FirstAt(es, name) < |es|
    ensures var st' := AfterRollback(st, dataset, name, true);
            && GoodStore(st') && Tracks(st', dataset, es[..FirstAt(es, name) + 1])
            && OthersSame(st.snaps, st'.snaps, dataset)
  {
    TracksMember(st, dataset, es, name);
    FirstIsThere(es, name);
    CutTracks(st, dataset, es, FirstAt(es, name));
  }

  lemma FirstIsThere(es: seq<SnapshotEntry>, name: string)
    ensures FirstAt(es, name) < |es| <==> name in Names(es)
  {
    if FirstAt(es, name) < |es| {
      assert Names(es)[FirstAt(es, name)] == name;
    }
    if name in Names(es) {
      var j :| 0 <= j < |Names(es)| && Names(es)[j] == name;
      assert es[j].name == name;
    }
  }

  lemma CutTracks(st: Store, dataset: string, es: seq<SnapshotEntry>, i: nat)
    requires GoodStore(st) && Tracks(st, dataset, es) && i < |es|
    requires Key(dataset, es[i].name) in st.snaps
    ensures var st' := st.(snaps := Cut(st.snaps, dataset, st.snaps[Key(dataset, es[i].name)].number));
            GoodStore(st') && Tracks(st', dataset, es[..i + 1]) && OthersSame(st.snaps, st'.snaps, dataset)
  {
    assert Names(es)[i] == es[i].name;
    CutInOrder(Names(es), st.snaps, dataset, st.next, i);
    assert Names(es[..i + 1]) == Names(es)[..i + 1];
  }

  lemma DestroyTracks(st: Store, dataset: string, es: seq<SnapshotEntry>)
    requires GoodStore(st) && Tracks(st, dataset, es) && es != [] && "DestroySnapshot" !in st.errors
    ensures var st' := AfterDestroy(st, dataset, es[0].name);
            && GoodStore(st') && Tracks(st', dataset, es[1..]) && OthersSame(st.snaps, st'.snaps, dataset)
            && st'.errors == st.errors && st'.datasets == st.datasets
  {
    var name := es[0].name;
    assert Names(es)[0] == name;
    TracksMember(st, dataset, es, name);
    var snap := st.snaps[Key(dataset, name)];
    KeyIsInjective(snap.dataset, snap.name, dataset, name);
    DropInOrder(Names(es), st.snaps, dataset, st.next);
    assert Names(es[1..]) == Names(es)[1..];
  }

  /** Destroying the oldest snapshots leaves the rest of the list. */
  lemma {:induction false} DropTracks(st: Store, dataset: string, es: seq<SnapshotEntry>, n: nat)
    requires GoodStore(st) && Tracks(st, dataset, es) && n <= |es| && "DestroySnapshot" !in st.errors
    ensures var st' := Dropped(st, dataset, es[..n]);
            && GoodStore(st') && Tracks(st', dataset, es[n..]) && OthersSame(st.snaps, st'.snaps, dataset)
            && st'.errors == st.errors && st'.datasets == st.datasets
  {
    if n == 0 {
      assert es[0..] == es;
    } else {
      DropTracks(st, dataset, es, n - 1);
      var mid := Dropped(st, dataset, es[..n - 1]);
      assert es[..n][..n - 1] == es[..n - 1] && es[n - 1..][1..] == es[n..];
      DestroyTracks(mid, dataset, es[n - 1..]);
      SameTwice(st.snaps, mid.snaps, Dropped(st, dataset, es[..n]).snaps, dataset);
    }
  }

  lemma SameTwice(a: Snaps, b: Snaps, c: Snaps, dataset: string)
    requires OthersSame(a, b, dataset) && OthersSame(b, c, dataset)
    ensures OthersSame(a, c, dataset)
  {
    forall d | d != dataset ensures SameOn(a, c, d) {
      assert SameOn(a, b, d) && SameOn(b, c, d);
    }
  }

  lemma {:induction false} DropFails(st: Store, dataset: string, es: seq<SnapshotEntry>)
    requires "DestroySnapshot" in st.errors
    ensures Dropped(st, dataset, es) == st
  {
    if es != [] {
      DropFails(st, dataset, es[..|es| - 1]);
    }
  }

  /** Retention keeps list and store together exactly when the store destroys what the list gives
      up, or the list gives up nothing. */
  lemma RetentionTracksIff(st: Store, dataset: string, es: seq<SnapshotEntry>, cap: int)
    requires GoodStore(st) && Tracks(st, dataset, es)
    ensures Tracks(Dropped(st, dataset, Excess(es, cap)), dataset, Retained(es, cap)) <==>
            "DestroySnapshot" !in st.errors || Excess(es, cap) == []
  {
    if Excess(es, cap) != [] {
      if "DestroySnapshot" !in st.errors {
        DropTracks(st, dataset, es, |es| - cap);
      } else {
        DropFails(st, dataset, Excess(es, cap));
        ShorterIsNotIt(st, dataset, es, Retained(es, cap));
      }
    }
  }

  lemma ShorterIsNotIt(st: Store, dataset: string, es: seq<SnapshotEntry>, other: seq<SnapshotEntry>)
    requires GoodStore(st) && Tracks(st, dataset, es) && |other| < |es|
    ensures !Tracks(st, dataset, other)
  {
    if InOrder(Names(other), st.snaps, dataset) {
      OrderIsUnique(Names(es), Names(other), st.snaps, dataset, st.next);
      assert false;
    }
  }

  // ---- all sessions ----

  /** What holds of every session. */
  ghost predicate GoodSess(cfg: HostConfig, st: Store, id: string, sess: Sess) {
    && (cfg.zfs ==> sess.dataset == DatasetOf(cfg, id) && Tracks(st, sess.dataset, sess.snapshots))
    && (!cfg.zfs ==> sess.snapshots == [] && sess.turnCount == 0)
    && (cfg.maxSnapshots <= 0 ==> Numbered(cfg.prefix, sess.snapshots, sess.turnCount))
  }

  ghost predicate GoodHost(cfg: HostConfig, h: Host) {
    GoodStore(h.store) && forall id :: id in h.sessions ==> GoodSess(cfg, h.store, id, h.sessions[id])
  }

  lemma DatasetsDiffer(cfg: HostConfig, a: string, b: string)
    requires a != b
    ensures DatasetOf(cfg, a) != DatasetOf(cfg, b)
  {
    assert DatasetOf(cfg, a)[|cfg.sessionsDataset| + 1..] == a;
    assert DatasetOf(cfg, b)[|cfg.sessionsDataset| + 1..] == b;
  }

  /** What happens to one session's dataset does not disturb the others. */
  lemma OneSessionChanged(cfg: HostConfig, h: Host, id: string, st: Store, sess: Sess)
    requires GoodHost(cfg, h) && GoodStore(st) && GoodSess(cfg, st, id, sess)
    requires OthersSame(h.store.snaps, st.snaps, DatasetOf(cfg, id)) && h.store.datasets <= st.datasets
    ensures GoodHost(cfg, Host(st, h.sessions[id := sess]))
  {
    forall o | o in h.sessions && o != id ensures GoodSess(cfg, st, o, h.sessions[o]) {
      OtherStaysGood(cfg, h, id, st, o);
    }
  }

  lemma OtherStaysGood(cfg: HostConfig, h: Host, id: string, st: Store, o: string)
    requires GoodHost(cfg, h) && GoodStore(st) && o in h.sessions && o != id
    requires OthersSame(h.store.snaps, st.snaps, DatasetOf(cfg, id))
    requires h.store.datasets <= st.datasets
    ensures GoodSess(cfg, st, o, h.sessions[o])
  {
    assert GoodSess(cfg, h.store, o, h.sessions[o]);
    if cfg.zfs {
      DatasetsDiffer(cfg, o, id);
      TracksFrame(h.store, st, h.sessions[o].dataset, h.sessions[o].snapshots);
    }
  }

  lemma TrackedIsGood(cfg: HostConfig, h: Host, id: string, name: string)
    requires GoodHost(cfg, h) && cfg.zfs && id in h.sessions
    ensures GoodHost(cfg, Tracked(h, id, name))
  {
    var sess, e := h.sessions[id], SnapshotEntry(name, false);
    assert GoodSess(cfg, h.store, id, sess);
    if CreateError(h.store, sess.dataset, name).None? {
      CreateTracks(h.store, sess.dataset, sess.snapshots, e);
      TurnsSnoc(sess.snapshots, e);
      OneSessionChanged(cfg, h, id, AfterCreate(h.store, sess.dataset, name), sess.(snapshots := sess.snapshots + [e]));
    }
  }

  lemma TurnIsGood(cfg: HostConfig, h: Host, id: string)
    requires GoodHost(cfg, h) && (cfg.maxSnapshots > 0 ==> "DestroySnapshot" !in h.store.errors)
    ensures GoodHost(cfg, OnTurn(cfg, h, id).0)
  {
    if cfg.zfs && id in h.sessions {
      var sess := h.sessions[id];
      assert GoodSess(cfg, h.store, id, sess);
      var e := SnapshotEntry(TurnName(cfg.prefix, sess.turnCount + 1), true);
      if sess.state == Active && !sess.rollingBack && CreateError(h.store, sess.dataset, e.name).None? {
        TakenTurnIsGood(cfg, h, id, e);
      }
    }
  }

  lemma TakenTurnIsGood(cfg: HostConfig, h: Host, id: string, e: SnapshotEntry)
    requires GoodHost(cfg, h) && (cfg.maxSnapshots > 0 ==> "DestroySnapshot" !in h.store.errors)
    requires cfg.zfs && id in h.sessions && h.sessions[id].state == Active && !h.sessions[id].rollingBack
    requires e == SnapshotEntry(TurnName(cfg.prefix, h.sessions[id].turnCount + 1), true)
    requires CreateError(h.store, h.sessions[id].dataset, e.name).None?
    ensures GoodHost(cfg, OnTurn(cfg, h, id).0)
  {
    var sess := h.sessions[id];
    assert GoodSess(cfg, h.store, id, sess);
    var list := sess.snapshots + [e];
    var st := Dropped(AfterCreate(h.store, sess.dataset, e.name), sess.dataset, Excess(list, cfg.maxSnapshots));
    var sess' := sess.(turnCount := sess.turnCount + 1, snapshots := Retained(list, cfg.maxSnapshots));
    TurnTracks(h.store, sess.dataset, sess.snapshots, e, cfg.maxSnapshots);
    OneMoreTurn(cfg, h.store, st, id, sess, sess', e);
    OneSessionChanged(cfg, h, id, st, sess');
  }

  lemma OneMoreTurn(cfg: HostConfig, before: Store, st: Store, id: string, sess: Sess, sess': Sess, e: SnapshotEntry)
    requires cfg.zfs && GoodSess(cfg, before, id, sess) && e == SnapshotEntry(TurnName(cfg.prefix, sess.turnCount + 1), true)
    requires sess' == sess.(turnCount := sess.turnCount + 1, snapshots := Retained(sess.snapshots + [e], cfg.maxSnapshots))
    requires Tracks(st, sess'.dataset, sess'.snapshots)
    ensures GoodSess(cfg, st, id, sess')
  {
    TurnsSnoc(sess.snapshots, e);
  }

  /** A new snapshot and then retention. */
  lemma TurnTracks(st: Store, dataset: string, es: seq<SnapshotEntry>, e: SnapshotEntry, cap: int)
    requires GoodStore(st) && Tracks(st, dataset, es) && CreateError(st, dataset, e.name).None?
    requires cap > 0 ==> "DestroySnapshot" !in st.errors
    ensures var st' := Dropped(AfterCreate(st, dataset, e.name), dataset, Excess(es + [e], cap));
            && GoodStore(st') && Tracks(st', dataset, Retained(es + [e], cap))
            && OthersSame(st.snaps, st'.snaps, dataset) && st.datasets <= st'.datasets
  {
    var mid, list := AfterCreate(st, dataset, e.name), es + [e];
    CreateTracks(st, dataset, es, e);
    if Excess(list, cap) != [] {
      DropTracks(mid, dataset, list, |list| - cap);
      SameTwice(st.snaps, mid.snaps, Dropped(mid, dataset, Excess(list, cap)).snaps, dataset);
    }
  }

  lemma RollbackIsGood(cfg: HostConfig, h: Host, id: string, snapshot: string)
    requires GoodHost(cfg, h)
    ensures GoodHost(cfg, OnRollback(cfg, h, id, snapshot).0)
  {
    if cfg.zfs && id in h.sessions && h.sessions[id].state == Active && h.sessions[id].activeTools <= 0 {
      var sess := h.sessions[id];
      assert GoodSess(cfg, h.store, id, sess);
      if RollbackError(h.store, sess.dataset, snapshot).Some? {
        OneSessionChanged(cfg, h, id, h.store, sess.(rollingBack := false, state := Failed));
      } else {
        RollbackTracks(h.store, sess.dataset, sess.snapshots, snapshot);
        TurnsPrefix(sess.snapshots, FirstAt(sess.snapshots, snapshot) + 1);
        OneSessionChanged(cfg, h, id, AfterRollback(h.store, sess.dataset, snapshot, true), CutBack(sess.(rollingBack := false), snapshot));
      }
    }
  }

  lemma CreateIsGood(cfg: HostConfig, h: Host, id: string, base: string, quota: int, dir: Option<string>)
    requires GoodHost(cfg, h)
    ensures GoodHost(cfg, OnCreate(cfg, h, id, base, quota, dir).0)
  {
    if id !in h.sessions && !cfg.zfs {
      OneSessionChanged(cfg, h, id, h.store, NewSess(""));
    } else if id !in h.sessions {
      SetUpIsGood(cfg, h, id, base, quota);
    }
  }

  lemma SetUpIsGood(cfg: HostConfig, h: Host, id: string, base: string, quota: int)
    requires GoodHost(cfg, h) && cfg.zfs && id !in h.sessions
    ensures var (st, err) := Cloned(cfg, h.store, DatasetOf(cfg, id), base, quota);
            if err.Some? then GoodHost(cfg, h.(store := st))
            else GoodHost(cfg, Host(st, h.sessions[id := NewSess(DatasetOf(cfg, id))]))
  {
    if CloneError(h.store, base, DatasetOf(cfg, id)).None? {
      ClonedIsGood(cfg, h, id, base);
      UndoneIsGood(cfg, h, id, base);
    }
  }

  lemma ClonedIsGood(cfg: HostConfig, h: Host, id: string, base: string)
    requires GoodHost(cfg, h) && cfg.zfs && id !in h.sessions && CloneError(h.store, base, DatasetOf(cfg, id)).None?
    ensures GoodHost(cfg, Host(AfterClone(h.store, base, DatasetOf(cfg, id)), h.sessions[id := NewSess(DatasetOf(cfg, id))]))
  {
    assert Names([]) == [];
    OneSessionChanged(cfg, h, id, AfterClone(h.store, base, DatasetOf(cfg, id)), NewSess(DatasetOf(cfg, id)));
  }

  /** A clone that is taken back leaves nothing behind. */
  lemma UndoneIsGood(cfg: HostConfig, h: Host, id: string, base: string)
    requires GoodHost(cfg, h) && cfg.zfs && id !in h.sessions && CloneError(h.store, base, DatasetOf(cfg, id)).None?
    ensures GoodHost(cfg, h.(store := AfterDestroyDataset(AfterClone(h.store, base, DatasetOf(cfg, id)), DatasetOf(cfg, id))))
  {
    var undone := AfterDestroyDataset(AfterClone(h.store, base, DatasetOf(cfg, id)), DatasetOf(cfg, id));
    UndoneStore(h.store, base, DatasetOf(cfg, id));
    forall o | o in h.sessions ensures GoodSess(cfg, undone, o, h.sessions[o]) {
      OtherStaysGood(cfg, h, id, undone, o);
    }
  }

  lemma UndoneStore(st: Store, base: string, dataset: string)
    requires GoodStore(st) && CloneError(st, base, dataset).None?
    ensures var undone := AfterDestroyDataset(AfterClone(st, base, dataset), dataset);
            GoodStore(undone) && OthersSame(st.snaps, undone.snaps, dataset) && st.datasets <= undone.datasets
  {
  }

  lemma StepIsGood(cfg: HostConfig, h: Host, op: Op)
    requires GoodHost(cfg, h) && (cfg.maxSnapshots > 0 ==> "DestroySnapshot" !in h.store.errors)
    ensures GoodHost(cfg, Step(cfg, h, op))
  {
    match op
    case CreateOp(id, base, quota, dir) => CreateIsGood(cfg, h, id, base, quota, dir);
    case TurnOp(id) => TurnIsGood(cfg, h, id);
    case SnapshotOp(id, name) => if cfg.zfs && id in h.sessions { TrackedIsGood(cfg, h, id, name); }
    case ToolOp(id, _, callId, stamp) =>
      if cfg.zfs && id in h.sessions {
        TrackedIsGood(cfg, h, id, ToolSnapshotName(callId, stamp));
      }
    case RollbackOp(id, snapshot) => RollbackIsGood(cfg, h, id, snapshot);
  }

  lemma FailingIsGood(cfg: HostConfig, h: Host, errors: set<string>)
    requires GoodHost(cfg, h)
    ensures GoodHost(cfg, Failing(h, errors))
  {
    forall id | id in h.sessions ensures GoodSess(cfg, Failing(h, errors).store, id, h.sessions[id]) {
      assert GoodSess(cfg, h.store, id, h.sessions[id]);
    }
  }

  /** With a retention cap the store can destroy snapshots throughout the script. */
  ghost predicate DestroysSucceed(cfg: HostConfig, script: Script) {
    cfg.maxSnapshots > 0 ==> forall i :: 0 <= i < |script| ==> "DestroySnapshot" !in script[i].0
  }

  lemma {:induction false} RunIsGood(cfg: HostConfig, st: Store, script: Script)
    requires GoodStore(st) && DestroysSucceed(cfg, script)
    ensures GoodHost(cfg, RunAll(cfg, Host(st, map[]), script))
  {
    if script != [] {
      var front := script[..|script| - 1];
      var (errors, op) := script[|script| - 1];
      RunIsGood(cfg, st, front);
      var h := RunAll(cfg, Host(st, map[]), front);
      FailingIsGood(cfg, h, errors);
      StepIsGood(cfg, Failing(h, errors), op);
    }
  }

  /** Starting without sessions over any store, after any script of operations on any sessions,
      with whatever failures of the store short of destroys that retention needs: every session's
      list is its dataset's listing in the store, oldest first, and without a retention cap its
      turns are numbered 1, 2, ..., turnCount. */
  lemma RunAgrees(cfg: HostConfig, st: Store, script: Script, id: string)
    requires GoodStore(st) && DestroysSucceed(cfg, script)
    requires id in RunAll(cfg, Host(st, map[]), script).sessions
    ensures var h := RunAll(cfg, Host(st, map[]), script);
            && (cfg.zfs ==> InOrder(Names(h.sessions[id].snapshots), h.store.snaps, DatasetOf(cfg, id)))
            && (cfg.maxSnapshots <= 0 ==> Numbered(cfg.prefix, h.sessions[id].snapshots, h.sessions[id].turnCount))
  {
    RunIsGood(cfg, st, script);
    var h := RunAll(cfg, Host(st, map[]), script);
    assert GoodSess(cfg, h.store, id, h.sessions[id]);
  }

  // ---- when operations succeed ----

  /** A turn is taken exactly when the session is active and at rest, the store takes snapshots,
      the turn's name is a valid one, and no snapshot in the session's list has it already. */
  lemma TurnTakenIff(cfg: HostConfig, h: Host, id: string)
    requires GoodHost(cfg, h) && cfg.zfs && id in h.sessions
    ensures var sess := h.sessions[id];
            var name := TurnName(cfg.prefix, sess.turnCount + 1);
            OnTurn(cfg, h, id).1 == Ok(Some((name, sess.turnCount + 1))) <==>
              && sess.state == Active && !sess.rollingBack
              && "CreateSnapshot" !in h.store.errors && ValidSnapshotName(name) && name !in Names(sess.snapshots)
  {
    var sess := h.sessions[id];
    assert GoodSess(cfg, h.store, id, sess);
    TracksMember(h.store, sess.dataset, sess.snapshots, TurnName(cfg.prefix, sess.turnCount + 1));
  }

  /** A snapshot is taken exactly when the store takes snapshots, its name is valid and new to
      the session's list. */
  lemma SnapshotTakenIff(cfg: HostConfig, h: Host, id: string, name: string)
    requires GoodHost(cfg, h) && cfg.zfs && id in h.sessions
    ensures OnSnapshot(cfg, h, id, name).1.Ok? <==>
              "CreateSnapshot" !in h.store.errors && ValidSnapshotName(name) && name !in Names(h.sessions[id].snapshots)
    ensures var after := OnSnapshot(cfg, h, id, name).0.sessions[id];
            after == if OnSnapshot(cfg, h, id, name).1.Ok?
                     then h.sessions[id].(snapshots := h.sessions[id].snapshots + [SnapshotEntry(name, false)])
                     else h.sessions[id]
  {
    assert GoodSess(cfg, h.store, id, h.sessions[id]);
    TracksMember(h.store, h.sessions[id].dataset, h.sessions[id].snapshots, name);
  }

  /** A rollback succeeds exactly when the session is active with no tool in flight, the store
      rolls back, and the target is in the session's list; the list then ends at the target. */
  lemma RolledBackIff(cfg: HostConfig, h: Host, id: string, snapshot: string)
    requires GoodHost(cfg, h) && cfg.zfs && id in h.sessions
    ensures var sess, after := h.sessions[id], OnRollback(cfg, h, id, snapshot);
            && (after.1.Ok? <==>
                  && sess.state == Active && sess.activeTools <= 0
                  && "Rollback" !in h.store.errors && snapshot in Names(sess.snapshots))
            && (after.1.Ok? ==>
                  && after.0.sessions[id].snapshots <= sess.snapshots && after.0.sessions[id].snapshots != []
                  && after.0.sessions[id].snapshots[|after.0.sessions[id].snapshots| - 1].name == snapshot
                  && after.0.sessions[id].turnCount == |Turns(after.0.sessions[id].snapshots)|)
            && (after.1.Err? ==> after.0.sessions[id].snapshots == sess.snapshots)
  {
    var sess := h.sessions[id];
    assert GoodSess(cfg, h.store, id, sess);
    TracksMember(h.store, sess.dataset, sess.snapshots, snapshot);
    if RollbackError(h.store, sess.dataset, snapshot).None? {
      RollbackTracks(h.store, sess.dataset, sess.snapshots, snapshot);
    }
  }
}
