/** Turns after a rollback. A rollback counts only the turns that are still listed, so a later turn
    may take a number whose name the list still has, and is then refused. */
module TurnRuns {
  import opened Wrappers
  import opened SnapshotStore
  import opened SandboxSessions

  // ---- which names are valid ----

  ghost predicate AllDigits(s: string) {
    forall i :: 0 <= i < |s| ==> '0' <= s[i] <= '9'
  }

  lemma {:induction false} DigitsAreDigits(n: nat)
    ensures AllDigits(Digits(n)) && |Digits(n)| >= 1
  {
    if n >= 10 {
      DigitsAreDigits(n / 10);
    }
  }

  lemma {:induction false} DigitsGrow(m: nat, n: nat)
    requires m <= n
    ensures |Digits(m)| <= |Digits(n)|
  {
    if m >= 10 {
      DigitsGrow(m / 10, n / 10);
    } else {
      DigitsAreDigits(n);
    }
  }

  lemma {:induction false} PadLeftMeans(s: string, width: nat)
    requires AllDigits(s)
    ensures AllDigits(PadLeft(s, width)) && |PadLeft(s, width)| == if |s| >= width then |s| else width
    decreases width - |s|
  {
    if |s| < width {
      PadLeftMeans("0" + s, width);
    }
  }

  function TurnLength(prefix: string, n: nat): nat {
    |prefix| + 1 + if |Digits(n)| >= 4 then |Digits(n)| else 4
  }

  /** The name of a turn is valid if the prefix starts well, has no other characters, and the name
      is not too long. */
  lemma TurnNameIsValidIff(prefix: string, n: nat)
    ensures ValidSnapshotName(TurnName(prefix, n)) <==>
            prefix != [] && AlphaNumeric(prefix[0]) && TurnLength(prefix, n) <= 255
            && forall i :: 0 <= i < |prefix| ==> SnapshotChar(prefix[i])
  {
    DigitsAreDigits(n);
    PadLeftMeans(Digits(n), 4);
    var name, digits := TurnName(prefix, n), PadLeft(Digits(n), 4);
    assert name[|prefix|] == '-' && !AlphaNumeric('-');
    assert forall i :: 0 <= i < |prefix| ==> name[i] == prefix[i];
    assert forall i :: |prefix| < i < |name| ==> name[i] == digits[i - |prefix| - 1];
  }

  /** So earlier turns have valid names too. */
  lemma EarlierIsValid(prefix: string, m: nat, n: nat)
    requires m <= n && ValidSnapshotName(TurnName(prefix, n))
    ensures ValidSnapshotName(TurnName(prefix, m))
  {
    DigitsGrow(m, n);
    TurnNameIsValidIff(prefix, m);
    TurnNameIsValidIff(prefix, n);
  }

  // ---- one turn ----

  /** A session that takes turns, as far as names allow. */
  ghost predicate TakesTurns(cfg: HostConfig, h: Host, id: string) {
    && GoodHost(cfg, h) && cfg.zfs && id in h.sessions
    && h.sessions[id].state == Active && !h.sessions[id].rollingBack
    && "CreateSnapshot" !in h.store.errors && "DestroySnapshot" !in h.store.errors
  }

  function NextName(cfg: HostConfig, sess: Sess): string {
    TurnName(cfg.prefix, sess.turnCount + 1)
  }

  function WithTurn(cfg: HostConfig, sess: Sess): Sess {
    sess.(turnCount := sess.turnCount + 1,
          snapshots := Retained(sess.snapshots + [SnapshotEntry(NextName(cfg, sess), true)], cfg.maxSnapshots))
  }

  lemma {:induction false} DroppedKeepsErrors(st: Store, dataset: string, es: seq<SnapshotEntry>)
    ensures Dropped(st, dataset, es).errors == st.errors
  {
    if es != [] {
      DroppedKeepsErrors(st, dataset, es[..|es| - 1]);
    }
  }

  lemma TurnKeepsErrors(cfg: HostConfig, h: Host, id: string)
    ensures OnTurn(cfg, h, id).0.store.errors == h.store.errors
  {
    if cfg.zfs && id in h.sessions {
      var sess := h.sessions[id];
      DroppedKeepsErrors(AfterCreate(h.store, sess.dataset, NextName(cfg, sess)), sess.dataset,
                         Excess(sess.snapshots + [SnapshotEntry(NextName(cfg, sess), true)], cfg.maxSnapshots));
    }
  }

  ghost predicate Refused(cfg: HostConfig, h: Host, id: string) {
    OnTurn(cfg, h, id).1 == Err(StoreFailed(SnapshotExists))
  }

  /** A turn is refused as taken exactly when the list has its name, and it is taken exactly when
      the list does not and the name is valid. */
  lemma TurnStep(cfg: HostConfig, h: Host, id: string, after: Host)
    requires TakesTurns(cfg, h, id) && after == OnTurn(cfg, h, id).0
    ensures TakesTurns(cfg, after, id)
    ensures var sess := h.sessions[id];
            && (Refused(cfg, h, id) <==> NextName(cfg, sess) in Names(sess.snapshots))
            && after.sessions[id] ==
               if ValidSnapshotName(NextName(cfg, sess)) && NextName(cfg, sess) !in Names(sess.snapshots)
               then WithTurn(cfg, sess) else sess
  {
    var sess := h.sessions[id];
    assert GoodSess(cfg, h.store, id, sess);
    TracksMember(h.store, sess.dataset, sess.snapshots, NextName(cfg, sess));
    TurnIsGood(cfg, h, id);
    TurnKeepsErrors(cfg, h, id);
  }

  // ---- a run of turns ----

  /** The host after j more calls for a turn, taken or not. */
  function TurnsTaken(cfg: HostConfig, h: Host, id: string, j: nat): Host {
    if j == 0 then h else OnTurn(cfg, TurnsTaken(cfg, h, id, j - 1), id).0
  }

  /** Entry i of the list is still there when it is the turn of number m. */
  predicate StillListed(sess: Sess, cap: int, m: nat, i: nat) {
    m <= sess.turnCount + 1 || cap <= 0 || |sess.snapshots| + (m - 1 - sess.turnCount) - cap <= i
  }

  /** The list keeps the name of turn m until it is the turn of m. */
  ghost predicate Blocks(cfg: HostConfig, sess: Sess, m: nat) {
    m > sess.turnCount && exists i: nat ::
      i < |sess.snapshots| && sess.snapshots[i].name == TurnName(cfg.prefix, m) && StillListed(sess, cfg.maxSnapshots, m, i)
  }

  ghost predicate BlockedBy(cfg: HostConfig, sess: Sess, m: nat) {
    exists b: nat :: b <= m && Blocks(cfg, sess, b)
  }

  function NewTurns(prefix: string, from: nat, j: nat): seq<SnapshotEntry> {
    seq(j, i requires 0 <= i < j => SnapshotEntry(TurnName(prefix, from + 1 + i), true))
  }

  /** The list after j turns were taken. */
  function Grown(cfg: HostConfig, sess: Sess, j: nat): seq<SnapshotEntry> {
    if j == 0 then sess.snapshots
    else Retained(sess.snapshots + NewTurns(cfg.prefix, sess.turnCount, j), cfg.maxSnapshots)
  }

  function GrownSess(cfg: HostConfig, sess: Sess, j: nat): Sess {
    sess.(turnCount := sess.turnCount + j, snapshots := Grown(cfg, sess, j))
  }

  lemma RetainedTwice(es: seq<SnapshotEntry>, e: SnapshotEntry, cap: int)
    ensures Retained(Retained(es, cap) + [e], cap) == Retained(es + [e], cap)
  {
  }

  lemma GrownMore(cfg: HostConfig, sess: Sess, j: nat)
    ensures WithTurn(cfg, GrownSess(cfg, sess, j)) == GrownSess(cfg, sess, j + 1)
  {
    var c := sess.turnCount;
    var e := SnapshotEntry(TurnName(cfg.prefix, c + j + 1), true);
    assert NewTurns(cfg.prefix, c, j + 1) == NewTurns(cfg.prefix, c, j) + [e];
    assert sess.snapshots + NewTurns(cfg.prefix, c, j + 1) == sess.snapshots + NewTurns(cfg.prefix, c, j) + [e];
    RetainedTwice(sess.snapshots + NewTurns(cfg.prefix, c, j), e, cfg.maxSnapshots);
  }

  /** How many of the old entries j turns have cost. */
  function Lost(cfg: HostConfig, sess: Sess, j: nat): nat {
    if j == 0 || cfg.maxSnapshots <= 0 || |sess.snapshots| + j <= cfg.maxSnapshots then 0
    else |sess.snapshots| + j - cfg.maxSnapshots
  }

  lemma GrownIs(cfg: HostConfig, sess: Sess, j: nat, all: seq<SnapshotEntry>)
    requires all == sess.snapshots + NewTurns(cfg.prefix, sess.turnCount, j)
    ensures Lost(cfg, sess, j) <= |all| && Grown(cfg, sess, j) == all[Lost(cfg, sess, j)..]
  {
    assert j == 0 ==> all == sess.snapshots;
  }

  /** No new turn has the name of the next one. */
  lemma OldHasIt(cfg: HostConfig, sess: Sess, j: nat, all: seq<SnapshotEntry>, p: nat)
    requires all == sess.snapshots + NewTurns(cfg.prefix, sess.turnCount, j) && p < |all|
    requires all[p].name == TurnName(cfg.prefix, sess.turnCount + j + 1)
    ensures p < |sess.snapshots|
  {
    if p >= |sess.snapshots| {
      TurnNamesDiffer(cfg.prefix, sess.turnCount + 1 + (p - |sess.snapshots|), sess.turnCount + j + 1);
      assert false;
    }
  }

  /** After j turns the list has the name of the next one exactly when an old entry of that name
      is still there. */
  lemma NextIsListedIff(cfg: HostConfig, sess: Sess, j: nat)
    ensures TurnName(cfg.prefix, sess.turnCount + j + 1) in Names(Grown(cfg, sess, j)) <==>
            Blocks(cfg, sess, sess.turnCount + j + 1)
  {
    var m := sess.turnCount + j + 1;
    if TurnName(cfg.prefix, m) in Names(Grown(cfg, sess, j)) {
      ListedBlocks(cfg, sess, j);
    }
    if Blocks(cfg, sess, m) {
      var i: nat :| i < |sess.snapshots| && sess.snapshots[i].name == TurnName(cfg.prefix, m)
                    && StillListed(sess, cfg.maxSnapshots, m, i);
      GrownIs(cfg, sess, j, sess.snapshots + NewTurns(cfg.prefix, sess.turnCount, j));
      assert Names(Grown(cfg, sess, j))[i - Lost(cfg, sess, j)] == TurnName(cfg.prefix, m);
    }
  }

  lemma ListedBlocks(cfg: HostConfig, sess: Sess, j: nat)
    requires TurnName(cfg.prefix, sess.turnCount + j + 1) in Names(Grown(cfg, sess, j))
    ensures Blocks(cfg, sess, sess.turnCount + j + 1)
  {
    var all, grown, m := sess.snapshots + NewTurns(cfg.prefix, sess.turnCount, j), Grown(cfg, sess, j), sess.turnCount + j + 1;
    GrownIs(cfg, sess, j, all);
    var p :| 0 <= p < |grown| && Names(grown)[p] == TurnName(cfg.prefix, m);
    var i := Lost(cfg, sess, j) + p;
    OldHasIt(cfg, sess, j, all, i);
    assert StillListed(sess, cfg.maxSnapshots, m, i) && sess.snapshots[i].name == TurnName(cfg.prefix, m);
  }

  /** A blocking name is a valid one. */
  lemma BlockingIsValid(cfg: HostConfig, h: Host, id: string, m: nat)
    requires TakesTurns(cfg, h, id) && Blocks(cfg, h.sessions[id], m)
    ensures ValidSnapshotName(TurnName(cfg.prefix, m))
  {
    var sess := h.sessions[id];
    assert GoodSess(cfg, h.store, id, sess);
    var i: nat :| i < |sess.snapshots| && sess.snapshots[i].name == TurnName(cfg.prefix, m);
    assert Names(sess.snapshots)[i] == TurnName(cfg.prefix, m);
    TracksMember(h.store, sess.dataset, sess.snapshots, TurnName(cfg.prefix, m));
  }

  /** Where j calls lead: all were taken, or one was blocked, or the names have become invalid. */
  ghost predicate Reached(cfg: HostConfig, sess: Sess, now: Sess, j: nat) {
    var c := sess.turnCount;
    || (!BlockedBy(cfg, sess, c + j) && now == GrownSess(cfg, sess, j))
    || (BlockedBy(cfg, sess, c + j) && NextName(cfg, now) in Names(now.snapshots))
    || (!BlockedBy(cfg, sess, c + j) && NextName(cfg, now) !in Names(now.snapshots)
        && now.turnCount < c + j && !ValidSnapshotName(NextName(cfg, now)))
  }

  lemma ReachedMore(cfg: HostConfig, h: Host, id: string, j: nat, now: Host, after: Host)
    requires TakesTurns(cfg, h, id) && TakesTurns(cfg, now, id) && Reached(cfg, h.sessions[id], now.sessions[id], j)
    requires after == OnTurn(cfg, now, id).0
    ensures TakesTurns(cfg, after, id) && Reached(cfg, h.sessions[id], after.sessions[id], j + 1)
  {
    var sess, here := h.sessions[id], now.sessions[id];
    var m := sess.turnCount + j + 1;
    TurnStep(cfg, now, id, after);
    assert BlockedBy(cfg, sess, m) <==> BlockedBy(cfg, sess, m - 1) || Blocks(cfg, sess, m);
    if !BlockedBy(cfg, sess, m - 1) && here == GrownSess(cfg, sess, j) {
      NextIsListedIff(cfg, sess, j);
      GrownMore(cfg, sess, j);
    } else if !BlockedBy(cfg, sess, m - 1) {
      if Blocks(cfg, sess, m) {
        BlockingIsValid(cfg, h, id, m);
        EarlierIsValid(cfg.prefix, here.turnCount + 1, m);
      }
    }
  }

  lemma {:induction false} TurnsReach(cfg: HostConfig, h: Host, id: string, j: nat)
    requires TakesTurns(cfg, h, id)
    ensures TakesTurns(cfg, TurnsTaken(cfg, h, id, j), id)
    ensures Reached(cfg, h.sessions[id], TurnsTaken(cfg, h, id, j).sessions[id], j)
  {
    if j == 0 {
      assert !BlockedBy(cfg, h.sessions[id], h.sessions[id].turnCount);
    } else {
      TurnsReach(cfg, h, id, j - 1);
      ReachedMore(cfg, h, id, j - 1, TurnsTaken(cfg, h, id, j - 1), TurnsTaken(cfg, h, id, j));
    }
  }

  /** For any list, named snapshots included: the turn after j more calls is refused as taken
      exactly when the list kept the name of that turn or of one before it long enough. */
  lemma LaterTurnRefusedIff(cfg: HostConfig, h: Host, id: string, j: nat)
    requires TakesTurns(cfg, h, id)
    ensures Refused(cfg, TurnsTaken(cfg, h, id, j), id) <==>
            BlockedBy(cfg, h.sessions[id], h.sessions[id].turnCount + j + 1)
  {
    var now := TurnsTaken(cfg, h, id, j);
    TurnsReach(cfg, h, id, j);
    TurnStep(cfg, now, id, OnTurn(cfg, now, id).0);
    ReachedSays(cfg, h, id, j, now.sessions[id]);
  }

  lemma ReachedSays(cfg: HostConfig, h: Host, id: string, j: nat, now: Sess)
    requires TakesTurns(cfg, h, id) && Reached(cfg, h.sessions[id], now, j)
    ensures NextName(cfg, now) in Names(now.snapshots) <==> BlockedBy(cfg, h.sessions[id], h.sessions[id].turnCount + j + 1)
  {
    var sess := h.sessions[id];
    var m := sess.turnCount + j + 1;
    assert BlockedBy(cfg, sess, m) <==> BlockedBy(cfg, sess, m - 1) || Blocks(cfg, sess, m);
    if !BlockedBy(cfg, sess, m - 1) {
      if now == GrownSess(cfg, sess, j) {
        NextIsListedIff(cfg, sess, j);
      } else if Blocks(cfg, sess, m) {
        BlockingIsValid(cfg, h, id, m);
        EarlierIsValid(cfg.prefix, now.turnCount + 1, m);
      }
    }
  }

  // ---- after retention and a rollback ----

  /** The list holds the turns a + 1, a + 2, ... and nothing else, as it does once retention has
      given up the first a turns. */
  ghost predicate TurnsAfter(prefix: string, es: seq<SnapshotEntry>, a: nat) {
    forall i :: 0 <= i < |es| ==> es[i] == SnapshotEntry(TurnName(prefix, a + 1 + i), true)
  }

  lemma {:induction false} AllAreTurns(prefix: string, es: seq<SnapshotEntry>, a: nat)
    requires TurnsAfter(prefix, es, a)
    ensures |Turns(es)| == |es|
  {
    if es != [] {
      AllAreTurns(prefix, es[..|es| - 1], a);
    }
  }

  /** Turn n is in such a list exactly when it is one of its numbers. */
  lemma TurnIsListedIff(prefix: string, es: seq<SnapshotEntry>, a: nat, n: nat)
    requires TurnsAfter(prefix, es, a)
    ensures TurnName(prefix, n) in Names(es) <==> a < n <= a + |es|
  {
    if a < n <= a + |es| {
      assert Names(es)[n - a - 1] == TurnName(prefix, n);
    }
    if TurnName(prefix, n) in Names(es) {
      var i :| 0 <= i < |es| && Names(es)[i] == TurnName(prefix, n);
      TurnNamesDiffer(prefix, n, a + 1 + i);
    }
  }

  /** Cutting such a list back at turn a + k. */
  lemma CutTurns(prefix: string, sess: Sess, a: nat, k: nat)
    requires TurnsAfter(prefix, sess.snapshots, a) && 0 < k <= |sess.snapshots|
    ensures CutBack(sess, TurnName(prefix, a + k)) == sess.(snapshots := sess.snapshots[..k], turnCount := k)
  {
    var es, i := sess.snapshots, FirstAt(sess.snapshots, TurnName(prefix, a + k));
    assert es[k - 1].name == TurnName(prefix, a + k);
    assert i < |es|;
    TurnNamesDiffer(prefix, a + 1 + i, a + k);
    AllAreTurns(prefix, es[..k], a);
  }

  /** An active session with exactly the turns a + 1, ..., a + n. */
  ghost predicate HoldsTurns(cfg: HostConfig, h: Host, id: string, a: nat, n: nat) {
    && id in h.sessions && h.sessions[id].state == Active
    && |h.sessions[id].snapshots| == n && TurnsAfter(cfg.prefix, h.sessions[id].snapshots, a)
  }

  /** Turns alone lead there: a full list gives up its first turn for the next one. */
  lemma TurnShifts(cfg: HostConfig, h: Host, id: string, a: nat, n: nat, after: Host)
    requires cfg.zfs && HoldsTurns(cfg, h, id, a, n) && h.sessions[id].turnCount == a + n
    requires 0 < cfg.maxSnapshots && n <= cfg.maxSnapshots
    requires after == OnTurn(cfg, h, id).0 && OnTurn(cfg, h, id).1.Ok?
    ensures HoldsTurns(cfg, after, id, if n < cfg.maxSnapshots then a else a + 1, if n < cfg.maxSnapshots then n + 1 else n)
    ensures after.sessions[id].turnCount == a + n + 1
  {
    var es := h.sessions[id].snapshots;
    var list := es + [SnapshotEntry(TurnName(cfg.prefix, a + n + 1), true)];
    assert after.sessions[id].snapshots == Retained(list, cfg.maxSnapshots);
    assert TurnsAfter(cfg.prefix, list, a);
  }

  /** Where a rollback to turn a + k leaves such a session. */
  lemma RolledBackTo(cfg: HostConfig, h: Host, id: string, a: nat, n: nat, k: nat, after: Host)
    requires GoodHost(cfg, h) && cfg.zfs && HoldsTurns(cfg, h, id, a, n) && 0 < k <= n
    requires h.sessions[id].activeTools <= 0 && "Rollback" !in h.store.errors
    requires after == OnRollback(cfg, h, id, TurnName(cfg.prefix, a + k)).0
    ensures HoldsTurns(cfg, after, id, a, k) && after.store.errors == h.store.errors
    ensures after.sessions[id].turnCount == k && !after.sessions[id].rollingBack
  {
    var name := TurnName(cfg.prefix, a + k);
    assert OnRollback(cfg, h, id, name).1.Ok? by {
      TurnIsListedIff(cfg.prefix, h.sessions[id].snapshots, a, a + k);
      RolledBackIff(cfg, h, id, name);
    }
    CutTurns(cfg.prefix, h.sessions[id].(rollingBack := false), a, k);
  }

  /** In a session that counts k turns and lists the turns a + 1, ..., a + k. */
  lemma BlocksIff(cfg: HostConfig, sess: Sess, a: nat, k: nat, m: nat)
    requires TurnsAfter(cfg.prefix, sess.snapshots, a) && |sess.snapshots| == k && sess.turnCount == k
    ensures Blocks(cfg, sess, m) <==>
            k < m && a < m <= a + k && (m == k + 1 || cfg.maxSnapshots <= 0 || a <= cfg.maxSnapshots)
  {
    if Blocks(cfg, sess, m) {
      var i: nat :| i < k && sess.snapshots[i].name == TurnName(cfg.prefix, m) && StillListed(sess, cfg.maxSnapshots, m, i);
      TurnNamesDiffer(cfg.prefix, a + 1 + i, m);
    }
    if k < m && a < m <= a + k {
      assert sess.snapshots[m - a - 1].name == TurnName(cfg.prefix, m);
    }
  }

  /** Without a cap nothing is ever given up. */
  lemma NothingGivenUp(cfg: HostConfig, h: Host, id: string, a: nat, n: nat)
    requires GoodHost(cfg, h) && HoldsTurns(cfg, h, id, a, n) && 0 < n && cfg.maxSnapshots <= 0
    ensures a == 0
  {
    var sess := h.sessions[id];
    assert GoodSess(cfg, h.store, id, sess);
    FirstTurn(sess.snapshots);
    TurnNamesDiffer(cfg.prefix, a + 1, 1);
  }

  lemma {:induction false} FirstTurn(es: seq<SnapshotEntry>)
    requires es != [] && es[0].isTurn
    ensures |Turns(es)| > 0 && Turns(es)[0] == es[0].name
  {
    if |es| > 1 {
      FirstTurn(es[..|es| - 1]);
    } else {
      assert es[..0] == [];
    }
  }

  /** After retention gave up the first a turns and a rollback kept k of the others, the turn after
      j more calls is refused as taken exactly when 1 <= a <= cap and a <= k + j. So turns are
      refused for good from turn a + 1 on, or at once if k is larger, and never if nothing or more
      than a whole list was given up. */
  lemma RollbackBlocksTurnsIff(cfg: HostConfig, h: Host, id: string, a: nat, n: nat, k: nat, j: nat)
    requires TakesTurns(cfg, h, id) && HoldsTurns(cfg, h, id, a, n) && 0 < k <= n
    requires cfg.maxSnapshots > 0 ==> n <= cfg.maxSnapshots
    requires h.sessions[id].activeTools <= 0 && "Rollback" !in h.store.errors
    ensures var after := OnRollback(cfg, h, id, TurnName(cfg.prefix, a + k)).0;
            Refused(cfg, TurnsTaken(cfg, after, id, j), id) <==> 1 <= a <= cfg.maxSnapshots && a <= k + j
  {
    var after := OnRollback(cfg, h, id, TurnName(cfg.prefix, a + k)).0;
    RolledBackTo(cfg, h, id, a, n, k, after);
    RollbackIsGood(cfg, h, id, TurnName(cfg.prefix, a + k));
    LaterTurnRefusedIff(cfg, after, id, j);
    if cfg.maxSnapshots <= 0 {
      NothingGivenUp(cfg, h, id, a, n);
    }
    BlockedByIff(cfg, after.sessions[id], a, k, j);
  }

  lemma BlockedByIff(cfg: HostConfig, sess: Sess, a: nat, k: nat, j: nat)
    requires TurnsAfter(cfg.prefix, sess.snapshots, a) && |sess.snapshots| == k && sess.turnCount == k && 0 < k
    requires if cfg.maxSnapshots > 0 then k <= cfg.maxSnapshots else a == 0
    ensures BlockedBy(cfg, sess, k + j + 1) <==> 1 <= a <= cfg.maxSnapshots && a <= k + j
  {
    if BlockedBy(cfg, sess, k + j + 1) {
      var b: nat :| b <= k + j + 1 && Blocks(cfg, sess, b);
      BlocksIff(cfg, sess, a, k, b);
    }
    if 1 <= a <= cfg.maxSnapshots && a <= k + j {
      BlocksIff(cfg, sess, a, k, if a <= k then k + 1 else a + 1);
    }
  }

  // ---- scripts that lead there ----

  /** A new session that takes t turns lists the last of them, up to the cap. */
  lemma {:induction false} TurnsFill(cfg: HostConfig, h: Host, id: string, t: nat)
    requires TakesTurns(cfg, h, id) && HoldsTurns(cfg, h, id, 0, 0) && h.sessions[id].turnCount == 0
    requires cfg.maxSnapshots > 0 && ValidSnapshotName(TurnName(cfg.prefix, t))
    ensures var now, cap := TurnsTaken(cfg, h, id, t), cfg.maxSnapshots;
            && TakesTurns(cfg, now, id) && now.sessions[id].turnCount == t
            && now.sessions[id].activeTools == h.sessions[id].activeTools && now.store.errors == h.store.errors
            && HoldsTurns(cfg, now, id, if t <= cap then 0 else t - cap, if t <= cap then t else cap)
  {
    if t > 0 {
      EarlierIsValid(cfg.prefix, t - 1, t);
      TurnsFill(cfg, h, id, t - 1);
      var now, cap := TurnsTaken(cfg, h, id, t - 1), cfg.maxSnapshots;
      OneMore(cfg, now, id, if t - 1 <= cap then 0 else t - 1 - cap, if t - 1 <= cap then t - 1 else cap,
              TurnsTaken(cfg, h, id, t));
    }
  }

  lemma OneMore(cfg: HostConfig, h: Host, id: string, a: nat, n: nat, after: Host)
    requires TakesTurns(cfg, h, id) && HoldsTurns(cfg, h, id, a, n) && h.sessions[id].turnCount == a + n
    requires 0 < cfg.maxSnapshots && n <= cfg.maxSnapshots && ValidSnapshotName(TurnName(cfg.prefix, a + n + 1))
    requires after == OnTurn(cfg, h, id).0
    ensures TakesTurns(cfg, after, id) && after.sessions[id].turnCount == a + n + 1
    ensures after.sessions[id].activeTools == h.sessions[id].activeTools && after.store.errors == h.store.errors
    ensures HoldsTurns(cfg, after, id, if n < cfg.maxSnapshots then a else a + 1, if n < cfg.maxSnapshots then n + 1 else n)
  {
    var sess := h.sessions[id];
    TurnStep(cfg, h, id, after);
    TurnIsListedIff(cfg.prefix, sess.snapshots, a, a + n + 1);
    TurnTakenIff(cfg, h, id);
    TurnShifts(cfg, h, id, a, n, after);
    TurnKeepsErrors(cfg, h, id);
  }

  lemma RunMore(cfg: HostConfig, h: Host, script: Script, errors: set<string>, op: Op)
    ensures RunAll(cfg, h, script + [(errors, op)]) == Step(cfg, Failing(RunAll(cfg, h, script), errors), op)
  {
    assert (script + [(errors, op)])[..|script|] == script;
  }

  function TurnScript(id: string, t: nat): Script {
    seq(t, i => ({}, TurnOp(id)))
  }

  /** A store that does not fail stays so, and turns on it are a run of turns. */
  lemma {:induction false} RunTurns(cfg: HostConfig, start: Host, script: Script, id: string, t: nat)
    requires RunAll(cfg, start, script).store.errors == {}
    ensures RunAll(cfg, start, script + TurnScript(id, t)) == TurnsTaken(cfg, RunAll(cfg, start, script), id, t)
    ensures RunAll(cfg, start, script + TurnScript(id, t)).store.errors == {}
  {
    if t == 0 {
      assert script + TurnScript(id, 0) == script;
    } else {
      RunTurns(cfg, start, script, id, t - 1);
      assert script + TurnScript(id, t) == script + TurnScript(id, t - 1) + [({}, TurnOp(id))];
      RunMore(cfg, start, script + TurnScript(id, t - 1), {}, TurnOp(id));
      TurnKeepsErrors(cfg, TurnsTaken(cfg, RunAll(cfg, start, script), id, t - 1), id);
    }
  }

  /** A host with room for one snapshot per session, over a store with one snapshot to clone. */
  const ROOM_FOR_ONE := HostConfig(true, "t", "a", 0, 1, 0, false)
  const ONE_BASE := Store({"t"}, map["t@b" := Snap("b", "t", {}, 0)], {}, 1)
  const FIRST: Script := [({}, CreateOp("s", "t@b", 0, None))]

  lemma ExampleNames()
    ensures ValidFullName("t@b") && ValidDatasetName("t/s") && GoodStore(ONE_BASE)
    ensures ValidSnapshotName(TurnName("a", 1)) && ValidSnapshotName(TurnName("a", 2))
  {
    assert "t@b"[..1] == "t" && "t@b"[2..] == "b";
    assert AtSign("t@b") == 1;
    assert LongestPart("t", 1) <= 1 && LongestPart("t/s", 3) <= 3;
    TurnNameIsValidIff("a", 1);
    TurnNameIsValidIff("a", 2);
  }

  /** The host after its first session was created. */
  lemma FirstSession() returns (h: Host)
    ensures h == RunAll(ROOM_FOR_ONE, Host(ONE_BASE, map[]), FIRST) && h.store.errors == {}
    ensures TakesTurns(ROOM_FOR_ONE, h, "s") && h.sessions["s"] == NewSess("t/s")
  {
    ExampleNames();
    h := RunAll(ROOM_FOR_ONE, Host(ONE_BASE, map[]), FIRST);
    RunIsGood(ROOM_FOR_ONE, ONE_BASE, FIRST);
    RunMore(ROOM_FOR_ONE, Host(ONE_BASE, map[]), [], {}, FIRST[0].1);
    assert [] + [FIRST[0]] == FIRST;
    assert DatasetOf(ROOM_FOR_ONE, "s") == "t/s";
  }

  /** And after t turns of it. */
  lemma SomeTurns(script: Script, t: nat) returns (h: Host)
    requires script == FIRST + TurnScript("s", t) && ValidSnapshotName(TurnName("a", t)) && t > 0
    ensures h == RunAll(ROOM_FOR_ONE, Host(ONE_BASE, map[]), script) && h.store.errors == {}
    ensures TakesTurns(ROOM_FOR_ONE, h, "s") && HoldsTurns(ROOM_FOR_ONE, h, "s", t - 1, 1)
    ensures h.sessions["s"].turnCount == t && h.sessions["s"].activeTools == 0 && h.sessions["s"].dataset == "t/s"
  {
    var first := FirstSession();
    RunTurns(ROOM_FOR_ONE, Host(ONE_BASE, map[]), FIRST, "s", t);
    TurnsFill(ROOM_FOR_ONE, first, "s", t);
    h := TurnsTaken(ROOM_FOR_ONE, first, "s", t);
    assert GoodSess(ROOM_FOR_ONE, h.store, "s", h.sessions["s"]) && DatasetOf(ROOM_FOR_ONE, "s") == "t/s";
  }

  /** Two turns, a rollback to the second, and the next turn is refused, with a store that never
      fails. */
  lemma TurnRefusedAfterRollback() returns (script: Script)
    ensures DestroysSucceed(ROOM_FOR_ONE, script)
    ensures Refused(ROOM_FOR_ONE, RunAll(ROOM_FOR_ONE, Host(ONE_BASE, map[]), script), "s")
  {
    ExampleNames();
    var turns := FIRST + TurnScript("s", 2);
    var two := SomeTurns(turns, 2);
    script := RolledBack(turns, two, TurnName("a", 2));
  }

  lemma RolledBack(turns: Script, two: Host, name: string) returns (script: Script)
    requires two == RunAll(ROOM_FOR_ONE, Host(ONE_BASE, map[]), turns) && DestroysSucceed(ROOM_FOR_ONE, turns)
    requires TakesTurns(ROOM_FOR_ONE, two, "s") && HoldsTurns(ROOM_FOR_ONE, two, "s", 1, 1) && two.store.errors == {}
    requires two.sessions["s"].activeTools == 0 && name == TurnName("a", 2)
    ensures DestroysSucceed(ROOM_FOR_ONE, script)
    ensures Refused(ROOM_FOR_ONE, RunAll(ROOM_FOR_ONE, Host(ONE_BASE, map[]), script), "s")
  {
    RollbackBlocks(two, name);
    RunMore(ROOM_FOR_ONE, Host(ONE_BASE, map[]), turns, {}, RollbackOp("s", name));
    script := turns + [({}, RollbackOp("s", name))];
  }

  lemma RollbackBlocks(h: Host, name: string)
    requires TakesTurns(ROOM_FOR_ONE, h, "s") && HoldsTurns(ROOM_FOR_ONE, h, "s", 1, 1) && h.store.errors == {}
    requires h.sessions["s"].activeTools == 0 && name == TurnName("a", 2)
    ensures Refused(ROOM_FOR_ONE, Step(ROOM_FOR_ONE, Failing(h, {}), RollbackOp("s", name)), "s")
  {
    assert Failing(h, {}) == h;
    RollbackBlocksTurnsIff(ROOM_FOR_ONE, h, "s", 1, 1, 1, 0);
  }

  /** Two turns of which the second cannot destroy the first: the list has only the second, and
      the store has both. */
  lemma ListFallsBehindStore() returns (script: Script)
    ensures var h := RunAll(ROOM_FOR_ONE, Host(ONE_BASE, map[]), script);
            && "s" in h.sessions && Names(h.sessions["s"].snapshots) == [TurnName("a", 2)]
            && InOrder([TurnName("a", 1), TurnName("a", 2)], h.store.snaps, "t/s")
  {
    ExampleNames();
    var one := FIRST + TurnScript("s", 1);
    var h := SomeTurns(one, 1);
    SecondStays(ROOM_FOR_ONE, Failing(h, {"DestroySnapshot"}), "s");
    RunMore(ROOM_FOR_ONE, Host(ONE_BASE, map[]), one, {"DestroySnapshot"}, TurnOp("s"));
    script := one + [({"DestroySnapshot"}, TurnOp("s"))];
  }

  lemma SecondStays(cfg: HostConfig, h: Host, id: string)
    requires cfg.zfs && cfg.maxSnapshots == 1 && ValidSnapshotName(TurnName(cfg.prefix, 2))
    requires GoodHost(cfg, Failing(h, {})) && HoldsTurns(cfg, h, id, 0, 1) && h.sessions[id].turnCount == 1
    requires !h.sessions[id].rollingBack && h.store.errors == {"DestroySnapshot"}
    ensures var after := OnTurn(cfg, h, id).0;
            && id in after.sessions && Names(after.sessions[id].snapshots) == [TurnName(cfg.prefix, 2)]
            && InOrder([TurnName(cfg.prefix, 1), TurnName(cfg.prefix, 2)], after.store.snaps, h.sessions[id].dataset)
  {
    var sess, e := h.sessions[id], SnapshotEntry(TurnName(cfg.prefix, 2), true);
    FailingIsGood(cfg, Failing(h, {}), {"DestroySnapshot"});
    assert GoodSess(cfg, h.store, id, sess);
    TurnTakenIff(cfg, h, id);
    TurnIsListedIff(cfg.prefix, sess.snapshots, 0, 2);
    CreateTracks(h.store, sess.dataset, sess.snapshots, e);
    DropFails(AfterCreate(h.store, sess.dataset, e.name), sess.dataset, Excess(sess.snapshots + [e], 1));
    assert Names(sess.snapshots + [e]) == [TurnName(cfg.prefix, 1), TurnName(cfg.prefix, 2)];
  }
}
