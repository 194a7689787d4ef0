/** Tools and rollbacks of one sandbox session, interleaved at the session's lock. Tool calls
    and rollbacks are named by the thread that runs them. */
module ToolAdmission {
  import opened SandboxSessions

  type Thread = nat

  /** A rollback has raised the flag and is in the store, or the store has answered. */
  datatype Phase = InStore | Returned(ok: bool)

  /** `tools` is the set that the atomic counter counts. */
  datatype State = State(
    state: SessionState,
    rollingBack: bool,
    tools: set<Thread>,
    rollbacks: map<Thread, Phase>)

  datatype Action =
    | Admit(t: Thread)
    | Finish(t: Thread)
    | BeginRollback(t: Thread)
    | StoreAnswers(t: Thread, ok: bool)
    | EndRollback(t: Thread)
    | Pause
    | Resume
    | Destroy

  const INIT: State := State(Active, false, {}, map[])

  predicate Enabled(s: State, a: Action) {
    match a
    case Admit(t) => t !in s.tools && s.state == Active && !s.rollingBack
    case Finish(t) => t in s.tools
    case BeginRollback(t) => t !in s.rollbacks && s.state == Active && |s.tools| == 0
    case StoreAnswers(t, _) => t in s.rollbacks && s.rollbacks[t].InStore?
    case EndRollback(t) => t in s.rollbacks && s.rollbacks[t].Returned?
    case Pause => s.state == Active
    case Resume => s.state == Paused
    case Destroy => true
  }

  function Apply(s: State, a: Action): State
    requires Enabled(s, a)
  {
    match a
    case Admit(t) => s.(tools := s.tools + {t})
    case Finish(t) => s.(tools := s.tools - {t})
    case BeginRollback(t) => s.(rollingBack := true, rollbacks := s.rollbacks[t := InStore])
    case StoreAnswers(t, ok) => s.(rollbacks := s.rollbacks[t := Returned(ok)])
    case EndRollback(t) =>
      s.(rollingBack := false, rollbacks := s.rollbacks - {t},
         state := if s.rollbacks[t].ok then s.state else Failed)
    case Pause => s.(state := Paused)
    case Resume => s.(state := Active)
    case Destroy => s.(state := Destroying)
  }

  datatype Run = Run(states: seq<State>, actions: seq<Action>)

  ghost predicate IsRun(r: Run) {
    && |r.states| == |r.actions| + 1
    && r.states[0] == INIT
    && forall i :: 0 <= i < |r.actions| ==>
         Enabled(r.states[i], r.actions[i]) && r.states[i + 1] == Apply(r.states[i], r.actions[i])
  }

  /** While the flag is up no tool is in flight, and the flag is up only for a rollback. */
  ghost predicate FlagExcludes(s: State) {
    s.rollingBack ==> s.tools == {} && s.rollbacks != map[]
  }

  lemma {:induction false} FlagAlwaysExcludes(r: Run, i: nat)
    requires IsRun(r) && i < |r.states|
    ensures r.states[i].rollingBack ==> r.states[i].tools == {}
    ensures FlagExcludes(r.states[i])
  {
    if i > 0 {
      FlagAlwaysExcludes(r, i - 1);
      var s, a := r.states[i - 1], r.actions[i - 1];
      assert r.states[i] == Apply(s, a);
      assert a.BeginRollback? ==> a.t in r.states[i].rollbacks;
      assert a.StoreAnswers? ==> a.t in r.states[i].rollbacks;
    }
  }

  /** At step j the tool was let in, into an active session with its flag down, and it has been
      in flight ever since. */
  ghost predicate Admitted(r: Run, j: nat, i: nat, t: Thread)
    requires IsRun(r) && i < |r.states|
  {
    && j < i && r.actions[j] == Admit(t)
    && r.states[j].state == Active && !r.states[j].rollingBack
    && forall k :: j < k <= i ==> t in r.states[k].tools
  }

  /** Every tool in flight was let in that way, whatever happened since. */
  lemma {:induction false} InFlightWasAdmitted(r: Run, i: nat, t: Thread)
    requires IsRun(r) && i < |r.states| && t in r.states[i].tools
    ensures exists j: nat :: Admitted(r, j, i, t)
  {
    if i > 0 {
      var s, a := r.states[i - 1], r.actions[i - 1];
      assert r.states[i] == Apply(s, a);
      if t in s.tools {
        InFlightWasAdmitted(r, i - 1, t);
        var j: nat :| Admitted(r, j, i - 1, t);
        assert Admitted(r, j, i, t);
      } else {
        assert Admitted(r, i - 1, i, t);
      }
    }
  }

  /** Another rollback ended at step j while `t` was in flight, and none began until step i. */
  ghost predicate Overtaken(r: Run, j: nat, i: nat, t: Thread)
    requires IsRun(r) && i < |r.states|
  {
    && j < i
    && r.actions[j].EndRollback? && r.actions[j].t != t && t in r.states[j].rollbacks
    && forall k :: j < k < i ==> !r.actions[k].BeginRollback?
  }

  /** The only way to lose the flag during a rollback is that another rollback ends. */
  lemma {:induction false} LostFlagWasOvertaken(r: Run, i: nat, t: Thread)
    requires IsRun(r) && i < |r.states| && t in r.states[i].rollbacks && !r.states[i].rollingBack
    ensures exists j: nat :: Overtaken(r, j, i, t)
  {
    if i > 0 {
      var s, a := r.states[i - 1], r.actions[i - 1];
      assert r.states[i] == Apply(s, a);
      if a.EndRollback? {
        assert Overtaken(r, i - 1, i, t);
      } else {
        LostFlagWasOvertaken(r, i - 1, t);
        var j: nat :| Overtaken(r, j, i - 1, t);
        assert Overtaken(r, j, i, t);
      }
    }
  }

  /** Once overtaken, the flag stays down until another rollback begins. */
  lemma {:induction false} OvertakenLosesFlag(r: Run, j: nat, i: nat, t: Thread)
    requires IsRun(r) && i < |r.states| && Overtaken(r, j, i, t)
    ensures !r.states[i].rollingBack
  {
    var s, a := r.states[i - 1], r.actions[i - 1];
    assert r.states[i] == Apply(s, a);
    if j < i - 1 {
      OvertakenLosesFlag(r, j, i - 1, t);
    }
  }

  /** During a rollback the flag is down exactly when the rollback was overtaken. */
  lemma FlagLostIff(r: Run, i: nat, t: Thread)
    requires IsRun(r) && i < |r.states| && t in r.states[i].rollbacks
    ensures !r.states[i].rollingBack <==> exists j: nat :: Overtaken(r, j, i, t)
  {
    if !r.states[i].rollingBack {
      LostFlagWasOvertaken(r, i, t);
    }
    forall j: nat | Overtaken(r, j, i, t) ensures !r.states[i].rollingBack {
      OvertakenLosesFlag(r, j, i, t);
    }
  }

  /** A tool can enter during a rollback exactly when the session is active and the rollback was
      overtaken. */
  lemma ToolCanEnterIff(r: Run, i: nat, t: Thread, tool: Thread)
    requires IsRun(r) && i < |r.states| && t in r.states[i].rollbacks && tool !in r.states[i].tools
    ensures Enabled(r.states[i], Admit(tool)) <==>
            r.states[i].state == Active && exists j: nat :: Overtaken(r, j, i, t)
  {
    FlagLostIff(r, i, t);
  }

  /** The store rolls a session back without a tool in flight, unless another rollback of the
      same session ended meanwhile. */
  lemma StoreRollbackExcludesTools(r: Run, i: nat, t: Thread)
    requires IsRun(r) && i < |r.states| && t in r.states[i].rollbacks
    ensures r.states[i].tools == {} || exists j: nat :: Overtaken(r, j, i, t)
  {
    FlagAlwaysExcludes(r, i);
    if !r.states[i].rollingBack {
      LostFlagWasOvertaken(r, i, t);
    }
  }

  /** At most one rollback is ever in flight. */
  ghost predicate OneAtATime(r: Run) {
    forall i :: 0 <= i < |r.actions| && r.actions[i].BeginRollback? && i < |r.states| ==> r.states[i].rollbacks == map[]
  }

  lemma {:induction false} NeverTwo(r: Run, i: nat, t: Thread, u: Thread)
    requires IsRun(r) && OneAtATime(r) && i < |r.states| && t in r.states[i].rollbacks && u in r.states[i].rollbacks
    ensures t == u
  {
    if i > 0 {
      var s, a := r.states[i - 1], r.actions[i - 1];
      assert r.states[i] == Apply(s, a);
      if !a.BeginRollback? {
        NeverTwo(r, i - 1, t, u);
      }
    }
  }

  /** With one rollback at a time no tool is in flight while the store rolls back. */
  lemma OneRollbackExcludesTools(r: Run, i: nat, t: Thread)
    requires IsRun(r) && OneAtATime(r) && i < |r.states| && t in r.states[i].rollbacks
    ensures r.states[i].tools == {}
  {
    StoreRollbackExcludesTools(r, i, t);
    if j: nat :| Overtaken(r, j, i, t) {
      assert Enabled(r.states[j], r.actions[j]);
      NeverTwo(r, j, t, r.actions[j].t);
    }
  }

  /** With two rollbacks the exclusion fails: the first to end lets a tool in while the second
      is still in the store. */
  lemma TwoRollbacksDoNot() returns (r: Run)
    ensures IsRun(r) && |r.states| == 6
    ensures r.states[5].rollbacks == map[2 := InStore] && r.states[5].tools == {7}
  {
    var s0 := INIT;
    var s1 := Apply(s0, BeginRollback(1));
    var s2 := Apply(s1, BeginRollback(2));
    var s3 := Apply(s2, StoreAnswers(1, true));
    var s4 := Apply(s3, EndRollback(1));
    var s5 := Apply(s4, Admit(7));
    r := Run([s0, s1, s2, s3, s4, s5],
             [BeginRollback(1), BeginRollback(2), StoreAnswers(1, true), EndRollback(1), Admit(7)]);
    assert s5.rollbacks == map[2 := InStore];
    assert s5.tools == {7};
  }
}
