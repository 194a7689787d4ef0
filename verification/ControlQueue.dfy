/** Steering a running agent: the bounded queue of control commands, and the prompt that the
    driver picks from a drained batch. */
module ControlQueues {
  import opened Wrappers

  datatype Command = Steer(message: string) | FollowUp(message: string) | Abort(message: string) | Unknown(kind: string)

  datatype QueueError = Unsupported | Stopped | QueueFull

  /** Why a queue refuses a command, if it does. */
  function EnqueueError(cmd: Command, closed: bool, length: nat, capacity: nat): Option<QueueError> {
    if cmd.Unknown? then Some(Unsupported)
    else if closed then Some(Stopped)
    else if length >= capacity then Some(QueueFull)
    else None
  }

  class ControlQueue {
    const capacity: nat
    var ch: seq<Command>
    var closed: bool

    ghost predicate Valid()
      reads this
    {
      |ch| <= capacity && forall i :: 0 <= i < |ch| ==> !ch[i].Unknown?
    }

    constructor (buffer: int)
      ensures Valid() && ch == [] && !closed && capacity == if buffer <= 0 then 64 else buffer
    {
      capacity := if buffer <= 0 then 64 else buffer;
      ch, closed := [], false;
    }

    method Enqueue(cmd: Command) returns (err: Option<QueueError>)
      requires Valid()
      modifies this`ch
      ensures Valid()
      ensures err == EnqueueError(cmd, closed, |old(ch)|, capacity)
      ensures ch == if err.None? then old(ch) + [cmd] else old(ch)
    {
      if cmd.Unknown? {
        return Some(Unsupported);
      }
      if closed {
        return Some(Stopped);
      }
      if |ch| < capacity {
        ch := ch + [cmd];
        return None;
      }
      return Some(QueueFull);
    }

    /** Receives until the channel is empty. */
    method Drain() returns (out: seq<Command>)
      requires Valid()
      modifies this`ch
      ensures out == old(ch) && ch == []
    {
      out := [];
      while |ch| > 0
        invariant out + ch == old(ch)
        decreases |ch|
      {
        out := out + [ch[0]];
        ch := ch[1..];
      }
    }

    method Close()
      modifies this`closed
      ensures closed
    {
      closed := true;
    }
  }

  // ---- picking the next prompt ----

  /** The commands of a batch taken in: an abort ends the run and leaves the rest of the batch
      unread, a steer replaces the pending one, a follow-up waits its turn. */
  datatype Absorbed = Absorbed(aborted: bool, steer: string, followUps: seq<string>)

  function Absorb(cmds: seq<Command>, steer: string, followUps: seq<string>): Absorbed {
    if cmds == [] then Absorbed(false, steer, followUps)
    else
      match cmds[0]
      case Abort(_) => Absorbed(true, steer, followUps)
      case Steer(m) => Absorb(cmds[1..], m, followUps)
      case FollowUp(m) => Absorb(cmds[1..], steer, followUps + [m])
      case Unknown(_) => Absorb(cmds[1..], steer, followUps)
  }

  /** Where the next prompt comes from. */
  datatype Source = Nothing | FromSteer | FromFollowUp

  datatype Decision = Decision(source: Source, prompt: string, steer: string, followUps: seq<string>)

  function Decide(cmds: seq<Command>, steer: string, followUps: seq<string>): Decision {
    var a := Absorb(cmds, steer, followUps);
    if a.aborted then Decision(Nothing, "", a.steer, a.followUps)
    else if a.steer != "" then Decision(FromSteer, a.steer, "", a.followUps)
    else if a.followUps != [] then Decision(FromFollowUp, a.followUps[0], "", a.followUps[1..])
    else Decision(Nothing, "", "", [])
  }

  /** The follow-ups of a batch ahead of its first abort. */
  function Admitted(cmds: seq<Command>): seq<string> {
    if cmds == [] || cmds[0].Abort? then []
    else (if cmds[0].FollowUp? then [cmds[0].message] else []) + Admitted(cmds[1..])
  }

  function Delivered(d: Decision): seq<string> {
    if d.source == FromFollowUp then [d.prompt] else []
  }

  lemma {:induction false} AbsorbAdmits(cmds: seq<Command>, steer: string, followUps: seq<string>)
    ensures Absorb(cmds, steer, followUps).followUps == followUps + Admitted(cmds)
  {
    if cmds != [] && !cmds[0].Abort? {
      match cmds[0]
      case Steer(m) => AbsorbAdmits(cmds[1..], m, followUps);
      case FollowUp(m) => AbsorbAdmits(cmds[1..], steer, followUps + [m]);
      case Unknown(_) => AbsorbAdmits(cmds[1..], steer, followUps);
    }
  }

  /** A decision loses no follow-up and duplicates none: what was held and what the batch admits
      is what is delivered and what is held. A follow-up goes out only when no steer is pending. */
  lemma DecideConserves(cmds: seq<Command>, steer: string, followUps: seq<string>)
    ensures var d := Decide(cmds, steer, followUps);
            && followUps + Admitted(cmds) == Delivered(d) + d.followUps
            && (d.source == FromFollowUp ==> Absorb(cmds, steer, followUps).steer == "")
            && (d.source == FromSteer ==> d.prompt != "")
  {
    AbsorbAdmits(cmds, steer, followUps);
  }

  /** The driver's part of steering. */
  class Steering {
    var pendingSteer: string
    var followUps: seq<string>

    constructor ()
      ensures pendingSteer == "" && followUps == []
    {
      pendingSteer, followUps := "", [];
    }

    method NextPromptFromControlQueue(queue: ControlQueue) returns (prompt: string, done: bool)
      requires queue.Valid()
      modifies this, queue`ch
      ensures queue.ch == []
      ensures var d := Decide(old(queue.ch), old(pendingSteer), old(followUps));
              prompt == d.prompt && done == d.source.Nothing? && pendingSteer == d.steer && followUps == d.followUps
      ensures old(followUps) + Admitted(old(queue.ch)) ==
              Delivered(Decide(old(queue.ch), old(pendingSteer), old(followUps))) + followUps
    {
      var cmds := queue.Drain();
      DecideConserves(cmds, pendingSteer, followUps);
      if |cmds| == 0 && |followUps| == 0 && pendingSteer == "" {
        return "", true;
      }
      ghost var all := Absorb(cmds, pendingSteer, followUps);
      for i := 0 to |cmds|
        invariant queue.ch == []
        invariant Absorb(cmds[i..], pendingSteer, followUps) == all
      {
        var cmd := cmds[i];
        assert cmds[i..][1..] == cmds[i + 1..];
        match cmd
        case Abort(_) => return "", true;
        case Steer(m) => pendingSteer := m;
        case FollowUp(m) => followUps := followUps + [m];
        case Unknown(_) =>
      }
      if pendingSteer != "" {
        prompt := pendingSteer;
        pendingSteer := "";
        return prompt, false;
      }
      if |followUps| > 0 {
        prompt := followUps[0];
        followUps := followUps[1..];
        return prompt, false;
      }
      return "", true;
    }
  }
}
