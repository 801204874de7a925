/** The browser's child process (`subprocess.Popen`) as an oracle.  What the
    operating system does with the process is not visible to the backend, so a
    process is described by when it exits: on its own, some ticks after it has
    been sent terminate, or some ticks after it has been sent kill. */
module Processes {
  import opened Wrappers

  /** When the process exits. `None`: it never exits that way (it crashes never,
      ignores terminate, or survives kill). Delays count ticks after the signal. */
  datatype Behaviour = Behaviour(
    exitsAt: Option<nat>,
    exitsAfterTerminate: Option<nat>,
    exitsAfterKill: Option<nat>)

  /** A process handle: its behaviour and the ticks at which terminate and kill
      were first delivered to it. */
  datatype Process = Process(behaviour: Behaviour, terminatedAt: Option<nat>, killedAt: Option<nat>)

  /** The handle `Popen` returns: no signal delivered yet. */
  function Spawn(b: Behaviour): (p: Process)
    ensures p.behaviour == b
    ensures forall t :: HasExited(p, t) <==> b.exitsAt.Some? && b.exitsAt.value <= t
  {
    Process(b, None, None)
  }

  predicate ExitsFromSignal(sentAt: Option<nat>, delay: Option<nat>, t: nat) {
    sentAt.Some? && delay.Some? && sentAt.value + delay.value <= t
  }

  /** `poll() != None` at tick t. */
  predicate HasExited(p: Process, t: nat) {
    || (p.behaviour.exitsAt.Some? && p.behaviour.exitsAt.value <= t)
    || ExitsFromSignal(p.terminatedAt, p.behaviour.exitsAfterTerminate, t)
    || ExitsFromSignal(p.killedAt, p.behaviour.exitsAfterKill, t)
  }

  /** `terminate()` at tick t; a process already signalled keeps its first delivery. */
  function Terminate(p: Process, t: nat): (q: Process)
    ensures q.behaviour == p.behaviour
    ensures forall u :: HasExited(q, u) <==>
      || HasExited(p, u)
      || (p.terminatedAt.None? && ExitsFromSignal(Some(t), p.behaviour.exitsAfterTerminate, u))
  {
    if p.terminatedAt.Some? then p else p.(terminatedAt := Some(t))
  }

  /** `kill()` at tick t; a process already killed keeps its first delivery. */
  function Kill(p: Process, t: nat): (q: Process)
    ensures q.behaviour == p.behaviour
    ensures forall u :: HasExited(q, u) <==>
      || HasExited(p, u)
      || (p.killedAt.None? && ExitsFromSignal(Some(t), p.behaviour.exitsAfterKill, u))
  {
    if p.killedAt.Some? then p else p.(killedAt := Some(t))
  }

  /** A process that has exited stays exited, and signals never revive it. */
  lemma ExitIsFinal(p: Process, t: nat, u: nat, v: nat)
    requires HasExited(p, t) && t <= u
    ensures HasExited(p, u)
    ensures HasExited(Terminate(p, v), u) && HasExited(Kill(p, v), u)
  {
  }

  /** Only the first terminate and the first kill count: repeating a signal
      changes nothing. */
  lemma SignalsAreIdempotent(p: Process, t: nat, u: nat)
    ensures Terminate(Terminate(p, t), u) == Terminate(p, t)
    ensures Kill(Kill(p, t), u) == Kill(p, t)
  {
  }
}
