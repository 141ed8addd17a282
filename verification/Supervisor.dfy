/** The supervisor itself: an object whose methods update its fields one call
    at a time, proved to compute the functions of SupervisorSpec. */
module SupervisorLoop {
  import opened Types
  import opened SupervisorSpec

  lemma TurnsHead(cfg: Config, s: Loop, script: seq<Tick>)
    requires script != [] && s.status.Running?
    ensures Turns(cfg, s, script) == Turns(cfg, Turn(cfg, s, script[0]), script[1..])
  {
    hide Turn;
  }

  lemma TurnsStop(cfg: Config, s: Loop, script: seq<Tick>)
    requires script == [] || !s.status.Running?
    ensures Turns(cfg, s, script) == s
  {
    hide Turn;
  }

  class Supervisor {
    const platform: Platform
    const clock: PollClock
    const monitorMode: MonitorMode
    const monitor: bool
    const oneShot: bool
    const lifetimeStart: nat

    var child: Option<nat>
    var retryCount: u32
    var childSpawnInstant: Option<nat>

    // The reading of the monotone clock and the event channel.
    var now: nat
    var events: seq<Event>

    ghost var procs: seq<ProcOp>
    ghost var history: seq<Observation>

    ghost function Cfg(): Config {
      Config(platform, clock, monitorMode, monitor, oneShot, lifetimeStart)
    }

    ghost function View(): Machine
      reads this
    {
      Machine(now, child, retryCount, childSpawnInstant, events, procs, history)
    }

    /** The state built by the library entry point. */
    constructor (platform: Platform, clock: PollClock, monitorMode: MonitorMode, oneShot: bool, start: nat)
      ensures Assembled(Cfg())
      ensures Cfg() == Config(platform, clock, monitorMode, monitorMode.Active?, oneShot, start)
      ensures View() == Fresh(Cfg())
    {
      this.platform, this.clock, this.monitorMode, this.oneShot := platform, clock, monitorMode, oneShot;
      monitor := monitorMode.Active?;
      lifetimeStart, now := start, start;
      child, retryCount, childSpawnInstant := None, 0, None;
      events, procs, history := [], [], [];
    }

    method HandleChildExit(status: ExitStatus, lifetime: nat) returns (decision: Decision)
      modifies this`retryCount
      ensures (retryCount, decision) == Decide(Cfg(), old(retryCount), status, lifetime)
    {
      if oneShot && !status.Success() {
        return Exit(ExitOneShot);
      }
      if status.Success() {
        match monitorMode {
          case Off => return Exit(ExitOk);
          case _ =>
            retryCount := 0;
            return Respawn;
        }
      }
      if lifetime >= clock.gateTime {
        retryCount := 0;
      } else {
        retryCount := if retryCount == U32_MAX then U32_MAX else retryCount + 1;
        if clock.maxStart.Some? {
          if retryCount >= clock.maxStart.value {
            return Exit(ExitMaxStart(retryCount));
          }
        }
      }
      decision := Respawn;
    }

    method CheckLifetime() returns (decision: Option<Decision>)
      ensures decision == if LifetimeReached(Cfg(), now) then Some(Exit(ExitMaxLifetime)) else None
    {
      match clock.maxLifetime {
        case None => decision := None;
        case Some(max) =>
          var elapsed := if lifetimeStart <= now then now - lifetimeStart else 0;
          decision := if elapsed >= max then Some(Exit(ExitMaxLifetime)) else None;
      }
    }

    method EmitEvent(e: Event, lag: nat)
      modifies this`events, this`now
      ensures View() == Emit(old(View()), e, lag)
    {
      events := events + [e];
      now := now + lag;
    }

    method StartChild(e: SpawnEnv) returns (ok: bool)
      modifies this
      ensures (View(), ok) == SpawnChild(old(View()), e)
    {
      now := now + e.elapsed;
      match e.result {
        case NotStarted => ok := false;
        case Started(pid) =>
          procs := procs + [Spawn(pid)];
          child := Some(pid);
          childSpawnInstant := Some(now);
          EmitEvent(ChildSpawned(pid), e.spawnedLag);
          ok := true;
      }
    }

    method Terminate(t: TermEnv) returns (result: TermResult)
      modifies this
      ensures (View(), result) == TerminateChild(platform, old(View()), t)
    {
      if child.None? {
        return NoChild;
      }
      var pid := child.value;
      ghost var before, start := procs, now;
      ghost var ops, elapsed := TermOps(platform, pid, now, t).0, TermOps(platform, pid, now, t).1;
      child := None;
      if platform.Unix? {
        procs := procs + [SigTerm(pid, now)];
        if t.inGrace {
          now := now + t.elapsed;
        } else {
          now := now + GRACE + t.elapsed;
          procs := procs + [SigKill(pid, now)];
          now := now + t.killElapsed;
        }
      } else {
        procs := procs + [SigKill(pid, now)];
        now := now + t.killElapsed;
      }
      assert procs == before + ops && now == start + elapsed;
      match t.wait {
        case Exited(status) =>
          procs := procs + [Reap(pid)];
          result := Reaped(status);
        case WaitFailed =>
          procs := procs + [WaitError(pid)];
          result := Unreaped;
      }
    }

    method HandleTermIntSignal(t: TermEnv)
      modifies this
      ensures View() == TerminateChild(platform, old(View()), t).0
    {
      var _ := Terminate(t);
    }

    method HandleCtrlBreakSignal(t: TermEnv)
      modifies this
      ensures View() == TerminateChild(platform, old(View()), t).0
    {
      var _ := Terminate(t);
    }

    method HandleUsr1Signal(t: TermEnv, e: SpawnEnv) returns (ok: bool)
      modifies this
      ensures (View(), ok) ==
              Replace(TerminateChild(platform, Note(old(View()), Forced(UserDefined1)), t).0, e)
    {
      history := history + [Forced(UserDefined1)];
      var _ := Terminate(t);
      ok := StartChild(e);
      if ok {
        EmitEvent(ChildRespawned, e.respawnedLag);
      }
    }

    method HandleHupSignal(t: TermEnv, e: SpawnEnv) returns (ok: bool)
      modifies this
      ensures (View(), ok) ==
              Replace(TerminateChild(platform, Note(old(View()), Forced(Hangup)).(retry := 0), t).0, e)
    {
      history := history + [Forced(Hangup)];
      retryCount := 0;
      var _ := Terminate(t);
      ok := StartChild(e);
      if ok {
        EmitEvent(ChildRespawned, e.respawnedLag);
      }
    }

    /** The gate-time sleep and the replacement after it, shared by both failure arms. */
    method SleepAndRespawn(k: Tick) returns (ok: bool)
      modifies this
      ensures (View(), ok) == BackOff(Cfg(), old(View()), k)
    {
      now := now + clock.gateTime + k.oversleep;
      ok := StartChild(k.spawn);
      if ok {
        EmitEvent(ChildRespawned, k.spawn.respawnedLag);
      }
    }

    method SelectOneTick(nextProbeAt: Option<nat>, k: Tick) returns (nextProbe: Option<nat>, outcome: Outcome)
      modifies this`now, this`procs
      ensures (View(), nextProbe, outcome) == Select(Cfg(), old(View()), nextProbeAt, k)
    {
      nextProbe := nextProbeAt;
      if child.None? {
        return nextProbe, Failed(NoChildError);
      }
      now := now + k.wake;
      if k.exit.Some? {
        match k.exit.value {
          case Exited(status) =>
            procs := procs + [Reap(child.value)];
            outcome := ChildGone(status, Elapsed(childSpawnInstant, now));
          case WaitFailed =>
            procs := procs + [WaitError(child.value)];
            outcome := Failed(WaitFailure);
        }
      } else if nextProbe.Some? && k.timerFired && now >= nextProbe.value {
        if !monitor {
          return None, Signalled(SignalKind.Terminate);
        }
        now := now + k.probeElapsed;
        nextProbe := Some(now + clock.poll);
        outcome := if k.probeOk then ProbeAnswer else ProbeLost;
      } else {
        match k.signal {
          case Quiet => outcome := NothingReady;
          case Arrived(kind) => outcome := Signalled(kind);
          case Closed => outcome := Signalled(SignalKind.Terminate);
        }
      }
    }

    method OnChildExited(status: ExitStatus, lifetime: nat, nextProbeAt: Option<nat>, k: Tick)
      returns (nextProbe: Option<nat>, running: Status)
      modifies this
      ensures Loop(View(), nextProbe, running) == AfterExit(Cfg(), old(View()), nextProbeAt, status, lifetime, k)
    {
      hide Decide, BackOff;
      nextProbe := nextProbeAt;
      EmitEvent(ChildExited(status), k.exitLag);
      child := None;
      history := history + [NaturalExit(status, lifetime)];
      var decision := HandleChildExit(status, lifetime);
      match decision {
        case Respawn =>
          var ok := SleepAndRespawn(k);
          if !ok {
            return nextProbe, Returned(SpawnError);
          }
          nextProbe := if monitor then Some(now + clock.firstPoll) else None;
          running := Running;
        case Exit(ExitMaxStart(attempts)) =>
          EmitEvent(MaxStartReached(attempts), k.verdictLag);
          running := Returned(MaxStartError(attempts));
        case Exit(ExitOneShot) => running := Returned(MaxStartError(1));
        case Exit(_) => running := Returned(Finished);
      }
    }

    method OnProbeTimeout(nextProbeAt: Option<nat>, k: Tick) returns (nextProbe: Option<nat>, running: Status)
      modifies this
      ensures Loop(View(), nextProbe, running) == AfterProbeLost(Cfg(), old(View()), nextProbeAt, k)
    {
      hide TerminateChild, AfterProbeKill;
      nextProbe := nextProbeAt;
      EmitEvent(ProbeTimeout, k.noticeLag);
      var result := Terminate(k.term);
      match result {
        case Unreaped => running := Returned(WaitFailure);
        case NoChild => running := Running;
        case Reaped(status) => nextProbe, running := OnChildReaped(status, nextProbe, k);
      }
    }

    /** The probe-timeout arm once the terminated child is reaped. */
    method OnChildReaped(status: ExitStatus, nextProbeAt: Option<nat>, k: Tick)
      returns (nextProbe: Option<nat>, running: Status)
      modifies this
      ensures Loop(View(), nextProbe, running) == AfterProbeKill(Cfg(), old(View()), nextProbeAt, status, k)
    {
      hide Decide, BackOff;
      nextProbe := nextProbeAt;
      EmitEvent(ChildExited(status), k.exitLag);
      var lifetime := Elapsed(childSpawnInstant, now);
      history := history + [ProbeFailure(lifetime)];
      var decision := HandleChildExit(FailedStatus(platform), lifetime);
      match decision {
        case Respawn =>
          var ok := SleepAndRespawn(k);
          if !ok {
            return nextProbe, Returned(SpawnError);
          }
          nextProbe := Some(now + clock.firstPoll);
          running := Running;
        case Exit(ExitMaxStart(attempts)) =>
          EmitEvent(MaxStartReached(attempts), k.verdictLag);
          running := Returned(MaxStartError(attempts));
        case Exit(_) => running := Returned(Finished);
      }
    }

    method OnSignal(kind: SignalKind, nextProbeAt: Option<nat>, k: Tick)
      returns (nextProbe: Option<nat>, running: Status)
      modifies this
      ensures Loop(View(), nextProbe, running) == AfterSignal(Cfg(), old(View()), nextProbeAt, kind, k)
    {
      hide TerminateChild, Replace;
      nextProbe := nextProbeAt;
      EmitEvent(SignalReceived(kind), k.noticeLag);
      var ok: bool;
      match kind {
        case Terminate =>
          HandleTermIntSignal(k.term);
          return nextProbe, Returned(Finished);
        case Interrupt =>
          HandleTermIntSignal(k.term);
          return nextProbe, Returned(Finished);
        case CtrlBreak =>
          HandleCtrlBreakSignal(k.term);
          return nextProbe, Returned(Finished);
        case UserDefined1 => ok := HandleUsr1Signal(k.term, k.spawn);
        case Hangup => ok := HandleHupSignal(k.term, k.spawn);
      }
      if !ok {
        return nextProbe, Returned(SpawnError);
      }
      nextProbe := if monitor then Some(now + clock.firstPoll) else None;
      running := Running;
    }

    /** The body of the loop in `Run`. */
    method OneTurn(nextProbeAt: Option<nat>, k: Tick) returns (nextProbe: Option<nat>, running: Status)
      modifies this
      ensures Loop(View(), nextProbe, running) == Turn(Cfg(), Loop(old(View()), nextProbeAt, Running), k)
    {
      hide TerminateChild, Select, AfterExit, AfterProbeLost, AfterSignal;
      var deadline := CheckLifetime();
      if deadline.Some? {
        EmitEvent(MaxLifetimeReached, k.noticeLag);
        var _ := Terminate(k.term);
        return nextProbeAt, Returned(Finished);
      }
      var outcome;
      nextProbe, outcome := SelectOneTick(nextProbeAt, k);
      match outcome {
        case NothingReady => running := Waiting;
        case Failed(error) => running := Returned(error);
        case ProbeAnswer =>
          history := history + [ProbeAnswered];
          running := Running;
        case ChildGone(status, lifetime) =>
          nextProbe, running := OnChildExited(status, lifetime, nextProbe, k);
        case ProbeLost => nextProbe, running := OnProbeTimeout(nextProbe, k);
        case Signalled(kind) => nextProbe, running := OnSignal(kind, nextProbe, k);
      }
    }

    method Run(first: SpawnEnv, script: seq<Tick>) returns (nextProbe: Option<nat>, running: Status)
      modifies this
      ensures Loop(View(), nextProbe, running) == RunFrom(Cfg(), old(View()), first, script)
    {
      hide Turn, Turns;
      var ok := StartChild(first);
      if !ok {
        return None, Returned(SpawnError);
      }
      nextProbe := if monitor then Some(now + clock.firstPoll) else None;
      running := Running;
      ghost var entry := Loop(View(), nextProbe, running);
      var i := 0;
      while i < |script| && running.Running?
        invariant 0 <= i <= |script|
        invariant Turns(Cfg(), Loop(View(), nextProbe, running), script[i..]) == Turns(Cfg(), entry, script)
      {
        assert script[i..][1..] == script[i + 1..];
        TurnsHead(Cfg(), Loop(View(), nextProbe, running), script[i..]);
        nextProbe, running := OneTurn(nextProbe, script[i]);
        i := i + 1;
      }
      TurnsStop(Cfg(), Loop(View(), nextProbe, running), script[i..]);
    }
  }
}
