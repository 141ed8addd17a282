/** What every performed turn of a run does, told by the clock, the tick and the
    logs alone: nothing here speaks of the functions that make up a turn, except
    in the proofs. */
module TurnLaws {
  import opened Types
  import opened SupervisorSpec
  import opened Runs

  /** What a turn finds: the deadline, an exited child, a due probe, a signal, or nothing. */
  datatype Arm = Deadline | ChildExit(wait: WaitResult) | Probe | Signal(kind: SignalKind) | Nothing

  function ArmOf(cfg: Config, s: Loop, k: Tick): Arm {
    if cfg.clock.maxLifetime.Some? && cfg.lifetimeStart + cfg.clock.maxLifetime.value <= s.m.now then Deadline
    else if k.exit.Some? then ChildExit(k.exit.value)
    else if k.timerFired && s.nextProbe.Some? && s.nextProbe.value <= s.m.now + k.wake then Probe
    else
      match k.signal
      case Quiet => Nothing
      case Arrived(kind) => Signal(kind)
      case Closed => Signal(Terminate)
  }

  /** The turns that end their child: past the deadline, after a lost probe, on a signal. */
  predicate Terminates(cfg: Config, s: Loop, k: Tick) {
    var arm := ArmOf(cfg, s, k);
    arm.Deadline? || (arm.Probe? && !k.probeOk) || arm.Signal?
  }

  /** When the child of such a turn is asked to go. */
  function AskTime(cfg: Config, s: Loop, k: Tick): nat {
    match ArmOf(cfg, s, k)
    case Deadline => s.m.now + k.noticeLag
    case Probe => s.m.now + k.wake + k.probeElapsed + k.noticeLag
    case _ => s.m.now + k.wake + k.noticeLag
  }

  function GoneTime(cfg: Config, s: Loop, k: Tick): nat {
    AskTime(cfg, s, k)
    + if cfg.platform.Windows? then k.term.killElapsed
      else if k.term.inGrace then k.term.elapsed
      else 10_000_000_000 + k.term.elapsed + k.term.killElapsed
  }

  /** A moment of a run at which one more turn will be performed. */
  ghost predicate Going(cfg: Config, first: SpawnEnv, script: seq<Tick>) {
    Assembled(cfg) && Execute(cfg, first, script).status.Running?
  }

  /** The turn as a case distinction over its arm; the start of every proof below. */
  lemma TurnByArm(cfg: Config, s: Loop, k: Tick)
    requires Assembled(cfg) && Coherent(cfg, s) && s.status.Running?
    ensures
      var woken := s.m.(now := s.m.now + k.wake);
      var probed := s.m.(now := s.m.now + k.wake + k.probeElapsed);
      var rearmed := Some(probed.now + cfg.clock.poll);
      var (pid, age) := (s.m.child.value, s.m.now + k.wake - s.m.spawnedAt.value);
      && (ArmOf(cfg, s, k).Probe? ==> cfg.monitor)
      && Turn(cfg, s, k) ==
           match ArmOf(cfg, s, k)
           case Deadline =>
             Loop(TerminateChild(cfg.platform, Emit(s.m, MaxLifetimeReached, k.noticeLag), k.term).0,
                  s.nextProbe, Returned(Finished))
           case ChildExit(Exited(status)) =>
             AfterExit(cfg, woken.(procs := s.m.procs + [Reap(pid)]), s.nextProbe, status, age, k)
           case ChildExit(WaitFailed) =>
             Loop(woken.(procs := s.m.procs + [WaitError(pid)]), s.nextProbe, Returned(WaitFailure))
           case Probe =>
             if k.probeOk then Loop(Note(probed, ProbeAnswered), rearmed, Running)
             else AfterProbeLost(cfg, probed, rearmed, k)
           case Signal(kind) => AfterSignal(cfg, woken, s.nextProbe, kind, k)
           case Nothing => Loop(woken, s.nextProbe, Waiting)
  {
    hide AfterExit, AfterProbeLost, AfterSignal, TerminateChild;
  }

  // ---------------------------------------------------------------- the process log

  /** The spawn at the end of a turn that replaced its child. */
  function Replacement(k: Tick, status: Status): seq<ProcOp> {
    if status.Running? && k.spawn.result.Started? then [Spawn(k.spawn.result.pid)] else []
  }

  /** A child is asked to go: SIGTERM on Unix, followed by SIGKILL exactly when
      the ten seconds of grace run out, TerminateProcess on Windows; then it is
      waited for, and `after` follows. */
  ghost predicate AsksToGo(platform: Platform, ops: seq<ProcOp>, pid: nat, at: nat, t: TermEnv, after: seq<ProcOp>) {
    var n := if platform.Unix? && !t.inGrace then 2 else 1;
    && |ops| == n + 1 + |after|
    && ops[0] == (if platform.Unix? then SigTerm(pid, at) else SigKill(pid, at))
    && (n == 2 ==> ops[1] == SigKill(pid, at + 10_000_000_000 + t.elapsed))
    && ops[n] == (if t.wait.Exited? then Reap(pid) else WaitError(pid))
    && ops[n + 1..] == after
  }

  ghost predicate LogLaw(cfg: Config, s: Loop, k: Tick, s': Loop)
    requires s.m.child.Some?
  {
    && s.m.procs <= s'.m.procs
    && var (pid, added) := (s.m.child.value, s'.m.procs[|s.m.procs|..]);
       match ArmOf(cfg, s, k)
       case ChildExit(wait) =>
         added == [if wait.Exited? then Reap(pid) else WaitError(pid)] + Replacement(k, s'.status)
       case _ =>
         if Terminates(cfg, s, k)
         then AsksToGo(cfg.platform, added, pid, AskTime(cfg, s, k), k.term, Replacement(k, s'.status))
         else added == []
  }

  lemma TerminateAsks(platform: Platform, m: Machine, t: TermEnv, after: seq<ProcOp>)
    requires m.child.Some?
    ensures
      var log := TerminateChild(platform, m, t).0.procs + after;
      m.procs <= log && AsksToGo(platform, log[|m.procs|..], m.child.value, m.now, t, after)
  {
  }

  lemma AfterExitLog(cfg: Config, m: Machine, nextProbe: Option<nat>, status: ExitStatus, lifetime: nat, k: Tick)
    ensures
      var s := AfterExit(cfg, m, nextProbe, status, lifetime, k);
      s.m.procs == m.procs + Replacement(k, s.status)
  {
  }

  lemma AfterProbeKillLog(cfg: Config, m: Machine, nextProbe: Option<nat>, status: ExitStatus, k: Tick)
    ensures
      var s := AfterProbeKill(cfg, m, nextProbe, status, k);
      s.m.procs == m.procs + Replacement(k, s.status)
  {
  }

  lemma AfterProbeLostLog(cfg: Config, m: Machine, nextProbe: Option<nat>, k: Tick)
    requires m.child.Some?
    ensures
      var (s, told) := (AfterProbeLost(cfg, m, nextProbe, k), Emit(m, ProbeTimeout, k.noticeLag));
      s.m.procs == TerminateChild(cfg.platform, told, k.term).0.procs + Replacement(k, s.status)
  {
    hide AfterProbeKill;
    var (m', result) := TerminateChild(cfg.platform, Emit(m, ProbeTimeout, k.noticeLag), k.term);
    if result.Reaped? {
      AfterProbeKillLog(cfg, m', nextProbe, result.status, k);
    }
  }

  lemma AfterSignalLog(cfg: Config, m: Machine, nextProbe: Option<nat>, kind: SignalKind, k: Tick)
    requires m.child.Some?
    ensures
      var (s, told) := (AfterSignal(cfg, m, nextProbe, kind, k), Emit(m, SignalReceived(kind), k.noticeLag));
      s.m.procs == TerminateChild(cfg.platform, told, k.term).0.procs + Replacement(k, s.status)
  {
    hide TermOps;
  }

  lemma TurnLog(cfg: Config, s: Loop, k: Tick)
    requires Assembled(cfg) && Coherent(cfg, s) && s.status.Running?
    ensures LogLaw(cfg, s, k, Turn(cfg, s, k))
  {
    hide AfterExit, AfterProbeLost, AfterSignal, TerminateChild, Turn, AsksToGo;
    TurnByArm(cfg, s, k);
    var s' := Turn(cfg, s, k);
    var after := Replacement(k, s'.status);
    var woken := s.m.(now := s.m.now + k.wake);
    var probed := s.m.(now := s.m.now + k.wake + k.probeElapsed);
    match ArmOf(cfg, s, k) {
      case Deadline =>
        TerminateAsks(cfg.platform, Emit(s.m, MaxLifetimeReached, k.noticeLag), k.term, after);
        assert after == [] && s'.m.procs + after == s'.m.procs;
      case ChildExit(Exited(status)) =>
        AfterExitLog(cfg, woken.(procs := s.m.procs + [Reap(s.m.child.value)]), s.nextProbe, status,
                     s.m.now + k.wake - s.m.spawnedAt.value, k);
      case Probe =>
        AfterProbeLostLog(cfg, probed, Some(probed.now + cfg.clock.poll), k);
        TerminateAsks(cfg.platform, Emit(probed, ProbeTimeout, k.noticeLag), k.term, after);
      case Signal(kind) =>
        AfterSignalLog(cfg, woken, s.nextProbe, kind, k);
        TerminateAsks(cfg.platform, Emit(woken, SignalReceived(kind), k.noticeLag), k.term, after);
      case _ =>
    }
  }

  /** Every performed turn: exactly the turns that pass the deadline, lose a probe
      or handle a signal ask the child to go, and they wait for it. */
  lemma EveryTerminationAsks(cfg: Config, first: SpawnEnv, script: seq<Tick>, k: Tick)
    requires Going(cfg, first, script)
    ensures Execute(cfg, first, script).m.child.Some?
    ensures LogLaw(cfg, Execute(cfg, first, script), k, Execute(cfg, first, script + [k]))
  {
    hide Execute, Turn, LogLaw;
    LoopHeadsAreCoherent(cfg, first, script);
    RunStep(cfg, first, script, k);
    TurnLog(cfg, Execute(cfg, first, script), k);
  }

  // ---------------------------------------------------------------- the events

  /** What is told at the end of a turn: the replacement, or the verdict of the cap. */
  function Epilogue(cfg: Config, k: Tick, status: Status): seq<Event> {
    match status
    case Running => if k.spawn.result.Started? then [ChildSpawned(k.spawn.result.pid), ChildRespawned] else []
    case Returned(MaxStartError(attempts)) => if cfg.oneShot then [] else [MaxStartReached(attempts)]
    case _ => []
  }

  ghost predicate EventLaw(cfg: Config, s: Loop, k: Tick, s': Loop) {
    s'.m.events == s.m.events +
      match ArmOf(cfg, s, k)
      case Deadline => [MaxLifetimeReached]
      case ChildExit(Exited(status)) => [ChildExited(status)] + Epilogue(cfg, k, s'.status)
      case Probe =>
        if k.probeOk then []
        else if k.term.wait.WaitFailed? then [ProbeTimeout]
        else [ProbeTimeout, ChildExited(k.term.wait.status)] + Epilogue(cfg, k, s'.status)
      case Signal(kind) => [SignalReceived(kind)] + Epilogue(cfg, k, s'.status)
      case _ => []
  }

  lemma AfterExitEvents(cfg: Config, m: Machine, nextProbe: Option<nat>, status: ExitStatus, lifetime: nat, k: Tick)
    ensures
      var s := AfterExit(cfg, m, nextProbe, status, lifetime, k);
      s.m.events == m.events + ([ChildExited(status)] + Epilogue(cfg, k, s.status))
  {
  }

  lemma AfterProbeKillEvents(cfg: Config, m: Machine, nextProbe: Option<nat>, status: ExitStatus, k: Tick)
    ensures
      var s := AfterProbeKill(cfg, m, nextProbe, status, k);
      s.m.events == m.events + [ChildExited(status)] + Epilogue(cfg, k, s.status)
  {
  }

  lemma AfterProbeLostEvents(cfg: Config, m: Machine, nextProbe: Option<nat>, k: Tick)
    requires m.child.Some?
    ensures
      var s := AfterProbeLost(cfg, m, nextProbe, k);
      s.m.events == m.events +
        if k.term.wait.WaitFailed? then [ProbeTimeout]
        else [ProbeTimeout, ChildExited(k.term.wait.status)] + Epilogue(cfg, k, s.status)
  {
    hide AfterProbeKill, TermOps;
    var (m', result) := TerminateChild(cfg.platform, Emit(m, ProbeTimeout, k.noticeLag), k.term);
    if result.Reaped? {
      AfterProbeKillEvents(cfg, m', nextProbe, result.status, k);
    }
  }

  lemma AfterSignalEvents(cfg: Config, m: Machine, nextProbe: Option<nat>, kind: SignalKind, k: Tick)
    ensures
      var s := AfterSignal(cfg, m, nextProbe, kind, k);
      s.m.events == m.events + ([SignalReceived(kind)] + Epilogue(cfg, k, s.status))
  {
    hide TermOps;
  }

  lemma TurnEvents(cfg: Config, s: Loop, k: Tick)
    requires Assembled(cfg) && Coherent(cfg, s) && s.status.Running?
    ensures EventLaw(cfg, s, k, Turn(cfg, s, k))
  {
    hide AfterExit, AfterProbeLost, AfterSignal, Turn;
    TurnByArm(cfg, s, k);
    var woken := s.m.(now := s.m.now + k.wake);
    var probed := s.m.(now := s.m.now + k.wake + k.probeElapsed);
    match ArmOf(cfg, s, k) {
      case ChildExit(Exited(status)) =>
        AfterExitEvents(cfg, woken.(procs := s.m.procs + [Reap(s.m.child.value)]), s.nextProbe, status,
                        s.m.now + k.wake - s.m.spawnedAt.value, k);
      case Probe => AfterProbeLostEvents(cfg, probed, Some(probed.now + cfg.clock.poll), k);
      case Signal(kind) => AfterSignalEvents(cfg, woken, s.nextProbe, kind, k);
      case _ =>
    }
  }

  /** Every performed turn: the events it emits, with the status that the wait
      returned and the process that was started. */
  lemma EventsOfEveryTurn(cfg: Config, first: SpawnEnv, script: seq<Tick>, k: Tick)
    requires Going(cfg, first, script)
    ensures EventLaw(cfg, Execute(cfg, first, script), k, Execute(cfg, first, script + [k]))
  {
    hide Execute, Turn, EventLaw;
    LoopHeadsAreCoherent(cfg, first, script);
    RunStep(cfg, first, script, k);
    TurnEvents(cfg, Execute(cfg, first, script), k);
  }

  // ---------------------------------------------------------------- lifetimes and the counter

  /** How long the child lived, by the clock: up to the moment its exit was seen,
      or up to the event that tells it was reaped after a lost probe. */
  function Lived(cfg: Config, s: Loop, k: Tick): int
    requires s.m.spawnedAt.Some?
  {
    (if ArmOf(cfg, s, k).ChildExit? then s.m.now + k.wake else GoneTime(cfg, s, k) + k.exitLag)
    - s.m.spawnedAt.value
  }

  /** The counter after a failure: zero from the gate time on, one more before it. */
  function Judged(cfg: Config, retry: u32, lived: int): int {
    if cfg.oneShot then retry
    else if lived >= cfg.clock.gateTime then 0
    else if retry < 0xFFFF_FFFF then retry + 1
    else 0xFFFF_FFFF
  }

  ghost predicate LifetimeLaw(cfg: Config, s: Loop, k: Tick, s': Loop)
    requires s.m.spawnedAt.Some?
  {
    var (lived, h, retry) := (Lived(cfg, s, k), s.m.history, s.m.retry);
    match ArmOf(cfg, s, k)
    case ChildExit(Exited(status)) =>
      && lived >= 0
      && s'.m.history == h + [NaturalExit(status, lived)]
      && s'.m.retry == (if status.raw != 0 then Judged(cfg, retry, lived)
                        else if cfg.monitorMode.Active? then 0 else retry)
    case Probe =>
      if k.probeOk then s'.m.history == h + [ProbeAnswered] && s'.m.retry == retry
      else if k.term.wait.WaitFailed? then s'.m.history == h && s'.m.retry == retry
      else lived >= 0 && s'.m.history == h + [ProbeFailure(lived)] && s'.m.retry == Judged(cfg, retry, lived)
    case Signal(kind) =>
      && s'.m.history == h + (if kind in {UserDefined1, Hangup} then [Forced(kind)] else [])
      && s'.m.retry == (if kind == Hangup then 0 else retry)
    case _ => s'.m.history == h && s'.m.retry == retry
  }

  lemma AfterExitLifetime(cfg: Config, m: Machine, nextProbe: Option<nat>, status: ExitStatus, lifetime: nat, k: Tick)
    ensures
      var s := AfterExit(cfg, m, nextProbe, status, lifetime, k);
      && s.m.history == m.history + [NaturalExit(status, lifetime)]
      && s.m.retry == (if status.raw != 0 then Judged(cfg, m.retry, lifetime)
                       else if cfg.monitorMode.Active? then 0 else m.retry)
  {
  }

  lemma AfterProbeKillLifetime(cfg: Config, m: Machine, nextProbe: Option<nat>, status: ExitStatus, k: Tick)
    requires m.spawnedAt.Some? && m.spawnedAt.value <= m.now
    ensures
      var s := AfterProbeKill(cfg, m, nextProbe, status, k);
      var lived := m.now + k.exitLag - m.spawnedAt.value;
      s.m.history == m.history + [ProbeFailure(lived)] && s.m.retry == Judged(cfg, m.retry, lived)
  {
  }

  lemma AfterProbeLostLifetime(cfg: Config, m: Machine, nextProbe: Option<nat>, k: Tick, gone: nat)
    requires m.child.Some? && m.spawnedAt.Some? && m.spawnedAt.value <= m.now
    requires gone == m.now + k.noticeLag + TermOps(cfg.platform, m.child.value, m.now + k.noticeLag, k.term).1
    ensures
      var s := AfterProbeLost(cfg, m, nextProbe, k);
      var lived := gone + k.exitLag - m.spawnedAt.value;
      if k.term.wait.WaitFailed? then s.m.history == m.history && s.m.retry == m.retry
      else s.m.history == m.history + [ProbeFailure(lived)] && s.m.retry == Judged(cfg, m.retry, lived)
  {
    hide AfterProbeKill, TermOps;
    var (m', result) := TerminateChild(cfg.platform, Emit(m, ProbeTimeout, k.noticeLag), k.term);
    if result.Reaped? {
      AfterProbeKillLifetime(cfg, m', nextProbe, result.status, k);
    }
  }

  lemma AfterSignalLifetime(cfg: Config, m: Machine, nextProbe: Option<nat>, kind: SignalKind, k: Tick)
    ensures
      var s := AfterSignal(cfg, m, nextProbe, kind, k);
      && s.m.history == m.history + (if kind in {UserDefined1, Hangup} then [Forced(kind)] else [])
      && s.m.retry == (if kind == Hangup then 0 else m.retry)
  {
    hide TermOps;
  }

  lemma TurnLifetime(cfg: Config, s: Loop, k: Tick)
    requires Assembled(cfg) && Coherent(cfg, s) && s.status.Running?
    ensures LifetimeLaw(cfg, s, k, Turn(cfg, s, k))
  {
    hide AfterExit, AfterProbeLost, AfterSignal, Turn;
    TurnByArm(cfg, s, k);
    var woken := s.m.(now := s.m.now + k.wake);
    var probed := s.m.(now := s.m.now + k.wake + k.probeElapsed);
    match ArmOf(cfg, s, k) {
      case ChildExit(Exited(status)) =>
        AfterExitLifetime(cfg, woken.(procs := s.m.procs + [Reap(s.m.child.value)]), s.nextProbe, status,
                          s.m.now + k.wake - s.m.spawnedAt.value, k);
      case Probe =>
        AfterProbeLostLifetime(cfg, probed, Some(probed.now + cfg.clock.poll), k, GoneTime(cfg, s, k));
      case Signal(kind) => AfterSignalLifetime(cfg, woken, s.nextProbe, kind, k);
      case _ =>
    }
  }

  /** Every performed turn: the lifetime a child is judged by is the time since it
      was spawned, and the counter moves as that lifetime and the gate time say. */
  lemma LifetimesAreExact(cfg: Config, first: SpawnEnv, script: seq<Tick>, k: Tick)
    requires Going(cfg, first, script)
    ensures Execute(cfg, first, script).m.spawnedAt.Some?
    ensures LifetimeLaw(cfg, Execute(cfg, first, script), k, Execute(cfg, first, script + [k]))
  {
    hide Execute, Turn, LifetimeLaw;
    LoopHeadsAreCoherent(cfg, first, script);
    RunStep(cfg, first, script, k);
    TurnLifetime(cfg, Execute(cfg, first, script), k);
  }

  // ---------------------------------------------------------------- replacement and status

  /** When the spawn that replaces the child starts: at once after a signal, a
      gate time and the oversleep after the exit was told otherwise. */
  function RespawnTime(cfg: Config, s: Loop, k: Tick): nat {
    match ArmOf(cfg, s, k)
    case ChildExit(_) => s.m.now + k.wake + k.exitLag + cfg.clock.gateTime + k.oversleep
    case Probe => GoneTime(cfg, s, k) + k.exitLag + cfg.clock.gateTime + k.oversleep
    case _ => GoneTime(cfg, s, k)
  }

  /** If the loop goes on after a replacement that started at `at`, the new child
      is the supervised one, was spawned when its spawn returned, and the first
      probe is one first-poll interval away; a spawn error means a failed spawn. */
  ghost predicate Renewed(cfg: Config, k: Tick, at: nat, s': Loop) {
    && (s'.status == Returned(SpawnError) ==> k.spawn.result.NotStarted?)
    && (s'.status.Running? ==>
          && k.spawn.result.Started? && s'.m.child == Some(k.spawn.result.pid)
          && s'.m.spawnedAt == Some(at + k.spawn.elapsed)
          && s'.m.now == at + k.spawn.elapsed + k.spawn.spawnedLag + k.spawn.respawnedLag
          && s'.nextProbe == if cfg.monitorMode.Active? then Some(s'.m.now + cfg.clock.firstPoll) else None)
  }

  ghost predicate RenewalLaw(cfg: Config, s: Loop, k: Tick, s': Loop) {
    match ArmOf(cfg, s, k)
    case Deadline => s'.status == Returned(Finished)
    case ChildExit(wait) =>
      if wait.Exited? then Renewed(cfg, k, RespawnTime(cfg, s, k), s') else s'.status == Returned(WaitFailure)
    case Probe =>
      if k.probeOk then
        && s'.status == Running && s'.m.child == s.m.child && s'.m.spawnedAt == s.m.spawnedAt
        && s'.m.now == s.m.now + k.wake + k.probeElapsed
        && s'.nextProbe == Some(s'.m.now + cfg.clock.poll)
      else if k.term.wait.Exited? then Renewed(cfg, k, RespawnTime(cfg, s, k), s')
      else s'.status == Returned(WaitFailure)
    case Signal(kind) =>
      if kind in {UserDefined1, Hangup} then
        && Renewed(cfg, k, RespawnTime(cfg, s, k), s')
        && s'.status == if k.spawn.result.Started? then Running else Returned(SpawnError)
      else s'.status == Returned(Finished)
    case Nothing => s'.status == Waiting && s'.m == s.m.(now := s.m.now + k.wake)
  }

  lemma AfterExitRenews(cfg: Config, m: Machine, nextProbe: Option<nat>, status: ExitStatus, lifetime: nat, k: Tick)
    requires Assembled(cfg)
    ensures Renewed(cfg, k, m.now + k.exitLag + cfg.clock.gateTime + k.oversleep,
                    AfterExit(cfg, m, nextProbe, status, lifetime, k))
  {
  }

  lemma AfterProbeKillRenews(cfg: Config, m: Machine, nextProbe: Option<nat>, status: ExitStatus, k: Tick)
    requires cfg.monitorMode.Active?
    ensures Renewed(cfg, k, m.now + k.exitLag + cfg.clock.gateTime + k.oversleep,
                    AfterProbeKill(cfg, m, nextProbe, status, k))
  {
  }

  lemma AfterProbeLostRenews(cfg: Config, m: Machine, nextProbe: Option<nat>, k: Tick, gone: nat)
    requires cfg.monitorMode.Active? && m.child.Some?
    requires gone == m.now + k.noticeLag + TermOps(cfg.platform, m.child.value, m.now + k.noticeLag, k.term).1
    ensures
      var s := AfterProbeLost(cfg, m, nextProbe, k);
      if k.term.wait.Exited? then Renewed(cfg, k, gone + k.exitLag + cfg.clock.gateTime + k.oversleep, s)
      else s.status == Returned(WaitFailure)
  {
    hide AfterProbeKill, TermOps, Renewed;
    var (m', result) := TerminateChild(cfg.platform, Emit(m, ProbeTimeout, k.noticeLag), k.term);
    if result.Reaped? {
      AfterProbeKillRenews(cfg, m', nextProbe, result.status, k);
    }
  }

  lemma AfterSignalRenews(cfg: Config, m: Machine, nextProbe: Option<nat>, kind: SignalKind, k: Tick, gone: nat)
    requires Assembled(cfg) && m.child.Some?
    requires gone == m.now + k.noticeLag + TermOps(cfg.platform, m.child.value, m.now + k.noticeLag, k.term).1
    ensures
      var s := AfterSignal(cfg, m, nextProbe, kind, k);
      if kind in {UserDefined1, Hangup} then
        Renewed(cfg, k, gone, s) && s.status == if k.spawn.result.Started? then Running else Returned(SpawnError)
      else s.status == Returned(Finished)
  {
    hide TermOps;
  }

  lemma TurnRenews(cfg: Config, s: Loop, k: Tick)
    requires Assembled(cfg) && Coherent(cfg, s) && s.status.Running?
    ensures RenewalLaw(cfg, s, k, Turn(cfg, s, k))
  {
    hide AfterExit, AfterProbeLost, AfterSignal, Turn, Renewed;
    TurnByArm(cfg, s, k);
    var woken := s.m.(now := s.m.now + k.wake);
    var probed := s.m.(now := s.m.now + k.wake + k.probeElapsed);
    match ArmOf(cfg, s, k) {
      case ChildExit(Exited(status)) =>
        AfterExitRenews(cfg, woken.(procs := s.m.procs + [Reap(s.m.child.value)]), s.nextProbe, status,
                        s.m.now + k.wake - s.m.spawnedAt.value, k);
      case Probe =>
        AfterProbeLostRenews(cfg, probed, Some(probed.now + cfg.clock.poll), k, GoneTime(cfg, s, k));
      case Signal(kind) => AfterSignalRenews(cfg, woken, s.nextProbe, kind, k, GoneTime(cfg, s, k));
      case _ =>
    }
  }

  /** Every performed turn: what becomes of the run, and for a run that goes on,
      which child it supervises, when that child was spawned and when the next
      probe is due. */
  lemma ReplacementsAreExact(cfg: Config, first: SpawnEnv, script: seq<Tick>, k: Tick)
    requires Going(cfg, first, script)
    ensures RenewalLaw(cfg, Execute(cfg, first, script), k, Execute(cfg, first, script + [k]))
  {
    hide Execute, Turn, RenewalLaw;
    LoopHeadsAreCoherent(cfg, first, script);
    RunStep(cfg, first, script, k);
    TurnRenews(cfg, Execute(cfg, first, script), k);
  }

  /** The first child is spawned and its first probe armed the same way. */
  lemma FirstSpawnIsExact(cfg: Config, first: SpawnEnv)
    requires Assembled(cfg)
    ensures
      var (s, at) := (Execute(cfg, first, []), cfg.lifetimeStart + first.elapsed);
      if first.result.NotStarted? then s.status == Returned(SpawnError) && s.m.events == [] && s.m.procs == []
      else
        && s.status == Running && s.m.child == Some(first.result.pid) && s.m.spawnedAt == Some(at)
        && s.m.retry == 0 && s.m.history == []
        && s.m.events == [ChildSpawned(first.result.pid)] && s.m.procs == [Spawn(first.result.pid)]
        && s.m.now == at + first.spawnedLag
        && s.nextProbe == if cfg.monitorMode.Active? then Some(s.m.now + cfg.clock.firstPoll) else None
  {
  }
}
