/** The supervisor loop as a function from what the environment does to what
    the supervisor does.  `Tick` records every choice the outside world makes
    during one turn of the loop; `RunFrom` folds the turns.  The class in
    Supervisor.dfy is proved to compute exactly these functions, and every
    theorem about runs is a theorem about `Execute`. */
module SupervisorSpec {
  import opened Types

  /** The SIGTERM grace period. */
  const GRACE: nat := 10 * NANOS_PER_SEC

  /** What is fixed for a whole run.  `monitor` says whether a probe loop is bound. */
  datatype Config = Config(
    platform: Platform,
    clock: PollClock,
    monitorMode: MonitorMode,
    monitor: bool,
    oneShot: bool,
    lifetimeStart: nat)

  /** The configurations the library entry point builds: listeners are bound
      exactly when the mode is Active. */
  ghost predicate Assembled(cfg: Config) {
    cfg.monitor <==> cfg.monitorMode.Active?
  }

  // ---------------------------------------------------------------- environment

  datatype WaitResult = Exited(status: ExitStatus) | WaitFailed

  datatype SpawnResult = Started(pid: nat) | NotStarted

  /** One spawn: how long it takes, how it ends, and how long the consumer of
      the event channel holds up the two events that may follow. */
  datatype SpawnEnv = SpawnEnv(elapsed: nat, result: SpawnResult, spawnedLag: nat, respawnedLag: nat)

  /** One termination: whether the child goes within the grace period, the
      times it takes, and what the final wait returns. */
  datatype TermEnv = TermEnv(inGrace: bool, elapsed: nat, killElapsed: nat, wait: WaitResult)

  /** What the signal receiver has to offer when it is polled.  `Closed` is the
      end of the channel; anything but a signal is treated the same way. */
  datatype SignalArm = Quiet | Arrived(kind: SignalKind) | Closed

  /** One turn of the loop as the environment plays it: the time at which the
      select wakes, which arms are then ready, and every duration and outcome
      of the calls that may follow. */
  datatype Tick = Tick(
    wake: nat,
    exit: Option<WaitResult>,
    timerFired: bool,
    signal: SignalArm,
    probeOk: bool,
    probeElapsed: nat,
    noticeLag: nat,
    exitLag: nat,
    verdictLag: nat,
    term: TermEnv,
    oversleep: nat,
    spawn: SpawnEnv)

  // ---------------------------------------------------------------- state

  /** Operations on operating-system processes, in the order performed.
      `SigKill` is TerminateProcess on Windows. */
  datatype ProcOp =
    | Spawn(pid: nat)
    | SigTerm(pid: nat, at: nat)
    | SigKill(pid: nat, at: nat)
    | Reap(pid: nat)
    | WaitError(pid: nat)

  /** What one turn of the loop observed about the child. */
  datatype Observation =
    | ProbeAnswered
    | NaturalExit(status: ExitStatus, lifetime: nat)
    | ProbeFailure(lifetime: nat)
    | Forced(kind: SignalKind)

  /** The supervisor's fields, the clock reading, and the three logs. */
  datatype Machine = Machine(
    now: nat,
    child: Option<nat>,
    retry: u32,
    spawnedAt: Option<nat>,
    events: seq<Event>,
    procs: seq<ProcOp>,
    history: seq<Observation>)

  datatype RunResult =
    | Finished
    | MaxStartError(attempts: u32)
    | SpawnError
    | WaitFailure
    | NoChildError

  /** `Waiting` is a select none of whose arms ever becomes ready. */
  datatype Status = Running | Waiting | Returned(result: RunResult)

  datatype Loop = Loop(m: Machine, nextProbe: Option<nat>, status: Status)

  datatype ExitReason = ExitOk | ExitMaxStart(attempts: u32) | ExitMaxLifetime | ExitOneShot

  datatype Decision = Respawn | Exit(reason: ExitReason)

  datatype Outcome =
    | NothingReady
    | Failed(error: RunResult)
    | ProbeAnswer
    | ChildGone(status: ExitStatus, lifetime: nat)
    | ProbeLost
    | Signalled(kind: SignalKind)

  datatype TermResult = NoChild | Reaped(status: ExitStatus) | Unreaped

  // ---------------------------------------------------------------- steps

  function Elapsed(since: Option<nat>, now: nat): nat {
    if since.Some? && since.value <= now then now - since.value else 0
  }

  /** The status word the probe-timeout arm puts in place of the real one. */
  function FailedStatus(platform: Platform): ExitStatus {
    ExitStatus(if platform.Unix? then 256 else 1)
  }

  function Emit(m: Machine, e: Event, lag: nat): Machine {
    m.(events := m.events + [e], now := m.now + lag)
  }

  function Note(m: Machine, o: Observation): Machine {
    m.(history := m.history + [o])
  }

  function Decide(cfg: Config, retry: u32, status: ExitStatus, lifetime: nat): (u32, Decision) {
    if cfg.oneShot && !status.Success() then (retry, Exit(ExitOneShot))
    else if status.Success() then
      if cfg.monitorMode.Off? then (retry, Exit(ExitOk)) else (0, Respawn)
    else if cfg.clock.gateTime <= lifetime then (0, Respawn)
    else
      var bumped: u32 := Min(retry + 1, U32_MAX);
      if cfg.clock.maxStart.Some? && cfg.clock.maxStart.value <= bumped
      then (bumped, Exit(ExitMaxStart(bumped)))
      else (bumped, Respawn)
  }

  predicate LifetimeReached(cfg: Config, now: nat) {
    cfg.clock.maxLifetime.Some? && cfg.clock.maxLifetime.value <= Elapsed(Some(cfg.lifetimeStart), now)
  }

  /** A spawn attempt; the flag is false when it failed. */
  function SpawnChild(m: Machine, e: SpawnEnv): (Machine, bool) {
    var at := m.now + e.elapsed;
    match e.result
    case NotStarted => (m.(now := at), false)
    case Started(pid) =>
      (Emit(m.(now := at, child := Some(pid), spawnedAt := Some(at), procs := m.procs + [Spawn(pid)]),
            ChildSpawned(pid), e.spawnedLag),
       true)
  }

  /** A spawn attempt followed, on success, by the respawn event. */
  function Replace(m: Machine, e: SpawnEnv): (Machine, bool) {
    var (m', ok) := SpawnChild(m, e);
    (if ok then Emit(m', ChildRespawned, e.respawnedLag) else m', ok)
  }

  /** The operations of one termination that starts at `now`, and its duration. */
  function TermOps(platform: Platform, pid: nat, now: nat, t: TermEnv): (seq<ProcOp>, nat) {
    if platform.Windows? then ([SigKill(pid, now)], t.killElapsed)
    else if t.inGrace then ([SigTerm(pid, now)], t.elapsed)
    else ([SigTerm(pid, now), SigKill(pid, now + GRACE + t.elapsed)], GRACE + t.elapsed + t.killElapsed)
  }

  function TerminateChild(platform: Platform, m: Machine, t: TermEnv): (Machine, TermResult) {
    if m.child.None? then (m, NoChild)
    else
      var pid := m.child.value;
      var (ops, elapsed) := TermOps(platform, pid, m.now, t);
      var m' := m.(child := None, now := m.now + elapsed);
      match t.wait
      case Exited(status) => (m'.(procs := m.procs + ops + [Reap(pid)]), Reaped(status))
      case WaitFailed => (m'.(procs := m.procs + ops + [WaitError(pid)]), Unreaped)
  }

  predicate ProbeDue(nextProbe: Option<nat>, now: nat, k: Tick) {
    nextProbe.Some? && k.timerFired && nextProbe.value <= now
  }

  /** One biased select: child exit first, then the probe timer, then signals. */
  function Select(cfg: Config, m: Machine, nextProbe: Option<nat>, k: Tick): (Machine, Option<nat>, Outcome) {
    if m.child.None? then (m, nextProbe, Failed(NoChildError))
    else
      var pid := m.child.value;
      var woken := m.(now := m.now + k.wake);
      if k.exit.Some? then
        match k.exit.value
        case Exited(status) =>
          (woken.(procs := m.procs + [Reap(pid)]), nextProbe,
           ChildGone(status, Elapsed(m.spawnedAt, woken.now)))
        case WaitFailed =>
          (woken.(procs := m.procs + [WaitError(pid)]), nextProbe, Failed(WaitFailure))
      else if ProbeDue(nextProbe, woken.now, k) then
        if !cfg.monitor then (woken, None, Signalled(Terminate))
        else
          var probed := woken.(now := woken.now + k.probeElapsed);
          (probed, Some(probed.now + cfg.clock.poll), if k.probeOk then ProbeAnswer else ProbeLost)
      else
        match k.signal
        case Quiet => (woken, nextProbe, NothingReady)
        case Arrived(kind) => (woken, nextProbe, Signalled(kind))
        case Closed => (woken, nextProbe, Signalled(Terminate))
  }

  function FirstProbe(cfg: Config, now: nat): Option<nat> {
    if cfg.monitor then Some(now + cfg.clock.firstPoll) else None
  }

  /** The gate-time sleep and the spawn after it. */
  function BackOff(cfg: Config, m: Machine, k: Tick): (Machine, bool) {
    Replace(m.(now := m.now + cfg.clock.gateTime + k.oversleep), k.spawn)
  }

  function AfterExit(cfg: Config, m: Machine, nextProbe: Option<nat>, status: ExitStatus, lifetime: nat, k: Tick): Loop
  {
    var (retry, decision) := Decide(cfg, m.retry, status, lifetime);
    var noted := Note(Emit(m, ChildExited(status), k.exitLag), NaturalExit(status, lifetime));
    var told := noted.(child := None, retry := retry);
    match decision
    case Respawn =>
      var (m', ok) := BackOff(cfg, told, k);
      if ok then Loop(m', FirstProbe(cfg, m'.now), Running) else Loop(m', nextProbe, Returned(SpawnError))
    case Exit(ExitMaxStart(attempts)) =>
      Loop(Emit(told, MaxStartReached(attempts), k.verdictLag), nextProbe, Returned(MaxStartError(attempts)))
    case Exit(ExitOneShot) => Loop(told, nextProbe, Returned(MaxStartError(1)))
    case Exit(_) => Loop(told, nextProbe, Returned(Finished))
  }

  /** The reaped half of the probe-timeout arm. */
  function AfterProbeKill(cfg: Config, m: Machine, nextProbe: Option<nat>, status: ExitStatus, k: Tick): Loop {
    var told := Emit(m, ChildExited(status), k.exitLag);
    var lifetime := Elapsed(told.spawnedAt, told.now);
    var (retry, decision) := Decide(cfg, m.retry, FailedStatus(cfg.platform), lifetime);
    var judged := Note(told, ProbeFailure(lifetime)).(retry := retry);
    match decision
    case Respawn =>
      var (m', ok) := BackOff(cfg, judged, k);
      if ok then Loop(m', Some(m'.now + cfg.clock.firstPoll), Running) else Loop(m', nextProbe, Returned(SpawnError))
    case Exit(ExitMaxStart(attempts)) =>
      Loop(Emit(judged, MaxStartReached(attempts), k.verdictLag), nextProbe, Returned(MaxStartError(attempts)))
    case Exit(_) => Loop(judged, nextProbe, Returned(Finished))
  }

  function AfterProbeLost(cfg: Config, m: Machine, nextProbe: Option<nat>, k: Tick): Loop {
    var (m', result) := TerminateChild(cfg.platform, Emit(m, ProbeTimeout, k.noticeLag), k.term);
    match result
    case Unreaped => Loop(m', nextProbe, Returned(WaitFailure))
    case NoChild => Loop(m', nextProbe, Running)
    case Reaped(status) => AfterProbeKill(cfg, m', nextProbe, status, k)
  }

  function AfterSignal(cfg: Config, m: Machine, nextProbe: Option<nat>, kind: SignalKind, k: Tick): Loop {
    var told := Emit(m, SignalReceived(kind), k.noticeLag);
    if kind.ForcesRespawn() then
      var noted := Note(told, Forced(kind)).(retry := if kind.Hangup? then 0 else m.retry);
      var (m', ok) := Replace(TerminateChild(cfg.platform, noted, k.term).0, k.spawn);
      if ok then Loop(m', FirstProbe(cfg, m'.now), Running) else Loop(m', nextProbe, Returned(SpawnError))
    else
      Loop(TerminateChild(cfg.platform, told, k.term).0, nextProbe, Returned(Finished))
  }

  function React(cfg: Config, m: Machine, nextProbe: Option<nat>, outcome: Outcome, k: Tick): Loop {
    match outcome
    case NothingReady => Loop(m, nextProbe, Waiting)
    case Failed(error) => Loop(m, nextProbe, Returned(error))
    case ProbeAnswer => Loop(Note(m, ProbeAnswered), nextProbe, Running)
    case ChildGone(status, lifetime) => AfterExit(cfg, m, nextProbe, status, lifetime, k)
    case ProbeLost => AfterProbeLost(cfg, m, nextProbe, k)
    case Signalled(kind) => AfterSignal(cfg, m, nextProbe, kind, k)
  }

  /** One turn of the loop: the lifetime test, the select, the reaction. */
  function Turn(cfg: Config, s: Loop, k: Tick): Loop {
    if LifetimeReached(cfg, s.m.now) then
      Loop(TerminateChild(cfg.platform, Emit(s.m, MaxLifetimeReached, k.noticeLag), k.term).0,
           s.nextProbe, Returned(Finished))
    else
      var (m, nextProbe, outcome) := Select(cfg, s.m, s.nextProbe, k);
      React(cfg, m, nextProbe, outcome, k)
  }

  /** The loop, for as long as it runs and the environment keeps playing. */
  function Turns(cfg: Config, s: Loop, script: seq<Tick>): Loop
    decreases |script|
  {
    if script == [] || !s.status.Running? then s
    else Turns(cfg, Turn(cfg, s, script[0]), script[1..])
  }

  function RunFrom(cfg: Config, m: Machine, first: SpawnEnv, script: seq<Tick>): Loop {
    var (m', ok) := SpawnChild(m, first);
    if ok then Turns(cfg, Loop(m', FirstProbe(cfg, m'.now), Running), script)
    else Loop(m', None, Returned(SpawnError))
  }

  /** The machine the library entry point hands to the loop. */
  function Fresh(cfg: Config): Machine {
    Machine(cfg.lifetimeStart, None, 0, None, [], [], [])
  }

  /** A whole run; a shorter script is a moment in the middle of a longer run. */
  function Execute(cfg: Config, first: SpawnEnv, script: seq<Tick>): Loop {
    RunFrom(cfg, Fresh(cfg), first, script)
  }
}
