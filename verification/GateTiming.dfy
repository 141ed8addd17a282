/** How the gate-time backoff ties the number of respawns to the clock. */
module GateTiming {
  import opened Types
  import opened SupervisorSpec
  import opened Runs
  import opened RetryBudget

  /** Backoff respawns in an event stream: the spawns that follow an exit. */
  function BackOffs(ev: seq<Event>): nat {
    if |ev| < 2 then 0
    else
      BackOffs(ev[..|ev| - 1]) + if ev[|ev| - 2].ChildExited? && ev[|ev| - 1].ChildSpawned? then 1 else 0
  }

  lemma BackOffsOne(ev: seq<Event>, e: Event)
    ensures BackOffs(ev + [e]) ==
            BackOffs(ev) + if ev != [] && ev[|ev| - 1].ChildExited? && e.ChildSpawned? then 1 else 0
  {
    assert (ev + [e])[..|ev|] == ev;
  }

  /** A failing child that outlived the gate time. */
  predicate IsLong(cfg: Config, o: Observation) {
    IsFailure(o) && cfg.clock.gateTime <= o.lifetime
  }

  function Longs(cfg: Config, h: seq<Observation>): nat {
    Number(h, (o: Observation) => IsLong(cfg, o))
  }

  lemma LongsOne(cfg: Config, h: seq<Observation>, o: Observation)
    ensures Longs(cfg, h + [o]) == Longs(cfg, h) + if IsLong(cfg, o) then 1 else 0
  {
    assert (h + [o])[..|h|] == h;
  }

  /** Gate times that have certainly gone by: one per backoff, one per long-lived failure. */
  function Spent(cfg: Config, m: Machine): nat {
    BackOffs(m.events) + Longs(cfg, m.history)
  }

  /** Enough time has passed when the current child was spawned, and the turn
      that added the last backoff began before the lifetime deadline. */
  ghost predicate Paced(cfg: Config, s: Loop) {
    && (!s.status.Returned? ==>
          && s.m.spawnedAt.Some?
          && cfg.lifetimeStart + cfg.clock.gateTime * Spent(cfg, s.m) <= s.m.spawnedAt.value)
    && (cfg.clock.maxLifetime.Some? && BackOffs(s.m.events) > 0 ==>
          cfg.clock.gateTime * (BackOffs(s.m.events) - 1) < cfg.clock.maxLifetime.value)
  }

  /** The machine keeps up with the clock: at `m.now` everything up to and
      including the current child's lifetime and any sleep has been paid for. */
  ghost predicate PaidUp(cfg: Config, m: Machine, spent: nat) {
    cfg.lifetimeStart + cfg.clock.gateTime * spent <= m.now
  }

  /** What the back-off half of a turn does to the two measures. */
  lemma BackOffPaced(cfg: Config, m: Machine, k: Tick)
    requires m.events != [] && m.events[|m.events| - 1].ChildExited?
    requires PaidUp(cfg, m, Spent(cfg, m))
    ensures
      var (m', ok) := BackOff(cfg, m, k);
      && m'.history == m.history
      && (!ok ==> m'.events == m.events)
      && (ok ==>
            && BackOffs(m'.events) == BackOffs(m.events) + 1
            && m'.spawnedAt.Some?
            && cfg.lifetimeStart + cfg.clock.gateTime * Spent(cfg, m') <= m'.spawnedAt.value)
  {
    OneMore(Spent(cfg, m), cfg.clock.gateTime);
    if k.spawn.result.Started? {
      var spawned := ChildSpawned(k.spawn.result.pid);
      BackOffsOne(m.events, spawned);
      BackOffsOne(m.events + [spawned], ChildRespawned);
    }
  }

  /** The deadline test at the head of a turn, in terms of gate times. */
  ghost predicate BeforeDeadline(cfg: Config, backOffs: nat) {
    cfg.clock.maxLifetime.Some? ==> cfg.clock.gateTime * backOffs < cfg.clock.maxLifetime.value
  }

  lemma EmitIdle(cfg: Config, m: Machine, e: Event, lag: nat)
    requires m.events == [] || !m.events[|m.events| - 1].ChildExited? || !e.ChildSpawned?
    ensures BackOffs(Emit(m, e, lag).events) == BackOffs(m.events)
    ensures Emit(m, e, lag).events[|m.events|] == e
  {
  }

  lemma JudgedPaidUp(cfg: Config, m: Machine, o: Observation, spawned: nat)
    requires cfg.lifetimeStart + cfg.clock.gateTime * Spent(cfg, m) <= spawned <= m.now
    requires IsFailure(o) ==> o.lifetime <= m.now - spawned
    ensures PaidUp(cfg, m, BackOffs(m.events) + Longs(cfg, m.history + [o]))
  {
    hide BackOffs, Longs, PaidUp;
    LongsOne(cfg, m.history, o);
    var (g, n) := (cfg.clock.gateTime, Spent(cfg, m));
    OneMore(n, g);
    PaidUpTo(cfg, m, n);
    if IsLong(cfg, o) {
      PaidUpTo(cfg, m, n + 1);
    }
  }

  lemma PaidUpTo(cfg: Config, m: Machine, spent: nat)
    requires cfg.lifetimeStart + cfg.clock.gateTime * spent <= m.now
    ensures PaidUp(cfg, m, spent)
  {
  }

  lemma AfterExitPaced(cfg: Config, m: Machine, nextProbe: Option<nat>, status: ExitStatus, lifetime: nat, k: Tick)
    requires Paced(cfg, Loop(m, nextProbe, Running)) && BeforeDeadline(cfg, BackOffs(m.events))
    requires m.spawnedAt.Some? && m.spawnedAt.value <= m.now && lifetime == m.now - m.spawnedAt.value
    ensures Paced(cfg, AfterExit(cfg, m, nextProbe, status, lifetime, k))
  {
    hide BackOff, BackOffs, Longs;
    var (retry, decision) := Decide(cfg, m.retry, status, lifetime);
    var o := NaturalExit(status, lifetime);
    var emitted := Emit(m, ChildExited(status), k.exitLag);
    var told := Note(emitted, o).(child := None, retry := retry);
    EmitIdle(cfg, m, ChildExited(status), k.exitLag);
    JudgedPaidUp(cfg, emitted, o, m.spawnedAt.value);
    BackOffPaced(cfg, told, k);
    if decision.Exit? && decision.reason.ExitMaxStart? {
      EmitIdle(cfg, told, MaxStartReached(decision.reason.attempts), k.verdictLag);
    }
  }

  lemma AfterProbeKillPaced(cfg: Config, m: Machine, nextProbe: Option<nat>, status: ExitStatus, k: Tick)
    requires Paced(cfg, Loop(m, nextProbe, Running)) && BeforeDeadline(cfg, BackOffs(m.events))
    requires m.spawnedAt.Some? && m.spawnedAt.value <= m.now
    ensures Paced(cfg, AfterProbeKill(cfg, m, nextProbe, status, k))
  {
    hide BackOff, BackOffs, Longs;
    var told := Emit(m, ChildExited(status), k.exitLag);
    var lifetime := Elapsed(told.spawnedAt, told.now);
    var (retry, decision) := Decide(cfg, m.retry, FailedStatus(cfg.platform), lifetime);
    var judged := Note(told, ProbeFailure(lifetime)).(retry := retry);
    EmitIdle(cfg, m, ChildExited(status), k.exitLag);
    JudgedPaidUp(cfg, told, ProbeFailure(lifetime), m.spawnedAt.value);
    BackOffPaced(cfg, judged, k);
    if decision.Exit? && decision.reason.ExitMaxStart? {
      EmitIdle(cfg, judged, MaxStartReached(decision.reason.attempts), k.verdictLag);
    }
  }

  lemma AfterProbeLostPaced(cfg: Config, m: Machine, nextProbe: Option<nat>, k: Tick)
    requires Paced(cfg, Loop(m, nextProbe, Running)) && BeforeDeadline(cfg, BackOffs(m.events))
    requires m.spawnedAt.Some? && m.spawnedAt.value <= m.now
    ensures Paced(cfg, AfterProbeLost(cfg, m, nextProbe, k))
  {
    hide AfterProbeKill, BackOffs, Longs;
    var (m', result) := TerminateChild(cfg.platform, Emit(m, ProbeTimeout, k.noticeLag), k.term);
    EmitIdle(cfg, m, ProbeTimeout, k.noticeLag);
    if result.Reaped? {
      AfterProbeKillPaced(cfg, m', nextProbe, result.status, k);
    }
  }

  lemma ReplacePaced(cfg: Config, m: Machine, e: SpawnEnv)
    requires m.events == [] || !m.events[|m.events| - 1].ChildExited?
    ensures
      var (m', ok) := Replace(m, e);
      && BackOffs(m'.events) == BackOffs(m.events) && m'.history == m.history && m.now <= m'.now
      && (ok ==> m'.spawnedAt.Some? && m.now <= m'.spawnedAt.value)
  {
  }

  lemma AfterSignalPaced(cfg: Config, m: Machine, nextProbe: Option<nat>, kind: SignalKind, k: Tick)
    requires Paced(cfg, Loop(m, nextProbe, Running)) && BeforeDeadline(cfg, BackOffs(m.events))
    requires m.spawnedAt.Some? && m.spawnedAt.value <= m.now
    ensures Paced(cfg, AfterSignal(cfg, m, nextProbe, kind, k))
  {
    hide BackOffs, Longs, Replace;
    EmitIdle(cfg, m, SignalReceived(kind), k.noticeLag);
    var told := Emit(m, SignalReceived(kind), k.noticeLag);
    if kind.ForcesRespawn() {
      var noted := Note(told, Forced(kind)).(retry := if kind.Hangup? then 0 else m.retry);
      LongsOne(cfg, m.history, Forced(kind));
      ReplacePaced(cfg, TerminateChild(cfg.platform, noted, k.term).0, k.spawn);
    }
  }

  lemma TurnKeepsPaced(cfg: Config, s: Loop, k: Tick)
    requires Assembled(cfg) && Coherent(cfg, s) && s.status.Running? && Paced(cfg, s)
    ensures Paced(cfg, Turn(cfg, s, k))
  {
    hide AfterExit, AfterProbeLost, AfterSignal, BackOffs, Longs;
    if LifetimeReached(cfg, s.m.now) {
      EmitIdle(cfg, s.m, MaxLifetimeReached, k.noticeLag);
    } else {
      assert BeforeDeadline(cfg, BackOffs(s.m.events)) by {
        GateTimesGrow(cfg.clock.gateTime, BackOffs(s.m.events), Longs(cfg, s.m.history));
      }
      LongsOne(cfg, s.m.history, ProbeAnswered);
      var (m, nextProbe, outcome) := Select(cfg, s.m, s.nextProbe, k);
      match outcome {
        case ChildGone(status, lifetime) => AfterExitPaced(cfg, m, nextProbe, status, lifetime, k);
        case ProbeLost => AfterProbeLostPaced(cfg, m, nextProbe, k);
        case Signalled(kind) => AfterSignalPaced(cfg, m, nextProbe, kind, k);
        case _ =>
      }
    }
  }

  lemma GateTimesGrow(gate: nat, a: nat, b: nat)
    ensures gate * a <= gate * (a + b)
  {
  }

  lemma RunsArePaced(cfg: Config, first: SpawnEnv, script: seq<Tick>)
    requires Assembled(cfg)
    ensures Coherent(cfg, Execute(cfg, first, script)) && Paced(cfg, Execute(cfg, first, script))
  {
    var inv := s => Coherent(cfg, s) && Paced(cfg, s);
    forall s, k | inv(s) && s.status.Running? ensures inv(Turn(cfg, s, k)) {
      TurnKeepsCoherent(cfg, s, k);
      TurnKeepsPaced(cfg, s, k);
    }
    RunsPreserve(cfg, first, script, inv);
  }

  /** At every loop head: the time since the start is at least one gate time per
      backoff respawn and one more per failing child that outlived the gate. */
  lemma ElapsedCoversBackOffs(cfg: Config, first: SpawnEnv, script: seq<Tick>)
    requires Assembled(cfg) && !Execute(cfg, first, script).status.Returned?
    ensures
      var m := Execute(cfg, first, script).m;
      cfg.clock.gateTime * (BackOffs(m.events) + Longs(cfg, m.history)) <= m.now - cfg.lifetimeStart
  {
    RunsArePaced(cfg, first, script);
  }

  /** With a lifetime cap, the whole run makes at most ceil(cap / gate) backoff respawns. */
  lemma LifetimeBoundsBackOffs(cfg: Config, first: SpawnEnv, script: seq<Tick>)
    requires Assembled(cfg) && cfg.clock.maxLifetime.Some? && cfg.clock.gateTime > 0
    ensures
      BackOffs(Execute(cfg, first, script).m.events)
        <= (cfg.clock.maxLifetime.value + cfg.clock.gateTime - 1) / cfg.clock.gateTime
  {
    RunsArePaced(cfg, first, script);
    var n := BackOffs(Execute(cfg, first, script).m.events);
    var (g, cap) := (cfg.clock.gateTime, cfg.clock.maxLifetime.value);
    if n > 0 {
      AtMostCeiling(n, g, cap);
    }
  }

  lemma MultiplesGrow(g: nat, a: nat, b: nat)
    requires a <= b
    ensures g * a <= g * b
  {
  }

  lemma AtMostCeiling(n: nat, g: nat, cap: nat)
    requires g > 0 && n > 0 && g * (n - 1) < cap
    ensures n <= (cap + g - 1) / g
  {
    var q := (cap + g - 1) / g;
    if q < n {
      MultiplesGrow(g, q, n - 1);
    }
  }

  /** A child that fails at once, replaced with no delay but the gate time. */
  predicate Immediate(k: Tick) {
    && k.exit.Some? && k.exit.value.Exited? && !k.exit.value.status.Success()
    && k.wake == k.exitLag == k.oversleep == 0
    && k.spawn.result.Started? && k.spawn.elapsed == k.spawn.spawnedLag == k.spawn.respawnedLag == 0
  }

  /** The loop head after `n` immediate failures. */
  ghost predicate OnSchedule(cfg: Config, s: Loop, n: nat) {
    && s.status == Running && s.m.child.Some? && s.m.events != []
    && s.m.now == cfg.lifetimeStart + cfg.clock.gateTime * n
    && BackOffs(s.m.events) == n
  }

  lemma ImmediateTurnState(cfg: Config, s: Loop, k: Tick)
    requires !cfg.oneShot && cfg.clock.maxStart.None? && Immediate(k)
    requires s.status == Running && s.m.child.Some? && !LifetimeReached(cfg, s.m.now)
    ensures
      var s' := Turn(cfg, s, k);
      && s'.status == Running && s'.m.child.Some? && s'.m.now == s.m.now + cfg.clock.gateTime
      && s'.m.events == s.m.events + [ChildExited(k.exit.value.status)] + [ChildSpawned(k.spawn.result.pid)]
                        + [ChildRespawned]
  {
    hide LifetimeReached;
  }

  lemma ImmediateTurn(cfg: Config, s: Loop, k: Tick, n: nat)
    requires !cfg.oneShot && cfg.clock.maxStart.None? && cfg.clock.maxLifetime.Some? && Immediate(k)
    requires OnSchedule(cfg, s, n) && cfg.clock.gateTime * n < cfg.clock.maxLifetime.value
    ensures OnSchedule(cfg, Turn(cfg, s, k), n + 1)
  {
    hide Turn;
    ImmediateTurnState(cfg, s, k);
    var ev := s.m.events;
    var exited := ev + [ChildExited(k.exit.value.status)];
    var spawned := exited + [ChildSpawned(k.spawn.result.pid)];
    BackOffsOne(ev, ChildExited(k.exit.value.status));
    BackOffsOne(exited, ChildSpawned(k.spawn.result.pid));
    BackOffsOne(spawned, ChildRespawned);
    OneMore(n, cfg.clock.gateTime);
  }

  /** The bound is reached: a child that always fails at once is replaced
      `|script|` times whenever one respawn fewer still leaves time. */
  lemma {:induction false} BoundIsReached(cfg: Config, first: SpawnEnv, script: seq<Tick>)
    requires !cfg.oneShot && cfg.clock.maxStart.None? && cfg.clock.maxLifetime.Some?
    requires first.result.Started? && first.elapsed == first.spawnedLag == 0
    requires forall k :: k in script ==> Immediate(k)
    requires script != [] ==> cfg.clock.gateTime * (|script| - 1) < cfg.clock.maxLifetime.value
    ensures OnSchedule(cfg, Execute(cfg, first, script), |script|)
  {
    if script == [] {
      assert Execute(cfg, first, script) == Entry(cfg, first);
    } else {
      hide OnSchedule, Turn, Turns;
      var (before, k) := (script[..|script| - 1], script[|script| - 1]);
      assert script == before + [k];
      if before != [] {
        MultiplesGrow(cfg.clock.gateTime, |before| - 1, |script| - 1);
      }
      BoundIsReached(cfg, first, before);
      RunStep(cfg, first, before, k);
      assert Execute(cfg, first, before).status.Running? by {
        GoesOn(cfg, Execute(cfg, first, before), |before|);
      }
      ImmediateTurn(cfg, Execute(cfg, first, before), k, |before|);
    }
  }

  lemma GoesOn(cfg: Config, s: Loop, n: nat)
    requires OnSchedule(cfg, s, n)
    ensures s.status.Running?
  {
  }
}
