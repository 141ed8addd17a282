/** How often the current child can have been probed. */
module ProbePacing {
  import opened Types
  import opened SupervisorSpec
  import opened Runs

  /** Probes answered since the current child was spawned. */
  function Answered(h: seq<Observation>): nat {
    if h == [] || !h[|h| - 1].ProbeAnswered? then 0 else 1 + Answered(h[..|h| - 1])
  }

  lemma AnsweredOne(h: seq<Observation>, o: Observation)
    ensures Answered(h + [o]) == if o.ProbeAnswered? then 1 + Answered(h) else 0
  {
    assert (h + [o])[..|h|] == h;
  }

  /** The next probe is due no earlier than the first-poll delay and one poll
      interval per answered probe after the spawn; and the last answer came no
      earlier than that allows. */
  ghost predicate Timely(cfg: Config, s: Loop) {
    s.status.Running? ==>
      var n := Answered(s.m.history);
      && s.m.spawnedAt.Some?
      && (s.nextProbe.Some? ==>
            s.m.spawnedAt.value + cfg.clock.firstPoll + n * cfg.clock.poll <= s.nextProbe.value)
      && (n > 0 ==> s.m.spawnedAt.value + cfg.clock.firstPoll + (n - 1) * cfg.clock.poll <= s.m.now)
  }

  lemma ReplaceIsRecent(m: Machine, e: SpawnEnv)
    requires Replace(m, e).1
    ensures
      var m' := Replace(m, e).0;
      m'.spawnedAt.Some? && m'.spawnedAt.value <= m'.now && m'.history == m.history
  {
  }

  lemma AfterExitTimely(cfg: Config, m: Machine, nextProbe: Option<nat>, status: ExitStatus, lifetime: nat, k: Tick)
    ensures Timely(cfg, AfterExit(cfg, m, nextProbe, status, lifetime, k))
  {
    hide Replace, Answered;
    var retry := Decide(cfg, m.retry, status, lifetime).0;
    var o := NaturalExit(status, lifetime);
    AnsweredOne(m.history, o);
    var told := Note(Emit(m, ChildExited(status), k.exitLag), o).(child := None, retry := retry);
    var rested := told.(now := told.now + cfg.clock.gateTime + k.oversleep);
    if Replace(rested, k.spawn).1 {
      ReplaceIsRecent(rested, k.spawn);
    }
  }

  lemma AfterProbeKillTimely(cfg: Config, m: Machine, nextProbe: Option<nat>, status: ExitStatus, k: Tick)
    ensures Timely(cfg, AfterProbeKill(cfg, m, nextProbe, status, k))
  {
    hide Replace, Answered;
    var told := Emit(m, ChildExited(status), k.exitLag);
    var lifetime := Elapsed(told.spawnedAt, told.now);
    var retry := Decide(cfg, m.retry, FailedStatus(cfg.platform), lifetime).0;
    AnsweredOne(m.history, ProbeFailure(lifetime));
    var judged := Note(told, ProbeFailure(lifetime)).(retry := retry);
    var rested := judged.(now := judged.now + cfg.clock.gateTime + k.oversleep);
    if Replace(rested, k.spawn).1 {
      ReplaceIsRecent(rested, k.spawn);
    }
  }

  lemma AfterProbeLostTimely(cfg: Config, m: Machine, nextProbe: Option<nat>, k: Tick)
    requires m.child.Some?
    ensures Timely(cfg, AfterProbeLost(cfg, m, nextProbe, k))
  {
    hide AfterProbeKill, Answered;
    var (m', result) := TerminateChild(cfg.platform, Emit(m, ProbeTimeout, k.noticeLag), k.term);
    if result.Reaped? {
      AfterProbeKillTimely(cfg, m', nextProbe, result.status, k);
    }
  }

  lemma AfterSignalTimely(cfg: Config, m: Machine, nextProbe: Option<nat>, kind: SignalKind, k: Tick)
    ensures Timely(cfg, AfterSignal(cfg, m, nextProbe, kind, k))
  {
    hide Replace, Answered;
    if kind.ForcesRespawn() {
      AnsweredOne(m.history, Forced(kind));
      var noted := Note(Emit(m, SignalReceived(kind), k.noticeLag), Forced(kind))
                   .(retry := if kind.Hangup? then 0 else m.retry);
      var m' := TerminateChild(cfg.platform, noted, k.term).0;
      if Replace(m', k.spawn).1 {
        ReplaceIsRecent(m', k.spawn);
      }
    }
  }

  lemma OneMorePoll(n: nat, poll: nat)
    ensures (n + 1) * poll == n * poll + poll
  {
  }

  lemma TurnKeepsTimely(cfg: Config, s: Loop, k: Tick)
    requires Coherent(cfg, s) && s.status.Running? && Timely(cfg, s)
    ensures Timely(cfg, Turn(cfg, s, k))
  {
    hide AfterExit, AfterProbeLost, AfterSignal, Answered;
    if !LifetimeReached(cfg, s.m.now) {
      var (m, nextProbe, outcome) := Select(cfg, s.m, s.nextProbe, k);
      match outcome {
        case ChildGone(status, lifetime) => AfterExitTimely(cfg, m, nextProbe, status, lifetime, k);
        case ProbeLost => AfterProbeLostTimely(cfg, m, nextProbe, k);
        case Signalled(kind) => AfterSignalTimely(cfg, m, nextProbe, kind, k);
        case ProbeAnswer =>
          AnsweredOne(s.m.history, ProbeAnswered);
          OneMorePoll(Answered(s.m.history), cfg.clock.poll);
        case _ =>
      }
    }
  }

  /** For every run: a child that has answered n probes is at least
      first-poll + (n - 1) * poll old, whatever signals, delays and slow probes come between. */
  lemma ProbesKeepTheirDistance(cfg: Config, first: SpawnEnv, script: seq<Tick>)
    requires Assembled(cfg) && Execute(cfg, first, script).status.Running?
    ensures
      var m := Execute(cfg, first, script).m;
      var n := Answered(m.history);
      && m.spawnedAt.Some?
      && (n > 0 ==> cfg.clock.firstPoll + (n - 1) * cfg.clock.poll <= m.now - m.spawnedAt.value)
  {
    var inv := s => Coherent(cfg, s) && Timely(cfg, s);
    forall s, k | inv(s) && s.status.Running? ensures inv(Turn(cfg, s, k)) {
      TurnKeepsCoherent(cfg, s, k);
      TurnKeepsTimely(cfg, s, k);
    }
    RunsPreserve(cfg, first, script, inv);
  }
}
