/** The single-child invariant: one process at a time, counted by what was reaped. */
module SingleChild {
  import opened Types
  import opened SupervisorSpec
  import opened Runs
  import opened ProcessLog
  import EventGrammar

  /** At every moment of the log at most one spawned process is not reaped. */
  ghost predicate OneAtATime(log: seq<ProcOp>) {
    forall i: nat :: i <= |log| ==> Tally(log[..i], IsSpawn) <= Tally(log[..i], IsReap) + 1
  }

  /** The turn handles SIGUSR1 or SIGHUP, the wait that ends the old child
      fails, and the replacement is started all the same. */
  predicate OrphansChild(cfg: Config, s: Loop, k: Tick) {
    var kind := EventGrammar.HandledSignal(cfg, s, k);
    kind.Some? && kind.value.ForcesRespawn() && k.term.wait.WaitFailed? && k.spawn.result.Started?
  }

  function Orphans(cfg: Config): (Loop, Tick) -> bool {
    (s, k) => OrphansChild(cfg, s, k)
  }

  /** The run performs a turn that spawns over a child it has not reaped. */
  ghost predicate SomeChildOrphaned(cfg: Config, first: SpawnEnv, script: seq<Tick>) {
    Happens(cfg, first, script, Orphans(cfg))
  }

  // ---------------------------------------------------------------- one turn

  lemma FailedTerminationIsLast(platform: Platform, m: Machine, t: TermEnv)
    requires m.child.Some? && t.wait.WaitFailed?
    ensures EndsInFailedWait(TerminateChild(platform, m, t).0.procs)
  {
  }

  predicate EndsInFailedWait(log: seq<ProcOp>) {
    log != [] && log[|log| - 1].WaitError?
  }

  lemma FailedSignalTurn(cfg: Config, m: Machine, nextProbe: Option<nat>, kind: SignalKind, k: Tick)
    requires m.child.Some? && k.term.wait.WaitFailed?
    ensures
      var s := AfterSignal(cfg, m, nextProbe, kind, k);
      if kind.ForcesRespawn() && k.spawn.result.Started? then s.status.Running?
      else s.status.Returned? && EndsInFailedWait(s.m.procs)
  {
    hide TerminateChild, EndsInFailedWait;
    var told := Emit(m, SignalReceived(kind), k.noticeLag);
    FailedTerminationIsLast(cfg.platform, told, k.term);
    var noted := Note(told, Forced(kind)).(retry := if kind.Hangup? then 0 else m.retry);
    FailedTerminationIsLast(cfg.platform, noted, k.term);
  }

  /** A failed wait ends the run there and then, unless it is ignored for a replacement. */
  lemma FailedWaitTurn(cfg: Config, s: Loop, k: Tick)
    requires Assembled(cfg) && Coherent(cfg, s) && s.status.Running? && FailsWait(cfg, s, k)
    ensures
      var s' := Turn(cfg, s, k);
      if OrphansChild(cfg, s, k) then s'.status.Running? else s'.status.Returned? && EndsInFailedWait(s'.m.procs)
  {
    hide AfterExit, AfterProbeKill, AfterSignal, TerminateChild, EndsInFailedWait;
    if LifetimeReached(cfg, s.m.now) {
      FailedTerminationIsLast(cfg.platform, Emit(s.m, MaxLifetimeReached, k.noticeLag), k.term);
    } else {
      var (m, nextProbe, outcome) := Select(cfg, s.m, s.nextProbe, k);
      match outcome {
        case ProbeLost => FailedProbeTurn(cfg, m, nextProbe, k);
        case Signalled(kind) => FailedSignalTurn(cfg, m, nextProbe, kind, k);
        case Failed(_) => FailedExitIsLast(s.m.procs, s.m.child.value);
        case _ =>
      }
    }
  }

  lemma FailedExitIsLast(log: seq<ProcOp>, pid: nat)
    ensures EndsInFailedWait(log + [WaitError(pid)])
  {
  }

  lemma FailedProbeTurn(cfg: Config, m: Machine, nextProbe: Option<nat>, k: Tick)
    requires m.child.Some? && k.term.wait.WaitFailed?
    ensures
      var s := AfterProbeLost(cfg, m, nextProbe, k);
      s.status.Returned? && EndsInFailedWait(s.m.procs)
  {
  }

  /** The log only grows. */
  lemma TurnExtendsLog(cfg: Config, s: Loop, k: Tick)
    ensures s.m.procs <= Turn(cfg, s, k).m.procs
  {
    hide AfterExit, AfterProbeLost, AfterSignal, TerminateChild;
    if LifetimeReached(cfg, s.m.now) {
      TerminateExtendsLog(cfg.platform, Emit(s.m, MaxLifetimeReached, k.noticeLag), k.term);
    } else {
      var (m, nextProbe, outcome) := Select(cfg, s.m, s.nextProbe, k);
      match outcome {
        case ChildGone(status, lifetime) => AfterExitExtendsLog(cfg, m, nextProbe, status, lifetime, k);
        case ProbeLost => AfterProbeLostExtendsLog(cfg, m, nextProbe, k);
        case Signalled(kind) => AfterSignalExtendsLog(cfg, m, nextProbe, kind, k);
        case _ =>
      }
    }
  }

  lemma TerminateExtendsLog(platform: Platform, m: Machine, t: TermEnv)
    ensures m.procs <= TerminateChild(platform, m, t).0.procs
  {
  }

  lemma AfterExitExtendsLog(cfg: Config, m: Machine, nextProbe: Option<nat>, status: ExitStatus, lifetime: nat, k: Tick)
    ensures m.procs <= AfterExit(cfg, m, nextProbe, status, lifetime, k).m.procs
  {
  }

  lemma AfterProbeLostExtendsLog(cfg: Config, m: Machine, nextProbe: Option<nat>, k: Tick)
    ensures m.procs <= AfterProbeLost(cfg, m, nextProbe, k).m.procs
  {
    hide TerminateChild;
    TerminateExtendsLog(cfg.platform, Emit(m, ProbeTimeout, k.noticeLag), k.term);
  }

  lemma AfterSignalExtendsLog(cfg: Config, m: Machine, nextProbe: Option<nat>, kind: SignalKind, k: Tick)
    ensures m.procs <= AfterSignal(cfg, m, nextProbe, kind, k).m.procs
  {
  }

  // ---------------------------------------------------------------- the log of a run

  /** A log in which no wait failed, or only the one that ends it. */
  lemma UnfailedIsOneAtATime(platform: Platform, log: seq<ProcOp>)
    requires Walk(platform, log) != Broken
    requires Tally(log, IsWaitError) == 0 ||
             (EndsInFailedWait(log) && Tally(log, IsWaitError) == 1 && Walk(platform, log).NoProcess?)
    ensures OneAtATime(log)
  {
    forall i: nat | i <= |log| ensures Tally(log[..i], IsSpawn) <= Tally(log[..i], IsReap) + 1 {
      PrefixUnbroken(platform, log, i);
      WalkConserves(platform, log[..i]);
      if i < |log| {
        var before := log[..|log| - 1];
        NoneMeansZero(before);
        assert log[..i] == before[..i];
        NoneMeansZero(before[..i]);
      } else {
        assert log[..i] == log;
      }
    }
  }

  lemma BreachPersists(log: seq<ProcOp>, longer: seq<ProcOp>)
    requires log <= longer && OneAtATime(longer)
    ensures OneAtATime(log)
  {
    forall i: nat | i <= |log| ensures Tally(log[..i], IsSpawn) <= Tally(log[..i], IsReap) + 1 {
      assert log[..i] == longer[..i];
    }
  }

  lemma WholeLog(log: seq<ProcOp>)
    requires OneAtATime(log)
    ensures Tally(log, IsSpawn) <= Tally(log, IsReap) + 1
  {
    assert log[..|log|] == log;
  }

  /** The turn keeps the invariant exactly when it orphans nothing. */
  lemma TurnKeepsOneAtATime(cfg: Config, s: Loop, k: Tick)
    requires Assembled(cfg) && Coherent(cfg, s) && s.status.Running?
    requires Accounted(cfg, s.m) && OneAtATime(s.m.procs)
    ensures OneAtATime(Turn(cfg, s, k).m.procs) <==> !OrphansChild(cfg, s, k)
  {
    hide Turn, OneAtATime, FailsWait, EndsInFailedWait;
    var s' := Turn(cfg, s, k);
    TurnFailures(cfg, s, k);
    TurnKeepsCoherent(cfg, s, k);
    TurnKeepsDisciplined(cfg, s, k);
    WalkConserves(cfg.platform, s.m.procs);
    WalkConserves(cfg.platform, s'.m.procs);
    WholeLog(s.m.procs);
    OrphansFailWait(cfg, s, k);
    if FailsWait(cfg, s, k) {
      FailedWaitTurn(cfg, s, k);
    }
    if OrphansChild(cfg, s, k) {
      if OneAtATime(s'.m.procs) {
        WholeLog(s'.m.procs);
      }
    } else {
      UnfailedIsOneAtATime(cfg.platform, s'.m.procs);
    }
  }

  lemma OrphansFailWait(cfg: Config, s: Loop, k: Tick)
    ensures OrphansChild(cfg, s, k) ==> FailsWait(cfg, s, k)
  {
  }

  /** The handlers promise to await the reap before the new spawn, so that there
      is one child at a time.  For every run and every moment of it: that holds
      exactly when no forced respawn the run performed had its wait fail and its
      spawn succeed. */
  lemma {:induction false} OneChildAtATime(cfg: Config, first: SpawnEnv, script: seq<Tick>)
    requires Assembled(cfg)
    ensures OneAtATime(Execute(cfg, first, script).m.procs) <==> !SomeChildOrphaned(cfg, first, script)
    decreases |script|
  {
    if script == [] {
      assert OneAtATime(Execute(cfg, first, []).m.procs) by {
        ProcessDiscipline(cfg, first, []);
        StartsClean(cfg, first);
        UnfailedIsOneAtATime(cfg.platform, Execute(cfg, first, []).m.procs);
      }
    } else {
      var (before, k) := (script[..|script| - 1], script[|script| - 1]);
      assert script == before + [k];
      hide Execute, Turn, OneAtATime, OrphansChild, Happens, Coherent;
      OneChildAtATime(cfg, first, before);
      HappensStep(cfg, first, before, k, Orphans(cfg));
      RunStep(cfg, first, before, k);
      LoopHeadsAreCoherent(cfg, first, before);
      ProcessDiscipline(cfg, first, before);
      var s := Execute(cfg, first, before);
      if s.status.Running? {
        if OneAtATime(s.m.procs) {
          TurnKeepsOneAtATime(cfg, s, k);
        } else {
          TurnExtendsLog(cfg, s, k);
          if OneAtATime(Turn(cfg, s, k).m.procs) {
            BreachPersists(s.m.procs, Turn(cfg, s, k).m.procs);
          }
        }
      }
    }
  }

  /** While the loop goes on, all children but the supervised one are reaped
      exactly when no forced respawn orphaned one. */
  lemma OnlyTheLiveChildIsUnreaped(cfg: Config, first: SpawnEnv, script: seq<Tick>)
    requires Assembled(cfg) && !Execute(cfg, first, script).status.Returned?
    ensures
      var log := Execute(cfg, first, script).m.procs;
      Tally(log, IsSpawn) == Tally(log, IsReap) + 1 <==> !SomeChildOrphaned(cfg, first, script)
  {
    hide Execute, Happens, OneAtATime;
    var log := Execute(cfg, first, script).m.procs;
    ProcessDiscipline(cfg, first, script);
    ProcessConservation(cfg, first, script);
    OneChildAtATime(cfg, first, script);
    if OneAtATime(log) {
      WholeLog(log);
    }
    if Tally(log, IsWaitError) == 0 {
      UnfailedIsOneAtATime(cfg.platform, log);
    }
  }

  /** At every moment of every run the processes unreaped beside the supervised
      one are those whose wait failed. */
  lemma UnreapedHadFailedWaits(cfg: Config, first: SpawnEnv, script: seq<Tick>, i: nat)
    requires Assembled(cfg) && i <= |Execute(cfg, first, script).m.procs|
    ensures
      var log := Execute(cfg, first, script).m.procs[..i];
      var gone := Tally(log, IsReap) + Tally(log, IsWaitError);
      && gone <= Tally(log, IsSpawn) <= gone + 1
      && (!SomeWaitFails(cfg, first, script) ==> Tally(log, IsWaitError) == 0)
  {
    hide Execute, SomeWaitFails;
    var log := Execute(cfg, first, script).m.procs;
    ProcessDiscipline(cfg, first, script);
    FailuresOfRun(cfg, first, script);
    PrefixUnbroken(cfg.platform, log, i);
    WalkConserves(cfg.platform, log[..i]);
    NoneMeansZero(log);
    NoneMeansZero(log[..i]);
  }

  lemma ForcedTurnLog(cfg: Config, s: Loop, k: Tick) returns (ops: seq<ProcOp>)
    requires s.m.child.Some? && s.nextProbe.None? && cfg.clock.maxLifetime.None?
    requires k.exit.None? && k.signal == Arrived(UserDefined1)
    requires k.spawn.result.Started? && k.term.wait == WaitFailed
    ensures Turn(cfg, s, k).status == Running
    ensures forall op :: op in ops ==> !op.WaitError?
    ensures Turn(cfg, s, k).m.procs ==
            s.m.procs + ops + [WaitError(s.m.child.value)] + [Spawn(k.spawn.result.pid)]
  {
    ops := TermOps(cfg.platform, s.m.child.value, s.m.now + k.wake + k.noticeLag, k.term).0;
  }

  /** The handlers ignore a failed wait: a SIGUSR1 whose wait fails leaves the
      loop running with two unreaped children, only one of them supervised. */
  lemma IgnoredWaitLosesAChild(cfg: Config, first: SpawnEnv, k: Tick)
    requires Assembled(cfg) && cfg.clock.maxLifetime.None? && cfg.monitorMode.Off?
    requires first.result.Started? && k.spawn.result.Started?
    requires k.exit.None? && k.signal == Arrived(UserDefined1) && k.term.wait == WaitFailed
    ensures
      var s := Execute(cfg, first, [k]);
      && s.status == Running
      && Tally(s.m.procs, IsSpawn) == Tally(s.m.procs, IsReap) + 2
      && !OneAtATime(s.m.procs)
  {
    hide Turn, OneAtATime;
    RunStep(cfg, first, [], k);
    assert [] + [k] == [k] && Execute(cfg, first, []) == Entry(cfg, first);
    var ops := ForcedTurnLog(cfg, Entry(cfg, first), k);
    var log := [Spawn(first.result.pid)] + ops;
    assert Entry(cfg, first).m.procs == [Spawn(first.result.pid)];
    NoneMeansZero(log);
    TallyOne(log, WaitError(first.result.pid), IsWaitError);
    TallyOne(log + [WaitError(first.result.pid)], Spawn(k.spawn.result.pid), IsWaitError);
    ProcessConservation(cfg, first, [k]);
    if OneAtATime(Execute(cfg, first, [k]).m.procs) {
      WholeLog(Execute(cfg, first, [k]).m.procs);
    }
  }
}
