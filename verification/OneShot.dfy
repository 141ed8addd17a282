/** One-shot mode: the first failure is the last thing a run does. */
module OneShot {
  import opened Types
  import opened SupervisorSpec
  import opened Runs
  import opened RetryBudget

  ghost predicate NoFailure(h: seq<Observation>) {
    forall i :: 0 <= i < |h| ==> !IsFailure(h[i])
  }

  /** No failure while the loop goes on; at most one, the last observation, after it. */
  ghost predicate StopsAtFailure(s: Loop) {
    var h := s.m.history;
    match s.status
    case Returned(result) =>
      && (h != [] ==> NoFailure(h[..|h| - 1]))
      && (result.MaxStartError? <==> h != [] && h[|h| - 1].NaturalExit? && IsFailure(h[|h| - 1]))
      && (result.MaxStartError? ==> result.attempts == 1)
      && (h != [] && h[|h| - 1].ProbeFailure? ==> result == Finished)
    case _ => NoFailure(h)
  }

  lemma NoFailureOne(h: seq<Observation>, o: Observation)
    requires NoFailure(h)
    ensures (h + [o])[..|h|] == h
    ensures NoFailure(h + [o]) <==> !IsFailure(o)
  {
    assert (h + [o])[|h|] == o;
  }

  lemma AfterExitOneShot(cfg: Config, m: Machine, nextProbe: Option<nat>, status: ExitStatus, lifetime: nat, k: Tick)
    requires cfg.oneShot && NoFailure(m.history)
    ensures StopsAtFailure(AfterExit(cfg, m, nextProbe, status, lifetime, k))
  {
  }

  lemma UnjudgedOneShot(s: Loop)
    requires NoFailure(s.m.history)
    requires s.status.Returned? ==> !s.status.result.MaxStartError?
    ensures StopsAtFailure(s)
  {
  }

  lemma AfterProbeLostOneShot(cfg: Config, m: Machine, nextProbe: Option<nat>, k: Tick)
    requires cfg.oneShot && NoFailure(m.history)
    ensures StopsAtFailure(AfterProbeLost(cfg, m, nextProbe, k))
  {
  }

  lemma AfterSignalOneShot(cfg: Config, m: Machine, nextProbe: Option<nat>, kind: SignalKind, k: Tick)
    requires NoFailure(m.history)
    ensures StopsAtFailure(AfterSignal(cfg, m, nextProbe, kind, k))
  {
    hide NoFailure, StopsAtFailure;
    NoFailureOne(m.history, Forced(kind));
    UnjudgedOneShot(AfterSignal(cfg, m, nextProbe, kind, k));
  }

  lemma TurnOneShot(cfg: Config, s: Loop, k: Tick)
    requires cfg.oneShot && Coherent(cfg, s) && s.status.Running? && StopsAtFailure(s)
    ensures StopsAtFailure(Turn(cfg, s, k))
  {
    assert NoFailure(s.m.history);
    hide AfterExit, AfterProbeLost, AfterSignal, NoFailure, StopsAtFailure;
    if LifetimeReached(cfg, s.m.now) {
      UnjudgedOneShot(Turn(cfg, s, k));
    } else {
      NoFailureOne(s.m.history, ProbeAnswered);
      var (m, nextProbe, outcome) := Select(cfg, s.m, s.nextProbe, k);
      match outcome {
        case ChildGone(status, lifetime) => AfterExitOneShot(cfg, m, nextProbe, status, lifetime, k);
        case ProbeLost => AfterProbeLostOneShot(cfg, m, nextProbe, k);
        case Signalled(kind) => AfterSignalOneShot(cfg, m, nextProbe, kind, k);
        case _ => UnjudgedOneShot(Turn(cfg, s, k));
      }
    }
  }

  /** Every one-shot run stops at its first failure: with the error and one
      attempt after an exit of the child's own, with success after a lost probe. */
  lemma OneShotStopsAtFirstFailure(cfg: Config, first: SpawnEnv, script: seq<Tick>)
    requires Assembled(cfg) && cfg.oneShot
    ensures StopsAtFailure(Execute(cfg, first, script))
  {
    var inv := s => Coherent(cfg, s) && StopsAtFailure(s);
    forall s, k | inv(s) && s.status.Running? ensures inv(Turn(cfg, s, k)) {
      TurnKeepsCoherent(cfg, s, k);
      TurnOneShot(cfg, s, k);
    }
    RunsPreserve(cfg, first, script, inv);
  }

  // ---------------------------------------------------------------- the guard of the error

  /** The tick at which the child is found dead with a failure of its own. */
  predicate FindsFailedExit(cfg: Config, s: Loop, k: Tick) {
    && !LifetimeReached(cfg, s.m.now)
    && k.exit.Some? && k.exit.value.Exited? && !k.exit.value.status.Success()
  }

  lemma TurnErrsIff(cfg: Config, s: Loop, k: Tick)
    requires Assembled(cfg) && cfg.oneShot && Coherent(cfg, s) && s.status.Running?
    ensures
      var s' := Turn(cfg, s, k);
      s'.status.Returned? && s'.status.result.MaxStartError? <==> FindsFailedExit(cfg, s, k)
  {
    hide AfterProbeLost, AfterSignal, BackOff;
    if !LifetimeReached(cfg, s.m.now) {
      var (m, nextProbe, outcome) := Select(cfg, s.m, s.nextProbe, k);
      match outcome {
        case ProbeLost => OthersDoNotErr(cfg, m, nextProbe, Terminate, k);
        case Signalled(kind) => OthersDoNotErr(cfg, m, nextProbe, kind, k);
        case _ =>
      }
    }
  }

  lemma OthersDoNotErr(cfg: Config, m: Machine, nextProbe: Option<nat>, kind: SignalKind, k: Tick)
    requires cfg.oneShot
    ensures
      var s := AfterProbeLost(cfg, m, nextProbe, k);
      !(s.status.Returned? && s.status.result.MaxStartError?)
    ensures
      var s := AfterSignal(cfg, m, nextProbe, kind, k);
      !(s.status.Returned? && s.status.result.MaxStartError?)
  {
  }

  function ExitFails(cfg: Config): (Loop, Tick) -> bool {
    (s, k) => FindsFailedExit(cfg, s, k)
  }

  /** A one-shot run returns the error exactly when the environment shows it, in
      a performed turn before the deadline, a child that exited with a failure. */
  lemma {:induction false} OneShotErrsIff(cfg: Config, first: SpawnEnv, script: seq<Tick>)
    requires Assembled(cfg) && cfg.oneShot
    ensures
      var s := Execute(cfg, first, script);
      s.status.Returned? && s.status.result.MaxStartError? <==> Happens(cfg, first, script, ExitFails(cfg))
    decreases |script|
  {
    if script != [] {
      var (before, k) := (script[..|script| - 1], script[|script| - 1]);
      assert script == before + [k];
      hide Execute, Turn, FindsFailedExit, Happens;
      OneShotErrsIff(cfg, first, before);
      HappensStep(cfg, first, before, k, ExitFails(cfg));
      RunStep(cfg, first, before, k);
      LoopHeadsAreCoherent(cfg, first, before);
      if Execute(cfg, first, before).status.Running? {
        TurnErrsIff(cfg, Execute(cfg, first, before), k);
      }
    } else {
      assert !(Execute(cfg, first, []).status.Returned? && Execute(cfg, first, []).status.result.MaxStartError?);
    }
  }

  // ---------------------------------------------------------------- the promise

  /** The builder's promise: a run that saw a failure and returned did not return success. */
  ghost predicate KeepsPromise(cfg: Config, first: SpawnEnv, script: seq<Tick>) {
    var s := Execute(cfg, first, script);
    s.status.Returned? && !NoFailure(s.m.history) ==> s.status.result != Finished
  }

  lemma LostProbeTurn(cfg: Config, s: Loop, k: Tick)
    requires cfg.oneShot && cfg.monitor && !LifetimeReached(cfg, s.m.now) && s.m.child.Some?
    requires k.exit.None? && ProbeDue(s.nextProbe, s.m.now + k.wake, k) && !k.probeOk && k.term.wait.Exited?
    ensures Turn(cfg, s, k).status == Returned(Finished)
    ensures
      var (h, h') := (s.m.history, Turn(cfg, s, k).m.history);
      |h'| == |h| + 1 && h'[|h|].ProbeFailure?
  {
  }

  /** The promise is broken when the first probe of a child is lost before the deadline. */
  lemma LostProbeEndsOneShotQuietly(cfg: Config, first: SpawnEnv, k: Tick)
    requires Assembled(cfg) && cfg.oneShot && cfg.monitorMode.Active?
    requires first.result.Started? && !LifetimeReached(cfg, Entry(cfg, first).m.now)
    requires k.exit.None? && k.timerFired && !k.probeOk && k.term.wait.Exited?
    requires cfg.clock.firstPoll <= k.wake
    ensures
      var s := Execute(cfg, first, [k]);
      && s.status == Returned(Finished)
      && |s.m.history| == 1 && s.m.history[0].ProbeFailure?
    ensures !KeepsPromise(cfg, first, [k])
  {
    hide Turn;
    RunStep(cfg, first, [], k);
    assert [] + [k] == [k] && Execute(cfg, first, []) == Entry(cfg, first);
    LostProbeTurn(cfg, Entry(cfg, first), k);
    assert IsFailure(Execute(cfg, first, [k]).m.history[0]);
  }

  ghost predicate NoLostProbe(h: seq<Observation>) {
    forall o :: o in h ==> !o.ProbeFailure?
  }

  lemma WithoutMonitorNoLostProbe(cfg: Config, s: Loop, k: Tick)
    requires Assembled(cfg) && cfg.monitorMode.Off? && Coherent(cfg, s) && s.status.Running?
    requires NoLostProbe(s.m.history)
    ensures NoLostProbe(Turn(cfg, s, k).m.history)
  {
    hide AfterExit, AfterProbeLost, AfterSignal;
    if !LifetimeReached(cfg, s.m.now) {
      var (m, nextProbe, outcome) := Select(cfg, s.m, s.nextProbe, k);
      match outcome {
        case ChildGone(status, lifetime) => AfterExitNotes(cfg, m, nextProbe, status, lifetime, k);
        case Signalled(kind) => AfterSignalNotes(cfg, m, nextProbe, kind, k);
        case _ =>
      }
    }
  }

  lemma AfterExitNotes(cfg: Config, m: Machine, nextProbe: Option<nat>, status: ExitStatus, lifetime: nat, k: Tick)
    ensures AfterExit(cfg, m, nextProbe, status, lifetime, k).m.history == m.history + [NaturalExit(status, lifetime)]
  {
  }

  lemma AfterSignalNotes(cfg: Config, m: Machine, nextProbe: Option<nat>, kind: SignalKind, k: Tick)
    ensures AfterSignal(cfg, m, nextProbe, kind, k).m.history ==
            m.history + if kind.ForcesRespawn() then [Forced(kind)] else []
  {
  }

  lemma OffKeepsPromise(cfg: Config, first: SpawnEnv, script: seq<Tick>)
    requires Assembled(cfg) && cfg.oneShot && cfg.monitorMode.Off?
    ensures KeepsPromise(cfg, first, script)
  {
    hide NoLostProbe;
    var inv := s => Coherent(cfg, s) && NoLostProbe(s.m.history);
    forall s, k | inv(s) && s.status.Running? ensures inv(Turn(cfg, s, k)) {
      TurnKeepsCoherent(cfg, s, k);
      WithoutMonitorNoLostProbe(cfg, s, k);
    }
    NothingLostYet();
    RunsPreserve(cfg, first, script, inv);
    OneShotStopsAtFirstFailure(cfg, first, script);
    LastFailureDecides(Execute(cfg, first, script));
  }

  lemma NothingLostYet()
    ensures NoLostProbe([])
  {
  }

  lemma LastFailureDecides(s: Loop)
    requires StopsAtFailure(s) && NoLostProbe(s.m.history)
    ensures s.status.Returned? && !NoFailure(s.m.history) ==> s.status.result != Finished
  {
    var h := s.m.history;
    if h != [] && !IsFailure(h[|h| - 1]) && s.status.Returned? {
      assert NoFailure(h[..|h| - 1]);
      forall i | 0 <= i < |h| ensures !IsFailure(h[i]) {
        if i < |h| - 1 {
          assert h[..|h| - 1][i] == h[i];
        }
      }
    }
  }

  /** A lifetime cap of zero ends every run before anything is observed. */
  lemma ZeroLifetimeSeesNothing(cfg: Config, first: SpawnEnv, script: seq<Tick>)
    requires Assembled(cfg) && cfg.clock.maxLifetime == Some(0)
    ensures Execute(cfg, first, script).m.history == []
  {
    var inv := (s: Loop) => s.m.history == [];
    forall s, k | inv(s) && s.status.Running? ensures inv(Turn(cfg, s, k)) {
      hide Select, React;
    }
    RunsPreserve(cfg, first, script, inv);
  }

  /** Exactly when one-shot mode keeps its promise whatever the world does:
      without a monitor, or with a lifetime cap of zero. */
  lemma OneShotPromiseIff(cfg: Config)
    requires Assembled(cfg) && cfg.oneShot
    ensures (forall first, script :: KeepsPromise(cfg, first, script))
            <==> cfg.monitorMode.Off? || cfg.clock.maxLifetime == Some(0)
  {
    hide KeepsPromise;
    if cfg.monitorMode.Off? {
      forall first, script ensures KeepsPromise(cfg, first, script) {
        OffKeepsPromise(cfg, first, script);
      }
    } else if cfg.clock.maxLifetime == Some(0) {
      forall first, script ensures KeepsPromise(cfg, first, script) {
        ZeroLifetimeSeesNothing(cfg, first, script);
        NothingBreaksNothing(cfg, first, script);
      }
    } else {
      var spawn := SpawnEnv(0, Started(1), 0, 0);
      var quick := TermEnv(true, 0, 0, Exited(ExitStatus(0)));
      var k := Tick(cfg.clock.firstPoll, None, true, Quiet, false, 0, 0, 0, 0, quick, 0, spawn);
      LostProbeEndsOneShotQuietly(cfg, spawn, k);
    }
  }

  lemma NothingBreaksNothing(cfg: Config, first: SpawnEnv, script: seq<Tick>)
    requires Execute(cfg, first, script).m.history == []
    ensures KeepsPromise(cfg, first, script)
  {
  }
}
