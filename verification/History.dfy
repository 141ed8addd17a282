/** The log of observations, which the theorems about the retry budget speak of,
    tells the same story as the events that a consumer sees. */
module History {
  import opened Types
  import opened SupervisorSpec
  import opened Runs

  /** What can be read off both logs: a child that exited on its own, a child
      killed after a lost probe, a replacement forced by a signal. */
  datatype Mark = Died(status: ExitStatus) | Lost | Replaced(kind: SignalKind)

  function MarksOf(h: seq<Observation>): seq<Mark> {
    if h == [] then []
    else
      var before := MarksOf(h[..|h| - 1]);
      match h[|h| - 1]
      case ProbeAnswered => before
      case NaturalExit(status, _) => before + [Died(status)]
      case ProbeFailure(_) => before + [Lost]
      case Forced(kind) => before + [Replaced(kind)]
  }

  predicate EndsWithLostProbe(ev: seq<Event>) {
    ev != [] && ev[|ev| - 1].ProbeTimeout?
  }

  function MarksSeen(ev: seq<Event>): seq<Mark> {
    if ev == [] then []
    else
      var (before, e) := (ev[..|ev| - 1], ev[|ev| - 1]);
      if e.ChildExited? then MarksSeen(before) + [if EndsWithLostProbe(before) then Lost else Died(e.status)]
      else if e.SignalReceived? && e.kind.ForcesRespawn() then MarksSeen(before) + [Replaced(e.kind)]
      else MarksSeen(before)
  }

  lemma EmitMark(m: Machine, e: Event, lag: nat)
    ensures
      var ev := Emit(m, e, lag).events;
      && EndsWithLostProbe(ev) == e.ProbeTimeout?
      && MarksSeen(ev) ==
           if e.ChildExited? then MarksSeen(m.events) + [if EndsWithLostProbe(m.events) then Lost else Died(e.status)]
           else if e.SignalReceived? && e.kind.ForcesRespawn() then MarksSeen(m.events) + [Replaced(e.kind)]
           else MarksSeen(m.events)
  {
    assert (m.events + [e])[..|m.events|] == m.events;
  }

  lemma NoteMark(m: Machine, o: Observation)
    ensures MarksOf(Note(m, o).history) ==
            match o
            case ProbeAnswered => MarksOf(m.history)
            case NaturalExit(status, _) => MarksOf(m.history) + [Died(status)]
            case ProbeFailure(_) => MarksOf(m.history) + [Lost]
            case Forced(kind) => MarksOf(m.history) + [Replaced(kind)]
  {
    assert (m.history + [o])[..|m.history|] == m.history;
  }

  ghost predicate Agrees(m: Machine) {
    MarksOf(m.history) == MarksSeen(m.events)
  }

  /** At a loop head the last event is not a lost probe still to be settled. */
  ghost predicate Settled(s: Loop) {
    Agrees(s.m) && (!s.status.Returned? ==> !EndsWithLostProbe(s.m.events))
  }

  lemma SpawnSettled(m: Machine, e: SpawnEnv)
    requires Agrees(m)
    ensures Agrees(SpawnChild(m, e).0)
    ensures SpawnChild(m, e).1 ==> !EndsWithLostProbe(SpawnChild(m, e).0.events)
  {
    hide MarksSeen, EndsWithLostProbe;
    if e.result.Started? {
      var at := m.now + e.elapsed;
      var pid := e.result.pid;
      EmitMark(m.(now := at, child := Some(pid), spawnedAt := Some(at), procs := m.procs + [Spawn(pid)]),
               ChildSpawned(pid), e.spawnedLag);
    }
  }

  lemma ReplaceSettled(m: Machine, e: SpawnEnv)
    requires Agrees(m)
    ensures Agrees(Replace(m, e).0)
    ensures Replace(m, e).1 ==> !EndsWithLostProbe(Replace(m, e).0.events)
  {
    hide MarksSeen, EndsWithLostProbe, SpawnChild;
    SpawnSettled(m, e);
    EmitMark(SpawnChild(m, e).0, ChildRespawned, e.respawnedLag);
  }

  lemma AfterExitSettled(cfg: Config, m: Machine, nextProbe: Option<nat>, status: ExitStatus, lifetime: nat, k: Tick)
    requires Agrees(m) && !EndsWithLostProbe(m.events)
    ensures Settled(AfterExit(cfg, m, nextProbe, status, lifetime, k))
  {
    hide MarksSeen, MarksOf, EndsWithLostProbe, Replace;
    var (retry, decision) := Decide(cfg, m.retry, status, lifetime);
    EmitMark(m, ChildExited(status), k.exitLag);
    var emitted := Emit(m, ChildExited(status), k.exitLag);
    NoteMark(emitted, NaturalExit(status, lifetime));
    var told := Note(emitted, NaturalExit(status, lifetime)).(child := None, retry := retry);
    ReplaceSettled(told.(now := told.now + cfg.clock.gateTime + k.oversleep), k.spawn);
    if decision.Exit? && decision.reason.ExitMaxStart? {
      EmitMark(told, MaxStartReached(decision.reason.attempts), k.verdictLag);
    }
  }

  lemma AfterProbeKillSettled(cfg: Config, m: Machine, nextProbe: Option<nat>, status: ExitStatus, k: Tick)
    requires Agrees(m) && EndsWithLostProbe(m.events)
    ensures Settled(AfterProbeKill(cfg, m, nextProbe, status, k))
  {
    hide MarksSeen, MarksOf, EndsWithLostProbe, Replace;
    EmitMark(m, ChildExited(status), k.exitLag);
    var told := Emit(m, ChildExited(status), k.exitLag);
    var lifetime := Elapsed(told.spawnedAt, told.now);
    var (retry, decision) := Decide(cfg, m.retry, FailedStatus(cfg.platform), lifetime);
    NoteMark(told, ProbeFailure(lifetime));
    var judged := Note(told, ProbeFailure(lifetime)).(retry := retry);
    ReplaceSettled(judged.(now := judged.now + cfg.clock.gateTime + k.oversleep), k.spawn);
    if decision.Exit? && decision.reason.ExitMaxStart? {
      EmitMark(judged, MaxStartReached(decision.reason.attempts), k.verdictLag);
    }
  }

  lemma AfterProbeLostSettled(cfg: Config, m: Machine, nextProbe: Option<nat>, k: Tick)
    requires Agrees(m) && m.child.Some?
    ensures Settled(AfterProbeLost(cfg, m, nextProbe, k))
  {
    hide MarksSeen, MarksOf, EndsWithLostProbe, AfterProbeKill;
    EmitMark(m, ProbeTimeout, k.noticeLag);
    var (m', result) := TerminateChild(cfg.platform, Emit(m, ProbeTimeout, k.noticeLag), k.term);
    if result.Reaped? {
      AfterProbeKillSettled(cfg, m', nextProbe, result.status, k);
    }
  }

  lemma AfterSignalSettled(cfg: Config, m: Machine, nextProbe: Option<nat>, kind: SignalKind, k: Tick)
    requires Agrees(m)
    ensures Settled(AfterSignal(cfg, m, nextProbe, kind, k))
  {
    hide MarksSeen, MarksOf, EndsWithLostProbe, Replace;
    EmitMark(m, SignalReceived(kind), k.noticeLag);
    var told := Emit(m, SignalReceived(kind), k.noticeLag);
    if kind.ForcesRespawn() {
      NoteMark(told, Forced(kind));
      var noted := Note(told, Forced(kind)).(retry := if kind.Hangup? then 0 else m.retry);
      ReplaceSettled(TerminateChild(cfg.platform, noted, k.term).0, k.spawn);
    }
  }

  lemma TurnKeepsSettled(cfg: Config, s: Loop, k: Tick)
    requires Coherent(cfg, s) && s.status.Running? && Settled(s)
    ensures Settled(Turn(cfg, s, k))
  {
    hide MarksSeen, MarksOf, EndsWithLostProbe, AfterExit, AfterProbeLost, AfterSignal;
    if LifetimeReached(cfg, s.m.now) {
      EmitMark(s.m, MaxLifetimeReached, k.noticeLag);
    } else {
      var (m, nextProbe, outcome) := Select(cfg, s.m, s.nextProbe, k);
      match outcome {
        case ChildGone(status, lifetime) => AfterExitSettled(cfg, m, nextProbe, status, lifetime, k);
        case ProbeLost => AfterProbeLostSettled(cfg, m, nextProbe, k);
        case Signalled(kind) => AfterSignalSettled(cfg, m, nextProbe, kind, k);
        case ProbeAnswer => NoteMark(m, ProbeAnswered);
        case _ =>
      }
    }
  }

  /** For every run: exits, lost probes and forced replacements appear in the
      observation log exactly as, and in the order in which, the events show them. */
  lemma HistoryMatchesEvents(cfg: Config, first: SpawnEnv, script: seq<Tick>)
    requires Assembled(cfg)
    ensures MarksOf(Execute(cfg, first, script).m.history) == MarksSeen(Execute(cfg, first, script).m.events)
  {
    hide MarksSeen, MarksOf, EndsWithLostProbe;
    var inv := s => Coherent(cfg, s) && Settled(s);
    forall s, k | inv(s) && s.status.Running? ensures inv(Turn(cfg, s, k)) {
      TurnKeepsCoherent(cfg, s, k);
      TurnKeepsSettled(cfg, s, k);
    }
    NothingYet();
    SpawnSettled(Fresh(cfg), first);
    RunsPreserve(cfg, first, script, inv);
  }

  lemma NothingYet()
    ensures MarksOf([]) == MarksSeen([]) == []
  {
  }
}
