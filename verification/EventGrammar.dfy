/** The language of emitted events. */
module EventGrammar {
  import opened Types
  import opened SupervisorSpec
  import opened Runs

  /** The events of one completed replacement of the child. */
  ghost predicate Cycle(cfg: Config, b: seq<Event>) {
    || (&& |b| == 3 && b[0].ChildExited? && b[1].ChildSpawned? && b[2].ChildRespawned?
        && if b[0].status.Success() then cfg.monitorMode.Active? else !cfg.oneShot)
    || (&& |b| == 4 && b[0].ProbeTimeout? && b[1].ChildExited? && b[2].ChildSpawned? && b[3].ChildRespawned?
        && cfg.monitorMode.Active? && !cfg.oneShot)
    || (&& |b| == 3 && b[0].SignalReceived? && b[1].ChildSpawned? && b[2].ChildRespawned?
        && b[0].kind.ForcesRespawn())
  }

  /** Any number of completed replacements. */
  ghost predicate Cycles(cfg: Config, ev: seq<Event>)
    decreases |ev|
  {
    || ev == []
    || (|ev| >= 3 && Cycle(cfg, ev[..3]) && Cycles(cfg, ev[3..]))
    || (|ev| >= 4 && Cycle(cfg, ev[..4]) && Cycles(cfg, ev[4..]))
  }

  /** The events of the turn that ends a run, for each way a run can end. */
  ghost predicate Ending(cfg: Config, e: seq<Event>, result: RunResult) {
    match result
    case Finished =>
      || (e == [MaxLifetimeReached] && cfg.clock.maxLifetime.Some?)
      || (|e| == 1 && e[0].ChildExited? && e[0].status.Success() && cfg.monitorMode.Off?)
      || (|e| == 2 && e[0].ProbeTimeout? && e[1].ChildExited? && cfg.monitorMode.Active? && cfg.oneShot)
      || (|e| == 1 && e[0].SignalReceived? && !e[0].kind.ForcesRespawn())
    case MaxStartError(attempts) =>
      || (|e| == 1 && e[0].ChildExited? && !e[0].status.Success() && cfg.oneShot && attempts == 1)
      || (&& |e| == 2 && e[0].ChildExited? && !e[0].status.Success() && e[1] == MaxStartReached(attempts)
          && !cfg.oneShot && cfg.clock.maxStart.Some?)
      || (&& |e| == 3 && e[0].ProbeTimeout? && e[1].ChildExited? && e[2] == MaxStartReached(attempts)
          && cfg.monitorMode.Active? && !cfg.oneShot && cfg.clock.maxStart.Some?)
    case SpawnError =>
      || (&& |e| == 1 && e[0].ChildExited?
          && if e[0].status.Success() then cfg.monitorMode.Active? else !cfg.oneShot)
      || (|e| == 2 && e[0].ProbeTimeout? && e[1].ChildExited? && cfg.monitorMode.Active? && !cfg.oneShot)
      || (|e| == 1 && e[0].SignalReceived? && e[0].kind.ForcesRespawn())
    case WaitFailure => e == [] || (e == [ProbeTimeout] && cfg.monitorMode.Active?)
    case NoChildError => false
  }

  ghost predicate SplitsAt(cfg: Config, ev: seq<Event>, n: nat, result: RunResult) {
    && 1 <= n <= |ev| && ev[0].ChildSpawned?
    && Cycles(cfg, ev[1..n]) && Ending(cfg, ev[n..], result)
  }

  /** A run's events: the first spawn, completed replacements, one ending. */
  ghost predicate LegalTrace(cfg: Config, ev: seq<Event>, status: Status) {
    match status
    case Returned(result) => (ev == [] && result == SpawnError) || exists n: nat :: SplitsAt(cfg, ev, n, result)
    case _ => ev != [] && ev[0].ChildSpawned? && Cycles(cfg, ev[1..])
  }

  lemma {:induction false} CyclesExtend(cfg: Config, c: seq<Event>, b: seq<Event>)
    requires Cycles(cfg, c) && Cycle(cfg, b)
    ensures Cycles(cfg, c + b)
    decreases |c|
  {
    if c == [] {
      assert c + b == b && b[..|b|] == b && Cycles(cfg, b[|b|..]);
    } else {
      var n := if |c| >= 3 && Cycle(cfg, c[..3]) && Cycles(cfg, c[3..]) then 3 else 4;
      assert (c + b)[..n] == c[..n] && (c + b)[n..] == c[n..] + b;
      CyclesExtend(cfg, c[n..], b);
    }
  }

  /** `b` is what one turn from `ev` to `s` may append: nothing or one
      replacement while the loop goes on, an ending of the right kind when it stops. */
  ghost predicate Appends(cfg: Config, ev: seq<Event>, s: Loop, b: seq<Event>) {
    && s.m.events == ev + b
    && match s.status
       case Returned(result) => Ending(cfg, b, result)
       case _ => b == [] || Cycle(cfg, b)
  }

  lemma AfterExitAppends(cfg: Config, m: Machine, nextProbe: Option<nat>, status: ExitStatus, lifetime: nat, k: Tick)
    returns (b: seq<Event>)
    ensures Appends(cfg, m.events, AfterExit(cfg, m, nextProbe, status, lifetime, k), b)
    ensures b != [] && b[0] == ChildExited(status)
  {
    var (retry, decision) := Decide(cfg, m.retry, status, lifetime);
    b := [ChildExited(status)];
    match decision {
      case Respawn =>
        if k.spawn.result.Started? {
          b := [ChildExited(status), ChildSpawned(k.spawn.result.pid), ChildRespawned];
        }
      case Exit(ExitMaxStart(attempts)) => b := [ChildExited(status), MaxStartReached(attempts)];
      case _ =>
    }
  }

  lemma AfterProbeLostAppends(cfg: Config, m: Machine, nextProbe: Option<nat>, k: Tick)
    returns (b: seq<Event>)
    requires cfg.monitorMode.Active? && m.child.Some?
    ensures Appends(cfg, m.events, AfterProbeLost(cfg, m, nextProbe, k), b)
    ensures b != [] && b[0] == ProbeTimeout
  {
    var (m', result) := TerminateChild(cfg.platform, Emit(m, ProbeTimeout, k.noticeLag), k.term);
    match result {
      case Unreaped => b := [ProbeTimeout];
      case Reaped(status) =>
        var told := Emit(m', ChildExited(status), k.exitLag);
        var lifetime := Elapsed(told.spawnedAt, told.now);
        match Decide(cfg, m'.retry, FailedStatus(cfg.platform), lifetime).1 {
          case Respawn =>
            b := if k.spawn.result.Started?
                 then [ProbeTimeout, ChildExited(status), ChildSpawned(k.spawn.result.pid), ChildRespawned]
                 else [ProbeTimeout, ChildExited(status)];
          case Exit(ExitMaxStart(attempts)) =>
            b := [ProbeTimeout, ChildExited(status), MaxStartReached(attempts)];
          case _ => b := [ProbeTimeout, ChildExited(status)];
        }
    }
  }

  lemma AfterSignalAppends(cfg: Config, m: Machine, nextProbe: Option<nat>, kind: SignalKind, k: Tick)
    returns (b: seq<Event>)
    ensures Appends(cfg, m.events, AfterSignal(cfg, m, nextProbe, kind, k), b)
    ensures b != [] && b[0] == SignalReceived(kind)
  {
    b := if kind.ForcesRespawn() && k.spawn.result.Started?
         then [SignalReceived(kind), ChildSpawned(k.spawn.result.pid), ChildRespawned]
         else [SignalReceived(kind)];
  }

  /** The turn gets as far as the signal arm: the deadline has not passed, the
      child has not exited, and no probe is due. */
  predicate PollsSignals(cfg: Config, s: Loop, k: Tick) {
    && !LifetimeReached(cfg, s.m.now) && s.m.child.Some? && k.exit.None?
    && !ProbeDue(s.nextProbe, s.m.now + k.wake, k)
  }

  /** The signal the turn handles, if any; a closed channel reads as Terminate. */
  function HandledSignal(cfg: Config, s: Loop, k: Tick): Option<SignalKind> {
    if !PollsSignals(cfg, s, k) then None
    else
      match k.signal
      case Quiet => None
      case Arrived(kind) => Some(kind)
      case Closed => Some(Terminate)
  }

  lemma TurnAppends(cfg: Config, s: Loop, k: Tick) returns (b: seq<Event>)
    requires Assembled(cfg) && Coherent(cfg, s) && s.status.Running?
    ensures Appends(cfg, s.m.events, Turn(cfg, s, k), b)
    ensures match HandledSignal(cfg, s, k)
            case Some(kind) => b != [] && b[0] == SignalReceived(kind)
            case None => b == [] || !b[0].SignalReceived?
  {
    hide AfterExit, AfterProbeLost, AfterSignal;
    if LifetimeReached(cfg, s.m.now) {
      b := [MaxLifetimeReached];
    } else {
      var (m, nextProbe, outcome) := Select(cfg, s.m, s.nextProbe, k);
      match outcome {
        case ChildGone(status, lifetime) => b := AfterExitAppends(cfg, m, nextProbe, status, lifetime, k);
        case ProbeLost => b := AfterProbeLostAppends(cfg, m, nextProbe, k);
        case Signalled(kind) => b := AfterSignalAppends(cfg, m, nextProbe, kind, k);
        case _ => b := [];
      }
    }
  }

  lemma TraceExtends(cfg: Config, ev: seq<Event>, s: Loop, b: seq<Event>)
    requires LegalTrace(cfg, ev, Running) && Appends(cfg, ev, s, b)
    ensures LegalTrace(cfg, s.m.events, s.status)
  {
    assert s.m.events[1..] == ev[1..] + b;
    match s.status {
      case Returned(result) =>
        assert s.m.events[1..|ev|] == ev[1..] && s.m.events[|ev|..] == b;
        assert SplitsAt(cfg, s.m.events, |ev|, result);
      case _ =>
        if b == [] {
          assert s.m.events == ev;
        } else {
          CyclesExtend(cfg, ev[1..], b);
        }
    }
  }

  /** Every run, at every moment: the events lie in the language. */
  lemma RunsSpeakTheLanguage(cfg: Config, first: SpawnEnv, script: seq<Tick>)
    requires Assembled(cfg)
    ensures LegalTrace(cfg, Execute(cfg, first, script).m.events, Execute(cfg, first, script).status)
  {
    var inv := s => Coherent(cfg, s) && LegalTrace(cfg, s.m.events, s.status);
    forall s, k | inv(s) && s.status.Running? ensures inv(Turn(cfg, s, k)) {
      TurnKeepsCoherent(cfg, s, k);
      var b := TurnAppends(cfg, s, k);
      TraceExtends(cfg, s.m.events, Turn(cfg, s, k), b);
    }
    RunsPreserve(cfg, first, script, inv);
  }

  // ---------------------------------------------------------------- consequences

  function Count(ev: seq<Event>, p: Event -> bool): nat {
    if ev == [] then 0 else One(ev[0], p) + Count(ev[1..], p)
  }

  function One(e: Event, p: Event -> bool): nat {
    if p(e) then 1 else 0
  }

  lemma {:induction false} CountSplit(a: seq<Event>, b: seq<Event>, p: Event -> bool)
    ensures Count(a + b, p) == Count(a, p) + Count(b, p)
  {
    if a == [] {
      assert a + b == b;
    } else {
      assert (a + b)[1..] == a[1..] + b;
      CountSplit(a[1..], b, p);
    }
  }

  const IsSpawn: Event -> bool := (e: Event) => e.ChildSpawned?
  const IsExit: Event -> bool := (e: Event) => e.ChildExited?
  const IsRespawn: Event -> bool := (e: Event) => e.ChildRespawned?
  const IsForce: Event -> bool := (e: Event) => e.SignalReceived? && e.kind.ForcesRespawn()

  lemma CycleCounts(cfg: Config, b: seq<Event>)
    requires Cycle(cfg, b)
    ensures Count(b, IsSpawn) == Count(b, IsRespawn) == 1
    ensures Count(b, IsExit) + Count(b, IsForce) == 1
  {
    forall p: Event -> bool
      ensures |b| == 3 ==> Count(b, p) == One(b[0], p) + One(b[1], p) + One(b[2], p)
      ensures |b| == 4 ==> Count(b, p) == One(b[0], p) + One(b[1], p) + One(b[2], p) + One(b[3], p)
    {
      assert Count(b, p) == One(b[0], p) + Count(b[1..], p);
      assert Count(b[1..], p) == One(b[1], p) + Count(b[1..][1..], p);
      assert Count(b[1..][1..], p) == One(b[2], p) + Count(b[1..][1..][1..], p);
    }
  }

  lemma {:induction false} CyclesBalance(cfg: Config, c: seq<Event>)
    requires Cycles(cfg, c)
    ensures Count(c, IsSpawn) == Count(c, IsRespawn) == Count(c, IsExit) + Count(c, IsForce)
    decreases |c|
  {
    if c != [] {
      var n := if |c| >= 3 && Cycle(cfg, c[..3]) && Cycles(cfg, c[3..]) then 3 else 4;
      assert c == c[..n] + c[n..];
      CountSplit(c[..n], c[n..], IsSpawn);
      CountSplit(c[..n], c[n..], IsRespawn);
      CountSplit(c[..n], c[n..], IsExit);
      CountSplit(c[..n], c[n..], IsForce);
      CycleCounts(cfg, c[..n]);
      CyclesBalance(cfg, c[n..]);
    }
  }

  /** While the loop goes on: spawned = 1 + respawned = 1 + exited + forced. */
  lemma EventBalance(cfg: Config, first: SpawnEnv, script: seq<Tick>)
    requires Assembled(cfg)
    requires !Execute(cfg, first, script).status.Returned?
    ensures
      var ev := Execute(cfg, first, script).m.events;
      && Count(ev, IsSpawn) == 1 + Count(ev, IsRespawn)
      && Count(ev, IsSpawn) == 1 + Count(ev, IsExit) + Count(ev, IsForce)
  {
    RunsSpeakTheLanguage(cfg, first, script);
    CyclesBalance(cfg, Execute(cfg, first, script).m.events[1..]);
  }

  /** What may stand at position `i`: verdicts and stopping signals only at the
      very end, a forcing signal only before the replacement it causes, a lost
      probe only with a monitor. */
  ghost predicate WellPlaced(cfg: Config, ev: seq<Event>, status: Status, i: nat)
    requires i < |ev|
  {
    var last := i == |ev| - 1;
    match ev[i]
    case MaxLifetimeReached => last && status == Returned(Finished)
    case MaxStartReached(attempts) => last && status == Returned(MaxStartError(attempts))
    case SignalReceived(kind) =>
      if !kind.ForcesRespawn() then last && status == Returned(Finished)
      else if last then status == Returned(SpawnError)
      else i + 2 < |ev| && ev[i + 1].ChildSpawned? && ev[i + 2].ChildRespawned?
    case ProbeTimeout => cfg.monitorMode.Active?
    case _ => true
  }

  ghost predicate MidRun(cfg: Config, ev: seq<Event>, i: nat)
    requires i < |ev|
  {
    && !ev[i].MaxLifetimeReached? && !ev[i].MaxStartReached?
    && (ev[i].ProbeTimeout? ==> cfg.monitorMode.Active?)
    && (ev[i].SignalReceived? ==>
          ev[i].kind.ForcesRespawn() && i + 2 < |ev| && ev[i + 1].ChildSpawned? && ev[i + 2].ChildRespawned?)
  }

  lemma {:induction false} CyclesAreMidRun(cfg: Config, c: seq<Event>, i: nat)
    requires Cycles(cfg, c) && i < |c|
    ensures MidRun(cfg, c, i)
    decreases |c|
  {
    var n := if |c| >= 3 && Cycle(cfg, c[..3]) && Cycles(cfg, c[3..]) then 3 else 4;
    if i < n {
      assert forall j :: 0 <= j < n ==> c[..n][j] == c[j];
    } else {
      CyclesAreMidRun(cfg, c[n..], i - n);
    }
  }

  lemma LegalTracesAreWellPlaced(cfg: Config, ev: seq<Event>, status: Status, i: nat)
    requires LegalTrace(cfg, ev, status) && i < |ev|
    ensures WellPlaced(cfg, ev, status, i)
  {
    match status {
      case Returned(result) =>
        var n: nat :| SplitsAt(cfg, ev, n, result);
        if 1 <= i < n {
          CyclesAreMidRun(cfg, ev[1..n], i - 1);
          assert ev[1..n][i - 1] == ev[i];
        } else if n <= i {
          assert ev[n..][i - n] == ev[i] && |ev[n..]| == |ev| - n;
        }
      case _ =>
        if 1 <= i {
          CyclesAreMidRun(cfg, ev[1..], i - 1);
          assert ev[1..][i - 1] == ev[i];
        }
    }
  }

  /** For every run and every position: MaxLifetimeReached and MaxStartReached
      come last and name the result, nothing follows a stopping signal, each
      forcing signal is followed by exactly its replacement or by a spawn error,
      and without a monitor no probe is ever reported lost. */
  lemma VerdictsComeLast(cfg: Config, first: SpawnEnv, script: seq<Tick>, i: nat)
    requires Assembled(cfg)
    requires i < |Execute(cfg, first, script).m.events|
    ensures WellPlaced(cfg, Execute(cfg, first, script).m.events, Execute(cfg, first, script).status, i)
  {
    RunsSpeakTheLanguage(cfg, first, script);
    LegalTracesAreWellPlaced(cfg, Execute(cfg, first, script).m.events, Execute(cfg, first, script).status, i);
  }
}
