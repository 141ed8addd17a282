/** What the supervisor does to operating-system processes. */
module ProcessLog {
  import opened Types
  import opened SupervisorSpec
  import opened Runs

  /** Where the one supervised process stands on the supervisor's books.  A
      process whose wait failed is struck off them; whether it still runs is
      unknown.  `Broken` absorbs every log in which an operation hits a process
      it must not hit. */
  datatype Phase = NoProcess | Live(pid: nat) | Asked(pid: nat, since: nat) | Doomed(pid: nat) | Broken

  function Advance(platform: Platform, phase: Phase, op: ProcOp): Phase {
    match (phase, op)
    case (NoProcess, Spawn(pid)) => Live(pid)
    case (Live(p), SigTerm(pid, at)) => if p == pid && platform.Unix? then Asked(p, at) else Broken
    case (Live(p), SigKill(pid, _)) => if p == pid && platform.Windows? then Doomed(p) else Broken
    case (Asked(p, since), SigKill(pid, at)) => if p == pid && since + GRACE <= at then Doomed(p) else Broken
    case (Live(p), Reap(pid)) => if p == pid then NoProcess else Broken
    case (Asked(p, _), Reap(pid)) => if p == pid then NoProcess else Broken
    case (Doomed(p), Reap(pid)) => if p == pid then NoProcess else Broken
    case (Live(p), WaitError(pid)) => if p == pid then NoProcess else Broken
    case (Asked(p, _), WaitError(pid)) => if p == pid then NoProcess else Broken
    case (Doomed(p), WaitError(pid)) => if p == pid then NoProcess else Broken
    case _ => Broken
  }

  function Walk(platform: Platform, log: seq<ProcOp>): Phase {
    if log == [] then NoProcess
    else Advance(platform, Walk(platform, log[..|log| - 1]), log[|log| - 1])
  }

  lemma WalkOne(platform: Platform, log: seq<ProcOp>, op: ProcOp)
    ensures Walk(platform, log + [op]) == Advance(platform, Walk(platform, log), op)
  {
    assert (log + [op])[..|log|] == log;
  }

  ghost predicate Accounted(cfg: Config, m: Machine) {
    Walk(cfg.platform, m.procs) == if m.child.Some? then Live(m.child.value) else NoProcess
  }

  /** The log is never broken, and its phase is the supervisor's child; after a
      return no process is in any phase. */
  ghost predicate Disciplined(cfg: Config, s: Loop) {
    if s.status.Returned? then Walk(cfg.platform, s.m.procs) == NoProcess else Accounted(cfg, s.m)
  }

  lemma SpawnAccounted(cfg: Config, m: Machine, e: SpawnEnv)
    requires Accounted(cfg, m) && m.child.None?
    ensures Accounted(cfg, SpawnChild(m, e).0)
    ensures SpawnChild(m, e).0.child.Some? <==> SpawnChild(m, e).1
  {
    if e.result.Started? {
      WalkOne(cfg.platform, m.procs, Spawn(e.result.pid));
    }
  }

  lemma TermOpsWalk(platform: Platform, log: seq<ProcOp>, pid: nat, now: nat, t: TermEnv, fin: ProcOp)
    requires Walk(platform, log) == Live(pid)
    requires fin == Reap(pid) || fin == WaitError(pid)
    ensures Walk(platform, log + TermOps(platform, pid, now, t).0 + [fin]) == NoProcess
  {
    var ops := TermOps(platform, pid, now, t).0;
    WalkOne(platform, log, ops[0]);
    WalkOne(platform, log + ops, fin);
    if |ops| == 2 {
      WalkOne(platform, log + [ops[0]], ops[1]);
      assert log + ops == log + [ops[0]] + [ops[1]];
    } else {
      assert log + ops == log + [ops[0]];
    }
  }

  lemma TerminateAccounted(cfg: Config, m: Machine, t: TermEnv)
    requires Accounted(cfg, m)
    ensures
      var m' := TerminateChild(cfg.platform, m, t).0;
      Accounted(cfg, m') && m'.child.None?
  {
    if m.child.Some? {
      var pid := m.child.value;
      TermOpsWalk(cfg.platform, m.procs, pid, m.now, t,
                  if t.wait.Exited? then Reap(pid) else WaitError(pid));
    }
  }

  lemma BackOffAccounted(cfg: Config, m: Machine, k: Tick)
    requires Accounted(cfg, m) && m.child.None?
    ensures Accounted(cfg, BackOff(cfg, m, k).0)
    ensures BackOff(cfg, m, k).0.child.Some? <==> BackOff(cfg, m, k).1
  {
    SpawnAccounted(cfg, m.(now := m.now + cfg.clock.gateTime + k.oversleep), k.spawn);
  }

  lemma AfterExitDisciplined(cfg: Config, m: Machine, nextProbe: Option<nat>, status: ExitStatus, lifetime: nat,
                             k: Tick)
    requires Walk(cfg.platform, m.procs) == NoProcess
    ensures Disciplined(cfg, AfterExit(cfg, m, nextProbe, status, lifetime, k))
  {
    hide BackOff, Walk;
    var retry := Decide(cfg, m.retry, status, lifetime).0;
    var noted := Note(Emit(m, ChildExited(status), k.exitLag), NaturalExit(status, lifetime));
    var told := noted.(child := None, retry := retry);
    BackOffAccounted(cfg, told, k);
  }

  lemma AfterProbeKillDisciplined(cfg: Config, m: Machine, nextProbe: Option<nat>, status: ExitStatus, k: Tick)
    requires Accounted(cfg, m) && m.child.None?
    ensures Disciplined(cfg, AfterProbeKill(cfg, m, nextProbe, status, k))
  {
    hide BackOff, Walk;
    var told := Emit(m, ChildExited(status), k.exitLag);
    var lifetime := Elapsed(told.spawnedAt, told.now);
    var retry := Decide(cfg, m.retry, FailedStatus(cfg.platform), lifetime).0;
    BackOffAccounted(cfg, Note(told, ProbeFailure(lifetime)).(retry := retry), k);
  }

  lemma AfterProbeLostDisciplined(cfg: Config, m: Machine, nextProbe: Option<nat>, k: Tick)
    requires Accounted(cfg, m) && m.child.Some?
    ensures Disciplined(cfg, AfterProbeLost(cfg, m, nextProbe, k))
  {
    hide AfterProbeKill, Walk;
    var (m', result) := TerminateChild(cfg.platform, Emit(m, ProbeTimeout, k.noticeLag), k.term);
    TerminateAccounted(cfg, Emit(m, ProbeTimeout, k.noticeLag), k.term);
    if result.Reaped? {
      AfterProbeKillDisciplined(cfg, m', nextProbe, result.status, k);
    }
  }

  lemma AfterSignalDisciplined(cfg: Config, m: Machine, nextProbe: Option<nat>, kind: SignalKind, k: Tick)
    requires Accounted(cfg, m)
    ensures Disciplined(cfg, AfterSignal(cfg, m, nextProbe, kind, k))
  {
    var told := Emit(m, SignalReceived(kind), k.noticeLag);
    if kind.ForcesRespawn() {
      var noted := Note(told, Forced(kind)).(retry := if kind.Hangup? then 0 else m.retry);
      TerminateAccounted(cfg, noted, k.term);
      SpawnAccounted(cfg, TerminateChild(cfg.platform, noted, k.term).0, k.spawn);
    } else {
      TerminateAccounted(cfg, told, k.term);
    }
  }

  /** The select itself only reaps: what it leaves behind fits its outcome. */
  lemma SelectAccounted(cfg: Config, s: Loop, k: Tick)
    requires Coherent(cfg, s) && s.status.Running? && Accounted(cfg, s.m)
    ensures
      var (m, _, outcome) := Select(cfg, s.m, s.nextProbe, k);
      if outcome.ChildGone? || outcome.Failed? then Walk(cfg.platform, m.procs) == NoProcess
      else Accounted(cfg, m) && m.child.Some?
  {
    hide Walk;
    WalkOne(cfg.platform, s.m.procs, Reap(s.m.child.value));
    WalkOne(cfg.platform, s.m.procs, WaitError(s.m.child.value));
  }

  lemma TurnKeepsDisciplined(cfg: Config, s: Loop, k: Tick)
    requires Assembled(cfg) && Coherent(cfg, s) && s.status.Running? && Disciplined(cfg, s)
    ensures Disciplined(cfg, Turn(cfg, s, k))
  {
    hide AfterExit, AfterProbeLost, AfterSignal, Walk, TerminateChild, Select;
    if LifetimeReached(cfg, s.m.now) {
      TerminateAccounted(cfg, Emit(s.m, MaxLifetimeReached, k.noticeLag), k.term);
    } else {
      SelectAccounted(cfg, s, k);
      var (m, nextProbe, outcome) := Select(cfg, s.m, s.nextProbe, k);
      match outcome {
        case ChildGone(status, lifetime) => AfterExitDisciplined(cfg, m, nextProbe, status, lifetime, k);
        case ProbeLost => AfterProbeLostDisciplined(cfg, m, nextProbe, k);
        case Signalled(kind) => AfterSignalDisciplined(cfg, m, nextProbe, kind, k);
        case _ =>
      }
    }
  }

  /** For every run, on the books: a process is spawned only when none is
      entered, signalled only while it is the one entered, killed on Unix only ten
      seconds after the SIGTERM, and struck off by the time the run returns. */
  lemma ProcessDiscipline(cfg: Config, first: SpawnEnv, script: seq<Tick>)
    requires Assembled(cfg)
    ensures Disciplined(cfg, Execute(cfg, first, script))
  {
    var inv := s => Coherent(cfg, s) && Disciplined(cfg, s);
    forall s, k | inv(s) && s.status.Running? ensures inv(Turn(cfg, s, k)) {
      TurnKeepsCoherent(cfg, s, k);
      TurnKeepsDisciplined(cfg, s, k);
    }
    SpawnAccounted(cfg, Fresh(cfg), first);
    RunsPreserve(cfg, first, script, inv);
  }

  // ---------------------------------------------------------------- consequences

  function Tally(log: seq<ProcOp>, p: ProcOp -> bool): nat {
    if log == [] then 0 else Tally(log[..|log| - 1], p) + if p(log[|log| - 1]) then 1 else 0
  }

  const IsSpawn: ProcOp -> bool := (op: ProcOp) => op.Spawn?
  const IsReap: ProcOp -> bool := (op: ProcOp) => op.Reap?
  const IsWaitError: ProcOp -> bool := (op: ProcOp) => op.WaitError?

  lemma {:induction false} WalkConserves(platform: Platform, log: seq<ProcOp>)
    requires Walk(platform, log) != Broken
    ensures Tally(log, IsSpawn) ==
            Tally(log, IsReap) + Tally(log, IsWaitError) + if Walk(platform, log).NoProcess? then 0 else 1
  {
    if log != [] {
      WalkConserves(platform, log[..|log| - 1]);
    }
  }

  /** For every run: spawned = reaped + failed waits + live, with one live child
      until the run returns and none after. */
  lemma ProcessConservation(cfg: Config, first: SpawnEnv, script: seq<Tick>)
    requires Assembled(cfg)
    ensures
      var s := Execute(cfg, first, script);
      Tally(s.m.procs, IsSpawn) ==
        Tally(s.m.procs, IsReap) + Tally(s.m.procs, IsWaitError) + if s.status.Returned? then 0 else 1
  {
    ProcessDiscipline(cfg, first, script);
    LoopHeadsAreCoherent(cfg, first, script);
    WalkConserves(cfg.platform, Execute(cfg, first, script).m.procs);
  }

  lemma {:induction false} NoneMeansZero(log: seq<ProcOp>)
    ensures (forall op :: op in log ==> !op.WaitError?) <==> Tally(log, IsWaitError) == 0
  {
    if log != [] {
      assert log == log[..|log| - 1] + [log[|log| - 1]];
      NoneMeansZero(log[..|log| - 1]);
    }
  }

  lemma TallyOne(log: seq<ProcOp>, op: ProcOp, p: ProcOp -> bool)
    ensures Tally(log + [op], p) == Tally(log, p) + if p(op) then 1 else 0
  {
    assert (log + [op])[..|log|] == log;
  }

  // ---------------------------------------------------------------- failed waits

  /** The wait that a turn from `s` performs is one that fails, by the arm that
      the environment makes it take. */
  predicate FailsWait(cfg: Config, s: Loop, k: Tick) {
    if LifetimeReached(cfg, s.m.now) then k.term.wait.WaitFailed?
    else if k.exit.Some? then k.exit.value.WaitFailed?
    else if ProbeDue(s.nextProbe, s.m.now + k.wake, k) then !k.probeOk && k.term.wait.WaitFailed?
    else !k.signal.Quiet? && k.term.wait.WaitFailed?
  }

  function Failures(m: Machine): nat {
    Tally(m.procs, IsWaitError)
  }

  lemma TerminateFailures(platform: Platform, m: Machine, t: TermEnv)
    ensures Failures(TerminateChild(platform, m, t).0) ==
            Failures(m) + if m.child.Some? && t.wait.WaitFailed? then 1 else 0
  {
    if m.child.Some? {
      var pid := m.child.value;
      var (log, ops) := (m.procs, TermOps(platform, pid, m.now, t).0);
      TallyOne(log, ops[0], IsWaitError);
      TallyOne(log + ops, if t.wait.Exited? then Reap(pid) else WaitError(pid), IsWaitError);
      if |ops| == 2 {
        TallyOne(log + [ops[0]], ops[1], IsWaitError);
        assert log + ops == log + [ops[0]] + [ops[1]];
      } else {
        assert log + ops == log + [ops[0]];
      }
    }
  }

  lemma ReplaceFailures(m: Machine, e: SpawnEnv)
    ensures Failures(Replace(m, e).0) == Failures(m)
  {
    if e.result.Started? {
      TallyOne(m.procs, Spawn(e.result.pid), IsWaitError);
    }
  }

  lemma AfterExitFailures(cfg: Config, m: Machine, nextProbe: Option<nat>, status: ExitStatus, lifetime: nat, k: Tick)
    ensures
      var s := AfterExit(cfg, m, nextProbe, status, lifetime, k);
      Failures(s.m) == Failures(m) && s.status != Returned(WaitFailure)
  {
    hide Tally, Replace;
    var retry := Decide(cfg, m.retry, status, lifetime).0;
    var noted := Note(Emit(m, ChildExited(status), k.exitLag), NaturalExit(status, lifetime));
    var told := noted.(child := None, retry := retry);
    ReplaceFailures(told.(now := told.now + cfg.clock.gateTime + k.oversleep), k.spawn);
  }

  lemma AfterProbeKillFailures(cfg: Config, m: Machine, nextProbe: Option<nat>, status: ExitStatus, k: Tick)
    ensures
      var s := AfterProbeKill(cfg, m, nextProbe, status, k);
      Failures(s.m) == Failures(m) && s.status != Returned(WaitFailure)
  {
    hide Tally, Replace;
    var told := Emit(m, ChildExited(status), k.exitLag);
    var lifetime := Elapsed(told.spawnedAt, told.now);
    var retry := Decide(cfg, m.retry, FailedStatus(cfg.platform), lifetime).0;
    var judged := Note(told, ProbeFailure(lifetime)).(retry := retry);
    ReplaceFailures(judged.(now := judged.now + cfg.clock.gateTime + k.oversleep), k.spawn);
  }

  lemma AfterProbeLostFailures(cfg: Config, m: Machine, nextProbe: Option<nat>, k: Tick)
    requires m.child.Some?
    ensures
      var s := AfterProbeLost(cfg, m, nextProbe, k);
      && Failures(s.m) == Failures(m) + (if k.term.wait.WaitFailed? then 1 else 0)
      && (s.status == Returned(WaitFailure) ==> k.term.wait.WaitFailed?)
  {
    hide Tally, AfterProbeKill;
    var told := Emit(m, ProbeTimeout, k.noticeLag);
    TerminateFailures(cfg.platform, told, k.term);
    var (m', result) := TerminateChild(cfg.platform, told, k.term);
    if result.Reaped? {
      AfterProbeKillFailures(cfg, m', nextProbe, result.status, k);
    }
  }

  lemma AfterSignalFailures(cfg: Config, m: Machine, nextProbe: Option<nat>, kind: SignalKind, k: Tick)
    requires m.child.Some?
    ensures
      var s := AfterSignal(cfg, m, nextProbe, kind, k);
      && Failures(s.m) == Failures(m) + (if k.term.wait.WaitFailed? then 1 else 0)
      && s.status != Returned(WaitFailure)
  {
    hide Tally, TerminateChild, Replace;
    var told := Emit(m, SignalReceived(kind), k.noticeLag);
    if kind.ForcesRespawn() {
      var noted := Note(told, Forced(kind)).(retry := if kind.Hangup? then 0 else m.retry);
      TerminateFailures(cfg.platform, noted, k.term);
      ReplaceFailures(TerminateChild(cfg.platform, noted, k.term).0, k.spawn);
    } else {
      TerminateFailures(cfg.platform, told, k.term);
    }
  }

  lemma SelectFailures(cfg: Config, s: Loop, k: Tick)
    requires s.m.child.Some?
    ensures
      var (m, _, outcome) := Select(cfg, s.m, s.nextProbe, k);
      Failures(m) == Failures(s.m) + if outcome == Failed(WaitFailure) then 1 else 0
  {
    hide Tally;
    TallyOne(s.m.procs, Reap(s.m.child.value), IsWaitError);
    TallyOne(s.m.procs, WaitError(s.m.child.value), IsWaitError);
  }

  /** A turn from a loop head performs a failed wait exactly when `FailsWait` says so. */
  lemma TurnFailures(cfg: Config, s: Loop, k: Tick)
    requires Assembled(cfg) && Coherent(cfg, s) && s.status.Running?
    ensures Failures(Turn(cfg, s, k).m) == Failures(s.m) + if FailsWait(cfg, s, k) then 1 else 0
    ensures Turn(cfg, s, k).status == Returned(WaitFailure) ==> FailsWait(cfg, s, k)
  {
    hide AfterExit, AfterProbeLost, AfterSignal, TerminateChild, Tally;
    if LifetimeReached(cfg, s.m.now) {
      TerminateFailures(cfg.platform, Emit(s.m, MaxLifetimeReached, k.noticeLag), k.term);
    } else {
      SelectFailures(cfg, s, k);
      var (m, nextProbe, outcome) := Select(cfg, s.m, s.nextProbe, k);
      match outcome {
        case ChildGone(status, lifetime) => AfterExitFailures(cfg, m, nextProbe, status, lifetime, k);
        case ProbeLost => AfterProbeLostFailures(cfg, m, nextProbe, k);
        case Signalled(kind) => AfterSignalFailures(cfg, m, nextProbe, kind, k);
        case _ =>
      }
    }
  }

  /** The run performs a turn whose wait the environment makes fail. */
  ghost predicate SomeWaitFails(cfg: Config, first: SpawnEnv, script: seq<Tick>) {
    Happens(cfg, first, script, WaitFails(cfg))
  }

  function WaitFails(cfg: Config): (Loop, Tick) -> bool {
    (s, k) => FailsWait(cfg, s, k)
  }

  lemma {:induction false} FailuresOfRun(cfg: Config, first: SpawnEnv, script: seq<Tick>)
    requires Assembled(cfg)
    ensures
      var s := Execute(cfg, first, script);
      && (Failures(s.m) > 0 <==> SomeWaitFails(cfg, first, script))
      && (s.status == Returned(WaitFailure) ==> SomeWaitFails(cfg, first, script))
    decreases |script|
  {
    if script == [] {
      assert Failures(Execute(cfg, first, []).m) == 0 by {
        StartsClean(cfg, first);
      }
    } else {
      var (before, k) := (script[..|script| - 1], script[|script| - 1]);
      assert script == before + [k];
      hide Execute, Turn, Failures, FailsWait, Happens;
      FailuresOfRun(cfg, first, before);
      HappensStep(cfg, first, before, k, WaitFails(cfg));
      RunStep(cfg, first, before, k);
      LoopHeadsAreCoherent(cfg, first, before);
      if Execute(cfg, first, before).status.Running? {
        TurnFailures(cfg, Execute(cfg, first, before), k);
      }
    }
  }

  lemma StartsClean(cfg: Config, first: SpawnEnv)
    ensures
      var s := Execute(cfg, first, []);
      Failures(s.m) == 0 && s.status != Returned(WaitFailure)
  {
    TallyOne([], Spawn(if first.result.Started? then first.result.pid else 0), IsWaitError);
  }

  /** Exactly when a finished run has reaped every child it spawned: when the
      environment made no wait fail in a turn that the run performed. */
  lemma ReapedIffNoFailedWait(cfg: Config, first: SpawnEnv, script: seq<Tick>)
    requires Assembled(cfg) && Execute(cfg, first, script).status.Returned?
    ensures
      var log := Execute(cfg, first, script).m.procs;
      Tally(log, IsSpawn) == Tally(log, IsReap) <==> !SomeWaitFails(cfg, first, script)
  {
    hide Execute, SomeWaitFails, Tally;
    ProcessConservation(cfg, first, script);
    FailuresOfRun(cfg, first, script);
  }

  predicate WaitsSucceed(k: Tick) {
    k.exit != Some(WaitFailed) && k.term.wait.Exited?
  }

  /** If no wait fails, every spawned child is reaped when the run returns and
      the supervisor holds no child; before that exactly one is still live. */
  lemma EveryChildIsReaped(cfg: Config, first: SpawnEnv, script: seq<Tick>)
    requires Assembled(cfg) && forall k :: k in script ==> WaitsSucceed(k)
    ensures
      var s := Execute(cfg, first, script);
      && Tally(s.m.procs, IsSpawn) == Tally(s.m.procs, IsReap) + (if s.status.Returned? then 0 else 1)
      && (s.m.child.Some? <==> !s.status.Returned?)
  {
    assert !SomeWaitFails(cfg, first, script) by {
      forall i: nat ensures !HappensAt(cfg, first, script, WaitFails(cfg), i) {
        if i < |script| {
          assert script[i] in script;
        }
      }
    }
    hide Execute, SomeWaitFails, Tally;
    ProcessConservation(cfg, first, script);
    FailuresOfRun(cfg, first, script);
    LoopHeadsAreCoherent(cfg, first, script);
  }

  // ---------------------------------------------------------------- strict discipline

  /** The same walk, in which a failed wait is itself a breach. */
  function StrictWalk(platform: Platform, log: seq<ProcOp>): Phase {
    if log == [] then NoProcess
    else
      var op := log[|log| - 1];
      if op.WaitError? then Broken else Advance(platform, StrictWalk(platform, log[..|log| - 1]), op)
  }

  lemma {:induction false} StrictWalkAgrees(platform: Platform, log: seq<ProcOp>)
    requires Walk(platform, log) != Broken
    ensures if Tally(log, IsWaitError) == 0 then StrictWalk(platform, log) == Walk(platform, log)
            else StrictWalk(platform, log) == Broken
  {
    if log != [] {
      StrictWalkAgrees(platform, log[..|log| - 1]);
    }
  }

  /** The strict discipline, in which a process leaves the books only by being
      reaped, is kept by a run exactly when no wait of a performed turn fails. */
  lemma StrictDiscipline(cfg: Config, first: SpawnEnv, script: seq<Tick>)
    requires Assembled(cfg)
    ensures StrictWalk(cfg.platform, Execute(cfg, first, script).m.procs) != Broken
            <==> !SomeWaitFails(cfg, first, script)
  {
    hide Execute, SomeWaitFails;
    ProcessDiscipline(cfg, first, script);
    FailuresOfRun(cfg, first, script);
    StrictWalkAgrees(cfg.platform, Execute(cfg, first, script).m.procs);
  }

  lemma {:induction false} PrefixUnbroken(platform: Platform, log: seq<ProcOp>, i: nat)
    requires Walk(platform, log) != Broken && i <= |log|
    ensures Walk(platform, log[..i]) != Broken
  {
    if i < |log| {
      PrefixUnbroken(platform, log[..|log| - 1], i);
      assert log[..|log| - 1][..i] == log[..i];
    } else {
      assert log[..i] == log;
    }
  }

  /** For every run and every position of the log: a SIGTERM goes to the process
      that is live at that moment, and a SIGKILL on Unix comes right after the
      SIGTERM of the same process, at least the grace period later. */
  lemma SignalsHitTheLiveChild(cfg: Config, first: SpawnEnv, script: seq<Tick>, i: nat)
    requires Assembled(cfg) && i < |Execute(cfg, first, script).m.procs|
    ensures
      var log := Execute(cfg, first, script).m.procs;
      match log[i]
      case SigTerm(pid, _) => cfg.platform.Unix? && Walk(cfg.platform, log[..i]) == Live(pid)
      case SigKill(pid, at) =>
        if cfg.platform.Windows? then Walk(cfg.platform, log[..i]) == Live(pid)
        else 1 <= i && log[i - 1].SigTerm? && log[i - 1].pid == pid && log[i - 1].at + GRACE <= at
      case _ => true
  {
    ProcessDiscipline(cfg, first, script);
    var log := Execute(cfg, first, script).m.procs;
    PrefixUnbroken(cfg.platform, log, i + 1);
    PrefixUnbroken(cfg.platform, log, i);
    assert log[..i + 1][..i] == log[..i];
    if 1 <= i {
      PrefixUnbroken(cfg.platform, log, i - 1);
      assert log[..i][..i - 1] == log[..i - 1];
    }
  }
}
