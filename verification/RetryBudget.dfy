/** What the retry counter means, and when the cap on consecutive starts ends a run. */
module RetryBudget {
  import opened Types
  import opened SupervisorSpec
  import opened Runs
  import opened TurnLaws

  predicate IsFailure(o: Observation) {
    (o.NaturalExit? && !o.status.Success()) || o.ProbeFailure?
  }

  /** A failure that counts: too short-lived, and not in one-shot mode. */
  predicate IsShort(cfg: Config, o: Observation) {
    !cfg.oneShot && IsFailure(o) && o.lifetime < cfg.clock.gateTime
  }

  /** The three resets: SIGHUP, a failure past the gate, a clean exit in Active mode. */
  predicate IsReset(cfg: Config, o: Observation) {
    || o == Forced(Hangup)
    || (!cfg.oneShot && IsFailure(o) && cfg.clock.gateTime <= o.lifetime)
    || (o.NaturalExit? && o.status.Success() && cfg.monitorMode.Active?)
  }

  /** Short failures since the last reset. */
  function Since(cfg: Config, h: seq<Observation>): nat {
    if h == [] then 0
    else
      var (before, o) := (h[..|h| - 1], h[|h| - 1]);
      if IsReset(cfg, o) then 0 else Since(cfg, before) + if IsShort(cfg, o) then 1 else 0
  }

  function Number(h: seq<Observation>, p: Observation -> bool): nat {
    if h == [] then 0 else Number(h[..|h| - 1], p) + if p(h[|h| - 1]) then 1 else 0
  }

  function Shorts(cfg: Config, h: seq<Observation>): nat {
    Number(h, (o: Observation) => IsShort(cfg, o))
  }

  function Resets(cfg: Config, h: seq<Observation>): nat {
    Number(h, (o: Observation) => IsReset(cfg, o))
  }

  /** The number of short failures that ends a run: a cap of 0 acts as a cap of 1. */
  function Limit(cap: u32): (m: nat)
    ensures 1 <= m
  {
    if cap == 0 then 1 else cap
  }

  /** The counter is the saturated count, and while the run is not stopped by
      the cap the count stays below the limit. */
  ghost predicate Budgeted(cfg: Config, s: Loop) {
    var since := Since(cfg, s.m.history);
    && s.m.retry == Min(since, U32_MAX)
    && (cfg.oneShot ==> since == 0)
    && (!cfg.oneShot && cfg.clock.maxStart.None? ==> !(s.status.Returned? && s.status.result.MaxStartError?))
    && (!cfg.oneShot && cfg.clock.maxStart.Some? ==>
          var m := Limit(cfg.clock.maxStart.value);
          && Shorts(cfg, s.m.history) <= Resets(cfg, s.m.history) * (m - 1) + since
          && if s.status.Returned? && s.status.result.MaxStartError?
             then s.status.result.attempts == since == m
             else since < m)
  }

  lemma OneMore(n: nat, m: nat)
    ensures (n + 1) * m == n * m + m
  {
  }

  lemma NoteOne(cfg: Config, h: seq<Observation>, o: Observation)
    ensures Since(cfg, h + [o]) ==
            if IsReset(cfg, o) then 0 else Since(cfg, h) + if IsShort(cfg, o) then 1 else 0
    ensures Shorts(cfg, h + [o]) == Shorts(cfg, h) + if IsShort(cfg, o) then 1 else 0
    ensures Resets(cfg, h + [o]) == Resets(cfg, h) + if IsReset(cfg, o) then 1 else 0
  {
    assert (h + [o])[..|h|] == h;
  }

  /** One judged observation keeps the budget: `status` is how the turn goes on. */
  lemma JudgedBudgeted(cfg: Config, before: Loop, exit: ExitStatus, o: Observation, after: Loop)
    requires Budgeted(cfg, before) && before.status.Running?
    requires (o.NaturalExit? && o.status == exit) || (o.ProbeFailure? && !exit.Success())
    requires after.m.history == before.m.history + [o]
    requires after.m.retry == Decide(cfg, before.m.retry, exit, o.lifetime).0
    requires
      var decision := Decide(cfg, before.m.retry, exit, o.lifetime).1;
      if decision.Exit? && decision.reason.ExitMaxStart?
      then after.status == Returned(MaxStartError(decision.reason.attempts))
      else !cfg.oneShot ==> !(after.status.Returned? && after.status.result.MaxStartError?)
    ensures Budgeted(cfg, after)
  {
    NoteOne(cfg, before.m.history, o);
    if cfg.clock.maxStart.Some? {
      OneMore(Resets(cfg, before.m.history), Limit(cfg.clock.maxStart.value) - 1);
    }
  }

  /** A turn that judges nothing keeps the budget; a SIGHUP zeroes it. */
  lemma UnjudgedBudgeted(cfg: Config, before: Loop, o: Observation, after: Loop)
    requires Budgeted(cfg, before) && before.status.Running?
    requires o.Forced? || o.ProbeAnswered?
    requires after.m.history == before.m.history + [o]
    requires after.m.retry == if o == Forced(Hangup) then 0 else before.m.retry
    requires !(after.status.Returned? && after.status.result.MaxStartError?)
    ensures Budgeted(cfg, after)
  {
    NoteOne(cfg, before.m.history, o);
    if cfg.clock.maxStart.Some? {
      OneMore(Resets(cfg, before.m.history), Limit(cfg.clock.maxStart.value) - 1);
    }
  }

  lemma UntouchedBudgeted(cfg: Config, before: Loop, after: Loop)
    requires Budgeted(cfg, before) && before.status.Running?
    requires after.m.history == before.m.history && after.m.retry == before.m.retry
    requires !(after.status.Returned? && after.status.result.MaxStartError?)
    ensures Budgeted(cfg, after)
  {
  }

  lemma AfterExitBudgeted(cfg: Config, m: Machine, nextProbe: Option<nat>, status: ExitStatus, lifetime: nat, k: Tick)
    requires Budgeted(cfg, Loop(m, nextProbe, Running))
    ensures Budgeted(cfg, AfterExit(cfg, m, nextProbe, status, lifetime, k))
  {
    hide Budgeted;
    JudgedBudgeted(cfg, Loop(m, nextProbe, Running), status, NaturalExit(status, lifetime),
                   AfterExit(cfg, m, nextProbe, status, lifetime, k));
  }

  lemma AfterProbeKillBudgeted(cfg: Config, m: Machine, nextProbe: Option<nat>, status: ExitStatus, k: Tick)
    requires Budgeted(cfg, Loop(m, nextProbe, Running))
    ensures Budgeted(cfg, AfterProbeKill(cfg, m, nextProbe, status, k))
  {
    hide Budgeted;
    JudgedBudgeted(cfg, Loop(m, nextProbe, Running), FailedStatus(cfg.platform),
                   ProbeFailure(Elapsed(m.spawnedAt, m.now + k.exitLag)),
                   AfterProbeKill(cfg, m, nextProbe, status, k));
  }

  lemma AfterProbeLostBudgeted(cfg: Config, m: Machine, nextProbe: Option<nat>, k: Tick)
    requires Budgeted(cfg, Loop(m, nextProbe, Running))
    ensures Budgeted(cfg, AfterProbeLost(cfg, m, nextProbe, k))
  {
    hide AfterProbeKill, Budgeted;
    var (m', result) := TerminateChild(cfg.platform, Emit(m, ProbeTimeout, k.noticeLag), k.term);
    UntouchedBudgeted(cfg, Loop(m, nextProbe, Running), Loop(m', nextProbe, Running));
    if result.Reaped? {
      AfterProbeKillBudgeted(cfg, m', nextProbe, result.status, k);
    } else {
      UntouchedBudgeted(cfg, Loop(m, nextProbe, Running), AfterProbeLost(cfg, m, nextProbe, k));
    }
  }

  lemma AfterSignalBudgeted(cfg: Config, m: Machine, nextProbe: Option<nat>, kind: SignalKind, k: Tick)
    requires Budgeted(cfg, Loop(m, nextProbe, Running))
    ensures Budgeted(cfg, AfterSignal(cfg, m, nextProbe, kind, k))
  {
    hide Budgeted;
    var (before, after) := (Loop(m, nextProbe, Running), AfterSignal(cfg, m, nextProbe, kind, k));
    if kind.ForcesRespawn() {
      UnjudgedBudgeted(cfg, before, Forced(kind), after);
    } else {
      UntouchedBudgeted(cfg, before, after);
    }
  }

  lemma TurnKeepsBudgeted(cfg: Config, s: Loop, k: Tick)
    requires Budgeted(cfg, s) && Coherent(cfg, s) && s.status.Running?
    ensures Budgeted(cfg, Turn(cfg, s, k))
  {
    hide AfterExit, AfterProbeLost, AfterSignal, Budgeted;
    if LifetimeReached(cfg, s.m.now) {
      UntouchedBudgeted(cfg, s, Turn(cfg, s, k));
    } else {
      var (m, nextProbe, outcome) := Select(cfg, s.m, s.nextProbe, k);
      UntouchedBudgeted(cfg, s, Loop(m, nextProbe, Running));
      match outcome {
        case ChildGone(status, lifetime) => AfterExitBudgeted(cfg, m, nextProbe, status, lifetime, k);
        case ProbeLost => AfterProbeLostBudgeted(cfg, m, nextProbe, k);
        case Signalled(kind) => AfterSignalBudgeted(cfg, m, nextProbe, kind, k);
        case ProbeAnswer => UnjudgedBudgeted(cfg, s, ProbeAnswered, Turn(cfg, s, k));
        case _ => UntouchedBudgeted(cfg, s, Turn(cfg, s, k));
      }
    }
  }

  lemma RunsStayBudgeted(cfg: Config, first: SpawnEnv, script: seq<Tick>)
    requires Assembled(cfg)
    ensures Budgeted(cfg, Execute(cfg, first, script))
  {
    var inv := s => Coherent(cfg, s) && Budgeted(cfg, s);
    forall s, k | inv(s) && s.status.Running? ensures inv(Turn(cfg, s, k)) {
      TurnKeepsCoherent(cfg, s, k);
      TurnKeepsBudgeted(cfg, s, k);
    }
    RunsPreserve(cfg, first, script, inv);
  }

  // ---------------------------------------------------------------- the meaning of the counter

  function LastReset(cfg: Config, h: seq<Observation>): (j: nat)
    ensures j <= |h| && (j == 0 || IsReset(cfg, h[j - 1]))
    ensures forall i :: j <= i < |h| ==> !IsReset(cfg, h[i])
  {
    if h == [] || IsReset(cfg, h[|h| - 1]) then |h| else LastReset(cfg, h[..|h| - 1])
  }

  function ShortPositions(cfg: Config, h: seq<Observation>, from: nat): set<nat> {
    set i: nat | from <= i < |h| && IsShort(cfg, h[i])
  }

  lemma {:induction false} SinceCounts(cfg: Config, h: seq<Observation>)
    ensures Since(cfg, h) == |ShortPositions(cfg, h, LastReset(cfg, h))|
  {
    if h == [] || IsReset(cfg, h[|h| - 1]) {
      assert ShortPositions(cfg, h, |h|) == {};
    } else {
      var (before, j) := (h[..|h| - 1], LastReset(cfg, h));
      SinceCounts(cfg, before);
      var earlier := ShortPositions(cfg, before, j);
      if IsShort(cfg, h[|h| - 1]) {
        assert ShortPositions(cfg, h, j) == earlier + {|h| - 1};
      } else {
        assert ShortPositions(cfg, h, j) == earlier;
      }
    }
  }

  /** In every reachable state the counter is the number of short failures after
      the last reset, capped at the largest 32-bit number. */
  lemma CounterMeaning(cfg: Config, first: SpawnEnv, script: seq<Tick>)
    requires Assembled(cfg)
    ensures
      var m := Execute(cfg, first, script).m;
      m.retry == Min(|ShortPositions(cfg, m.history, LastReset(cfg, m.history))|, 0xFFFF_FFFF)
  {
    RunsStayBudgeted(cfg, first, script);
    SinceCounts(cfg, Execute(cfg, first, script).m.history);
  }

  /** Without one-shot, a run ends in MaxStartReached exactly when the short
      failures since the last reset reach the limit, and reports that number. */
  lemma CapStopsExactlyAtLimit(cfg: Config, first: SpawnEnv, script: seq<Tick>)
    requires Assembled(cfg) && !cfg.oneShot && cfg.clock.maxStart.Some?
    ensures
      var s := Execute(cfg, first, script);
      var m := Limit(cfg.clock.maxStart.value);
      var shorts := |ShortPositions(cfg, s.m.history, LastReset(cfg, s.m.history))|;
      && shorts <= m
      && (s.status.Returned? && s.status.result.MaxStartError? <==> shorts == m)
      && (s.status.Returned? && s.status.result.MaxStartError? ==> s.status.result.attempts == m)
  {
    RunsStayBudgeted(cfg, first, script);
    SinceCounts(cfg, Execute(cfg, first, script).m.history);
  }

  /** Over a whole run the short failures are bounded by the resets: at most
      limit - 1 after the start and after each reset, one more to end the run. */
  lemma GlobalFailureBound(cfg: Config, first: SpawnEnv, script: seq<Tick>)
    requires Assembled(cfg) && !cfg.oneShot && cfg.clock.maxStart.Some?
    ensures
      var s := Execute(cfg, first, script);
      var m := Limit(cfg.clock.maxStart.value);
      Shorts(cfg, s.m.history) <=
        (Resets(cfg, s.m.history) + 1) * (m - 1)
        + if s.status.Returned? && s.status.result.MaxStartError? then 1 else 0
  {
    RunsStayBudgeted(cfg, first, script);
  }

  lemma {:induction false} NoShortsNoCount(cfg: Config, h: seq<Observation>)
    requires cfg.clock.gateTime == 0
    ensures Since(cfg, h) == 0
  {
    if h != [] {
      NoShortsNoCount(cfg, h[..|h| - 1]);
    }
  }

  /** A gate time of zero makes the cap inert: nothing is ever counted. */
  lemma ZeroGateDisarmsTheCap(cfg: Config, first: SpawnEnv, script: seq<Tick>)
    requires Assembled(cfg) && cfg.clock.gateTime == 0
    ensures
      var s := Execute(cfg, first, script);
      && s.m.retry == 0
      && (!cfg.oneShot ==> !(s.status.Returned? && s.status.result.MaxStartError?))
  {
    RunsStayBudgeted(cfg, first, script);
    NoShortsNoCount(cfg, Execute(cfg, first, script).m.history);
  }

  /** Without a cap no run ends in MaxStartReached, except in one-shot mode. */
  lemma UncappedNeverStops(cfg: Config, first: SpawnEnv, script: seq<Tick>)
    requires Assembled(cfg) && !cfg.oneShot && cfg.clock.maxStart.None?
    ensures
      var s := Execute(cfg, first, script);
      !(s.status.Returned? && s.status.result.MaxStartError?)
  {
    RunsStayBudgeted(cfg, first, script);
  }

  function WithCap(cfg: Config, cap: u32): Config {
    cfg.(clock := cfg.clock.(maxStart := Some(cap)))
  }

  /** A cap of 0 is a cap of 1: the same decision on every exit, hence the same run. */
  lemma ZeroCapIsOne(cfg: Config, first: SpawnEnv, script: seq<Tick>)
    ensures Execute(WithCap(cfg, 0), first, script) == Execute(WithCap(cfg, 1), first, script)
  {
    if first.result.Started? {
      ZeroCapTurns(cfg, Entry(cfg, first), script);
    }
  }

  lemma {:induction false} ZeroCapTurns(cfg: Config, s: Loop, script: seq<Tick>)
    ensures Turns(WithCap(cfg, 0), s, script) == Turns(WithCap(cfg, 1), s, script)
    decreases |script|
  {
    hide Turn;
    if script != [] && s.status.Running? {
      ZeroCapTurn(cfg, s, script[0]);
      ZeroCapTurns(cfg, Turn(WithCap(cfg, 0), s, script[0]), script[1..]);
    }
  }

  lemma ZeroCapTurn(cfg: Config, s: Loop, k: Tick)
    ensures Turn(WithCap(cfg, 0), s, k) == Turn(WithCap(cfg, 1), s, k)
  {
    hide AfterExit, AfterProbeLost, AfterSignal, TerminateChild;
    if !LifetimeReached(cfg, s.m.now) {
      var (m, nextProbe, outcome) := Select(cfg, s.m, s.nextProbe, k);
      match outcome {
        case ChildGone(status, lifetime) => ZeroCapAfterExit(cfg, m, nextProbe, status, lifetime, k);
        case ProbeLost => ZeroCapAfterProbeLost(cfg, m, nextProbe, k);
        case Signalled(kind) => ZeroCapAfterSignal(cfg, m, nextProbe, kind, k);
        case _ =>
      }
    }
  }

  lemma ZeroCapAfterExit(cfg: Config, m: Machine, nextProbe: Option<nat>, status: ExitStatus, lifetime: nat, k: Tick)
    ensures AfterExit(WithCap(cfg, 0), m, nextProbe, status, lifetime, k)
            == AfterExit(WithCap(cfg, 1), m, nextProbe, status, lifetime, k)
  {
    hide Replace;
  }

  lemma ZeroCapAfterProbeLost(cfg: Config, m: Machine, nextProbe: Option<nat>, k: Tick)
    ensures AfterProbeLost(WithCap(cfg, 0), m, nextProbe, k) == AfterProbeLost(WithCap(cfg, 1), m, nextProbe, k)
  {
    hide Replace, TerminateChild;
  }

  lemma ZeroCapAfterSignal(cfg: Config, m: Machine, nextProbe: Option<nat>, kind: SignalKind, k: Tick)
    ensures AfterSignal(WithCap(cfg, 0), m, nextProbe, kind, k) == AfterSignal(WithCap(cfg, 1), m, nextProbe, kind, k)
  {
    hide Replace, TerminateChild;
  }

  // ---------------------------------------------------------------- nothing but short failures

  lemma {:induction false} ResetFree(cfg: Config, h: seq<Observation>)
    requires forall o :: o in h ==> !IsReset(cfg, o)
    ensures Since(cfg, h) == Shorts(cfg, h)
  {
    if h != [] {
      var before := h[..|h| - 1];
      assert h == before + [h[|h| - 1]];
      ResetFree(cfg, before);
      NoteOne(cfg, before, h[|h| - 1]);
    }
  }

  /** A run without a reset has at most `Limit(cap)` short failures, however they
      are found and whatever comes between, and stops exactly at the last of them. */
  lemma ResetFreeRunStops(cfg: Config, first: SpawnEnv, script: seq<Tick>)
    requires Assembled(cfg) && !cfg.oneShot && cfg.clock.maxStart.Some?
    requires forall o :: o in Execute(cfg, first, script).m.history ==> !IsReset(cfg, o)
    ensures
      var (s, m) := (Execute(cfg, first, script), Limit(cfg.clock.maxStart.value));
      && Shorts(cfg, s.m.history) <= m
      && (s.status == Returned(MaxStartError(m)) <==> Shorts(cfg, s.m.history) == m)
  {
    RunsStayBudgeted(cfg, first, script);
    ResetFree(cfg, Execute(cfg, first, script).m.history);
  }

  /** The turn observes a short failure, and the replacement can be started. */
  ghost predicate ShortTurn(cfg: Config, s: Loop, k: Tick) {
    var (h, h') := (s.m.history, Turn(cfg, s, k).m.history);
    |h'| == |h| + 1 && IsShort(cfg, h'[|h|]) && k.spawn.result.Started?
  }

  lemma AfterExitGoesOn(cfg: Config, m: Machine, nextProbe: Option<nat>, status: ExitStatus, lifetime: nat, k: Tick)
    ensures
      var (s, o) := (AfterExit(cfg, m, nextProbe, status, lifetime, k), NaturalExit(status, lifetime));
      && s.m.history == m.history + [o]
      && (IsShort(cfg, o) && k.spawn.result.Started? ==>
            s.status.Running? || (s.status.Returned? && s.status.result.MaxStartError?))
  {
  }

  lemma AfterProbeKillGoesOn(cfg: Config, m: Machine, nextProbe: Option<nat>, status: ExitStatus, k: Tick)
    requires !cfg.oneShot && k.spawn.result.Started?
    ensures
      var s := AfterProbeKill(cfg, m, nextProbe, status, k);
      && |s.m.history| == |m.history| + 1 && s.m.history[..|m.history|] == m.history
      && (s.status.Running? || (s.status.Returned? && s.status.result.MaxStartError?))
  {
  }

  lemma AfterProbeLostGoesOn(cfg: Config, m: Machine, nextProbe: Option<nat>, k: Tick)
    requires !cfg.oneShot && k.spawn.result.Started?
    ensures
      var s := AfterProbeLost(cfg, m, nextProbe, k);
      |s.m.history| == |m.history| + 1 ==>
        && s.m.history[..|m.history|] == m.history
        && (s.status.Running? || (s.status.Returned? && s.status.result.MaxStartError?))
  {
    hide AfterProbeKill;
    var (m', result) := TerminateChild(cfg.platform, Emit(m, ProbeTimeout, k.noticeLag), k.term);
    if result.Reaped? {
      AfterProbeKillGoesOn(cfg, m', nextProbe, result.status, k);
    }
  }

  lemma AfterSignalIsNoFailure(cfg: Config, m: Machine, nextProbe: Option<nat>, kind: SignalKind, k: Tick)
    ensures
      var h := AfterSignal(cfg, m, nextProbe, kind, k).m.history;
      h == m.history || h == m.history + [Forced(kind)]
  {
  }

  lemma ShortTurnGoesOn(cfg: Config, s: Loop, k: Tick)
    requires !cfg.oneShot && s.status.Running? && ShortTurn(cfg, s, k)
    ensures
      var s' := Turn(cfg, s, k);
      && s'.m.history == s.m.history + [s'.m.history[|s.m.history|]]
      && (s'.status.Running? || (s'.status.Returned? && s'.status.result.MaxStartError?))
  {
    hide AfterExit, AfterProbeLost, AfterSignal;
    if !LifetimeReached(cfg, s.m.now) {
      var (m, nextProbe, outcome) := Select(cfg, s.m, s.nextProbe, k);
      match outcome {
        case ChildGone(status, lifetime) => AfterExitGoesOn(cfg, m, nextProbe, status, lifetime, k);
        case ProbeLost => AfterProbeLostGoesOn(cfg, m, nextProbe, k);
        case Signalled(kind) => AfterSignalIsNoFailure(cfg, m, nextProbe, kind, k);
        case _ =>
      }
    }
  }

  /** Every turn the run performs observes a short failure. */
  ghost predicate Flapping(cfg: Config, first: SpawnEnv, script: seq<Tick>) {
    forall i: nat :: Performed(cfg, first, script, i) ==> ShortTurn(cfg, Execute(cfg, first, script[..i]), script[i])
  }

  ghost predicate AllShort(cfg: Config, h: seq<Observation>) {
    forall o :: o in h ==> IsShort(cfg, o)
  }

  lemma FlappingPrefix(cfg: Config, first: SpawnEnv, before: seq<Tick>, k: Tick)
    requires Flapping(cfg, first, before + [k])
    ensures Flapping(cfg, first, before)
    ensures Execute(cfg, first, before).status.Running? ==> ShortTurn(cfg, Execute(cfg, first, before), k)
  {
    hide Execute, ShortTurn;
    var script := before + [k];
    assert script[..|before|] == before;
    assert Performed(cfg, first, script, |before|) <==> Execute(cfg, first, before).status.Running?;
    forall i: nat | Performed(cfg, first, before, i)
      ensures ShortTurn(cfg, Execute(cfg, first, before[..i]), before[i])
    {
      assert script[..i] == before[..i];
      assert Performed(cfg, first, script, i);
    }
  }

  lemma {:induction false} AllShortCounts(cfg: Config, h: seq<Observation>)
    requires AllShort(cfg, h)
    ensures Since(cfg, h) == |h|
  {
    if h != [] {
      var before := h[..|h| - 1];
      assert h == before + [h[|h| - 1]];
      AllShortCounts(cfg, before);
      NoteOne(cfg, before, h[|h| - 1]);
    }
  }

  /** A run of nothing but short failures, whether the child exits or its probe
      is lost, goes on for exactly `Limit(cap)` of them and then stops. */
  lemma {:induction false} FlappingRunStops(cfg: Config, first: SpawnEnv, script: seq<Tick>)
    requires Assembled(cfg) && !cfg.oneShot && cfg.clock.maxStart.Some?
    requires first.result.Started? && Flapping(cfg, first, script)
    ensures
      var (s, m) := (Execute(cfg, first, script), Limit(cfg.clock.maxStart.value));
      && AllShort(cfg, s.m.history)
      && (if |script| < m then s.status == Running && s.m.retry == |script| && |s.m.history| == |script|
          else s.status == Returned(MaxStartError(m)) && |s.m.history| == m)
    decreases |script|
  {
    var m := Limit(cfg.clock.maxStart.value);
    RunsStayBudgeted(cfg, first, script);
    if script == [] {
      assert Execute(cfg, first, script) == Entry(cfg, first);
    } else {
      var (before, k) := (script[..|script| - 1], script[|script| - 1]);
      assert script == before + [k];
      hide Execute, Turn, ShortTurn, Flapping, Since, Shorts, Resets;
      FlappingPrefix(cfg, first, before, k);
      FlappingRunStops(cfg, first, before);
      RunStep(cfg, first, before, k);
      if |before| < m {
        ShortStep(cfg, Execute(cfg, first, before), k);
        AllShortCounts(cfg, Execute(cfg, first, script).m.history);
      }
    }
  }

  lemma ShortStep(cfg: Config, s: Loop, k: Tick)
    requires !cfg.oneShot && s.status.Running? && ShortTurn(cfg, s, k) && AllShort(cfg, s.m.history)
    ensures
      var s' := Turn(cfg, s, k);
      && AllShort(cfg, s'.m.history) && |s'.m.history| == |s.m.history| + 1
      && (s'.status.Running? || (s'.status.Returned? && s'.status.result.MaxStartError?))
  {
    ShortTurnGoesOn(cfg, s, k);
    hide Turn;
  }

  /** A failing child gives such a turn exactly when it exited before the gate
      time was over since its spawn; from then on its exit resets the counter. */
  lemma ShortExitIsShortTurn(cfg: Config, first: SpawnEnv, script: seq<Tick>, k: Tick)
    requires Going(cfg, first, script) && !cfg.oneShot && k.spawn.result.Started?
    requires ArmOf(cfg, Execute(cfg, first, script), k).ChildExit?
    requires k.exit.value.Exited? && k.exit.value.status.raw != 0
    ensures Execute(cfg, first, script).m.spawnedAt.Some?
    ensures
      var (s, s') := (Execute(cfg, first, script), Execute(cfg, first, script + [k]));
      var lived := s.m.now + k.wake - s.m.spawnedAt.value;
      && (ShortTurn(cfg, s, k) <==> lived < cfg.clock.gateTime)
      && (lived >= cfg.clock.gateTime ==> s'.m.retry == 0)
  {
    hide Execute, Turn;
    LifetimesAreExact(cfg, first, script, k);
    RunStep(cfg, first, script, k);
  }

  /** So does a lost probe whose child was reaped, by the time of that event. */
  lemma ShortLostProbeIsShortTurn(cfg: Config, first: SpawnEnv, script: seq<Tick>, k: Tick)
    requires Going(cfg, first, script) && !cfg.oneShot && k.spawn.result.Started?
    requires ArmOf(cfg, Execute(cfg, first, script), k).Probe? && !k.probeOk && k.term.wait.Exited?
    ensures Execute(cfg, first, script).m.spawnedAt.Some?
    ensures
      var (s, s') := (Execute(cfg, first, script), Execute(cfg, first, script + [k]));
      var lived := GoneTime(cfg, s, k) + k.exitLag - s.m.spawnedAt.value;
      && (ShortTurn(cfg, s, k) <==> lived < cfg.clock.gateTime)
      && (lived >= cfg.clock.gateTime ==> s'.m.retry == 0)
  {
    hide Execute, Turn;
    LifetimesAreExact(cfg, first, script, k);
    RunStep(cfg, first, script, k);
  }
}
