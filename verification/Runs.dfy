/** Reasoning about whole runs: the induction principle over turns, and the
    invariant that rules out the loop's defensive branches. */
module Runs {
  import opened Types
  import opened SupervisorSpec

  /** What holds at the start and survives every turn holds at every moment of the run. */
  lemma {:induction false} TurnsPreserve(cfg: Config, s: Loop, script: seq<Tick>, inv: Loop -> bool)
    requires inv(s)
    requires forall s', k :: k in script && inv(s') && s'.status.Running? ==> inv(Turn(cfg, s', k))
    ensures inv(Turns(cfg, s, script))
    decreases |script|
  {
    if script == [] || !s.status.Running? {
    } else {
      assert script[0] in script && forall k :: k in script[1..] ==> k in script;
      TurnsPreserve(cfg, Turn(cfg, s, script[0]), script[1..], inv);
    }
  }

  /** The state in which the loop is entered when the first spawn succeeds. */
  function Entry(cfg: Config, first: SpawnEnv): Loop {
    var m := SpawnChild(Fresh(cfg), first).0;
    Loop(m, FirstProbe(cfg, m.now), Running)
  }

  /** The state in which the run ends when the first spawn fails. */
  function Stillborn(cfg: Config, first: SpawnEnv): Loop {
    Loop(SpawnChild(Fresh(cfg), first).0, None, Returned(SpawnError))
  }

  lemma RunsPreserve(cfg: Config, first: SpawnEnv, script: seq<Tick>, inv: Loop -> bool)
    requires first.result.Started? ==> inv(Entry(cfg, first))
    requires first.result.NotStarted? ==> inv(Stillborn(cfg, first))
    requires forall s', k :: k in script && inv(s') && s'.status.Running? ==> inv(Turn(cfg, s', k))
    ensures inv(Execute(cfg, first, script))
  {
    if first.result.Started? {
      TurnsPreserve(cfg, Entry(cfg, first), script, inv);
    }
  }

  lemma {:induction false} TurnsStep(cfg: Config, s: Loop, script: seq<Tick>, k: Tick)
    ensures
      var s' := Turns(cfg, s, script);
      Turns(cfg, s, script + [k]) == if s'.status.Running? then Turn(cfg, s', k) else s'
    decreases |script|
  {
    hide Turn;
    assert (script + [k])[0] == if script == [] then k else script[0];
    if script == [] {
      assert (script + [k])[1..] == [];
    } else if s.status.Running? {
      assert (script + [k])[1..] == script[1..] + [k];
      TurnsStep(cfg, Turn(cfg, s, script[0]), script[1..], k);
    }
  }

  /** A run one tick longer is the same run with one more turn, if it was still going. */
  lemma RunStep(cfg: Config, first: SpawnEnv, script: seq<Tick>, k: Tick)
    ensures
      var s := Execute(cfg, first, script);
      Execute(cfg, first, script + [k]) == if s.status.Running? then Turn(cfg, s, k) else s
  {
    hide Turn, Turns;
    if first.result.Started? {
      TurnsStep(cfg, Entry(cfg, first), script, k);
    }
  }

  /** The run is still going when tick `i` comes, so the turn is performed. */
  ghost predicate Performed(cfg: Config, first: SpawnEnv, script: seq<Tick>, i: nat) {
    i < |script| && Execute(cfg, first, script[..i]).status.Running?
  }

  ghost predicate HappensAt(cfg: Config, first: SpawnEnv, script: seq<Tick>, p: (Loop, Tick) -> bool, i: nat) {
    Performed(cfg, first, script, i) && p(Execute(cfg, first, script[..i]), script[i])
  }

  /** The run performs a turn whose state and tick meet `p`. */
  ghost predicate Happens(cfg: Config, first: SpawnEnv, script: seq<Tick>, p: (Loop, Tick) -> bool) {
    exists i: nat :: HappensAt(cfg, first, script, p, i)
  }

  lemma HappensStep(cfg: Config, first: SpawnEnv, before: seq<Tick>, k: Tick, p: (Loop, Tick) -> bool)
    ensures
      var s := Execute(cfg, first, before);
      Happens(cfg, first, before + [k], p) <==> Happens(cfg, first, before, p) || (s.status.Running? && p(s, k))
  {
    hide Execute;
    var script := before + [k];
    assert script[..|before|] == before;
    forall i: nat | i < |before|
      ensures HappensAt(cfg, first, script, p, i) <==> HappensAt(cfg, first, before, p, i)
    {
      assert script[..i] == before[..i];
    }
    assert HappensAt(cfg, first, script, p, |before|) <==>
           Execute(cfg, first, before).status.Running? && p(Execute(cfg, first, before), k);
    if Happens(cfg, first, before, p) {
      var i: nat :| HappensAt(cfg, first, before, p, i);
      assert HappensAt(cfg, first, script, p, i);
    }
  }

  /** While the loop goes on there is a child, spawned no earlier than the run
      began, and a next probe exactly when a monitor is bound.  After it, a
      child is left only by a failed wait. */
  ghost predicate Coherent(cfg: Config, s: Loop) {
    && s.status != Returned(NoChildError)
    && match s.status
       case Returned(result) => s.m.child.Some? ==> result == WaitFailure
       case _ =>
         && s.m.child.Some? && s.m.spawnedAt.Some?
         && cfg.lifetimeStart <= s.m.spawnedAt.value <= s.m.now
         && (s.nextProbe.Some? <==> cfg.monitor)
  }

  lemma AfterExitCoherent(cfg: Config, m: Machine, nextProbe: Option<nat>, status: ExitStatus, lifetime: nat, k: Tick)
    requires Assembled(cfg) && Coherent(cfg, Loop(m, nextProbe, Running))
    ensures Coherent(cfg, AfterExit(cfg, m, nextProbe, status, lifetime, k))
  {
  }

  lemma AfterProbeLostCoherent(cfg: Config, m: Machine, nextProbe: Option<nat>, k: Tick)
    requires Assembled(cfg) && cfg.monitor && Coherent(cfg, Loop(m, nextProbe, Running))
    ensures Coherent(cfg, AfterProbeLost(cfg, m, nextProbe, k))
  {
  }

  lemma AfterSignalCoherent(cfg: Config, m: Machine, nextProbe: Option<nat>, kind: SignalKind, k: Tick)
    requires Assembled(cfg) && Coherent(cfg, Loop(m, nextProbe, Running))
    ensures Coherent(cfg, AfterSignal(cfg, m, nextProbe, kind, k))
  {
  }

  lemma TurnKeepsCoherent(cfg: Config, s: Loop, k: Tick)
    requires Assembled(cfg) && Coherent(cfg, s) && s.status.Running?
    ensures Coherent(cfg, Turn(cfg, s, k))
  {
    hide AfterExit, AfterProbeLost, AfterSignal;
    if !LifetimeReached(cfg, s.m.now) {
      var (m, nextProbe, outcome) := Select(cfg, s.m, s.nextProbe, k);
      match outcome {
        case ChildGone(status, lifetime) => AfterExitCoherent(cfg, m, nextProbe, status, lifetime, k);
        case ProbeLost => AfterProbeLostCoherent(cfg, m, nextProbe, k);
        case Signalled(kind) => AfterSignalCoherent(cfg, m, nextProbe, kind, k);
        case _ =>
      }
    }
  }

  /** For every run: the child is present at every loop head, so the "no live
      child" error is never returned; the next probe is armed exactly when the
      mode is Active. */
  lemma LoopHeadsAreCoherent(cfg: Config, first: SpawnEnv, script: seq<Tick>)
    requires Assembled(cfg)
    ensures Coherent(cfg, Execute(cfg, first, script))
  {
    var inv := s => Coherent(cfg, s);
    forall s, k | inv(s) && s.status.Running? ensures inv(Turn(cfg, s, k)) {
      TurnKeepsCoherent(cfg, s, k);
    }
    RunsPreserve(cfg, first, script, inv);
  }

  /** From any state a run can reach, the select never takes one of its
      defensive exits, and without a monitor it never reports a lost probe. */
  lemma DefensiveBranchesAreDead(cfg: Config, first: SpawnEnv, script: seq<Tick>, k: Tick)
    requires Assembled(cfg)
    requires Execute(cfg, first, script).status.Running?
    ensures
      var s := Execute(cfg, first, script);
      var (m, nextProbe, outcome) := Select(cfg, s.m, s.nextProbe, k);
      && outcome != Failed(NoChildError)
      && (ProbeDue(s.nextProbe, m.now, k) ==> cfg.monitor)
      && (outcome.ProbeLost? || outcome.ProbeAnswer? ==> cfg.monitorMode.Active?)
      && (outcome == Signalled(Terminate) ==> k.signal == Arrived(Terminate) || k.signal == Closed)
      && (outcome.ProbeLost? ==>
            TerminateChild(cfg.platform, Emit(m, ProbeTimeout, k.noticeLag), k.term).1 != NoChild)
  {
    LoopHeadsAreCoherent(cfg, first, script);
  }
}
