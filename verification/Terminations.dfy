/** How often a run asks a child to go. */
module Terminations {
  import opened Types
  import opened SupervisorSpec
  import opened Runs
  import opened ProcessLog
  import opened TurnLaws

  /** The performed turns that end their child. */
  function TerminatingTurns(cfg: Config, first: SpawnEnv, script: seq<Tick>): nat {
    if script == [] then 0
    else
      var (before, k) := (script[..|script| - 1], script[|script| - 1]);
      var s := Execute(cfg, first, before);
      TerminatingTurns(cfg, first, before) + if s.status.Running? && Terminates(cfg, s, k) then 1 else 0
  }

  /** Among them those that must also kill: on Windows all, on Unix those whose grace runs out. */
  function KillingTurns(cfg: Config, first: SpawnEnv, script: seq<Tick>): nat {
    if script == [] then 0
    else
      var (before, k) := (script[..|script| - 1], script[|script| - 1]);
      var s := Execute(cfg, first, before);
      KillingTurns(cfg, first, before)
      + if s.status.Running? && Terminates(cfg, s, k) && (cfg.platform.Windows? || !k.term.inGrace) then 1 else 0
  }

  const IsSigTerm: ProcOp -> bool := (op: ProcOp) => op.SigTerm?
  const IsSigKill: ProcOp -> bool := (op: ProcOp) => op.SigKill?

  lemma {:induction false} TallySplit(a: seq<ProcOp>, b: seq<ProcOp>, p: ProcOp -> bool)
    ensures Tally(a + b, p) == Tally(a, p) + Tally(b, p)
    decreases |b|
  {
    if b == [] {
      assert a + b == a;
    } else {
      var n := |b| - 1;
      TallySplit(a, b[..n], p);
      assert a + b == (a + b[..n]) + [b[n]];
      TallyOne(a + b[..n], b[n], p);
    }
  }

  lemma FewTally(ops: seq<ProcOp>, p: ProcOp -> bool)
    requires 1 <= |ops| <= 4
    ensures Tally(ops, p) ==
            (if p(ops[0]) then 1 else 0) + (if |ops| > 1 && p(ops[1]) then 1 else 0)
            + (if |ops| > 2 && p(ops[2]) then 1 else 0) + (if |ops| > 3 && p(ops[3]) then 1 else 0)
  {
    var n := |ops|;
    assert n > 2 ==> ops[..n - 1][..n - 2] == ops[..n - 2];
    assert n > 3 ==> ops[..n - 2][..n - 3] == ops[..n - 3];
  }

  /** One turn adds one request, and one SIGKILL when the request needs it. */
  lemma TurnTally(cfg: Config, s: Loop, k: Tick, s': Loop)
    requires s.m.child.Some? && LogLaw(cfg, s, k, s')
    ensures
      var kills := Terminates(cfg, s, k) && (cfg.platform.Windows? || !k.term.inGrace);
      var terms := Terminates(cfg, s, k) && cfg.platform.Unix?;
      && Tally(s'.m.procs, IsSigTerm) == Tally(s.m.procs, IsSigTerm) + (if terms then 1 else 0)
      && Tally(s'.m.procs, IsSigKill) == Tally(s.m.procs, IsSigKill) + (if kills then 1 else 0)
  {
    hide Tally;
    var added := s'.m.procs[|s.m.procs|..];
    assert s'.m.procs == s.m.procs + added;
    TallySplit(s.m.procs, added, IsSigTerm);
    TallySplit(s.m.procs, added, IsSigKill);
    if added != [] {
      FewTally(added, IsSigTerm);
      FewTally(added, IsSigKill);
      if Terminates(cfg, s, k) {
        OnlySpawnsAfter(cfg, s, k, s');
      }
    } else {
      NoTally(IsSigTerm);
      NoTally(IsSigKill);
    }
  }

  lemma NoTally(p: ProcOp -> bool)
    ensures Tally([], p) == 0
  {
  }

  lemma OnlySpawnsAfter(cfg: Config, s: Loop, k: Tick, s': Loop)
    requires s.m.child.Some? && LogLaw(cfg, s, k, s') && Terminates(cfg, s, k)
    ensures
      var added := s'.m.procs[|s.m.procs|..];
      var n := if cfg.platform.Unix? && !k.term.inGrace then 2 else 1;
      |added| <= n + 2 && forall i :: n < i < |added| ==> added[i].Spawn?
  {
    var added := s'.m.procs[|s.m.procs|..];
    var n := if cfg.platform.Unix? && !k.term.inGrace then 2 else 1;
    forall i | n < i < |added| ensures added[i].Spawn? {
      assert added[n + 1..][i - n - 1] == added[i];
    }
  }

  /** For every run: as many SIGTERMs on Unix, and TerminateProcess calls on
      Windows, as turns that passed the deadline, lost a probe or handled a
      signal; and as many SIGKILLs as those of them that had to wait in vain. */
  lemma {:induction false} RequestsAreCounted(cfg: Config, first: SpawnEnv, script: seq<Tick>)
    requires Assembled(cfg)
    ensures
      var log := Execute(cfg, first, script).m.procs;
      && Tally(log, IsSigTerm) == (if cfg.platform.Unix? then TerminatingTurns(cfg, first, script) else 0)
      && Tally(log, IsSigKill) == KillingTurns(cfg, first, script)
      && (cfg.platform.Windows? ==> KillingTurns(cfg, first, script) == TerminatingTurns(cfg, first, script))
    decreases |script|
  {
    if script == [] {
      FirstSpawnIsExact(cfg, first);
    } else {
      var (before, k) := (script[..|script| - 1], script[|script| - 1]);
      assert script == before + [k];
      hide Execute, Terminates, LogLaw, Tally;
      RequestsAreCounted(cfg, first, before);
      if Execute(cfg, first, before).status.Running? {
        EveryTerminationAsks(cfg, first, before, k);
        TurnTally(cfg, Execute(cfg, first, before), k, Execute(cfg, first, script));
      } else {
        RunStep(cfg, first, before, k);
      }
    }
  }
}
