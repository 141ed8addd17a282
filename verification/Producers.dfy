/** The producers of the signal source go on listening: what every step of a
    schedule does to the one it concerns. */
module Producers {
  import opened Types
  import opened SupervisorSpec
  import opened SignalPipeline

  function After(cfg: Config, first: SpawnEnv, schedule: seq<Action>): System {
    Play(cfg, Launch(cfg, first), schedule)
  }

  lemma AfterOne(cfg: Config, first: SpawnEnv, schedule: seq<Action>, a: Action)
    ensures After(cfg, first, schedule + [a]) == Step(cfg, After(cfg, first, schedule), a)
  {
    hide Step;
    assert (schedule + [a])[..|schedule|] == schedule;
  }

  /** Step `j` of the schedule is the end of the stream of `kind`, and its producer
      was listening, with nothing in hand. */
  ghost predicate EndedAt(cfg: Config, first: SpawnEnv, schedule: seq<Action>, kind: SignalKind, j: nat) {
    && j < |schedule| && schedule[j] == Silence(kind)
    && Is(After(cfg, first, schedule[..j]).pipe, kind, Listening)
  }

  ghost predicate Ended(cfg: Config, first: SpawnEnv, schedule: seq<Action>, kind: SignalKind) {
    exists j: nat :: EndedAt(cfg, first, schedule, kind, j)
  }

  lemma EndedOne(cfg: Config, first: SpawnEnv, before: seq<Action>, a: Action, kind: SignalKind)
    ensures Ended(cfg, first, before + [a], kind) <==>
            Ended(cfg, first, before, kind) ||
            (a == Silence(kind) && Is(After(cfg, first, before).pipe, kind, Listening))
  {
    hide After, Is;
    var schedule := before + [a];
    assert schedule[..|before|] == before;
    forall j: nat | j < |before|
      ensures EndedAt(cfg, first, schedule, kind, j) <==> EndedAt(cfg, first, before, kind, j)
    {
      assert schedule[..j] == before[..j];
    }
    assert EndedAt(cfg, first, schedule, kind, |before|) <==>
           a == Silence(kind) && Is(After(cfg, first, before).pipe, kind, Listening);
    if j: nat :| EndedAt(cfg, first, before, kind, j) {
      assert EndedAt(cfg, first, schedule, kind, j);
    }
  }

  /** For every schedule whose run has not returned: there is one producer for each
      signal of the platform, and it has stopped exactly when its stream ended. */
  lemma {:induction false} ProducersListenUntilTheEnd(cfg: Config, first: SpawnEnv, schedule: seq<Action>,
                                                      kind: SignalKind)
    requires Assembled(cfg) && !After(cfg, first, schedule).sup.status.Returned?
    ensures
      var p := After(cfg, first, schedule).pipe;
      && p.producers.Keys == (if cfg.platform.Unix? then {Terminate, Interrupt, UserDefined1, Hangup}
                              else {Interrupt, CtrlBreak})
      && (Is(p, kind, Stopped) <==> Ended(cfg, first, schedule, kind))
    decreases |schedule|
  {
    if schedule == [] {
      assert !Ended(cfg, first, schedule, kind);
    } else {
      var (before, a) := (schedule[..|schedule| - 1], schedule[|schedule| - 1]);
      assert schedule == before + [a];
      hide After, Step, Ended;
      AfterOne(cfg, first, before, a);
      EndedOne(cfg, first, before, a, kind);
      StateIsInvariant(cfg, first, before);
      StepOnProducers(cfg, After(cfg, first, before), a, kind);
      ProducersListenUntilTheEnd(cfg, first, before, kind);
    }
  }

  lemma StateIsInvariant(cfg: Config, first: SpawnEnv, schedule: seq<Action>)
    requires Assembled(cfg)
    ensures
      var sys := After(cfg, first, schedule);
      (sys.pipe.open <==> !sys.sup.status.Returned?) && |sys.pipe.queue| <= 16
  {
    PlayKeepsInv(cfg, first, schedule);
  }

  lemma StepOnProducers(cfg: Config, sys: System, a: Action, kind: SignalKind)
    requires sys.pipe.open <==> !sys.sup.status.Returned?
    requires !Step(cfg, sys, a).sup.status.Returned?
    ensures !sys.sup.status.Returned?
    ensures Step(cfg, sys, a).pipe.producers.Keys == sys.pipe.producers.Keys
    ensures Is(Step(cfg, sys, a).pipe, kind, Stopped) <==>
            Is(sys.pipe, kind, Stopped) || (a == Silence(kind) && Is(sys.pipe, kind, Listening))
  {
    hide Turn;
  }

  /** For every schedule and a producer with a signal in hand: its send waits
      exactly while sixteen signals are queued, fails and ends it once the run has
      returned, and otherwise queues the signal and lets it listen again. */
  lemma SendsMakeProgress(cfg: Config, first: SpawnEnv, schedule: seq<Action>, kind: SignalKind)
    requires Assembled(cfg) && Is(After(cfg, first, schedule).pipe, kind, Holding)
    ensures
      var (sys, sys') := (After(cfg, first, schedule), After(cfg, first, schedule + [Push(kind)]));
      var (p, p') := (sys.pipe, sys'.pipe);
      && sys'.sup == sys.sup
      && p'.observed == p.observed && p'.consumed == p.consumed
      && (forall other :: other != kind && other in p.producers ==>
            other in p'.producers && p'.producers[other] == p.producers[other])
      && if sys.sup.status.Returned? then
           Is(p', kind, Stopped) && p'.lost == p.lost + [kind] && p'.queue == p.queue && p'.arrived == p.arrived
         else if |p.queue| == 16 then
           p' == p
         else
           && |p.queue| < 16 && Is(p', kind, Listening) && p'.lost == p.lost
           && p'.queue == p.queue + [kind] && p'.arrived == p.arrived + [kind]
  {
    hide After;
    AfterOne(cfg, first, schedule, Push(kind));
    StateIsInvariant(cfg, first, schedule);
  }

  /** A signal is observed exactly when its producer listens; the others are untouched. */
  lemma ListenersObserve(cfg: Config, first: SpawnEnv, schedule: seq<Action>, kind: SignalKind)
    ensures
      var (p, p') := (After(cfg, first, schedule).pipe, After(cfg, first, schedule + [Deliver(kind)]).pipe);
      if Is(p, kind, Listening) then
        p' == p.(producers := p.producers[kind := Holding], observed := p.observed + [kind])
      else p' == p
  {
    hide After;
    AfterOne(cfg, first, schedule, Deliver(kind));
  }

  /** A kind may come again and again: once sent, the next one is observed too. */
  lemma NextSignalIsObserved(cfg: Config, first: SpawnEnv, schedule: seq<Action>, kind: SignalKind)
    requires Assembled(cfg) && !After(cfg, first, schedule).sup.status.Returned?
    requires Is(After(cfg, first, schedule).pipe, kind, Holding) && |After(cfg, first, schedule).pipe.queue| < 16
    ensures
      var (p, p') := (After(cfg, first, schedule).pipe, After(cfg, first, schedule + [Push(kind), Deliver(kind)]).pipe);
      && p'.observed == p.observed + [kind] && p'.queue == p.queue + [kind]
      && Is(p', kind, Holding)
  {
    hide After;
    SendsMakeProgress(cfg, first, schedule, kind);
    ListenersObserve(cfg, first, schedule + [Push(kind)], kind);
    assert schedule + [Push(kind)] + [Deliver(kind)] == schedule + [Push(kind), Deliver(kind)];
  }
}
