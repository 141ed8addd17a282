/** The signal source: one producer task per signal kind, one bounded channel,
    and the supervisor that drains it.  Every schedule of the producers and the
    supervisor is a sequence of actions; `Play` runs it. */
module SignalPipeline {
  import opened Types
  import opened SupervisorSpec
  import opened Runs
  import opened EventGrammar
  import TurnLaws

  const CAPACITY: nat := 16

  /** Listening on the signal stream, holding one signal that waits to be sent, or ended. */
  datatype Producer = Listening | Holding | Stopped

  function Listeners(platform: Platform): set<SignalKind> {
    if platform.Unix? then {Terminate, Interrupt, UserDefined1, Hangup} else {Interrupt, CtrlBreak}
  }

  /** The producers and the channel, with what was observed on the streams,
      entered the channel, left it, and was dropped by a failed send. */
  datatype Pipe = Pipe(
    producers: map<SignalKind, Producer>,
    queue: seq<SignalKind>,
    open: bool,
    observed: seq<SignalKind>,
    arrived: seq<SignalKind>,
    consumed: seq<SignalKind>,
    lost: seq<SignalKind>)

  function FreshPipe(platform: Platform): Pipe {
    Pipe(map kind | kind in Listeners(platform) :: Listening, [], true, [], [], [], [])
  }

  predicate Is(p: Pipe, kind: SignalKind, state: Producer) {
    kind in p.producers && p.producers[kind] == state
  }

  /** The stream yields a signal to its idle producer. */
  function Observe(p: Pipe, kind: SignalKind): Pipe {
    if Is(p, kind, Listening)
    then p.(producers := p.producers[kind := Holding], observed := p.observed + [kind])
    else p
  }

  /** The producer's send makes progress: it fails once the receiver is gone,
      waits while the channel is full, and succeeds otherwise. */
  function Forward(p: Pipe, kind: SignalKind): Pipe {
    if !Is(p, kind, Holding) then p
    else if !p.open then p.(producers := p.producers[kind := Stopped], lost := p.lost + [kind])
    else if |p.queue| >= CAPACITY then p
    else p.(producers := p.producers[kind := Listening], queue := p.queue + [kind], arrived := p.arrived + [kind])
  }

  /** The stream ends, or could not be installed. */
  function EndStream(p: Pipe, kind: SignalKind): Pipe {
    if Is(p, kind, Listening) then p.(producers := p.producers[kind := Stopped]) else p
  }

  predicate AllStopped(p: Pipe) {
    forall kind :: kind in p.producers ==> p.producers[kind] == Stopped
  }

  /** What a receive would return now. */
  function Front(p: Pipe): SignalArm {
    if p.queue != [] then Arrived(p.queue[0]) else if AllStopped(p) then Closed else Quiet
  }

  function Take(p: Pipe): Pipe {
    if p.queue == [] then p else p.(queue := p.queue[1..], consumed := p.consumed + [p.queue[0]])
  }

  /** The receiver goes away with the supervisor that owns it. */
  function Shut(p: Pipe): Pipe {
    p.(open := false)
  }

  /** The shared channel as an object the tasks and the supervisor act on. */
  class SignalSource {
    var producers: map<SignalKind, Producer>
    var queue: seq<SignalKind>
    var open: bool
    ghost var observed: seq<SignalKind>
    ghost var arrived: seq<SignalKind>
    ghost var consumed: seq<SignalKind>
    ghost var lost: seq<SignalKind>

    ghost function View(): Pipe
      reads this
    {
      Pipe(producers, queue, open, observed, arrived, consumed, lost)
    }

    constructor (platform: Platform)
      ensures View() == FreshPipe(platform)
    {
      producers := match platform
        case Unix => map[Terminate := Listening, Interrupt := Listening, UserDefined1 := Listening, Hangup := Listening]
        case Windows => map[Interrupt := Listening, CtrlBreak := Listening];
      queue, open := [], true;
      observed, arrived, consumed, lost := [], [], [], [];
    }

    method OnSignal(kind: SignalKind)
      modifies this
      ensures View() == Observe(old(View()), kind)
    {
      if kind in producers && producers[kind] == Listening {
        producers := producers[kind := Holding];
        observed := observed + [kind];
      }
    }

    method Send(kind: SignalKind)
      modifies this
      ensures View() == Forward(old(View()), kind)
    {
      if kind !in producers || producers[kind] != Holding {
        return;
      }
      if !open {
        producers := producers[kind := Stopped];
        lost := lost + [kind];
      } else if |queue| < CAPACITY {
        queue := queue + [kind];
        arrived := arrived + [kind];
        producers := producers[kind := Listening];
      }
    }

    method OnStreamEnd(kind: SignalKind)
      modifies this
      ensures View() == EndStream(old(View()), kind)
    {
      if kind in producers && producers[kind] == Listening {
        producers := producers[kind := Stopped];
      }
    }

    method Receive() returns (arm: SignalArm)
      modifies this
      ensures arm == Front(old(View()))
      ensures View() == Take(old(View()))
    {
      if queue != [] {
        arm := Arrived(queue[0]);
        consumed := consumed + [queue[0]];
        queue := queue[1..];
      } else if forall kind :: kind in producers ==> producers[kind] == Stopped {
        arm := Closed;
      } else {
        arm := Quiet;
      }
    }

    method DropReceiver()
      modifies this
      ensures View() == Shut(old(View()))
    {
      open := false;
    }
  }

  // ---------------------------------------------------------------- the composed system

  datatype System = System(pipe: Pipe, sup: Loop)

  /** One step of a schedule. */
  datatype Action = Deliver(kind: SignalKind) | Push(kind: SignalKind) | Silence(kind: SignalKind) | Poll(tick: Tick)

  /** A tick as the supervisor sees it: the signal arm shows the channel's front. */
  function Seen(sys: System, k: Tick): Tick {
    k.(signal := Front(sys.pipe))
  }

  /** The supervisor's select resolves on the channel as it stands, or keeps
      waiting and leaves everything as it was. */
  function PollStep(cfg: Config, sys: System, k: Tick): System {
    if !sys.sup.status.Running? then sys
    else
      var sup' := Turn(cfg, sys.sup, Seen(sys, k));
      if sup'.status.Waiting? then sys
      else
        var pipe' := if PollsSignals(cfg, sys.sup, k) then Take(sys.pipe) else sys.pipe;
        System(if sup'.status.Returned? then Shut(pipe') else pipe', sup')
  }

  function Step(cfg: Config, sys: System, a: Action): System {
    match a
    case Deliver(kind) => sys.(pipe := Observe(sys.pipe, kind))
    case Push(kind) => sys.(pipe := Forward(sys.pipe, kind))
    case Silence(kind) => sys.(pipe := EndStream(sys.pipe, kind))
    case Poll(k) => PollStep(cfg, sys, k)
  }

  function Play(cfg: Config, sys: System, schedule: seq<Action>): System
    decreases |schedule|
  {
    if schedule == [] then sys
    else Step(cfg, Play(cfg, sys, schedule[..|schedule| - 1]), schedule[|schedule| - 1])
  }

  /** The channel is set up before the first spawn. */
  function Launch(cfg: Config, first: SpawnEnv): System {
    var sup := Execute(cfg, first, []);
    var pipe := FreshPipe(cfg.platform);
    System(if sup.status.Returned? then Shut(pipe) else pipe, sup)
  }

  // ---------------------------------------------------------------- invariants

  function InHand(p: Pipe, kind: SignalKind): nat {
    if Is(p, kind, Holding) then 1 else 0
  }

  function Times(s: seq<SignalKind>, kind: SignalKind): nat {
    multiset(s)[kind]
  }

  /** Bounded, first in first out, and nothing lost or duplicated. */
  ghost predicate Conserving(p: Pipe) {
    && |p.queue| <= CAPACITY
    && p.arrived == p.consumed + p.queue
    && (p.open ==> p.lost == [])
    && forall kind: SignalKind ::
         Times(p.observed, kind) == Times(p.arrived, kind) + Times(p.lost, kind) + InHand(p, kind)
  }

  /** The signals among the events, in order. */
  function Signals(ev: seq<Event>): seq<SignalKind> {
    if ev == [] then []
    else
      var (before, e) := (Signals(ev[..|ev| - 1]), ev[|ev| - 1]);
      if e.SignalReceived? then before + [e.kind] else before
  }

  /** The events show exactly what was taken from the channel, possibly followed
      by the Terminate made up when it was closed and empty. */
  ghost predicate Faithful(sys: System) {
    || Signals(sys.sup.m.events) == sys.pipe.consumed
    || (&& Signals(sys.sup.m.events) == sys.pipe.consumed + [Terminate]
        && sys.pipe.queue == [] && AllStopped(sys.pipe) && sys.sup.status == Returned(Finished))
  }

  lemma {:induction false} SignalsSplit(a: seq<Event>, b: seq<Event>)
    ensures Signals(a + b) == Signals(a) + Signals(b)
    decreases |b|
  {
    if b == [] {
      assert a + b == a;
    } else {
      assert (a + b)[..|a + b| - 1] == a + b[..|b| - 1];
      SignalsSplit(a, b[..|b| - 1]);
    }
  }

  lemma {:induction false} NoSignals(b: seq<Event>)
    requires forall i :: 0 <= i < |b| ==> !b[i].SignalReceived?
    ensures Signals(b) == []
  {
    if b != [] {
      NoSignals(b[..|b| - 1]);
    }
  }

  lemma BlockSignals(cfg: Config, b: seq<Event>, result: RunResult)
    requires b == [] || Cycle(cfg, b) || Ending(cfg, b, result)
    ensures Signals(b) == if b != [] && b[0].SignalReceived? then [b[0].kind] else []
  {
    if b != [] {
      assert b == [b[0]] + b[1..];
      SignalsSplit([b[0]], b[1..]);
      NoSignals(b[1..]);
    }
  }

  /** One turn adds to the signal events exactly the signal it handles. */
  lemma TurnSignals(cfg: Config, s: Loop, k: Tick)
    requires Assembled(cfg) && Coherent(cfg, s) && s.status.Running?
    ensures
      var added := match HandledSignal(cfg, s, k) { case None => [] case Some(kind) => [kind] };
      Signals(Turn(cfg, s, k).m.events) == Signals(s.m.events) + added
  {
    var b := TurnAppends(cfg, s, k);
    hide Turn, Signals, HandledSignal;
    SignalsSplit(s.m.events, b);
    var status := Turn(cfg, s, k).status;
    BlockSignals(cfg, b, if status.Returned? then status.result else Finished);
  }

  lemma ReactionsEndTheWait(cfg: Config, m: Machine, nextProbe: Option<nat>, k: Tick)
    ensures forall status, lifetime :: !AfterExit(cfg, m, nextProbe, status, lifetime, k).status.Waiting?
    ensures !AfterProbeLost(cfg, m, nextProbe, k).status.Waiting?
    ensures forall kind :: !AfterSignal(cfg, m, nextProbe, kind, k).status.Waiting?
    ensures forall kind: SignalKind :: !kind.ForcesRespawn() ==>
              AfterSignal(cfg, m, nextProbe, kind, k).status == Returned(Finished)
  {
  }

  /** A turn waits exactly when it polls a quiet channel, and a Terminate ends the run. */
  lemma TurnStatus(cfg: Config, s: Loop, k: Tick)
    requires Assembled(cfg) && Coherent(cfg, s) && s.status.Running?
    ensures Turn(cfg, s, k).status.Waiting? <==> PollsSignals(cfg, s, k) && k.signal.Quiet?
    ensures HandledSignal(cfg, s, k) == Some(Terminate) ==> Turn(cfg, s, k).status == Returned(Finished)
  {
    hide AfterExit, AfterProbeLost, AfterSignal;
    if !LifetimeReached(cfg, s.m.now) {
      var (m, nextProbe, outcome) := Select(cfg, s.m, s.nextProbe, k);
      ReactionsEndTheWait(cfg, m, nextProbe, k);
    }
  }

  ghost predicate SystemInv(cfg: Config, sys: System) {
    && Coherent(cfg, sys.sup) && !sys.sup.status.Waiting?
    && Conserving(sys.pipe) && Faithful(sys)
    && (sys.pipe.open <==> sys.sup.status.Running?)
    && (sys.sup.status.Running? ==> Signals(sys.sup.m.events) == sys.pipe.consumed)
  }

  lemma ObserveConserves(p: Pipe, kind: SignalKind)
    requires Conserving(p)
    ensures Conserving(Observe(p, kind))
  {
  }

  lemma ForwardConserves(p: Pipe, kind: SignalKind)
    requires Conserving(p)
    ensures Conserving(Forward(p, kind))
  {
  }

  lemma TakeConserves(p: Pipe)
    requires Conserving(p)
    ensures Conserving(Take(p))
  {
  }

  lemma ShutConserves(p: Pipe)
    requires Conserving(p)
    ensures Conserving(Shut(p))
  {
  }

  lemma PollKeepsInv(cfg: Config, sys: System, k: Tick)
    requires Assembled(cfg) && SystemInv(cfg, sys)
    ensures SystemInv(cfg, PollStep(cfg, sys, k))
  {
    hide Turn, Signals, Conserving;
    if sys.sup.status.Running? {
      TurnKeepsCoherent(cfg, sys.sup, Seen(sys, k));
      TurnSignals(cfg, sys.sup, Seen(sys, k));
      TurnStatus(cfg, sys.sup, Seen(sys, k));
      TakeConserves(sys.pipe);
      ShutConserves(sys.pipe);
      ShutConserves(Take(sys.pipe));
    }
  }

  lemma StepKeepsInv(cfg: Config, sys: System, a: Action)
    requires Assembled(cfg) && SystemInv(cfg, sys)
    ensures SystemInv(cfg, Step(cfg, sys, a))
  {
    hide PollStep, Signals;
    match a {
      case Deliver(kind) => ObserveConserves(sys.pipe, kind);
      case Push(kind) => ForwardConserves(sys.pipe, kind);
      case Silence(kind) =>
      case Poll(k) => PollKeepsInv(cfg, sys, k);
    }
  }

  lemma {:induction false} PlayKeepsInv(cfg: Config, first: SpawnEnv, schedule: seq<Action>)
    requires Assembled(cfg)
    ensures SystemInv(cfg, Play(cfg, Launch(cfg, first), schedule))
    decreases |schedule|
  {
    hide Step, SystemInv;
    if schedule == [] {
      LaunchInv(cfg, first);
    } else {
      PlayKeepsInv(cfg, first, schedule[..|schedule| - 1]);
      StepKeepsInv(cfg, Play(cfg, Launch(cfg, first), schedule[..|schedule| - 1]), schedule[|schedule| - 1]);
    }
  }

  lemma LaunchInv(cfg: Config, first: SpawnEnv)
    requires Assembled(cfg)
    ensures SystemInv(cfg, Launch(cfg, first))
  {
    LoopHeadsAreCoherent(cfg, first, []);
  }

  /** For every schedule of the producers and the supervisor: the channel never
      holds more than 16 signals; it is first in first out; and for every kind,
      observed = consumed + queued + in hand, with nothing lost before the run returns. */
  lemma NoSignalIsLost(cfg: Config, first: SpawnEnv, schedule: seq<Action>, kind: SignalKind)
    requires Assembled(cfg)
    ensures
      var sys := Play(cfg, Launch(cfg, first), schedule);
      var p := sys.pipe;
      && |p.queue| <= 16
      && p.arrived == p.consumed + p.queue
      && Times(p.observed, kind) ==
           Times(p.consumed, kind) + Times(p.queue, kind) + InHand(p, kind) + Times(p.lost, kind)
      && (!sys.sup.status.Returned? ==> p.lost == [])
  {
    PlayKeepsInv(cfg, first, schedule);
    var p := Play(cfg, Launch(cfg, first), schedule).pipe;
    assert multiset(p.arrived) == multiset(p.consumed) + multiset(p.queue);
  }

  /** For every schedule: the signal events are a prefix of the channel's
      arrivals, in order, followed by at most one made-up Terminate; that one
      appears only when the channel is drained and closed, and ends the run. */
  lemma SignalEventsAreArrivals(cfg: Config, first: SpawnEnv, schedule: seq<Action>)
    requires Assembled(cfg)
    ensures
      var sys := Play(cfg, Launch(cfg, first), schedule);
      var handled := Signals(sys.sup.m.events);
      || handled <= sys.pipe.arrived
      || (&& handled == sys.pipe.arrived + [Terminate] && AllStopped(sys.pipe)
          && sys.sup.status == Returned(Finished))
  {
    PlayKeepsInv(cfg, first, schedule);
  }

  /** The supervisor inside every schedule performs a run of its own: all the
      theorems about runs hold of it. */
  lemma {:induction false} SchedulesAreRuns(cfg: Config, first: SpawnEnv, schedule: seq<Action>)
    returns (script: seq<Tick>)
    ensures Play(cfg, Launch(cfg, first), schedule).sup == Execute(cfg, first, script)
    decreases |schedule|
  {
    hide Turn, Execute;
    script := [];
    if schedule != [] {
      var (before, a) := (schedule[..|schedule| - 1], schedule[|schedule| - 1]);
      script := SchedulesAreRuns(cfg, first, before);
      var sys := Play(cfg, Launch(cfg, first), before);
      if a.Poll? && sys.sup.status.Running? && !Turn(cfg, sys.sup, Seen(sys, a.tick)).status.Waiting? {
        RunStep(cfg, first, script, Seen(sys, a.tick));
        script := script + [Seen(sys, a.tick)];
      }
    }
  }

  /** The signal events after a poll of `sys`, and the channel it leaves. */
  ghost predicate HandlesOnlyWhenIdle(cfg: Config, sys: System, k: Tick) {
    var sys' := PollStep(cfg, sys, k);
    var idle := TurnLaws.ArmOf(cfg, sys.sup, k.(signal := Quiet)).Nothing?;
    && Signals(sys'.sup.m.events) == Signals(sys.sup.m.events) +
         (if !idle then []
          else if sys.pipe.queue != [] then [sys.pipe.queue[0]]
          else if forall kind :: kind in sys.pipe.producers ==> sys.pipe.producers[kind] == Stopped then [Terminate]
          else [])
    && sys'.pipe.queue == if idle && sys.pipe.queue != [] then sys.pipe.queue[1..] else sys.pipe.queue
  }

  lemma PollHandles(cfg: Config, sys: System, k: Tick)
    requires Assembled(cfg) && Coherent(cfg, sys.sup) && sys.sup.status.Running?
    ensures HandlesOnlyWhenIdle(cfg, sys, k)
  {
    hide Turn, Signals;
    TurnSignals(cfg, sys.sup, Seen(sys, k));
    TurnStatus(cfg, sys.sup, Seen(sys, k));
  }

  /** Signals come last: a poll handles one exactly when the deadline has not
      passed, the child has not exited, no probe is due, and the channel has one
      to give; and then it handles the oldest. */
  lemma SignalsAreTheLastResort(cfg: Config, first: SpawnEnv, schedule: seq<Action>, k: Tick)
    requires Assembled(cfg)
    requires Play(cfg, Launch(cfg, first), schedule).sup.status.Running?
    ensures HandlesOnlyWhenIdle(cfg, Play(cfg, Launch(cfg, first), schedule), k)
  {
    hide HandlesOnlyWhenIdle, Play, Launch;
    PlayKeepsInv(cfg, first, schedule);
    PollHandles(cfg, Play(cfg, Launch(cfg, first), schedule), k);
  }
}
