# rusty-autossh: a verified model

rusty-autossh keeps one ssh child alive. This project models, in Dafny, the parts of
it whose behaviour is decided over whole runs: the supervisor loop, the signal
source that feeds it, the two argument scanners, the poll-clock resolution and the
heartbeat line. It proves properties of every run, every schedule and every input.

## How the model is built

`SupervisorSpec.dfy` writes the loop of `src/supervisor.rs` as a function of what the
environment does. A `Tick` records every choice the outside world makes in one turn
of the loop: when the select wakes, which arms are ready then, how a termination and
a spawn go, and how long every call and every send to the event channel takes.
`Execute` folds the turns; a shorter script is a moment in the middle of a longer
run, so a lemma about `Execute` for every script is a lemma about every reachable
state. `Supervisor.dfy` is the object itself, with the fields of the original and one
method per method of the original (plus the arms of the loop as methods of their
own); each method is proved to compute the corresponding function, with the whole
new state in its contract.

The select is a prioritised choice over the arms that are ready: child exit, then
the probe timer, then the signal channel. `Waiting` is a select that never resolves.
Instants are natural numbers on one clock that never goes back; a sleep takes the
requested time plus any excess. The three logs are the events handed to the event
channel, the operations performed on processes, and the observations made about the
child; `History.dfy` proves that the last agrees with the first.

| file | content |
|---|---|
| `Types.dfy` | events, signals, modes, the poll clock |
| `SupervisorSpec.dfy`, `Supervisor.dfy` | the loop as a function, and as an object that refines it |
| `TurnLaws.dfy`, `Terminations.dfy` | what each performed turn does to the logs, the clock, the counter and the next probe |
| `Runs.dfy` | induction over runs; the invariant behind the loop's defensive branches |
| `EventGrammar.dfy`, `History.dfy` | the language of emitted events |
| `ProcessLog.dfy`, `SingleChild.dfy` | spawn, SIGTERM, SIGKILL and reap discipline; one child at a time |
| `RetryBudget.dfy`, `GateTiming.dfy`, `OneShot.dfy` | retry cap, gate time, lifetime, one-shot mode |
| `ProbePacing.dfy` | how often a child can have been probed |
| `SignalPipeline.dfy`, `Producers.dfy` | producers, bounded channel and supervisor under every interleaving |
| `Clock.dfy` | environment, flags and `-f`; the cap is inert under `-f` |
| `Strict.dfy`, `Cli.dfy`, `ScannerAgreement.dfy`, `Mode.dfy` | the argument scanners |
| `Heartbeat.dfy` | the heartbeat line and an exact reader for it |

## Where the code and its documentation part

The model follows the code.

- One-shot mode is documented as exiting non-zero on the first failure (in the
  repository, `README.md:68` and `src/lib.rs:375-376`). A run that ends because a probe
  was lost returns success (`src/supervisor.rs:376`). `LostProbeEndsOneShotQuietly`
  exhibits it; `OneShotPromiseIff` proves that the promise holds for every run of a
  configuration if and only if there is no monitor or the lifetime cap is zero.
- The forced-respawn handlers are documented as awaiting the reap before the new
  spawn, so that there is one child at a time (`src/supervisor.rs:230-233`), but a
  failed wait is ignored. `IgnoredWaitLosesAChild` exhibits the breach.
  `OneChildAtATime` proves that a run has at most one unreaped child at every moment if
  and only if no SIGUSR1 or SIGHUP it handled met a failed wait and a spawn that
  succeeded; `OnlyTheLiveChildIsUnreaped` states it for a run still going. A different
  promise, that a finished run has reaped every child, holds if and only if no wait of a
  performed turn failed (`ReapedIffNoFailedWait`, guard in `FailsWait`).
- `Some(n)` is documented as capping consecutive retries at n (`src/clock.rs:25-26`). A
  cap of 0 still lets one failure be counted and reports one attempt
  (`src/supervisor.rs:124-130`): `ZeroCapIsOne` proves that every run with cap 0 is the
  run with cap 1. A cap of 2^32 or more, by variable or by `--max-start`, is cut to 32
  bits (`src/clock.rs:134`, `src/main.rs:97`): `CapIsKeptIff` says that exactly the caps
  below 2^32 are kept, `WrappedCap` gives the input `4294967296`, which becomes a cap of 0.
- The first poll is documented to default to the poll (`src/clock.rs:22`), but `--poll`
  leaves it at the environment's poll (`src/clock.rs:164-169`). `FirstPollIgnoresFlag`
  gives the input `--poll 30`; `FirstPollFollowsIff` says exactly when the default holds.
- The strict parser's comment (`src/strict.rs:128-132`) rejects every other short flag,
  but a token that starts with `-f` or `-V` and goes on sets that flag.
  `ClusteredFlagIsAccepted` gives the input `-foo`; `UndocumentedShortIsRefusedIff` proves
  that the rule fails on exactly those tokens, and `ParseFailsIff` says exactly which
  argument vectors are refused.

## Model

| member | source | states |
|---|---|---|
| SupervisorLoop.Supervisor.constructor | src/lib.rs:560-576 | the loop starts with no child, counter 0, empty logs, and a monitor bound exactly when the mode is Active |
| SupervisorLoop.Supervisor.HandleChildExit | src/supervisor.rs:99-135 | the respawn decision and the new counter for every status, lifetime, mode and cap |
| SupervisorLoop.Supervisor.CheckLifetime | src/supervisor.rs:142-149 | the deadline is reported exactly when the elapsed time has reached the cap |
| SupervisorLoop.Supervisor.EmitEvent | src/supervisor.rs:152-156 | appends one event and lets any time pass; nothing else changes |
| SupervisorLoop.Supervisor.StartChild | src/supervisor.rs:164-173 | on success a new child with its spawn instant and one ChildSpawned event; on failure only time passes |
| SupervisorLoop.Supervisor.Terminate | src/supervisor.rs:178-214 | SIGTERM, grace, SIGKILL and wait per platform, the child slot emptied first, and the three outcomes |
| SupervisorLoop.Supervisor.HandleTermIntSignal | src/supervisor.rs:223-226 | a termination whose outcome is ignored |
| SupervisorLoop.Supervisor.HandleUsr1Signal | src/supervisor.rs:234-239 | termination, replacement, one ChildRespawned event, counter unchanged |
| SupervisorLoop.Supervisor.HandleHupSignal | src/supervisor.rs:247-253 | the same with the counter set to zero first, also when the spawn then fails |
| SupervisorLoop.Supervisor.HandleCtrlBreakSignal | src/supervisor.rs:261-276 | a termination whose outcome is ignored |
| SupervisorLoop.Supervisor.SleepAndRespawn | src/supervisor.rs:322-324 | at least the gate time passes before the spawn attempt |
| SupervisorLoop.Supervisor.SelectOneTick | src/supervisor.rs:420-512 | the biased choice among exit, probe and signal, the re-armed probe time, and the defensive exits |
| SupervisorLoop.Supervisor.OnChildExited | src/supervisor.rs:315-344 | the natural-exit arm, including its error results |
| SupervisorLoop.Supervisor.OnProbeTimeout | src/supervisor.rs:345-353 | the probe-timeout arm up to the reap |
| SupervisorLoop.Supervisor.OnChildReaped | src/supervisor.rs:354-378 | the probe-timeout arm after the reap, judged on a synthetic failure status |
| SupervisorLoop.Supervisor.OnSignal | src/supervisor.rs:379-413 | what each of the five signal kinds does |
| SupervisorLoop.Supervisor.OneTurn | src/supervisor.rs:294-415 | one turn of the loop equals the specified turn |
| SupervisorLoop.Supervisor.Run | src/supervisor.rs:284-416 | for every script of the environment the run ends in the specified state, status and logs |
| Runs.LoopHeadsAreCoherent | src/supervisor.rs:288-292 | in every reachable state: a child at every loop head, a next probe exactly when a monitor is bound, never the "no live child" error |
| Runs.DefensiveBranchesAreDead | src/supervisor.rs:437-474 | from every reachable loop head no defensive exit is taken, and without a monitor no probe happens |
| TurnLaws.FirstSpawnIsExact | src/supervisor.rs:284-292 | the first child, its spawn instant, its event and its first probe, or the spawn error |
| TurnLaws.ReplacementsAreExact | src/supervisor.rs:294-416 | what becomes of the run in every performed turn; the new child, its spawn instant a gate time after the told exit or at once after a signal, and the next probe: a first-poll interval after a replacement, a poll interval after an answer |
| EventGrammar.RunsSpeakTheLanguage | src/supervisor.rs:284-416 | every run's events are the first spawn, completed replacements, and one ending that fits the result, the exit status and the configuration |
| EventGrammar.EventBalance | src/supervisor.rs:315-330 | while the loop goes on: spawned = 1 + respawned = 1 + exited + forced |
| EventGrammar.VerdictsComeLast | src/supervisor.rs:335-412 | MaxLifetimeReached, MaxStartReached and stopping signals come last and fix the result; a forcing signal is followed by its replacement or by a spawn error; no lost probe with `-M 0` |
| EventGrammar.TurnAppends | src/supervisor.rs:307-414 | what one turn may append to the events, and that it starts with a signal exactly when the turn handles one |
| TurnLaws.EventsOfEveryTurn | src/supervisor.rs:307-414 | the exact events of every performed turn, with the status its wait returned and the process its spawn started |
| History.HistoryMatchesEvents | src/supervisor.rs:315-412 | exits, lost probes and forced replacements stand in the observation log in the order the events show them |
| ProcessLog.ProcessDiscipline | src/supervisor.rs:164-214 | in every run, on the supervisor's books: spawn only when no process is entered, signals only to the one entered, none left after a return |
| ProcessLog.StrictDiscipline | src/supervisor.rs:164-253 | the discipline in which a process leaves the books only by being reaped is kept exactly when no wait of a performed turn fails |
| ProcessLog.TurnFailures | src/supervisor.rs:195-213 | a turn from a loop head performs a failed wait exactly when the environment fails the wait of the arm it takes |
| ProcessLog.SignalsHitTheLiveChild | src/supervisor.rs:190-200 | every SIGTERM goes to the process live at that moment; on Unix a SIGKILL follows the SIGTERM of the same process by at least the grace period |
| TurnLaws.EveryTerminationAsks | src/supervisor.rs:178-214 | exactly the performed turns that pass the deadline, lose a probe or handle a signal ask their child to go: SIGTERM first on Unix, SIGKILL exactly ten seconds later and only if the grace runs out, TerminateProcess on Windows, then the wait; other turns send nothing |
| Terminations.RequestsAreCounted | src/supervisor.rs:178-214 | in every run, as many SIGTERMs (Unix) or TerminateProcess calls (Windows) as such turns, and as many Unix SIGKILLs as those whose grace ran out |
| ProcessLog.ProcessConservation | src/supervisor.rs:164-253 | spawned = reaped + failed waits + live, with one live until the return and none after |
| ProcessLog.EveryChildIsReaped | src/supervisor.rs:223-253 | if no wait fails, every child is reaped on return and exactly one is live before |
| ProcessLog.ReapedIffNoFailedWait | src/supervisor.rs:223-253 | a finished run has reaped every child exactly when the environment made no wait of a performed turn fail |
| SingleChild.OneChildAtATime | src/supervisor.rs:230-253 | in every run, at most one spawned process is unreaped at every moment if and only if no forced respawn that was performed met a failed wait and a successful spawn |
| SingleChild.OnlyTheLiveChildIsUnreaped | src/supervisor.rs:230-253 | while the loop goes on, spawned = reaped + 1 under exactly the same condition |
| SingleChild.FailedWaitTurn | src/supervisor.rs:178-253 | a failed wait ends the run with nothing after it, unless a forced respawn ignores it and its spawn succeeds |
| SingleChild.UnreapedHadFailedWaits | src/supervisor.rs:164-214 | at every moment the processes unreaped beside the supervised one are those whose wait failed, so none if no wait fails |
| SingleChild.IgnoredWaitLosesAChild | src/supervisor.rs:234-239 | a SIGUSR1 whose wait fails leaves the loop running with two unreaped children |
| RetryBudget.CounterMeaning | src/supervisor.rs:99-135 | in every reachable state the counter is the number of short failures after the last reset, capped at 2^32 - 1 |
| TurnLaws.LifetimesAreExact | src/supervisor.rs:455-463 | the lifetime a child is judged by is the time from its spawn to the exit seen by the select, or to the told exit after a lost probe; the counter moves by that lifetime, and a SIGHUP zeroes it |
| RetryBudget.CapStopsExactlyAtLimit | src/supervisor.rs:118-134 | MaxStartReached ends a run exactly when max(cap, 1) short failures have come since the last reset, and reports that number |
| RetryBudget.GlobalFailureBound | src/supervisor.rs:118-134 | at most (resets + 1)(limit - 1) short failures in a whole run, one more to end it |
| RetryBudget.ResetFreeRunStops | src/supervisor.rs:118-134 | a run without a reset has at most max(cap, 1) short failures, however found, and stops exactly at the last |
| RetryBudget.FlappingRunStops | src/supervisor.rs:315-378 | a run whose every turn observes a short failure, by exit or by lost probe, goes on for exactly max(cap, 1) of them and then stops |
| RetryBudget.ShortExitIsShortTurn | src/supervisor.rs:315-330 | a failing exit gives such a turn exactly when it comes before the gate time since the spawn, measured at the exit; from then on it resets the counter |
| RetryBudget.ShortLostProbeIsShortTurn | src/supervisor.rs:345-370 | the same for a lost probe, measured when the reaped exit has been told |
| RetryBudget.UncappedNeverStops | src/supervisor.rs:125-131 | without a cap no run but a one-shot run returns the MaxStartReached error |
| RetryBudget.ZeroCapIsOne | src/supervisor.rs:124-130 | every run with a cap of 0 is the run with a cap of 1 |
| RetryBudget.ZeroGateDisarmsTheCap | src/supervisor.rs:119-134 | with gate time 0 the counter is 0 in every reachable state and the cap never ends a run |
| GateTiming.ElapsedCoversBackOffs | src/supervisor.rs:319-323 | at every loop head at least one gate time has passed per backoff respawn and per failing child that outlived the gate |
| GateTiming.LifetimeBoundsBackOffs | src/supervisor.rs:142-149 | with a lifetime cap a whole run makes at most ceil(cap / gate) backoff respawns |
| GateTiming.BoundIsReached | src/supervisor.rs:294-330 | a child that always fails at once is replaced that many times: the bound is tight |
| ProbePacing.ProbesKeepTheirDistance | src/supervisor.rs:465-487 | in every run, a child that has answered n probes is at least first-poll + (n - 1) poll intervals old |
| OneShot.OneShotStopsAtFirstFailure | src/supervisor.rs:100-103 | a one-shot run sees no failure while it goes on and at most one at its end: with the error and one attempt after an exit, with success after a lost probe |
| OneShot.OneShotErrsIff | src/supervisor.rs:340-342 | a one-shot run returns the error exactly when a performed turn before the deadline finds the child exited with a failure |
| OneShot.OneShotPromiseIff | src/supervisor.rs:361-377 | every run of a one-shot configuration that saw a failure avoids success if and only if there is no monitor or the lifetime cap is zero |
| OneShot.LostProbeEndsOneShotQuietly | src/supervisor.rs:361-377 | a one-shot run whose first probe is lost before the deadline returns success |
| SignalPipeline.SignalSource.constructor | src/signals.rs:38-77 | one idle producer per signal kind of the platform and an empty channel |
| SignalPipeline.SignalSource.OnSignal | src/signals.rs:53-53 | an idle producer takes one signal in hand |
| SignalPipeline.SignalSource.Send | src/signals.rs:54-56 | a send waits while 16 are queued, fails once the receiver is gone, and otherwise queues the signal at the back |
| SignalPipeline.SignalSource.OnStreamEnd | src/signals.rs:50-53 | a stream that ends or cannot be installed ends its producer |
| SignalPipeline.SignalSource.Receive | src/supervisor.rs:444-449 | takes the oldest signal, or reports the channel closed exactly when it is empty and all producers ended |
| SignalPipeline.SignalSource.DropReceiver | src/lib.rs:578-579 | when the run returns the receiver goes away and nothing else changes |
| SignalPipeline.NoSignalIsLost | src/signals.rs:26-77 | for every schedule: at most 16 queued, first in first out, and per kind observed = consumed + queued + in hand, nothing dropped before the run returns |
| Producers.ProducersListenUntilTheEnd | src/signals.rs:38-77 | until the run returns there is one producer per signal of the platform, stopped exactly when its stream ended while it listened |
| Producers.SendsMakeProgress | src/signals.rs:53-57 | a producer with a signal in hand waits exactly while 16 are queued; otherwise the signal is queued at the back and the producer listens again; after the return the signal is dropped and the producer ends |
| Producers.ListenersObserve | src/signals.rs:53-53 | a signal is observed exactly when its producer listens |
| Producers.NextSignalIsObserved | src/signals.rs:53-57 | after a send the next signal of the same kind is observed |
| SignalPipeline.SignalEventsAreArrivals | src/supervisor.rs:489-496 | for every schedule the signal events are a prefix of the arrivals, plus at most one made-up Terminate when the channel is drained and closed |
| SignalPipeline.SignalsAreTheLastResort | src/supervisor.rs:451-497 | a poll handles a signal exactly when neither deadline, exit nor due probe comes first and the channel has one; it handles the oldest |
| SignalPipeline.SchedulesAreRuns | src/supervisor.rs:379-412 | the supervisor inside every schedule performs one of the runs the other theorems speak of |
| Clock.ResolveFromEnv | src/clock.rs:109-150 | each of the five variables sets its own field in nanoseconds, with its default (600 s, the poll, 30 s, no cap, no lifetime), its unlimited sentinel and the 32-bit cut of the cap |
| Clock.OneVariableOneField | src/clock.rs:109-150 | setting a variable moves no other field, save that the poll takes an unset first poll along |
| Clock.UnsignedIsExact | src/clock.rs:112-147 | a text is read as n exactly if it is decimal digits, with or without a plus, that write n below 2^64 |
| Clock.SignedIsExact | src/clock.rs:131-132 | the same for the signed cap, with either sign, within 64 bits |
| Clock.UnparsableIsUnset | src/clock.rs:107-108 | a variable that does not parse as the number it is read as leaves the clock as if it were unset |
| Clock.CapIsKeptIff | src/clock.rs:131-136 | the cap in force is the cap asked for, by flag or variable, exactly below 2^32; a multiple of 2^32 acts like a cap of 1 |
| Clock.WrappedCap | src/clock.rs:131-136 | `AUTOSSH_MAXSTART=4294967296` gives a cap of 0 |
| Clock.FirstPollFollowsIff | src/clock.rs:164-169 | a first poll nobody set equals the poll in force exactly when `--poll` does not change the environment's poll |
| Clock.FirstPollIgnoresFlag | src/clock.rs:164-169 | `--poll 30` alone leaves the first poll at 600 seconds |
| Clock.ResolveFromEnvAndFlags | src/clock.rs:157-186 | each flag sets its own field over the environment's, and `-f` sets the gate time to 0 over both |
| Clock.CommandLineWins | src/main.rs:89-110 | every number of the command line sets its own field in nanoseconds, with the sentinels and the 32-bit cut; without it the environment's value stays |
| Clock.Launch | src/main.rs:89-120 | reading the numbers of the command line, resolving, building and running gives the run of the resolved configuration |
| Clock.DashFDisarmsTheCap | src/clock.rs:180-183 | with `-f`, for every environment, flags and run, the counter stays 0 and the cap never ends the run |
| Strict.ParseArgv | src/strict.rs:139-241 | the index loop with lookahead accepts and rejects exactly like the one-token automaton |
| Strict.RoundTrip | src/strict.rs:139-241 | rendering any result and parsing it gives it back, for every monitor string and every ssh argument |
| Strict.AcceptedSuffix | src/strict.rs:153-238 | accepted ssh arguments are bare dashes followed by an exact suffix of the arguments |
| Strict.ParseFailsIff | src/strict.rs:139-241 | exactly the argument vectors with an offending token where options are expected, or a final `-M` without a value, are refused; the latter with the missing-value error for M |
| Strict.RejectedIffOffence | src/strict.rs:165-231 | the scan rejects exactly when some token offends, by its text alone, where options are expected |
| Strict.FirstOffenceWins | src/strict.rs:75-89 | the error line is `autossh: invalid option -- 'X'` with the letter of the first offending token if that is short, and `autossh: unrecognized option` with the whole token otherwise |
| Strict.ModeFlagTexts | src/strict.rs:165-174 | the mode flags are `--strict` and `--no-strict`, bare or with `=` and any text |
| Strict.UndocumentedShortIsRefusedIff | src/strict.rs:198-221 | an undocumented short token is refused exactly when it starts with neither `-f` nor `-V` |
| Strict.ClusteredFlagIsAccepted | src/strict.rs:212-212 | `-foo` is read as `-f` |
| Strict.NothingAfterRejection | src/strict.rs:165-231 | no later token changes an error |
| Strict.ModeFlagsAreTransparent | src/strict.rs:165-174 | a mode flag inserted where options are expected changes no result and no error |
| Strict.ModeFlagsAreKeptBehindSeparator | src/strict.rs:153-157 | behind the separator it is passed to ssh |
| Cli.SplitAutosshArgs | src/cli.rs:138-165 | the index loop computes the specified pair |
| Cli.FirstTokenDecides | src/cli.rs:167-216 | which first tokens are flags, which take the next token along, and where the split stops, by the two tables |
| Cli.SplitIsPartition | src/cli.rs:138-165 | no token is lost, repeated or reordered; at most one separator goes |
| Cli.ResplitIsStable | src/cli.rs:138-216 | splitting again gives the same pair exactly when the flags do not end in a value-taking flag without a value |
| ScannerAgreement.ScannersAgree | src/cli.rs:138-216 | on flags both scanners know, the strict parser accepts with the same ssh arguments, the last `-M` value and the same switches |
| Mode.Resolve | src/mode.rs:27-61 | the last mode flag anywhere decides; without one Strict mode is on exactly when the variable says so or the program is called autossh |
| Mode.ActivatesIff | src/mode.rs:44-51 | the variable says so exactly when it is 1, true or yes in any letter case, between any blanks |
| Heartbeat.PayloadBytes | src/monitor.rs:277-282 | the bytes: at least sixteen digits 48..57 that write the timestamp, 32 and the message if there is one, and 10 |
| Heartbeat.GuardMatchesCodec | src/monitor.rs:87-97 | the newline guard lets a message through if and only if whatever the loop then sends reads back as its beats |
| Heartbeat.BoundLoopsDecodeUniquely | src/monitor.rs:171-176 | bound loops that send the same bytes had the same timestamps and message |
| Heartbeat.SeventeenBytes | src/monitor.rs:277-282 | seventeen bytes exactly when there is no message and the timestamp is below 10^16 |
| Heartbeat.OneLinePerPayload | src/monitor.rs:277-282 | the only LF of a payload is its last byte |
| Heartbeat.StreamRoundTrip | src/monitor.rs:277-282 | any stream of payloads reads back as the beats that made it |
| Heartbeat.StreamsDecodeUniquely | src/monitor.rs:277-282 | equal bytes come from equal sequences of beats; absent and empty messages differ |
| Heartbeat.CodecIsExact | src/monitor.rs:277-282 | a byte string reads as a sequence of beats exactly when it is their stream |

## Left out

- Sockets, probe I/O, process spawning and `kill`: nondeterministic outcomes in a `Tick`.
- The runtime's timers, wake-ups and fairness: only the prioritised choice over ready arms; no liveness claim.
- `Mode.Resolve`: takes the file stem of the program's name as given.
- `SupervisorLoop.Supervisor.constructor`: the ways to fail before the loop starts (ssh path, listeners, pidfile, logfile) are not modelled.
- Environment variables whose value is not Unicode: they read as unset.
- `Heartbeat.ProbePayload`: a message is its UTF-8 bytes; encoding is not modelled.
- `SupervisorLoop.Supervisor.EmitEvent`: logs every event, whether or not a consumer is attached or a send succeeds.
- `SignalPipeline.PollStep`: a turn of the supervisor is one step of a schedule; the channel is read only when the select resolves, so a producer's step during a turn is one before or after it.
- Signals the operating system merges before a stream reports them: a schedule starts at the report.
- Non-UTF-8 arguments in all three scanners, and the search for the ssh binary.
- The forwards added to the ssh arguments, the builder's setters, and parsing of the `-M` value: straight-line code. The documented variable `AUTOSSH_PORT` (`README.md:97` in the repository) is read nowhere in the source.
- Daemonizing, pidfile, logfile, completions, clap parsing and exit codes.
- Overflow of instants and durations: they are unbounded naturals; the retry counter and the cap are 32 bits wide.
