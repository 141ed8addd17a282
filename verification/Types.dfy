/** Values shared by every component: the public event and signal enums, the
    poll clock, and the generic Option and Result types. */
module Types {

  datatype Option<+T> = None | Some(value: T)

  datatype Result<+R, +E> = Success(value: R) | Failure(error: E)

  const U32_BOUND: nat := 0x1_0000_0000
  const U32_MAX: u32 := 0xFFFF_FFFF
  type u32 = x: int | 0 <= x < U32_BOUND
  type u64 = x: int | 0 <= x < 0x1_0000_0000_0000_0000

  /** Instants and durations are whole nanoseconds on one monotone clock. */
  const NANOS_PER_SEC: nat := 1_000_000_000

  datatype Platform = Unix | Windows

  datatype SignalKind = Terminate | Interrupt | UserDefined1 | Hangup | CtrlBreak {
    /** The two kinds that replace the child instead of ending the run. */
    predicate ForcesRespawn() {
      UserDefined1? || Hangup?
    }
  }

  datatype MonitorMode = Off | Active(port: nat, echo: Option<nat>)

  /** The raw status word; success is the all-zero word on both platforms. */
  datatype ExitStatus = ExitStatus(raw: int) {
    predicate Success() {
      raw == 0
    }
  }

  datatype Event =
    | ChildSpawned(pid: nat)
    | ChildExited(status: ExitStatus)
    | ChildRespawned
    | ProbeTimeout
    | MaxStartReached(attempts: u32)
    | MaxLifetimeReached
    | SignalReceived(kind: SignalKind)

  datatype PollClock = PollClock(
    poll: nat,
    firstPoll: nat,
    gateTime: nat,
    maxStart: Option<u32>,
    maxLifetime: Option<nat>)

  function Min(a: int, b: int): int {
    if a <= b then a else b
  }
}
