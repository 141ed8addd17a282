/** How environment variables, flags and `-f` make up the poll clock. */
module Clock {
  import opened Types
  import opened SupervisorSpec
  import opened SupervisorLoop
  import RetryBudget

  const DEFAULT_POLL_SECS: nat := 600
  const DEFAULT_GATE_TIME_SECS: nat := 30

  /** The environment: every variable whose value is Unicode text. */
  type Env = map<string, string>

  type i64 = x: int | -0x8000_0000_0000_0000 <= x < 0x8000_0000_0000_0000

  function Digits(s: string): Option<nat> {
    if s == "" then None
    else
      var (before, c) := (s[..|s| - 1], s[|s| - 1]);
      if !('0' <= c <= '9') then None
      else
        Shifted(if before == "" then Some(0) else Digits(before), c)
  }

  /** One more digit on the right. */
  function Shifted(n: Option<nat>, c: char): Option<nat>
    requires '0' <= c <= '9'
  {
    if n.Some? then Some(10 * n.value + (c as int - '0' as int)) else None
  }

  /** Decimal digits after an optional plus sign, within 64 bits. */
  function ParseU64(s: string): Option<u64> {
    var n := Digits(if "+" <= s then s[1..] else s);
    if n.Some? && n.value < 0x1_0000_0000_0000_0000 then Some(n.value) else None
  }

  /** Decimal digits after an optional sign, within 64 bits and the sign. */
  function ParseI64(s: string): Option<i64> {
    var negative := "-" <= s;
    var n := Digits(if negative || "+" <= s then s[1..] else s);
    if n.None? || n.value > (if negative then 0x8000_0000_0000_0000 else 0x7FFF_FFFF_FFFF_FFFF) then None
    else
      var magnitude: int := n.value;
      Some(if negative then -magnitude else magnitude)
  }

  /** The number that a text of digits writes, by the places of its digits. */
  function Places(s: string): int {
    if s == "" then 0 else (s[0] as int - 48) * TenTo(|s| - 1) + Places(s[1..])
  }

  function TenTo(n: nat): nat {
    if n == 0 then 1 else 10 * TenTo(n - 1)
  }

  ghost predicate AllDecimal(s: string) {
    forall i :: 0 <= i < |s| ==> 48 <= s[i] as int <= 57
  }

  lemma {:induction false} PlacesSnoc(s: string)
    requires s != ""
    ensures Places(s) == 10 * Places(s[..|s| - 1]) + (s[|s| - 1] as int - 48)
  {
    if |s| == 1 {
      assert s[1..] == "" && s[..0] == "";
    } else {
      PlacesSnoc(s[1..]);
      assert s[1..][..|s| - 2] == s[..|s| - 1][1..];
      ShiftPlace(s[0] as int - 48, |s| - 2);
    }
  }

  lemma ShiftPlace(digit: int, n: nat)
    ensures digit * TenTo(n + 1) == 10 * (digit * TenTo(n))
  {
  }

  lemma {:induction false} DigitsReadPlaces(s: string)
    ensures Digits(s).Some? <==> s != "" && AllDecimal(s)
    ensures Digits(s).Some? ==> Digits(s).value == Places(s)
  {
    if s != "" {
      PlacesSnoc(s);
      var (before, c) := (s[..|s| - 1], s[|s| - 1]);
      assert s == before + [c];
      if before != "" {
        DigitsReadPlaces(before);
      }
    }
  }

  /** Which texts are read as which 64-bit numbers: a non-empty run of decimal
      digits, with a plus sign or without, that stays in range. */
  lemma UnsignedIsExact(s: string, n: u64)
    ensures ParseU64(s) == Some(n) <==>
            exists digits ::
              (s == digits || s == "+" + digits) && digits != "" && AllDecimal(digits) && Places(digits) == n
  {
    var body := if "+" <= s then s[1..] else s;
    DigitsReadPlaces(body);
    if ParseU64(s) == Some(n) {
      assert s == body || s == "+" + body;
    }
    forall digits | (s == digits || s == "+" + digits) && digits != "" && AllDecimal(digits)
      ensures body == digits
    {
      if s == digits {
        assert s[0] != '+';
      }
    }
  }

  ghost predicate SignedText(s: string, digits: string, n: int) {
    && digits != "" && AllDecimal(digits)
    && (|| ((s == digits || s == "+" + digits) && Places(digits) == n)
        || (s == "-" + digits && -Places(digits) == n))
  }

  /** And which as signed ones. */
  lemma SignedIsExact(s: string, n: i64)
    ensures ParseI64(s) == Some(n) <==> exists digits :: SignedText(s, digits, n)
  {
    var body := if "-" <= s || "+" <= s then s[1..] else s;
    DigitsReadPlaces(body);
    if ParseI64(s) == Some(n) {
      assert s == body || s == "+" + body || s == "-" + body;
      assert SignedText(s, body, n);
    }
    if digits :| SignedText(s, digits, n) {
      assert s == digits ==> s[0] != '+' && s[0] != '-';
      assert body == digits;
      assert "-" <= s <==> s == "-" + digits;
    }
  }

  function GetU64(env: Env, key: string): Option<u64> {
    if key in env then ParseU64(env[key]) else None
  }

  function GetI64(env: Env, key: string): Option<i64> {
    if key in env then ParseI64(env[key]) else None
  }

  datatype ClockFlags = ClockFlags(
    poll: Option<nat>,
    firstPoll: Option<nat>,
    gateTime: Option<nat>,
    maxStart: Option<Option<u32>>,
    maxLifetime: Option<Option<nat>>)

  function Seconds(n: nat): nat {
    n * NANOS_PER_SEC
  }

  function OrElse<T>(o: Option<T>, default: T): T {
    if o.Some? then o.value else default
  }

  function MapSeconds(n: Option<u64>): Option<nat> {
    if n.Some? then Some(Seconds(n.value)) else None
  }

  /** A negative cap means unlimited; any other is cut to 32 bits. */
  function Cap(n: i64): Option<u32> {
    if n < 0 then None else Some(n % U32_BOUND)
  }

  /** A lifetime of zero means unlimited. */
  function Lifetime(n: u64): Option<nat> {
    if n == 0 then None else Some(Seconds(n))
  }

  /** Each field of the clock from the environment alone: the first poll follows
      the poll, a negative cap and a zero lifetime mean unlimited, and the cap is
      cut to 32 bits. */
  function FromEnv(env: Env): PollClock {
    var poll := OrElse(MapSeconds(GetU64(env, "AUTOSSH_POLL")), Seconds(DEFAULT_POLL_SECS));
    var (cap, lifetime) := (GetI64(env, "AUTOSSH_MAXSTART"), GetU64(env, "AUTOSSH_MAXLIFETIME"));
    PollClock(
      poll,
      OrElse(MapSeconds(GetU64(env, "AUTOSSH_FIRST_POLL")), poll),
      OrElse(MapSeconds(GetU64(env, "AUTOSSH_GATETIME")), Seconds(DEFAULT_GATE_TIME_SECS)),
      if cap.Some? then Cap(cap.value) else None,
      if lifetime.Some? then Lifetime(lifetime.value) else None)
  }

  /** Which variable sets which field, at nanoseconds, with its sentinel and its default. */
  ghost predicate SetByVariables(env: Env, clock: PollClock) {
    && clock.poll == (match GetU64(env, "AUTOSSH_POLL")
                      case Some(n) => n * 1_000_000_000
                      case None => 600_000_000_000)
    && clock.firstPoll == (match GetU64(env, "AUTOSSH_FIRST_POLL")
                           case Some(n) => n * 1_000_000_000
                           case None => clock.poll)
    && clock.gateTime == (match GetU64(env, "AUTOSSH_GATETIME")
                          case Some(n) => n * 1_000_000_000
                          case None => 30_000_000_000)
    && (match GetI64(env, "AUTOSSH_MAXSTART")
        case Some(n) => if n < 0 then clock.maxStart == None else clock.maxStart == Some(n % 0x1_0000_0000)
        case None => clock.maxStart == None)
    && (match GetU64(env, "AUTOSSH_MAXLIFETIME")
        case Some(n) => if n == 0 then clock.maxLifetime == None else clock.maxLifetime == Some(n * 1_000_000_000)
        case None => clock.maxLifetime == None)
  }

  lemma VariablesSetFields(env: Env)
    ensures SetByVariables(env, FromEnv(env))
  {
    hide GetU64, GetI64;
  }

  method ResolveFromEnv(env: Env) returns (clock: PollClock)
    ensures clock == FromEnv(env)
    ensures SetByVariables(env, clock)
  {
    hide GetU64, GetI64, SetByVariables;
    VariablesSetFields(env);
    var default := Seconds(DEFAULT_POLL_SECS);
    clock := PollClock(default, default, Seconds(DEFAULT_GATE_TIME_SECS), None, None);
    var poll := GetU64(env, "AUTOSSH_POLL");
    if poll.Some? {
      clock := clock.(poll := Seconds(poll.value));
      clock := clock.(firstPoll := clock.poll);
    }
    var firstPoll := GetU64(env, "AUTOSSH_FIRST_POLL");
    if firstPoll.Some? {
      clock := clock.(firstPoll := Seconds(firstPoll.value));
    }
    var gateTime := GetU64(env, "AUTOSSH_GATETIME");
    if gateTime.Some? {
      clock := clock.(gateTime := Seconds(gateTime.value));
    }
    var maxStart := GetI64(env, "AUTOSSH_MAXSTART");
    if maxStart.Some? {
      clock := clock.(maxStart := if maxStart.value < 0 then None else Some(maxStart.value % U32_BOUND));
    }
    var maxLifetime := GetU64(env, "AUTOSSH_MAXLIFETIME");
    if maxLifetime.Some? {
      clock := clock.(maxLifetime := if maxLifetime.value == 0 then None else Some(Seconds(maxLifetime.value)));
    }
  }

  /** Setting one variable, to whatever text, moves its own field only; the poll
      takes an unset first poll along. */
  lemma OneVariableOneField(env: Env, key: string, text: string)
    ensures
      var (a, b) := (FromEnv(env), FromEnv(env[key := text]));
      && (key != "AUTOSSH_POLL" ==> b.poll == a.poll)
      && (key != "AUTOSSH_FIRST_POLL" && (key != "AUTOSSH_POLL" || GetU64(env, "AUTOSSH_FIRST_POLL").Some?) ==>
            b.firstPoll == a.firstPoll)
      && (key != "AUTOSSH_GATETIME" ==> b.gateTime == a.gateTime)
      && (key != "AUTOSSH_MAXSTART" ==> b.maxStart == a.maxStart)
      && (key != "AUTOSSH_MAXLIFETIME" ==> b.maxLifetime == a.maxLifetime)
  {
    hide ParseU64, ParseI64;
  }

  /** A variable that does not parse as the type it is read at is as good as unset. */
  lemma UnparsableIsUnset(env: Env, key: string)
    requires if key == "AUTOSSH_MAXSTART" then GetI64(env, key).None? else GetU64(env, key).None?
    ensures FromEnv(env) == FromEnv(env - {key})
  {
    hide ParseU64, ParseI64;
    forall other | other != key
      ensures GetU64(env, other) == GetU64(env - {key}, other) && GetI64(env, other) == GetI64(env - {key}, other)
    {
    }
  }

  /** A flag wins over the environment, and `-f` over both for the gate time. */
  function Resolved(env: Env, flags: ClockFlags, dashF: bool): PollClock {
    var base := FromEnv(env);
    PollClock(
      OrElse(flags.poll, base.poll),
      OrElse(flags.firstPoll, base.firstPoll),
      if dashF then 0 else OrElse(flags.gateTime, base.gateTime),
      OrElse(flags.maxStart, base.maxStart),
      OrElse(flags.maxLifetime, base.maxLifetime))
  }

  /** Each flag sets its own field; without it the environment's value stays. */
  ghost predicate SetByFlags(base: PollClock, flags: ClockFlags, dashF: bool, clock: PollClock) {
    && (if flags.poll.Some? then clock.poll == flags.poll.value else clock.poll == base.poll)
    && (if flags.firstPoll.Some? then clock.firstPoll == flags.firstPoll.value else clock.firstPoll == base.firstPoll)
    && (if dashF then clock.gateTime == 0
        else if flags.gateTime.Some? then clock.gateTime == flags.gateTime.value
        else clock.gateTime == base.gateTime)
    && (if flags.maxStart.Some? then clock.maxStart == flags.maxStart.value else clock.maxStart == base.maxStart)
    && (if flags.maxLifetime.Some? then clock.maxLifetime == flags.maxLifetime.value
        else clock.maxLifetime == base.maxLifetime)
  }

  method ResolveFromEnvAndFlags(env: Env, flags: ClockFlags, dashF: bool) returns (clock: PollClock)
    ensures clock == Resolved(env, flags, dashF)
    ensures exists base :: SetByVariables(env, base) && SetByFlags(base, flags, dashF, clock)
  {
    clock := ResolveFromEnv(env);
    ghost var base := clock;
    if flags.poll.Some? {
      clock := clock.(poll := flags.poll.value);
    }
    if flags.firstPoll.Some? {
      clock := clock.(firstPoll := flags.firstPoll.value);
    }
    if flags.gateTime.Some? {
      clock := clock.(gateTime := flags.gateTime.value);
    }
    if flags.maxStart.Some? {
      clock := clock.(maxStart := flags.maxStart.value);
    }
    if flags.maxLifetime.Some? {
      clock := clock.(maxLifetime := flags.maxLifetime.value);
    }
    if dashF {
      clock := clock.(gateTime := 0);
    }
    assert SetByVariables(env, base) && SetByFlags(base, flags, dashF, clock);
  }

  /** The numbers on the command line. */
  datatype CommandFlags = CommandFlags(
    poll: Option<u64>,
    firstPoll: Option<u64>,
    gateTime: Option<u64>,
    maxStart: Option<i64>,
    maxLifetime: Option<u64>)

  function ReadFlags(cli: CommandFlags): ClockFlags {
    ClockFlags(
      MapSeconds(cli.poll),
      MapSeconds(cli.firstPoll),
      MapSeconds(cli.gateTime),
      if cli.maxStart.Some? then Some(Cap(cli.maxStart.value)) else None,
      if cli.maxLifetime.Some? then Some(Lifetime(cli.maxLifetime.value)) else None)
  }

  /** The clock a command line runs with, number by number: seconds, a negative
      cap and a zero lifetime for none, the cap cut to 32 bits. */
  lemma CommandLineWins(env: Env, cli: CommandFlags, dashF: bool)
    ensures
      var (base, clock) := (FromEnv(env), Resolved(env, ReadFlags(cli), dashF));
      && SetByVariables(env, base)
      && clock.poll == (match cli.poll case Some(n) => n * 1_000_000_000 case None => base.poll)
      && clock.firstPoll == (match cli.firstPoll case Some(n) => n * 1_000_000_000 case None => base.firstPoll)
      && clock.gateTime == (if dashF then 0
                            else match cli.gateTime case Some(n) => n * 1_000_000_000 case None => base.gateTime)
      && (match cli.maxStart
          case Some(n) => if n < 0 then clock.maxStart == None else clock.maxStart == Some(n % 0x1_0000_0000)
          case None => clock.maxStart == base.maxStart)
      && (match cli.maxLifetime
          case Some(n) => if n == 0 then clock.maxLifetime == None else clock.maxLifetime == Some(n * 1_000_000_000)
          case None => clock.maxLifetime == base.maxLifetime)
  {
    hide GetU64, GetI64;
  }

  /** The cap asked for, by flag or else by variable. */
  function AskedCap(env: Env, cli: CommandFlags): Option<i64> {
    if cli.maxStart.Some? then cli.maxStart else GetI64(env, "AUTOSSH_MAXSTART")
  }

  /** The cap asked for is the cap in force exactly when it fits 32 bits. */
  lemma CapIsKeptIff(env: Env, cli: CommandFlags, dashF: bool)
    requires AskedCap(env, cli).Some? && AskedCap(env, cli).value >= 0
    ensures
      var (n, cap) := (AskedCap(env, cli).value, Resolved(env, ReadFlags(cli), dashF).maxStart);
      && cap.Some?
      && (cap.value == n <==> n < 0x1_0000_0000)
      && (n % 0x1_0000_0000 == 0 ==> RetryBudget.Limit(cap.value) == 1)
  {
    var n: int := AskedCap(env, cli).value;
    assert n < U32_BOUND ==> n % U32_BOUND == n;
  }

  /** The variable that asks for a cap of 2^32 and gets a cap of 0. */
  lemma WrappedCap()
    ensures
      var env := map["AUTOSSH_MAXSTART" := "4294967296"];
      && GetI64(env, "AUTOSSH_MAXSTART") == Some(0x1_0000_0000)
      && FromEnv(env).maxStart == Some(0)
  {
    DigitsOfTwoToThe32();
    assert ParseI64("4294967296") == Some(0x1_0000_0000) by {
      assert "4294967296"[0] == '4';
    }
  }

  lemma DigitsOfTwoToThe32()
    ensures Digits("4294967296") == Some(0x1_0000_0000)
  {
    var text := "4294967296";
    assert Digits(text[..1]) == Some(4);
    hide Digits;
    assert text[..10] == text;
    OneMoreDigit(text, 1);
    OneMoreDigit(text, 2);
    OneMoreDigit(text, 3);
    OneMoreDigit(text, 4);
    OneMoreDigit(text, 5);
    OneMoreDigit(text, 6);
    OneMoreDigit(text, 7);
    OneMoreDigit(text, 8);
    OneMoreDigit(text, 9);
  }

  lemma OneMoreDigit(s: string, i: nat)
    requires 1 <= i < |s| && '0' <= s[i] <= '9'
    ensures Digits(s[..i + 1]) == Shifted(Digits(s[..i]), s[i])
  {
    assert s[..i + 1][..i] == s[..i];
  }

  /** The first poll is to follow the poll unless it is set itself.  It does
      exactly when no `--poll` overrides the poll of the environment: the flag
      leaves the first poll where the environment put it. */
  lemma FirstPollFollowsIff(env: Env, flags: ClockFlags, dashF: bool)
    requires flags.firstPoll.None? && GetU64(env, "AUTOSSH_FIRST_POLL").None?
    ensures
      var clock := Resolved(env, flags, dashF);
      clock.firstPoll == clock.poll <==> flags.poll.None? || flags.poll.value == FromEnv(env).poll
  {
  }

  /** `--poll 30` alone: the first probe still waits for ten minutes. */
  lemma FirstPollIgnoresFlag()
    ensures
      var clock := Resolved(map[], ClockFlags(Some(Seconds(30)), None, None, None, None), false);
      clock.poll == Seconds(30) && clock.firstPoll == Seconds(600)
  {
  }

  /** The configuration the command line runs with. */
  function CommandConfig(env: Env, cli: CommandFlags, dashF: bool, platform: Platform, mode: MonitorMode,
                         oneShot: bool, start: nat): Config {
    Config(platform, Resolved(env, ReadFlags(cli), dashF), mode, mode.Active?, oneShot, start)
  }

  /** Read the flags, resolve the clock, build the supervisor, run it. */
  method Launch(env: Env, cli: CommandFlags, dashF: bool, platform: Platform, mode: MonitorMode,
                oneShot: bool, start: nat, first: SpawnEnv, script: seq<Tick>)
    returns (status: Status, retries: u32)
    ensures
      var s := Execute(CommandConfig(env, cli, dashF, platform, mode, oneShot, start), first, script);
      status == s.status && retries == s.m.retry
  {
    var clock := ResolveFromEnvAndFlags(env, ReadFlags(cli), dashF);
    var supervisor := new Supervisor(platform, clock, mode, oneShot, start);
    var _, running := supervisor.Run(first, script);
    status, retries := running, supervisor.retryCount;
  }

  /** With `-f`, whatever the environment, the flags and the world do, the retry
      counter stays at zero and a run that is not one-shot never ends in MaxStartReached. */
  lemma DashFDisarmsTheCap(env: Env, cli: CommandFlags, platform: Platform, mode: MonitorMode,
                           oneShot: bool, start: nat, first: SpawnEnv, script: seq<Tick>)
    ensures
      var s := Execute(CommandConfig(env, cli, true, platform, mode, oneShot, start), first, script);
      && s.m.retry == 0
      && (!oneShot ==> !(s.status.Returned? && s.status.result.MaxStartError?))
  {
    RetryBudget.ZeroGateDisarmsTheCap(
      CommandConfig(env, cli, true, platform, mode, oneShot, start), first, script);
  }
}
