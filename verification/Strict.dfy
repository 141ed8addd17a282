/** The hand-rolled Strict-mode parser.  The program walks the arguments by
    index with one token of lookahead; `Scan` is the same parser as an automaton
    that eats one token at a time. */
module Strict {
  import opened Types

  datatype StrictArgs = StrictArgs(
    monitor: Option<string>,
    background: bool,
    version: bool,
    oneShot: bool,
    sshArgs: seq<string>)

  datatype StrictError = UnknownShort(line: string) | UnknownLong(line: string) | MissingValue(flag: char)

  const EMPTY: StrictArgs := StrictArgs(None, false, false, false, [])

  const EXCLUDED_SHORT: seq<char> := ['d', 'D', 'X', 'T', 'a', 'N', 'Y', 'q']

  const EXCLUDED_LONG: seq<string> := [
    "monitor-port", "poll", "first-poll", "gate-time", "max-start", "max-lifetime", "ssh-path",
    "log-file", "pid-file", "debug", "log-level", "background", "version", "one-shot"]

  const STRICT_NOOP_LONG: seq<string> := ["strict", "no-strict"]

  function FormatUnknownFlag(token: string): string {
    if "--" <= token then "autossh: unrecognized option '--" + token[2..] + "'"
    else if "-" <= token then
      "autossh: invalid option -- '" + [if |token| > 1 then token[1] else '?'] + "'"
    else "autossh: unrecognized option '" + token + "'"
  }

  /** The part of a long option before the first `=`. */
  function NameOf(rest: string): string {
    if rest == "" || rest[0] == '=' then "" else [rest[0]] + NameOf(rest[1..])
  }

  /** `--strict` and `--no-strict`, with or without a `=value`. */
  predicate IsModeFlag(tok: string) {
    "--" <= tok && tok != "--" && NameOf(tok[2..]) in STRICT_NOOP_LONG
  }

  lemma {:induction false} NameStops(rest: string)
    ensures NameOf(rest) <= rest && '=' !in NameOf(rest)
    ensures var n := |NameOf(rest)|; n < |rest| ==> rest[n] == '='
  {
    if rest != "" && rest[0] != '=' {
      NameStops(rest[1..]);
    }
  }

  lemma {:induction false} NameBefore(name: string, rest: string)
    requires '=' !in name && (rest == "" || rest[0] == '=')
    ensures NameOf(name + rest) == name
  {
    if name == "" {
      assert name + rest == rest;
    } else {
      assert (name + rest)[1..] == name[1..] + rest;
      NameBefore(name[1..], rest);
    }
  }

  /** Which tokens are mode flags, letter by letter. */
  lemma ModeFlagTexts(tok: string)
    ensures IsModeFlag(tok) <==>
            tok == "--strict" || tok == "--no-strict" || "--strict=" <= tok || "--no-strict=" <= tok
  {
    hide NameOf;
    assert "--" + "strict" == "--strict" && "--" + "no-strict" == "--no-strict";
    assert "--strict" + "=" == "--strict=" && "--no-strict" + "=" == "--no-strict=";
    ModeFlagText(tok, "strict");
    ModeFlagText(tok, "no-strict");
  }

  lemma ModeFlagText(tok: string, name: string)
    requires '=' !in name && name != ""
    ensures "--" <= tok && tok != "--" && NameOf(tok[2..]) == name <==> tok == "--" + name || "--" + name + "=" <= tok
  {
    if !("--" <= tok) {
      return;
    }
    var rest := tok[2..];
    assert tok == "--" + rest;
    NameStops(rest);
    if NameOf(rest) == name && |name| < |rest| {
      assert rest[..|name| + 1] == name + "=";
    }
    if tok == "--" + name {
      assert rest == name + "";
      NameBefore(name, "");
    } else if "--" + name + "=" <= tok {
      assert rest == name + rest[|name|..];
      NameBefore(name, rest[|name|..]);
    }
  }

  // ---------------------------------------------------------------- the automaton

  datatype State =
    | Options(out: StrictArgs)
    | WantsMonitor(out: StrictArgs)
    | Passthrough(out: StrictArgs)
    | Rejected(error: StrictError)

  function Short(out: StrictArgs, tok: string): State
    requires |tok| > 1 && tok[0] == '-'
  {
    if tok == "-1" then Options(out.(oneShot := true))
    else if tok[1] == 'M' then
      if |tok| > 2 then Options(out.(monitor := Some(tok[2..]))) else WantsMonitor(out)
    else if tok[1] == 'f' then Options(out.(background := true))
    else if tok[1] == 'V' then Options(out.(version := true))
    else Rejected(UnknownShort(FormatUnknownFlag(tok)))
  }

  function Feed(s: State, tok: string): State {
    match s
    case Rejected(_) => s
    case Passthrough(out) => Passthrough(out.(sshArgs := out.sshArgs + [tok]))
    case WantsMonitor(out) => Options(out.(monitor := Some(tok)))
    case Options(out) =>
      if tok == "--" then Passthrough(out)
      else if "--" <= tok then
        if IsModeFlag(tok) then s else Rejected(UnknownLong(FormatUnknownFlag(tok)))
      else if tok == "-" then Options(out.(sshArgs := out.sshArgs + [tok]))
      else if "-" <= tok then Short(out, tok)
      else if tok == "completions" then Rejected(UnknownLong(FormatUnknownFlag(tok)))
      else Passthrough(out.(sshArgs := out.sshArgs + [tok]))
  }

  function Scan(argv: seq<string>): State {
    if argv == [] then Options(EMPTY) else Feed(Scan(argv[..|argv| - 1]), argv[|argv| - 1])
  }

  function Finish(s: State): Result<StrictArgs, StrictError> {
    match s
    case Rejected(error) => Failure(error)
    case WantsMonitor(_) => Failure(MissingValue('M'))
    case Options(out) => Success(out)
    case Passthrough(out) => Success(out)
  }

  function Parse(argv: seq<string>): Result<StrictArgs, StrictError> {
    Finish(Scan(argv))
  }

  lemma ScanOne(argv: seq<string>, tok: string)
    ensures Scan(argv + [tok]) == Feed(Scan(argv), tok)
  {
    assert (argv + [tok])[..|argv|] == argv;
  }

  lemma {:induction false} RejectionIsFinal(argv: seq<string>, i: nat)
    requires i <= |argv| && Scan(argv[..i]).Rejected?
    ensures Scan(argv) == Scan(argv[..i])
  {
    if i < |argv| {
      assert argv[..|argv| - 1][..i] == argv[..i];
      RejectionIsFinal(argv[..|argv| - 1], i);
    } else {
      assert argv[..i] == argv;
    }
  }

  lemma ScanPrefix(argv: seq<string>, i: nat)
    requires i < |argv|
    ensures Scan(argv[..i + 1]) == Feed(Scan(argv[..i]), argv[i])
  {
    assert argv[..i + 1] == argv[..i] + [argv[i]];
    ScanOne(argv[..i], argv[i]);
  }

  lemma FeedKept(out: StrictArgs, tok: string)
    ensures Feed(Passthrough(out), tok) == Passthrough(out.(sshArgs := out.sshArgs + [tok]))
    ensures Feed(WantsMonitor(out), tok) == Options(out.(monitor := Some(tok)))
    ensures tok == "--" ==> Feed(Options(out), tok) == Passthrough(out)
  {
  }

  lemma FeedLong(out: StrictArgs, tok: string)
    requires "--" <= tok && tok != "--"
    ensures Feed(Options(out), tok) ==
            if NameOf(tok[2..]) in STRICT_NOOP_LONG then Options(out)
            else Rejected(UnknownLong(FormatUnknownFlag(tok)))
  {
    hide NameOf, FormatUnknownFlag;
  }

  lemma FeedShort(out: StrictArgs, tok: string, rest: string)
    requires tok == "-" + rest && !("--" <= tok)
    ensures Feed(Options(out), tok) ==
            if rest == "1" then Options(out.(oneShot := true))
            else if rest == "" then Options(out.(sshArgs := out.sshArgs + [tok]))
            else if rest[0] == 'M' then
              if rest[1..] == "" then WantsMonitor(out) else Options(out.(monitor := Some(rest[1..])))
            else if rest[0] == 'f' then Options(out.(background := true))
            else if rest[0] == 'V' then Options(out.(version := true))
            else Rejected(UnknownShort(FormatUnknownFlag(tok)))
  {
    hide FormatUnknownFlag;
    assert tok[1..] == rest;
    assert rest == "1" <==> tok == "-1";
    if |rest| > 0 {
      assert rest[1..] == tok[2..];
    }
  }

  lemma FeedPlain(out: StrictArgs, tok: string)
    requires !("-" <= tok)
    ensures Feed(Options(out), tok) ==
            if tok == "completions" then Rejected(UnknownLong(FormatUnknownFlag(tok)))
            else Passthrough(out.(sshArgs := out.sshArgs + [tok]))
  {
    hide FormatUnknownFlag;
    assert "--" <= tok ==> "-" <= tok;
  }

  // ---------------------------------------------------------------- the program

  /** The index-driven loop parses exactly what the automaton accepts. */
  method ParseArgv(argv: seq<string>) returns (r: Result<StrictArgs, StrictError>)
    ensures r == Parse(argv)
  {
    var out := EMPTY;
    var i := 0;
    var passthrough := false;
    assert argv[..0] == [] && Scan([]) == Options(EMPTY);
    hide Scan, Feed, Short, IsModeFlag, FormatUnknownFlag, NameOf;
    while i < |argv|
      invariant 0 <= i <= |argv|
      invariant Scan(argv[..i]) == if passthrough then Passthrough(out) else Options(out)
    {
      var tok := argv[i];
      ScanPrefix(argv, i);
      FeedKept(out, tok);
      if passthrough {
        out := out.(sshArgs := out.sshArgs + [tok]);
        i := i + 1;
        continue;
      }
      if tok == "--" {
        passthrough := true;
        i := i + 1;
        continue;
      }
      if "--" <= tok {
        FeedLong(out, tok);
        var name := NameOf(tok[2..]);
        if name in STRICT_NOOP_LONG {
          i := i + 1;
          continue;
        }
        RejectionIsFinal(argv, i + 1);
        if name in EXCLUDED_LONG {
          return Failure(UnknownLong(FormatUnknownFlag(tok)));
        }
        return Failure(UnknownLong(FormatUnknownFlag(tok)));
      }
      if "-" <= tok {
        var rest := tok[1..];
        assert tok == "-" + rest;
        FeedShort(out, tok, rest);
        if rest == "1" {
          out := out.(oneShot := true);
          i := i + 1;
          continue;
        }
        if rest == "" {
          out := out.(sshArgs := out.sshArgs + [tok]);
          i := i + 1;
          continue;
        }
        match rest[0] {
          case 'M' =>
            var inline := rest[1..];
            if inline != "" {
              out := out.(monitor := Some(inline));
            } else if i + 1 < |argv| {
              ScanPrefix(argv, i + 1);
              FeedKept(out, argv[i + 1]);
              out := out.(monitor := Some(argv[i + 1]));
              i := i + 1;
            } else {
              assert argv[..i + 1] == argv;
              return Failure(MissingValue('M'));
            }
          case 'f' => out := out.(background := true);
          case 'V' => out := out.(version := true);
          case c =>
            RejectionIsFinal(argv, i + 1);
            if c in EXCLUDED_SHORT {
              return Failure(UnknownShort(FormatUnknownFlag(tok)));
            }
            return Failure(UnknownShort(FormatUnknownFlag(tok)));
        }
        i := i + 1;
        continue;
      }
      FeedPlain(out, tok);
      if tok == "completions" {
        RejectionIsFinal(argv, i + 1);
        return Failure(UnknownLong(FormatUnknownFlag(tok)));
      }
      passthrough := true;
      out := out.(sshArgs := out.sshArgs + [tok]);
      i := i + 1;
    }
    assert argv[..i] == argv;
    r := Success(out);
  }

  // ---------------------------------------------------------------- round trip

  function Flag(on: bool, tok: string): seq<string> {
    if on then [tok] else []
  }

  /** The canonical argument vector of a parse result. */
  function Render(a: StrictArgs): seq<string> {
    MonitorPart(a) + Flag(a.background, "-f") + Flag(a.version, "-V") + Flag(a.oneShot, "-1") + ["--"] + a.sshArgs
  }

  lemma {:induction false} PassthroughKeepsAll(argv: seq<string>, rest: seq<string>)
    requires Scan(argv).Passthrough?
    ensures
      var out := Scan(argv).out;
      Scan(argv + rest) == Passthrough(out.(sshArgs := out.sshArgs + rest))
    decreases |rest|
  {
    if rest == [] {
      assert argv + rest == argv && Scan(argv).out.sshArgs + rest == Scan(argv).out.sshArgs;
    } else {
      var n := |rest| - 1;
      PassthroughKeepsAll(argv, rest[..n]);
      assert argv + rest == (argv + rest[..n]) + [rest[n]];
      ScanOne(argv + rest[..n], rest[n]);
      assert rest == rest[..n] + [rest[n]];
    }
  }

  lemma FlagStep(argv: seq<string>, on: bool, tok: string)
    requires Scan(argv).Options? && (tok == "-f" || tok == "-V" || tok == "-1")
    ensures
      var out := Scan(argv).out;
      Scan(argv + Flag(on, tok)) ==
        Options(if !on then out else if tok == "-f" then out.(background := true)
                else if tok == "-V" then out.(version := true) else out.(oneShot := true))
  {
    if on {
      ScanOne(argv, tok);
    } else {
      assert argv + Flag(on, tok) == argv;
    }
  }

  function MonitorPart(a: StrictArgs): seq<string> {
    if a.monitor.Some? then ["-M", a.monitor.value] else []
  }

  lemma MonitorStep(a: StrictArgs)
    ensures Scan(MonitorPart(a)) == Options(EMPTY.(monitor := a.monitor))
  {
    if a.monitor.Some? {
      assert [] + ["-M"] == ["-M"] && MonitorPart(a) == ["-M"] + [a.monitor.value];
      ScanOne([], "-M");
      ScanOne(["-M"], a.monitor.value);
    }
  }

  lemma FlagSteps(a: StrictArgs)
    ensures Scan(MonitorPart(a) + Flag(a.background, "-f") + Flag(a.version, "-V") + Flag(a.oneShot, "-1"))
            == Options(a.(sshArgs := []))
  {
    hide Scan, Flag, MonitorPart;
    MonitorStep(a);
    var m := MonitorPart(a);
    var (f, v) := (Flag(a.background, "-f"), Flag(a.version, "-V"));
    FlagStep(m, a.background, "-f");
    FlagStep(m + f, a.version, "-V");
    FlagStep(m + f + v, a.oneShot, "-1");
  }

  /** Rendering any result and parsing it gives the result back, whatever the
      monitor string and the ssh arguments look like. */
  lemma RoundTrip(a: StrictArgs)
    ensures Parse(Render(a)) == Success(a)
  {
    hide Scan, Flag, MonitorPart;
    FlagSteps(a);
    var options := MonitorPart(a) + Flag(a.background, "-f") + Flag(a.version, "-V") + Flag(a.oneShot, "-1");
    ScanOne(options, "--");
    PassthroughKeepsAll(options + ["--"], a.sshArgs);
    assert [] + a.sshArgs == a.sshArgs;
  }

  // ---------------------------------------------------------------- what is accepted

  function Dashes(n: nat): seq<string> {
    seq(n, _ => "-")
  }

  /** The ssh arguments are `n` bare dashes and then everything from position `j` on. */
  ghost predicate DashesThenSuffix(argv: seq<string>, sshArgs: seq<string>, n: nat, j: nat) {
    j <= |argv| && sshArgs == Dashes(n) + argv[j..]
  }

  /** `Options` has kept only dashes; `Passthrough` has kept a suffix after them. */
  ghost predicate Kept(argv: seq<string>, s: State) {
    match s
    case Rejected(_) => true
    case Passthrough(out) => exists n: nat, j: nat :: DashesThenSuffix(argv, out.sshArgs, n, j)
    case _ => s.out.sshArgs == Dashes(|s.out.sshArgs|)
  }

  lemma {:induction false} ScanKept(argv: seq<string>)
    ensures Kept(argv, Scan(argv))
  {
    if argv != [] {
      var (before, tok) := (argv[..|argv| - 1], argv[|argv| - 1]);
      ScanKept(before);
      var s := Scan(before);
      match s {
        case Rejected(_) =>
        case WantsMonitor(_) =>
        case Passthrough(out) =>
          var n: nat, j: nat :| DashesThenSuffix(before, out.sshArgs, n, j);
          assert argv[j..] == before[j..] + [tok];
          assert DashesThenSuffix(argv, out.sshArgs + [tok], n, j);
        case Options(out) =>
          var n := |out.sshArgs|;
          assert Dashes(n + 1) == Dashes(n) + ["-"];
          if tok == "--" {
            assert DashesThenSuffix(argv, out.sshArgs, n, |argv|);
          } else {
            assert argv[|argv| - 1..] == [tok];
            assert DashesThenSuffix(argv, out.sshArgs + [tok], n, |argv| - 1);
          }
      }
    }
  }

  /** Whatever is accepted, the ssh arguments are some bare `-` tokens followed
      by an exact suffix of the arguments. */
  lemma AcceptedSuffix(argv: seq<string>) returns (n: nat, j: nat)
    requires Parse(argv).Success?
    ensures DashesThenSuffix(argv, Parse(argv).value.sshArgs, n, j)
  {
    ScanKept(argv);
    var s := Scan(argv);
    if s.Passthrough? {
      n, j :| DashesThenSuffix(argv, s.out.sshArgs, n, j);
    } else {
      n, j := |s.out.sshArgs|, |argv|;
      assert argv[j..] == [];
    }
  }

  // ---------------------------------------------------------------- what is rejected

  /** A token that is refused where options are expected, by its text alone: a
      long token that is no mode flag, a short one other than `-1` whose letter
      is not `M`, `f` or `V`, and `completions`. */
  predicate Offends(tok: string) {
    || ("--" <= tok && tok != "--" && !IsModeFlag(tok))
    || ("-" <= tok && !("--" <= tok) && |tok| > 1 && tok != "-1" && tok[1] != 'M' && tok[1] != 'f' && tok[1] != 'V')
    || tok == "completions"
  }

  lemma FeedRejects(out: StrictArgs, tok: string)
    ensures Feed(Options(out), tok).Rejected? <==> Offends(tok)
    ensures Feed(Options(out), tok).WantsMonitor? <==> tok == "-M"
  {
    hide IsModeFlag, FormatUnknownFlag;
    assert tok == "completions" ==> tok[0] == 'c';
    assert "-" <= tok && |tok| == 1 ==> tok == "-";
    assert "--" <= tok ==> tok[0] == '-' && tok[1] == '-';
    if "-" <= tok && !("--" <= tok) && |tok| == 2 && tok[1] == 'M' {
      assert tok == "-M";
    }
  }

  /** Position `i` holds an offending token where options are expected. */
  ghost predicate OffenceAt(argv: seq<string>, i: nat) {
    i < |argv| && Scan(argv[..i]).Options? && Offends(argv[i])
  }

  lemma {:induction false} RejectedIffOffence(argv: seq<string>)
    ensures Scan(argv).Rejected? <==> exists i: nat :: OffenceAt(argv, i)
  {
    if argv != [] {
      var n := |argv| - 1;
      var before := argv[..n];
      hide Scan, Feed, Offends;
      assert Scan(argv) == Feed(Scan(before), argv[n]) by {
        assert argv == before + [argv[n]];
        ScanOne(before, argv[n]);
      }
      RejectedIffOffence(before);
      forall i: nat | i < n ensures OffenceAt(argv, i) <==> OffenceAt(before, i) {
        assert argv[..i] == before[..i];
      }
      FeedKeepsRejection(Scan(before), argv[n]);
      assert OffenceAt(argv, n) <==> Scan(before).Options? && Offends(argv[n]);
      if i: nat :| OffenceAt(before, i) {
        assert OffenceAt(argv, i);
      }
    } else {
      assert Scan([]) == Options(EMPTY);
    }
  }

  lemma FeedKeepsRejection(s: State, tok: string)
    ensures Feed(s, tok).Rejected? <==> s.Rejected? || (s.Options? && Offends(tok))
  {
    hide Offends;
    if s.Options? {
      FeedRejects(s.out, tok);
    }
  }

  /** Exactly which argument vectors are refused: those with an offending token
      where options are expected, and those that end in a `-M` without a value. */
  lemma ParseFailsIff(argv: seq<string>)
    ensures Parse(argv).Failure? <==>
            || (exists i: nat :: OffenceAt(argv, i))
            || (argv != [] && argv[|argv| - 1] == "-M" && Scan(argv[..|argv| - 1]).Options?)
    ensures Parse(argv).Failure? && !(exists i: nat :: OffenceAt(argv, i)) ==> Parse(argv).error == MissingValue('M')
  {
    RejectedIffOffence(argv);
    if argv != [] && Scan(argv[..|argv| - 1]).Options? {
      FeedRejects(Scan(argv[..|argv| - 1]).out, argv[|argv| - 1]);
    }
  }

  /** The documented short options: `-f`, `-V`, `-1` and `-M` with or without an
      inline value; a bare `-` is no option. */
  predicate IsDocumentedShort(tok: string) {
    "-M" <= tok || tok == "-f" || tok == "-V" || tok == "-1"
  }

  /** The rule that every other short flag is refused fails exactly on the
      tokens that start with `-f` or `-V` and go on. */
  lemma UndocumentedShortIsRefusedIff(out: StrictArgs, tok: string)
    requires "-" <= tok && !("--" <= tok) && tok != "-" && !IsDocumentedShort(tok)
    ensures Feed(Options(out), tok).Rejected? <==> !("-f" <= tok) && !("-V" <= tok)
  {
    assert |tok| > 1 && tok[0] == '-';
    assert tok[1] == 'M' ==> "-M" <= tok;
    FeedRejects(out, tok);
  }

  /** An input on which the rule fails: `-foo` is read as `-f`. */
  lemma ClusteredFlagIsAccepted()
    ensures !IsDocumentedShort("-foo")
    ensures Parse(["-foo"]) == Success(EMPTY.(background := true))
  {
    assert [] + ["-foo"] == ["-foo"];
    ScanOne([], "-foo");
    assert "-foo"[1] == 'f';
  }

  /** The line that tells of an offending token: a short one is named by its
      letter, any other in full. */
  ghost predicate NamesOffence(tok: string, error: StrictError) {
    if "-" <= tok && !("--" <= tok)
    then |tok| > 1 && error == UnknownShort("autossh: invalid option -- '" + [tok[1]] + "'")
    else error == UnknownLong("autossh: unrecognized option '" + tok + "'")
  }

  /** A rejection is the diagnostic of the first offending token. */
  lemma {:induction false} FirstOffenceWins(argv: seq<string>) returns (i: nat)
    requires Scan(argv).Rejected?
    ensures OffenceAt(argv, i) && forall j: nat :: j < i ==> !OffenceAt(argv, j)
    ensures NamesOffence(argv[i], Scan(argv).error) && Parse(argv) == Failure(Scan(argv).error)
  {
    i := |argv| - 1;
    var before := argv[..i];
    forall j: nat | j < i ensures OffenceAt(argv, j) <==> OffenceAt(before, j) {
      assert argv[..j] == before[..j];
    }
    if Scan(before).Rejected? {
      i := FirstOffenceWins(before);
    } else {
      RejectedIffOffence(before);
      OffenceNamed(Scan(before), argv[i]);
    }
  }

  lemma OffenceNamed(s: State, tok: string)
    requires !s.Rejected? && Feed(s, tok).Rejected?
    ensures s.Options? && Offends(tok)
    ensures NamesOffence(tok, Feed(s, tok).error)
  {
    hide IsModeFlag;
    assert "--" <= tok ==> "-" <= tok && "--" + tok[2..] == tok;
    assert tok == "completions" ==> tok[0] == 'c';
    assert "autossh: unrecognized option '--" == "autossh: unrecognized option '" + "--";
  }

  lemma NothingAfterRejection(argv: seq<string>, rest: seq<string>)
    requires Scan(argv).Rejected?
    ensures Parse(argv + rest) == Failure(Scan(argv).error)
  {
    assert (argv + rest)[..|argv|] == argv;
    RejectionIsFinal(argv + rest, |argv|);
  }

  // ---------------------------------------------------------------- mode flags

  lemma {:induction false} SameStateSameFuture(a: seq<string>, b: seq<string>, rest: seq<string>)
    requires Scan(a) == Scan(b)
    ensures Scan(a + rest) == Scan(b + rest)
    decreases |rest|
  {
    if rest == [] {
      assert a + rest == a && b + rest == b;
    } else {
      var n := |rest| - 1;
      assert a + rest == (a + rest[..n]) + [rest[n]] && b + rest == (b + rest[..n]) + [rest[n]];
      SameStateSameFuture(a, b, rest[..n]);
      ScanOne(a + rest[..n], rest[n]);
      ScanOne(b + rest[..n], rest[n]);
    }
  }

  /** A mode flag put anywhere options are still expected changes nothing,
      neither a result nor an error. */
  lemma ModeFlagsAreTransparent(before: seq<string>, flag: string, rest: seq<string>)
    requires IsModeFlag(flag)
    requires Scan(before).Options? || Scan(before).Rejected?
    ensures Parse(before + [flag] + rest) == Parse(before + rest)
  {
    ScanOne(before, flag);
    SameStateSameFuture(before + [flag], before, rest);
  }

  /** Behind the separator a mode flag is an ssh argument like any other. */
  lemma ModeFlagsAreKeptBehindSeparator(before: seq<string>, flag: string, rest: seq<string>)
    requires Scan(before).Passthrough?
    ensures
      var out := Scan(before).out;
      Parse(before + [flag] + rest) == Success(out.(sshArgs := out.sshArgs + [flag] + rest))
  {
    assert before + [flag] + rest == before + ([flag] + rest);
    PassthroughKeepsAll(before, [flag] + rest);
    assert Scan(before).out.sshArgs + ([flag] + rest) == Scan(before).out.sshArgs + [flag] + rest;
  }
}
