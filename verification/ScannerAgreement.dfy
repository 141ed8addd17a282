/** Where the two argument scanners agree. */
module ScannerAgreement {
  import opened Types
  import Strict
  import Cli

  /** How many tokens the first flag of a flag part takes up. */
  function Width(f: seq<string>): (n: nat)
    requires f != []
    ensures 1 <= n <= |f|
  {
    if f[0] == "-M" && |f| > 1 then 2 else 1
  }

  /** Only `-M value`, `-Mvalue`, `-f`, `-V`, `-1`, `--strict` and `--no-strict`. */
  predicate OnlyStrictFlags(f: seq<string>)
    decreases |f|
  {
    f == [] ||
    (&& (f[0] == "-M" ==> |f| > 1)
     && ("-M" <= f[0] || f[0] == "-f" || f[0] == "-V" || f[0] == "-1" || f[0] == "--strict" || f[0] == "--no-strict")
     && OnlyStrictFlags(f[Width(f)..]))
  }

  /** The value of the last `-M`, separate or inline. */
  function LastMonitor(f: seq<string>): Option<string>
    decreases |f|
  {
    if f == [] then None
    else
      var later := LastMonitor(f[Width(f)..]);
      if later.Some? || !("-M" <= f[0]) then later
      else if f[0] == "-M" then (if |f| > 1 then Some(f[1]) else None)
      else Some(f[0][2..])
  }

  /** `tok` stands as a flag, not as the value of a `-M`. */
  predicate HasFlag(f: seq<string>, tok: string)
    decreases |f|
  {
    f != [] && (f[0] == tok || HasFlag(f[Width(f)..], tok))
  }

  /** What the flags of `f` add to what has been read already. */
  function Reading(out: Strict.StrictArgs, f: seq<string>): Strict.StrictArgs {
    out.(monitor := if LastMonitor(f).Some? then LastMonitor(f) else out.monitor,
         background := out.background || HasFlag(f, "-f"),
         version := out.version || HasFlag(f, "-V"),
         oneShot := out.oneShot || HasFlag(f, "-1"))
  }

  /** What one flag does to what has been read; `value` is the token after it. */
  function Read(out: Strict.StrictArgs, tok: string, value: string): Strict.StrictArgs {
    if "-M" <= tok then out.(monitor := Some(if tok == "-M" then value else tok[2..]))
    else if tok == "-f" then out.(background := true)
    else if tok == "-V" then out.(version := true)
    else if tok == "-1" then out.(oneShot := true)
    else out
  }

  lemma FeedMonitor(out: Strict.StrictArgs, tok: string)
    requires "-M" <= tok
    ensures Strict.Feed(Strict.Options(out), tok) ==
            if tok == "-M" then Strict.WantsMonitor(out) else Strict.Options(out.(monitor := Some(tok[2..])))
  {
    assert tok[1] == 'M' && !("--" <= tok);
    assert |tok| == 2 <==> tok == "-M";
  }

  lemma FeedBare(out: Strict.StrictArgs, tok: string)
    requires tok == "-f" || tok == "-V" || tok == "-1"
    ensures Strict.Feed(Strict.Options(out), tok) == Strict.Options(Read(out, tok, ""))
  {
    assert |tok| == 2 && tok[1] != '-' && tok[1] != 'M';
  }

  lemma {:induction false} NameWithoutEquals(rest: string)
    requires forall i :: 0 <= i < |rest| ==> rest[i] != '='
    ensures Strict.NameOf(rest) == rest
  {
    if rest != "" {
      NameWithoutEquals(rest[1..]);
    }
  }

  lemma FeedMode(out: Strict.StrictArgs, tok: string, index: nat)
    requires index < |Strict.STRICT_NOOP_LONG| && tok == "--" + Strict.STRICT_NOOP_LONG[index]
    ensures Strict.Feed(Strict.Options(out), tok) == Strict.Options(out)
  {
    var name := Strict.STRICT_NOOP_LONG[index];
    assert tok[2..] == name;
    assert name == "strict" || name == "no-strict";
    NameWithoutEquals(name);
  }

  lemma ModeFlagsAreNotShort(tok: string)
    requires tok == "--strict" || tok == "--no-strict"
    ensures !("-M" <= tok) && tok != "-f" && tok != "-V" && tok != "-1"
  {
    assert tok[1] == '-';
  }

  lemma OneUnit(argv: seq<string>, f: seq<string>)
    requires Strict.Scan(argv).Options? && f != [] && OnlyStrictFlags(f)
    ensures Strict.Scan(argv + f[..Width(f)]) ==
            Strict.Options(Read(Strict.Scan(argv).out, f[0], if |f| > 1 then f[1] else ""))
  {
    hide Strict.Scan, Strict.Short, Strict.IsModeFlag;
    var out := Strict.Scan(argv).out;
    Strict.ScanOne(argv, f[0]);
    assert f[..1] == [f[0]];
    if "-M" <= f[0] {
      FeedMonitor(out, f[0]);
      if f[0] == "-M" {
        Strict.ScanOne(argv + [f[0]], f[1]);
        assert argv + f[..2] == argv + [f[0]] + [f[1]];
      }
    } else if f[0] == "--strict" || f[0] == "--no-strict" {
      ModeFlagsAreNotShort(f[0]);
      FeedMode(out, f[0], if f[0] == "--strict" then 0 else 1);
    } else {
      FeedBare(out, f[0]);
    }
  }

  lemma ReadTheRest(out: Strict.StrictArgs, f: seq<string>)
    requires f != [] && OnlyStrictFlags(f)
    ensures Reading(Read(out, f[0], if |f| > 1 then f[1] else ""), f[Width(f)..]) == Reading(out, f)
  {
    if f[0] == "--strict" || f[0] == "--no-strict" {
      ModeFlagsAreNotShort(f[0]);
    } else {
      assert f[0][1] == 'M' || f[0][1] == 'f' || f[0][1] == 'V' || f[0][1] == '1';
    }
  }

  lemma NothingRead(out: Strict.StrictArgs)
    ensures Reading(out, []) == out
  {
  }

  lemma RestIsStrict(f: seq<string>)
    requires f != [] && OnlyStrictFlags(f)
    ensures OnlyStrictFlags(f[Width(f)..])
  {
  }

  lemma {:induction false} ScanStrictFlags(argv: seq<string>, f: seq<string>)
    requires Strict.Scan(argv).Options? && OnlyStrictFlags(f)
    ensures Strict.Scan(argv + f) == Strict.Options(Reading(Strict.Scan(argv).out, f))
    decreases |f|
  {
    hide *;
    if f == [] {
      assert argv + f == argv;
      NothingRead(Strict.Scan(argv).out);
    } else {
      var n := Width(f);
      OneUnit(argv, f);
      ReadTheRest(Strict.Scan(argv).out, f);
      RestIsStrict(f);
      ScanStrictFlags(argv + f[..n], f[n..]);
      assert argv + f == argv + f[..n] + f[n..];
    }
  }

  /** The remainder is empty, follows the separator, or starts with a token that
      the strict parser also takes for the first ssh argument. */
  predicate PlainRemainder(argv: seq<string>, flags: seq<string>, ssh: seq<string>) {
    || argv == flags + ["--"] + ssh
    || ssh == []
    || (!("-" <= ssh[0]) && ssh[0] != "completions")
  }

  /** Whenever the splitter finds only flags the strict parser knows, in front
      of a plain remainder, the strict parser accepts the same arguments, with
      the same ssh arguments and the last `-M` value as its monitor. */
  lemma ScannersAgree(argv: seq<string>)
    requires OnlyStrictFlags(Cli.Split(argv).0)
    requires PlainRemainder(argv, Cli.Split(argv).0, Cli.Split(argv).1)
    ensures
      var (flags, ssh) := Cli.Split(argv);
      Strict.Parse(argv) == Success(Strict.StrictArgs(
        LastMonitor(flags), HasFlag(flags, "-f"), HasFlag(flags, "-V"), HasFlag(flags, "-1"), ssh))
  {
    var (flags, ssh) := Cli.Split(argv);
    Cli.SplitIsPartition(argv);
    FlagsThenRemainder(argv, flags, ssh);
  }

  lemma ScanFlagsOnly(flags: seq<string>)
    requires OnlyStrictFlags(flags)
    ensures Strict.Scan(flags) == Strict.Options(Strict.StrictArgs(
      LastMonitor(flags), HasFlag(flags, "-f"), HasFlag(flags, "-V"), HasFlag(flags, "-1"), []))
  {
    hide LastMonitor, HasFlag, OnlyStrictFlags;
    ScanStrictFlags([], flags);
    assert [] + flags == flags;
  }

  lemma FeedHost(out: Strict.StrictArgs, tok: string)
    requires !("-" <= tok) && tok != "completions"
    ensures Strict.Feed(Strict.Options(out), tok) == Strict.Passthrough(out.(sshArgs := out.sshArgs + [tok]))
  {
    assert "--" <= tok ==> "-" <= tok;
  }

  lemma FlagsThenRemainder(argv: seq<string>, flags: seq<string>, ssh: seq<string>)
    requires OnlyStrictFlags(flags)
    requires argv == flags + ssh || argv == flags + ["--"] + ssh
    requires PlainRemainder(argv, flags, ssh)
    ensures Strict.Parse(argv) == Success(Strict.StrictArgs(
      LastMonitor(flags), HasFlag(flags, "-f"), HasFlag(flags, "-V"), HasFlag(flags, "-1"), ssh))
  {
    hide LastMonitor, HasFlag, OnlyStrictFlags, Strict.Scan, Strict.Short, Strict.IsModeFlag;
    ScanFlagsOnly(flags);
    if argv == flags + ["--"] + ssh {
      Strict.ScanOne(flags, "--");
      Strict.PassthroughKeepsAll(flags + ["--"], ssh);
      assert [] + ssh == ssh;
    } else if ssh == [] {
      assert argv == flags;
    } else {
      FeedHost(Strict.Scan(flags).out, ssh[0]);
      Strict.ScanOne(flags, ssh[0]);
      Strict.PassthroughKeepsAll(flags + [ssh[0]], ssh[1..]);
      assert argv == flags + [ssh[0]] + ssh[1..];
      assert [] + [ssh[0]] + ssh[1..] == ssh;
    }
  }
}
