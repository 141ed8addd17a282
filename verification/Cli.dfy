/** The argv splitter that separates the autossh flags from the ssh arguments. */
module Cli {
  predicate FlagTakesValue(tok: string) {
    || tok == "-M" || tok == "--monitor-port" || tok == "--poll" || tok == "--first-poll"
    || tok == "--gate-time" || tok == "--max-start" || tok == "--max-lifetime" || tok == "--ssh-path"
    || tok == "--pid-file" || tok == "--log-file" || tok == "--log-level"
  }

  predicate IsBareFlag(tok: string) {
    || tok == "-f" || tok == "-V" || tok == "-1" || tok == "--background" || tok == "--version"
    || tok == "--one-shot" || tok == "--debug" || tok == "--strict" || tok == "--no-strict"
  }

  predicate HasInlineValue(tok: string) {
    || "--monitor-port=" <= tok || "--poll=" <= tok || "--first-poll=" <= tok || "--gate-time=" <= tok
    || "--max-start=" <= tok || "--max-lifetime=" <= tok || "--ssh-path=" <= tok || "--pid-file=" <= tok
    || "--log-file=" <= tok || "--log-level=" <= tok || "-M" <= tok
  }

  predicate IsAutosshKnownFlag(tok: string) {
    FlagTakesValue(tok) || IsBareFlag(tok) || HasInlineValue(tok)
  }

  /** Flags with their values, up to the separator or the first other token. */
  function Split(argv: seq<string>): (seq<string>, seq<string>)
    decreases |argv|
  {
    if argv == [] then ([], [])
    else if argv[0] == "--" then ([], argv[1..])
    else if !IsAutosshKnownFlag(argv[0]) then ([], argv)
    else
      var n := if FlagTakesValue(argv[0]) && |argv| > 1 then 2 else 1;
      var (flags, ssh) := Split(argv[n..]);
      (argv[..n] + flags, ssh)
  }

  /** What the loop does at position `i` of the whole vector. */
  lemma SplitFrom(argv: seq<string>, i: nat)
    requires i < |argv|
    ensures
      var tok := argv[i];
      var n := if FlagTakesValue(tok) && i + 1 < |argv| then 2 else 1;
      Split(argv[i..]) ==
        if tok == "--" then ([], argv[i + 1..])
        else if !IsAutosshKnownFlag(tok) then ([], argv[i..])
        else (argv[i..i + n] + Split(argv[i + n..]).0, Split(argv[i + n..]).1)
  {
    hide IsAutosshKnownFlag, FlagTakesValue;
    var n := if FlagTakesValue(argv[i]) && i + 1 < |argv| then 2 else 1;
    assert argv[i..][1..] == argv[i + 1..];
    assert argv[i..][n..] == argv[i + n..] && argv[i..][..n] == argv[i..i + n];
  }

  /** The flags of the command line that take the next token as their value. */
  const WITH_VALUE: seq<string> := [
    "-M", "--monitor-port", "--poll", "--first-poll", "--gate-time", "--max-start", "--max-lifetime",
    "--ssh-path", "--pid-file", "--log-file", "--log-level"]

  /** Those that stand alone. */
  const ALONE: seq<string> := [
    "-f", "-V", "-1", "--background", "--version", "--one-shot", "--debug", "--strict", "--no-strict"]

  /** What starts a flag that carries its value: `-M` and every long flag of the first table with `=`. */
  ghost predicate CarriesValue(tok: string) {
    "-M" <= tok || exists i :: 1 <= i < |WITH_VALUE| && WITH_VALUE[i] + "=" <= tok
  }

  /** What the first token does to the split, by the tables. */
  lemma FirstTokenDecides(argv: seq<string>)
    requires argv != []
    ensures
      var (tok, rest) := (argv[0], argv[1..]);
      Split(argv) ==
        if tok == "--" then ([], rest)
        else if tok in WITH_VALUE && rest != [] then ([tok, rest[0]] + Split(rest[1..]).0, Split(rest[1..]).1)
        else if tok in WITH_VALUE || tok in ALONE || CarriesValue(tok) then ([tok] + Split(rest).0, Split(rest).1)
        else ([], argv)
  {
    hide FlagTakesValue, IsAutosshKnownFlag, CarriesValue;
    var tok := argv[0];
    SplitFrom(argv, 0);
    ByTheTables(tok);
    assert argv[0..] == argv;
    if |argv| > 1 {
      assert argv[0..2] == [tok, argv[1]] && argv[1..][1..] == argv[2..];
    }
    assert argv[0..1] == [tok];
  }

  lemma ByTheTables(tok: string)
    ensures FlagTakesValue(tok) <==> tok in WITH_VALUE
    ensures IsAutosshKnownFlag(tok) <==> tok in WITH_VALUE || tok in ALONE || CarriesValue(tok)
  {
    assert WITH_VALUE[1] + "=" == "--monitor-port=" && WITH_VALUE[2] + "=" == "--poll=";
    assert WITH_VALUE[3] + "=" == "--first-poll=" && WITH_VALUE[4] + "=" == "--gate-time=";
    assert WITH_VALUE[5] + "=" == "--max-start=" && WITH_VALUE[6] + "=" == "--max-lifetime=";
    assert WITH_VALUE[7] + "=" == "--ssh-path=" && WITH_VALUE[8] + "=" == "--pid-file=";
    assert WITH_VALUE[9] + "=" == "--log-file=" && WITH_VALUE[10] + "=" == "--log-level=";
  }

  method SplitAutosshArgs(argv: seq<string>) returns (autossh: seq<string>, ssh: seq<string>)
    ensures (autossh, ssh) == Split(argv)
  {
    hide IsAutosshKnownFlag, FlagTakesValue, Split;
    autossh, ssh := [], [];
    var i := 0;
    assert argv[0..] == argv;
    while i < |argv|
      invariant 0 <= i <= |argv|
      invariant ssh == []
      invariant autossh + Split(argv[i..]).0 == Split(argv).0 && Split(argv[i..]).1 == Split(argv).1
    {
      var tok := argv[i];
      SplitFrom(argv, i);
      if tok == "--" {
        assert autossh + [] == autossh;
        ssh := ssh + argv[i + 1..];
        assert ssh == argv[i + 1..];
        return;
      }
      if IsAutosshKnownFlag(tok) {
        autossh := autossh + [tok];
        if FlagTakesValue(tok) && i + 1 < |argv| {
          assert argv[i..i + 2] == [tok] + [argv[i + 1]];
          autossh := autossh + [argv[i + 1]];
          i := i + 2;
          continue;
        }
        assert argv[i..i + 1] == [tok];
        i := i + 1;
        continue;
      }
      assert autossh + [] == autossh;
      ssh := ssh + argv[i..];
      assert ssh == argv[i..];
      return;
    }
    assert argv[i..] == [] && Split([]) == ([], []) by {
      SplitNothing();
    }
    assert autossh + [] == autossh;
  }

  lemma SplitNothing()
    ensures Split([]) == ([], [])
  {
  }

  /** No token is lost, repeated or reordered; at most one separator goes. */
  lemma {:induction false} SplitIsPartition(argv: seq<string>)
    ensures
      var (flags, ssh) := Split(argv);
      || (argv == flags + ssh && (ssh != [] ==> ssh[0] != "--" && !IsAutosshKnownFlag(ssh[0])))
      || argv == flags + ["--"] + ssh
    decreases |argv|
  {
    hide IsAutosshKnownFlag, FlagTakesValue, Split;
    if argv == [] {
      SplitNothing();
    } else {
      SplitFrom(argv, 0);
      assert argv[0..] == argv && argv == [argv[0]] + argv[1..];
      if argv[0] != "--" && IsAutosshKnownFlag(argv[0]) {
        var n := if FlagTakesValue(argv[0]) && |argv| > 1 then 2 else 1;
        SplitIsPartition(argv[n..]);
        assert argv == argv[0..0 + n] + argv[n..];
      }
    }
  }

  /** Nothing but flags, each value-taking one with its value, except perhaps the last. */
  predicate IsFlagPart(f: seq<string>)
    decreases |f|
  {
    f == [] ||
    (IsAutosshKnownFlag(f[0]) &&
     IsFlagPart(f[if FlagTakesValue(f[0]) && |f| > 1 then 2 else 1..]))
  }

  /** The last flag takes a value and has none. */
  predicate EndsHungry(f: seq<string>)
    decreases |f|
  {
    f != [] &&
    if FlagTakesValue(f[0]) then |f| == 1 || EndsHungry(f[2..]) else EndsHungry(f[1..])
  }

  lemma {:induction false} SplitYieldsFlagPart(argv: seq<string>)
    ensures IsFlagPart(Split(argv).0)
    ensures EndsHungry(Split(argv).0) ==> Split(argv) == (argv, [])
    decreases |argv|
  {
    hide IsAutosshKnownFlag, FlagTakesValue;
    if argv != [] && argv[0] != "--" && IsAutosshKnownFlag(argv[0]) {
      var n := if FlagTakesValue(argv[0]) && |argv| > 1 then 2 else 1;
      SplitYieldsFlagPart(argv[n..]);
      var (flags, _) := Split(argv[n..]);
      assert (argv[..n] + flags)[n..] == flags;
      assert argv == argv[..n] + argv[n..];
      if n == 1 && FlagTakesValue(argv[0]) {
        assert argv[1..] == [];
      }
    }
  }

  lemma {:induction false} ResplitFlagPart(f: seq<string>, ssh: seq<string>)
    requires IsFlagPart(f)
    ensures
      if EndsHungry(f) then |Split(f + ["--"] + ssh).0| > |f|
      else Split(f + ["--"] + ssh) == (f, ssh)
    decreases |f|
  {
    hide IsAutosshKnownFlag, FlagTakesValue;
    var whole := f + ["--"] + ssh;
    if f == [] {
      assert whole == ["--"] + ssh;
      assert whole[1..] == ssh;
    } else {
      KnownIsNotSeparator(f[0]);
      if FlagTakesValue(f[0]) && |f| == 1 {
        assert |whole[..2]| == 2;
      } else {
        var n := if FlagTakesValue(f[0]) then 2 else 1;
        assert whole[n..] == f[n..] + ["--"] + ssh && whole[..n] == f[..n] && f == f[..n] + f[n..];
        ResplitFlagPart(f[n..], ssh);
      }
    }
  }

  lemma KnownIsNotSeparator(tok: string)
    requires IsAutosshKnownFlag(tok)
    ensures tok != "--"
  {
  }

  /** Splitting again, with the separator put in, gives the same pair exactly
      when the flags do not end in a value-taking flag left without a value. */
  lemma ResplitIsStable(argv: seq<string>)
    ensures
      var (flags, ssh) := Split(argv);
      Split(flags + ["--"] + ssh) == (flags, ssh) <==> !EndsHungry(flags)
  {
    SplitYieldsFlagPart(argv);
    ResplitFlagPart(Split(argv).0, Split(argv).1);
  }
}
