/** Which compatibility mode is in force. */
module Mode {
  import opened Types

  datatype CompatibilityMode = DefaultMode | StrictMode

  predicate IsModeToken(arg: string) {
    arg == "--strict" || arg == "--no-strict"
  }

  /** The code points with the White_Space property. */
  predicate IsSpace(c: char) {
    var n := c as int;
    || 0x9 <= n <= 0xD || n == 0x20 || n == 0x85 || n == 0xA0 || n == 0x1680
    || 0x2000 <= n <= 0x200A || n == 0x2028 || n == 0x2029 || n == 0x202F || n == 0x205F || n == 0x3000
  }

  function Trim(s: string): string {
    if s == "" then s
    else if IsSpace(s[0]) then Trim(s[1..])
    else if IsSpace(s[|s| - 1]) then Trim(s[..|s| - 1])
    else s
  }

  function AsciiLower(s: string): string {
    seq(|s|, i requires 0 <= i < |s| => if 'A' <= s[i] <= 'Z' then (s[i] as int + 32) as char else s[i])
  }

  /** `RUSTY_AUTOSSH_STRICT` is 1, true or yes, whatever its case and the blanks around it. */
  predicate EnvActivates(value: Option<string>) {
    value.Some? && IsWord(AsciiLower(Trim(value.value)))
  }

  /** `s` spells `word`, in either case letter by letter. */
  ghost predicate Spells(s: string, word: string) {
    |s| == |word| &&
    forall i :: 0 <= i < |s| ==>
      s[i] == word[i] || ('a' <= word[i] <= 'z' && s[i] as int == word[i] as int - 32)
  }

  ghost predicate Blank(s: string) {
    forall i :: 0 <= i < |s| ==> IsSpace(s[i])
  }

  /** The blanks, one by one. */
  lemma SpaceTable(c: char)
    ensures IsSpace(c) <==> c as int in {
              0x9, 0xA, 0xB, 0xC, 0xD, 0x20, 0x85, 0xA0, 0x1680,
              0x2000, 0x2001, 0x2002, 0x2003, 0x2004, 0x2005, 0x2006, 0x2007, 0x2008, 0x2009, 0x200A,
              0x2028, 0x2029, 0x202F, 0x205F, 0x3000}
  {
  }

  /** The text is one of the words, with blanks around it. */
  ghost predicate WordBetweenBlanks(text: string, i: nat, j: nat) {
    && i <= j <= |text| && Blank(text[..i]) && Blank(text[j..])
    && (Spells(text[i..j], "1") || Spells(text[i..j], "true") || Spells(text[i..j], "yes"))
  }

  ghost predicate SaysStrict(text: string) {
    exists i: nat, j: nat :: WordBetweenBlanks(text, i, j)
  }

  lemma {:induction false} TrimCuts(s: string) returns (i: nat, j: nat)
    ensures i <= j <= |s| && Trim(s) == s[i..j] && Blank(s[..i]) && Blank(s[j..])
    decreases |s|
  {
    hide IsSpace, Trim;
    if s == "" || (!IsSpace(s[0]) && !IsSpace(s[|s| - 1])) {
      i, j := 0, |s|;
      TrimNothing();
    } else if IsSpace(s[0]) {
      var t := s[1..];
      i, j := TrimCuts(t);
      assert s == [s[0]] + t;
      assert s[i + 1..j + 1] == t[i..j];
      assert s[..i + 1] == [s[0]] + t[..i] && s[j + 1..] == t[j..];
      i, j := i + 1, j + 1;
    } else {
      var n := |s| - 1;
      i, j := TrimCuts(s[..n]);
      assert s[j..] == s[..n][j..] + [s[n]] && s[..i] == s[..n][..i] && s[i..j] == s[..n][i..j];
    }
    if s != "" {
      TrimOne(s);
    }
  }

  lemma TrimNothing()
    ensures Trim("") == ""
  {
  }

  lemma LowerIs(s: string, word: string)
    requires forall i :: 0 <= i < |word| ==> !('A' <= word[i] <= 'Z')
    ensures AsciiLower(s) == word <==> Spells(s, word)
  {
    var lower := AsciiLower(s);
    if Spells(s, word) {
      assert forall i :: 0 <= i < |s| ==> lower[i] == word[i];
    }
  }

  predicate IsWord(word: string) {
    word == "1" || word == "true" || word == "yes"
  }

  lemma LowerSpells(s: string)
    ensures IsWord(AsciiLower(s)) <==> Spells(s, "1") || Spells(s, "true") || Spells(s, "yes")
  {
    LowerIs(s, "1");
    LowerIs(s, "true");
    LowerIs(s, "yes");
  }

  lemma TrimOne(s: string)
    requires s != ""
    ensures IsSpace(s[0]) ==> Trim(s) == Trim(s[1..])
    ensures !IsSpace(s[0]) && IsSpace(s[|s| - 1]) ==> Trim(s) == Trim(s[..|s| - 1])
    ensures !IsSpace(s[0]) && !IsSpace(s[|s| - 1]) ==> Trim(s) == s
  {
    hide IsSpace;
  }

  /** Trimming stops at a part that neither starts nor ends with a blank. */
  lemma {:induction false} TrimFinds(s: string, i: nat, j: nat)
    requires i < j <= |s| && forall k :: 0 <= k < i || j <= k < |s| ==> IsSpace(s[k])
    requires !IsSpace(s[i]) && !IsSpace(s[j - 1])
    ensures Trim(s) == s[i..j]
    decreases |s|
  {
    hide IsSpace, Trim;
    TrimOne(s);
    if i > 0 {
      var t := s[1..];
      TrimFinds(t, i - 1, j - 1);
      assert t[i - 1..j - 1] == s[i..j];
    } else if j < |s| {
      var t := s[..|s| - 1];
      TrimFinds(t, i, j);
      assert t[i..j] == s[i..j];
    } else {
      assert s[i..j] == s;
    }
  }

  lemma BlankAround(s: string, i: nat, j: nat)
    requires i <= j <= |s| && Blank(s[..i]) && Blank(s[j..])
    ensures forall k :: 0 <= k < i || j <= k < |s| ==> IsSpace(s[k])
  {
    hide IsSpace;
    assert forall k :: 0 <= k < i ==> s[..i][k] == s[k];
    assert forall k :: j <= k < |s| ==> s[j..][k - j] == s[k];
  }

  lemma WordsAreTight(s: string)
    requires Spells(s, "1") || Spells(s, "true") || Spells(s, "yes")
    ensures s != "" && !IsSpace(s[0]) && !IsSpace(s[|s| - 1])
  {
  }

  /** Which values switch Strict mode on: the words 1, true and yes in any case,
      with any blanks around them, and nothing else. */
  lemma ActivatesIff(text: string)
    ensures EnvActivates(Some(text)) <==> SaysStrict(text)
  {
    hide AsciiLower, Spells, Blank, Trim, IsSpace;
    var i, j := TrimCuts(text);
    LowerSpells(text[i..j]);
    if EnvActivates(Some(text)) {
      assert WordBetweenBlanks(text, i, j);
    }
    if SaysStrict(text) {
      var p: nat, q: nat :| WordBetweenBlanks(text, p, q);
      WordsAreTight(text[p..q]);
      LowerSpells(text[p..q]);
      BlankAround(text, p, q);
      TrimFinds(text, p, q);
    }
  }

  /** `i` is the last mode flag of the whole argument vector. */
  ghost predicate IsLastToken(args: seq<string>, i: nat) {
    i < |args| && IsModeToken(args[i]) && forall j :: i < j < |args| ==> !IsModeToken(args[j])
  }

  /** The last mode flag anywhere among the arguments decides; only without any
      do the environment and the program name count. */
  method Resolve(args: seq<string>, env: Option<string>, stem: Option<string>) returns (mode: CompatibilityMode)
    ensures forall i: nat :: IsLastToken(args, i) ==> (mode == StrictMode <==> args[i] == "--strict")
    ensures (forall i :: 0 <= i < |args| ==> !IsModeToken(args[i])) ==>
              (mode == StrictMode <==> (env.Some? && SaysStrict(env.value)) || stem == Some("autossh"))
  {
    var decision: Option<CompatibilityMode> := None;
    for n := 0 to |args|
      invariant decision.None? <==> forall i :: 0 <= i < n ==> !IsModeToken(args[i])
      invariant forall i: nat :: IsLastToken(args[..n], i) ==>
                  decision == Some(if args[i] == "--strict" then StrictMode else DefaultMode)
    {
      if args[n] == "--strict" {
        decision := Some(StrictMode);
      } else if args[n] == "--no-strict" {
        decision := Some(DefaultMode);
      } else {
        assert forall i: nat :: IsLastToken(args[..n + 1], i) ==> IsLastToken(args[..n], i);
      }
    }
    assert args[..|args|] == args;
    if decision.Some? {
      return decision.value;
    }
    if env.Some? {
      ActivatesIff(env.value);
      var text := AsciiLower(Trim(env.value));
      if text == "1" || text == "true" || text == "yes" {
        return StrictMode;
      }
    }
    if stem == Some("autossh") {
      return StrictMode;
    }
    mode := DefaultMode;
  }
}
