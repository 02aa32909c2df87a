/** What rules and policy files mean, said in terms of patterns, subjects and files. */
module RuleMeaning {
  import opened Text
  import Wildcard
  import opened Normalize
  import CommandMeaning
  import ShellWords
  import opened Policy

  // ------------------------------------------------------------------- patterns

  /** A pattern without wildcards means itself, and with a `*` behind it, all that begins with it. */
  lemma {:induction false} LiteralPattern(p: string, t: string)
    requires '*' !in p && '?' !in p
    ensures Wildcard.Matches(p, t) <==> p == t
    ensures Wildcard.Matches(p + "*", t) <==> p <= t
    decreases |p|
  {
    if p == [] {
      assert p + "*" == "*" && "*"[1..] == [] && t[|t|..] == [];
      assert Wildcard.Matches([], t[|t|..]);
    } else {
      assert (p + "*")[0] == p[0] && (p + "*")[1..] == p[1..] + "*";
      if t != [] {
        LiteralPattern(p[1..], t[1..]);
        assert t == [t[0]] + t[1..] && p == [p[0]] + p[1..];
      }
    }
  }

  /** `?` stands for exactly one character, and `*` for any text. */
  lemma WildcardsMean(t: string)
    ensures Wildcard.Matches("?", t) <==> |t| == 1
    ensures Wildcard.Matches("*", t)
  {
    assert t[|t|..] == [];
    EmptyPattern(t);
    EmptyPattern([]);
    if t != [] { EmptyPattern(t[1..]); }
    hide Wildcard.Matches;
    OneCharacter(t);
    AnyText(t);
  }

  lemma EmptyPattern(t: string)
    ensures Wildcard.Matches([], t) <==> t == []
  {}

  lemma OneCharacter(t: string)
    ensures Wildcard.Matches("?", t) <==> t != [] && Wildcard.Matches([], t[1..])
  {
    assert "?"[1..] == [];
  }

  lemma AnyText(t: string)
    requires Wildcard.Matches([], [])
    ensures Wildcard.Matches("*", t)
  {
    assert "*"[1..] == [] && t[|t|..] == [];
  }

  /** One of the patterns matches, in the declared meaning of `*` and `?`. */
  ghost predicate OneMatches(patterns: seq<string>, t: string) {
    exists i :: 0 <= i < |patterns| && Wildcard.Matches(patterns[i], t)
  }

  /** Patterns decide by their declared meaning on every text without `*`, and never match more than it. */
  lemma PatternsDecide(patterns: seq<string>, t: string)
    ensures AnyWildcard(patterns, t) ==> OneMatches(patterns, t)
    ensures '*' !in t ==> (AnyWildcard(patterns, t) <==> OneMatches(patterns, t))
  {
    hide Wildcard.Matches, Wildcard.Answer;
    forall i | 0 <= i < |patterns|
      ensures Wildcard.Answer(patterns[i], t) ==> Wildcard.Matches(patterns[i], t)
      ensures '*' !in t ==> (Wildcard.Answer(patterns[i], t) <==> Wildcard.Matches(patterns[i], t))
    {
      if Wildcard.Answer(patterns[i], t) { Wildcard.Sound(patterns[i], t); }
      if '*' !in t { Wildcard.Exact(patterns[i], t); }
    }
  }

  /** Nothing a command shows holds a `*`. */
  predicate Starless(c: Normalized) {
    forall t :: t in AllTexts(c) ==> '*' !in t
  }

  /** One of the patterns matches the command's text, or one of its segments' at any depth. */
  ghost predicate CommandFits(patterns: seq<string>, c: Normalized) {
    exists t :: t in AllTexts(c) && OneMatches(patterns, t)
  }

  lemma CommandPatternsDecide(patterns: seq<string>, c: Normalized)
    ensures CommandTextMatches(patterns, c) ==> CommandFits(patterns, c)
    ensures Starless(c) ==> (CommandTextMatches(patterns, c) <==> CommandFits(patterns, c))
  {
    hide AllTexts, AnyWildcard, OneMatches;
    forall t | t in AllTexts(c)
      ensures AnyWildcard(patterns, t) ==> OneMatches(patterns, t)
      ensures '*' !in t ==> (AnyWildcard(patterns, t) <==> OneMatches(patterns, t))
    {
      PatternsDecide(patterns, t);
    }
  }

  // ------------------------------------------------------------------- criteria

  /** What is matched by patterns holds no `*`. */
  predicate StarlessSubject(s: Subject) {
    && (s.command.Some? ==> Starless(s.command.value))
    && (s.runner.Some? ==> '*' !in s.runner.value)
    && (s.stepId.Some? ==> '*' !in s.stepId.value)
  }

  /** A minimum is met by a number that is known and large enough; not knowing counts as zero. */
  predicate Meets(have: Option<nat>, min: Option<nat>) {
    min.None? || min.value == 0 || (have.Some? && have.value >= min.value)
  }

  /** A rule matches exactly the subjects that satisfy each of its criteria. */
  lemma RuleMatchesIff(r: Rule, s: Subject)
    requires StarlessSubject(s)
    ensures RuleMatches(r, s) <==>
            && (r.actions == [] || exists a :: s.action == Some(a) && a in r.actions)
            && (r.paths.None? || (s.path.Some? && r.paths.value(s.path.value)))
            && (r.excludePaths.None? || s.path.None? || !r.excludePaths.value(s.path.value))
            && (r.commands == [] || (s.command.Some? && CommandFits(r.commands, s.command.value)))
            && (r.commandTags == []
              || (s.command.Some? && exists t :: t in r.commandTags && t in AllTags(s.command.value)))
            && (r.shell.None? || (s.command.Some? && s.command.value.shell == r.shell.value))
            && (r.runners == [] || (s.runner.Some? && OneMatches(r.runners, s.runner.value)))
            && (r.steps == [] || (s.stepId.Some? && OneMatches(r.steps, s.stepId.value)))
            && (r.branches.None? || (s.branch.Some? && r.branches.value(s.branch.value)))
            && (r.repos.None? || (s.repo.Some? && r.repos.value(s.repo.value)))
            && Meets(s.linesChanged, r.minLinesChanged) && Meets(s.deletedFiles, r.minDeletedFiles)
            && Meets(s.deletedLines, r.minDeletedLines) && Meets(s.filesChanged, r.minFilesChanged)
            && (r.addedLines.None? ||
                (s.addedLines.Some? && exists l :: l in s.addedLines.value && r.addedLines.value(l)))
  {
    hide AllTags, Starless, CommandTextMatches, CommandFits, AnyWildcard, OneMatches;
    if s.command.Some? { CommandPatternsDecide(r.commands, s.command.value); }
    if s.runner.Some? { PatternsDecide(r.runners, s.runner.value); }
    if s.stepId.Some? { PatternsDecide(r.steps, s.stepId.value); }
  }

  /** Whatever the texts hold, a rule matches no subject that fails one of its criteria on patterns. */
  lemma RuleNeedsItsPatterns(r: Rule, s: Subject)
    requires RuleMatches(r, s)
    ensures r.commands != [] ==> s.command.Some? && CommandFits(r.commands, s.command.value)
    ensures r.runners != [] ==> s.runner.Some? && OneMatches(r.runners, s.runner.value)
    ensures r.steps != [] ==> s.stepId.Some? && OneMatches(r.steps, s.stepId.value)
  {
    hide AllTags, CommandTextMatches, CommandFits, AnyWildcard, OneMatches;
    if s.command.Some? { CommandPatternsDecide(r.commands, s.command.value); }
    if s.runner.Some? { PatternsDecide(r.runners, s.runner.value); }
    if s.stepId.Some? { PatternsDecide(r.steps, s.stepId.value); }
  }

  // ------------------------------------------------------------------ decisions

  /** One rule that matches and denies is enough; and an allow default is reached by no rule at all. */
  lemma DenialWins(rules: seq<Rule>, d: Decision, s: Subject)
    ensures (exists i :: 0 <= i < |rules| && RuleMatches(rules[i], s) && rules[i].decision.Deny?) ==>
              Evaluate(rules, d, s) == Deny
    ensures Evaluate(rules, d, s) == Deny ==>
              || (exists i :: 0 <= i < |rules| && RuleMatches(rules[i], s) && rules[i].decision.Deny?)
              || (d == Deny && forall i :: 0 <= i < |rules| ==> !RuleMatches(rules[i], s))
  {
    hide RuleMatches;
    EvaluateIsVerdict(rules, d, s, Evaluate(rules, d, s));
    hide Evaluate;
  }

  /** From pattern to decision: a starless command text that a deny rule's pattern means is denied. */
  lemma DeniedCommand(rules: seq<Rule>, d: Decision, s: Subject, i: nat, j: nat)
    requires i < |rules| && rules[i].decision.Deny? && s.command.Some? && '*' !in s.command.value.text
    requires RuleMatches(rules[i].(commands := []), s)
    requires j < |rules[i].commands| && Wildcard.Matches(rules[i].commands[j], s.command.value.text)
    ensures Evaluate(rules, d, s) == Deny
  {
    hide Evaluate, AllTags, AnyWildcard, Wildcard.Matches;
    var c := s.command.value;
    PatternsDecide(rules[i].commands, c.text);
    assert c.text in AllTexts(c);
    assert RuleMatches(rules[i], s);
    hide RuleMatches;
    DenialWins(rules, d, s);
  }

  lemma {:induction false} MatchedIdsAre(rules: seq<Rule>, s: Subject) returns (idx: seq<nat>)
    ensures |idx| == |MatchedIds(rules, s)|
    ensures forall k :: 0 <= k < |idx| ==>
              idx[k] < |rules| && RuleMatches(rules[idx[k]], s) && MatchedIds(rules, s)[k] == rules[idx[k]].id
    ensures forall k, m :: 0 <= k < m < |idx| ==> idx[k] < idx[m]
    ensures forall i :: 0 <= i < |rules| && RuleMatches(rules[i], s) ==> i in idx
    decreases |rules|
  {
    hide RuleMatches;
    idx := [];
    if rules != [] {
      var n := |rules| - 1;
      idx := MatchedIdsAre(rules[..n], s);
      LastMatched(rules, s);
      assert forall i :: 0 <= i < n ==> rules[..n][i] == rules[i];
      if RuleMatches(rules[n], s) {
        idx := idx + [n];
      }
    }
  }

  lemma {:induction false} LastMatched(rules: seq<Rule>, s: Subject)
    requires rules != []
    ensures var n := |rules| - 1;
            MatchedIds(rules, s) ==
            MatchedIds(rules[..n], s) + (if RuleMatches(rules[n], s) then [rules[n].id] else [])
    decreases |rules|
  {
    hide RuleMatches;
    var n := |rules| - 1;
    if n > 0 {
      LastMatched(rules[1..], s);
      assert rules[1..][..n - 1] == rules[..n][1..];
    } else {
      assert rules[1..] == [];
    }
  }

  // ---------------------------------------------------------------------- files

  function AllRules(files: seq<PolicyFile>): seq<Rule> {
    if files == [] then [] else files[0].rules + AllRules(files[1..])
  }

  /** Files that are all taken add all their rules, in order. */
  lemma {:induction false} LoadedRules(p: Loaded, files: seq<PolicyFile>)
    requires AllTaken(p, files)
    ensures AddAll(p, files).rules == p.rules + AllRules(files) && AddAll(p, files).sources == p.sources + |files|
    decreases |files|
  {
    if files == [] {
      assert p.rules + [] == p.rules;
    } else {
      var f := files[0];
      assert f.rules[..|f.rules|] == f.rules;
      LoadedRules(AddFile(p, f).0, files[1..]);
      hide AddFile, AllTaken, AddAll;
      assert p.rules + (f.rules + AllRules(files[1..])) == (p.rules + f.rules) + AllRules(files[1..]);
    }
  }

  /** And the default is the strictest of the set's own, once it is settled, and all that the files give. */
  lemma {:induction false} LoadedDefault(p: Loaded, files: seq<PolicyFile>)
    requires Settled(p) && AllTaken(p, files)
    ensures var d := AddAll(p, files).byDefault;
            && Rank(p.byDefault) <= Rank(d)
            && (forall i :: 0 <= i < |files| && files[i].defaultDecision.Some? ==>
              Rank(files[i].defaultDecision.value) <= Rank(d))
            && (d == p.byDefault || exists i :: 0 <= i < |files| && files[i].defaultDecision == Some(d))
    decreases |files|
  {
    hide AdmissiblePrefix, UniqueIds;
    if files != [] {
      LoadedDefault(AddFile(p, files[0]).0, files[1..]);
      assert files == [files[0]] + files[1..];
    }
  }

  /** A file with a rule id twice changes nothing; a file with a rule that cannot be taken keeps those before it. */
  lemma RefusedFile(p: Loaded, file: PolicyFile)
    requires !AddFile(p, file).1
    ensures var q := AddFile(p, file).0;
            && q.sources == p.sources
            && (!UniqueIds(file.rules) ==> q == p)
            && (UniqueIds(file.rules) ==>
                  exists n :: 0 <= n < |file.rules| && !Admissible(file.rules[n])
                              && q.rules == p.rules + file.rules[..n]
                              && forall i :: 0 <= i < n ==> Admissible(file.rules[i]))
  {
    assert p.rules + [] == p.rules;
  }

  /** A rule is refused for a pattern that does not compile, a tag nobody gives, or for saying nothing it is about. */
  lemma RefusedRuleIff(r: Rule)
    ensures !Admissible(r) <==>
            || !r.compiles
            || (exists t :: t in r.commandTags && t !in TAGS)
            || (r.actions == [] && r.paths.None? && r.commands == [] && r.commandTags == [] && r.runners == []
                && r.minDeletedFiles.None? && r.minDeletedLines.None? && r.minFilesChanged.None?
                && r.addedLines.None?)
  {}

  // ------------------------------------------------------------- shell commands

  /**
   * A command that is quoted and handed to a shell, by any path, with any other options and behind any
   * wrapper, is judged at least as strictly as on its own.
   */
  lemma ShellCannotLoosen(
    classify: Classifier, rules: seq<Rule>, s: Subject, w: seq<string>, raises: bool,
    argv: seq<string>, opts: seq<string>, inner: seq<string>, text: string)
    requires forall i :: 0 <= i < |rules| ==> rules[i].shell != Some(false)
    requires text == ShellWords.DisplayArgv(inner) && NormalizeArgv(classify, inner, 0).program != []
    requires CommandMeaning.RunsScript(argv, opts, text) && !CommandMeaning.IsOption(argv[0])
    requires w == [] || CommandMeaning.Wraps(w, raises)
    ensures Rank(Evaluate(rules, Allow, s.(command := Some(NormalizeArgv(classify, inner, 0))))) <=
            Rank(Evaluate(rules, Allow, s.(command := Some(NormalizeArgv(classify, w + argv, 0)))))
  {
    hide Evaluate, NormalizeArgv, CommandMeaning.RunsScript, CommandMeaning.Wraps;
    CommandMeaning.QuotedCommandIsJudged(classify, w, raises, argv, opts, inner, text);
    ScriptAtLeastSegment(rules, Allow, s, NormalizeArgv(classify, w + argv, 0), 0);
  }
}
