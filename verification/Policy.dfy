/** Policy rules, layered policy files and the decision they reach for a subject. */
module Policy {
  import opened Text
  import Wildcard
  import ShellWords
  import ShellSplit
  import opened Normalize

  datatype Decision = Allow | RequireApproval | Deny

  function Rank(d: Decision): nat {
    match d case Allow => 0 case RequireApproval => 1 case Deny => 2
  }

  function Stricter(a: Decision, b: Decision): Decision {
    if Rank(a) >= Rank(b) then a else b
  }

  datatype Action =
    | Read | Write | Delete | Command | GitCommit | GitPush | GithubPr | AgentStart
    | WorktreeCreate | Network | EnvMutation | DiffSummary

  /**
   * What a rule asks for. Compiled glob and regex sets appear as the predicates they decide;
   * `compiles` says whether all of them were well-formed.
   */
  datatype Rule = Rule(
    id: string,
    decision: Decision,
    actions: seq<Action>,
    paths: Option<string -> bool>,
    excludePaths: Option<string -> bool>,
    commands: seq<string>,
    commandTags: seq<string>,
    runners: seq<string>,
    steps: seq<string>,
    branches: Option<string -> bool>,
    repos: Option<string -> bool>,
    shell: Option<bool>,
    minLinesChanged: Option<nat>,
    minDeletedFiles: Option<nat>,
    minDeletedLines: Option<nat>,
    minFilesChanged: Option<nat>,
    addedLines: Option<string -> bool>,
    compiles: bool)

  datatype PolicyFile = PolicyFile(defaultDecision: Option<Decision>, rules: seq<Rule>)

  datatype Subject = Subject(
    action: Option<Action>,
    path: Option<string>,
    command: Option<Normalized>,
    runner: Option<string>,
    branch: Option<string>,
    stepId: Option<string>,
    repo: Option<string>,
    linesChanged: Option<nat>,
    deletedFiles: Option<nat>,
    deletedLines: Option<nat>,
    filesChanged: Option<nat>,
    addedLines: Option<seq<string>>)

  const TAGS := [
    "shell", "git", "git_push", "git_force_push", "git_reset_hard", "git_clean_force",
    "git_branch_force_delete", "git_history_rewrite", "rm_recursive", "rm_dangerous_target",
    "terraform_apply", "terraform_destroy", "kubectl_delete_namespace", "kubectl_mutation",
    "production_target", "deploy", "network", "credential_access", "package_install",
    "privilege_escalation"]

  // ----------------------------------------------------------------- matching

  predicate AnyWildcard(patterns: seq<string>, x: string) {
    exists i :: 0 <= i < |patterns| && Wildcard.Answer(patterns[i], x)
  }

  predicate CommandTextMatches(patterns: seq<string>, c: Normalized) {
    exists t :: t in AllTexts(c) && AnyWildcard(patterns, t)
  }

  predicate TagMatches(tags: seq<string>, c: Normalized) {
    exists t :: t in tags && t in AllTags(c)
  }

  /** A criterion on an optional field: absent criterion passes, absent data fails. */
  predicate Fits(want: Option<string -> bool>, have: Option<string>) {
    want.Some? ==> have.Some? && want.value(have.value)
  }

  predicate AtLeast(have: Option<nat>, min: Option<nat>) {
    min.Some? ==> (if have.Some? then have.value else 0) >= min.value
  }

  /** The criteria that look at the command. */
  predicate CommandMatches(r: Rule, command: Option<Normalized>) {
    && (r.commands != [] ==> command.Some? && CommandTextMatches(r.commands, command.value))
    && (r.commandTags != [] ==> command.Some? && TagMatches(r.commandTags, command.value))
    && (r.shell.Some? ==> command.Some? && command.value.shell == r.shell.value)
  }

  /** The criteria that do not. */
  predicate RestMatches(r: Rule, s: Subject) {
    && (r.actions != [] ==> s.action.Some? && s.action.value in r.actions)
    && Fits(r.paths, s.path)
    && (r.excludePaths.Some? && s.path.Some? ==> !r.excludePaths.value(s.path.value))
    && (r.runners != [] ==> s.runner.Some? && AnyWildcard(r.runners, s.runner.value))
    && (r.steps != [] ==> s.stepId.Some? && AnyWildcard(r.steps, s.stepId.value))
    && Fits(r.branches, s.branch)
    && Fits(r.repos, s.repo)
    && AtLeast(s.linesChanged, r.minLinesChanged)
    && AtLeast(s.deletedFiles, r.minDeletedFiles)
    && AtLeast(s.deletedLines, r.minDeletedLines)
    && AtLeast(s.filesChanged, r.minFilesChanged)
    && (r.addedLines.Some? ==>
          s.addedLines.Some? && exists l :: l in s.addedLines.value && r.addedLines.value(l))
  }

  predicate RuleMatches(r: Rule, s: Subject) {
    RestMatches(r, s) && CommandMatches(r, s.command)
  }

  /** The decisions of the rules that match, in rule order. */
  function Matched(rules: seq<Rule>, s: Subject): seq<Decision> {
    if rules == [] then []
    else (if RuleMatches(rules[0], s) then [rules[0].decision] else []) + Matched(rules[1..], s)
  }

  function Strictest(ds: seq<Decision>, none: Decision): Decision {
    if ds == [] then none
    else if |ds| == 1 then ds[0]
    else Stricter(ds[0], Strictest(ds[1..], none))
  }

  function Evaluate(rules: seq<Rule>, byDefault: Decision, s: Subject): Decision {
    Strictest(Matched(rules, s), byDefault)
  }

  /** The decision is the maximum over the matching rules; the default counts only when none matches. */
  ghost predicate IsVerdict(d: Decision, rules: seq<Rule>, byDefault: Decision, s: Subject) {
    && (forall i :: 0 <= i < |rules| && RuleMatches(rules[i], s) ==> Rank(rules[i].decision) <= Rank(d))
    && ((exists i :: 0 <= i < |rules| && RuleMatches(rules[i], s) && rules[i].decision == d)
        || (d == byDefault && forall i :: 0 <= i < |rules| ==> !RuleMatches(rules[i], s)))
  }

  lemma {:induction false} StrictestBounds(ds: seq<Decision>, none: Decision)
    ensures ds != [] ==> Strictest(ds, none) in ds
    ensures forall i :: 0 <= i < |ds| ==> Rank(ds[i]) <= Rank(Strictest(ds, none))
    decreases |ds|
  {
    if |ds| > 1 {
      StrictestBounds(ds[1..], none);
      forall i | 0 <= i < |ds| ensures Rank(ds[i]) <= Rank(Strictest(ds, none)) {
        if i > 0 { assert ds[1..][i - 1] == ds[i]; }
      }
    }
  }

  lemma {:induction false} MatchedAre(rules: seq<Rule>, s: Subject)
    ensures forall i :: 0 <= i < |rules| && RuleMatches(rules[i], s) ==> rules[i].decision in Matched(rules, s)
    ensures forall d :: d in Matched(rules, s) ==>
              exists i :: 0 <= i < |rules| && RuleMatches(rules[i], s) && rules[i].decision == d
    decreases |rules|
  {
    hide RuleMatches;
    if rules != [] {
      MatchedAre(rules[1..], s);
      forall i | 0 <= i < |rules| && RuleMatches(rules[i], s) ensures rules[i].decision in Matched(rules, s) {
        if i > 0 { assert rules[1..][i - 1] == rules[i]; }
      }
      forall d | d in Matched(rules, s)
        ensures exists i :: 0 <= i < |rules| && RuleMatches(rules[i], s) && rules[i].decision == d
      {
        if !(RuleMatches(rules[0], s) && d == rules[0].decision) {
          var j :| 0 <= j < |rules[1..]| && RuleMatches(rules[1..][j], s) && rules[1..][j].decision == d;
          assert rules[j + 1] == rules[1..][j];
        }
      }
    }
  }

  /** The computed decision is the verdict, and the verdict is unique. */
  lemma EvaluateIsVerdict(rules: seq<Rule>, byDefault: Decision, s: Subject, d: Decision)
    ensures IsVerdict(d, rules, byDefault, s) <==> d == Evaluate(rules, byDefault, s)
  {
    hide RuleMatches;
    MatchedAre(rules, s);
    var ds := Matched(rules, s);
    StrictestBounds(ds, byDefault);
    if ds == [] {
    } else {
      var e := Evaluate(rules, byDefault, s);
      var i :| 0 <= i < |rules| && RuleMatches(rules[i], s) && rules[i].decision == e;
      forall j | 0 <= j < |rules| && RuleMatches(rules[j], s) ensures Rank(rules[j].decision) <= Rank(e) {
        var k :| 0 <= k < |ds| && ds[k] == rules[j].decision;
      }
    }
  }

  // -------------------------------------------------------------- policy files

  predicate UniqueIds(rules: seq<Rule>) {
    forall i, j :: 0 <= i < j < |rules| ==> rules[i].id != rules[j].id
  }

  /**
   * A rule the loader takes: well-formed patterns, known tags, and at least one criterion that is not only a
   * restriction.
   */
  predicate Admissible(r: Rule) {
    && r.compiles
    && (forall t :: t in r.commandTags ==> t in TAGS)
    && (r.paths.Some? || r.commands != [] || r.commandTags != [] || r.actions != [] || r.runners != []
        || r.minDeletedFiles.Some? || r.minDeletedLines.Some? || r.minFilesChanged.Some? || r.addedLines.Some?)
  }

  /** How many rules are taken before the first one that is refused. */
  function AdmissiblePrefix(rules: seq<Rule>): (n: nat)
    ensures n <= |rules|
    ensures forall i :: 0 <= i < n ==> Admissible(rules[i])
    ensures n < |rules| ==> !Admissible(rules[n])
  {
    if rules == [] || !Admissible(rules[0]) then 0 else 1 + AdmissiblePrefix(rules[1..])
  }

  /** The loaded policies: all rules so far, the default, and how many files were taken whole. */
  datatype Loaded = Loaded(rules: seq<Rule>, byDefault: Decision, sources: nat)

  /** What adding a file leaves behind, also when it is refused half-way. */
  function AddFile(p: Loaded, file: PolicyFile): (Loaded, bool) {
    if !UniqueIds(file.rules) then (p, false)
    else
      var d := match file.defaultDecision
               case None => p.byDefault
               case Some(d) => if p.sources == 0 then d else Stricter(p.byDefault, d);
      var n := AdmissiblePrefix(file.rules);
      var ok := n == |file.rules|;
      (Loaded(p.rules + file.rules[..n], d, if ok then p.sources + 1 else p.sources), ok)
  }

  class PolicySet {
    var rules: seq<Rule>
    var defaultDecision: Decision
    var sources: nat

    ghost function State(): Loaded
      reads this
    {
      Loaded(rules, defaultDecision, sources)
    }

    constructor (byDefault: Decision)
      ensures State() == Loaded([], byDefault, 0)
    {
      rules, defaultDecision, sources := [], byDefault, 0;
    }

    method Add(file: PolicyFile) returns (ok: bool)
      modifies this
      ensures (State(), ok) == AddFile(old(State()), file)
      ensures ok <==> UniqueIds(file.rules) && forall i :: 0 <= i < |file.rules| ==> Admissible(file.rules[i])
    {
      var ids: set<string> := {};
      var k := 0;
      while k < |file.rules|
        invariant 0 <= k <= |file.rules|
        invariant forall x :: x in ids <==> exists i :: 0 <= i < k && file.rules[i].id == x
        invariant forall i, j :: 0 <= i < j < k ==> file.rules[i].id != file.rules[j].id
      {
        if file.rules[k].id in ids {
          return false;
        }
        ids := ids + {file.rules[k].id};
        k := k + 1;
      }
      match file.defaultDecision {
        case None =>
        case Some(d) =>
          defaultDecision := if sources == 0 then d else Stricter(defaultDecision, d);
      }
      k := 0;
      ghost var n, d := AdmissiblePrefix(file.rules), defaultDecision;
      while k < |file.rules|
        invariant 0 <= k <= n
        invariant rules == old(rules) + file.rules[..k]
        invariant defaultDecision == d && sources == old(sources)
      {
        if !Admissible(file.rules[k]) {
          assert UniqueIds(file.rules) && k == n;
          return false;
        }
        rules := rules + [file.rules[k]];
        k := k + 1;
      }
      assert UniqueIds(file.rules) && k == n && file.rules[..n] == file.rules;
      sources := sources + 1;
      return true;
    }

    method Decide(s: Subject) returns (decision: Decision, matched: seq<string>)
      ensures decision == Evaluate(rules, defaultDecision, s)
      ensures IsVerdict(decision, rules, defaultDecision, s)
      ensures matched == MatchedIds(rules, s)
    {
      var found: seq<Decision> := [];
      matched := [];
      var k := 0;
      while k < |rules|
        invariant 0 <= k <= |rules|
        invariant Matched(rules, s) == found + Matched(rules[k..], s)
        invariant MatchedIds(rules, s) == matched + MatchedIds(rules[k..], s)
      {
        assert rules[k..][0] == rules[k] && rules[k..][1..] == rules[k + 1..];
        if RuleMatches(rules[k], s) {
          found := found + [rules[k].decision];
          matched := matched + [rules[k].id];
        }
        k := k + 1;
      }
      assert found + [] == found && matched + [] == matched;
      decision := Max(found, defaultDecision);
      EvaluateIsVerdict(rules, defaultDecision, s, decision);
    }
  }

  function MatchedIds(rules: seq<Rule>, s: Subject): seq<string> {
    if rules == [] then []
    else (if RuleMatches(rules[0], s) then [rules[0].id] else []) + MatchedIds(rules[1..], s)
  }

  method Max(ds: seq<Decision>, none: Decision) returns (d: Decision)
    ensures d == Strictest(ds, none)
  {
    if ds == [] {
      return none;
    }
    var k := |ds| - 1;
    d := ds[k];
    while k > 0
      invariant 0 <= k < |ds| && d == Strictest(ds[k..], none)
    {
      k := k - 1;
      assert ds[k..][1..] == ds[k + 1..];
      d := Stricter(ds[k], d);
    }
    assert ds[0..] == ds;
  }

  // ------------------------------------------------------- layers only tighten

  predicate SomeRuleMatches(rules: seq<Rule>, s: Subject) {
    exists i :: 0 <= i < |rules| && RuleMatches(rules[i], s)
  }

  /** Adding rules never loosens a verdict that is not a bare default, whatever becomes of the default. */
  lemma MoreRules(rules: seq<Rule>, more: seq<Rule>, d: Decision, e: Decision, s: Subject)
    requires SomeRuleMatches(rules, s) || d == Allow
    ensures Rank(Evaluate(rules, d, s)) <= Rank(Evaluate(rules + more, e, s))
  {
    hide RuleMatches, Matched;
    var before, after := Evaluate(rules, d, s), Evaluate(rules + more, e, s);
    EvaluateIsVerdict(rules, d, s, before);
    EvaluateIsVerdict(rules + more, e, s, after);
    if i :| 0 <= i < |rules| && RuleMatches(rules[i], s) && rules[i].decision == before {
      assert (rules + more)[i] == rules[i];
    }
  }

  /** The default is out of reach of the next file: some file was taken already, or there is nothing lower. */
  predicate Settled(p: Loaded) {
    p.sources > 0 || p.byDefault == Allow
  }

  /** What the program starts from. */
  const START := Loaded([], Allow, 0)

  /**
   * A file, first or later, taken whole or refused half-way, never lowers a settled default, nor any
   * decision some rule already made; with an Allow default it lowers nothing at all.
   */
  lemma LaterFilesTighten(p: Loaded, file: PolicyFile, s: Subject)
    ensures var q := AddFile(p, file).0;
            && (Settled(p) ==> Rank(p.byDefault) <= Rank(q.byDefault))
            && (SomeRuleMatches(p.rules, s) || p.byDefault == Allow ==>
                  Rank(Evaluate(p.rules, p.byDefault, s)) <= Rank(Evaluate(q.rules, q.byDefault, s)))
  {
    hide RuleMatches, Matched, AdmissiblePrefix, UniqueIds;
    var q := AddFile(p, file).0;
    var n := if UniqueIds(file.rules) then AdmissiblePrefix(file.rules) else 0;
    assert q.rules == p.rules + file.rules[..n] by {
      assert p.rules + [] == p.rules;
    }
    if SomeRuleMatches(p.rules, s) || p.byDefault == Allow {
      MoreRules(p.rules, file.rules[..n], p.byDefault, q.byDefault, s);
    }
  }

  /** Exactly when no file can lower the default. */
  lemma DefaultNeverLoweredIff(p: Loaded)
    ensures (forall file :: Rank(p.byDefault) <= Rank(AddFile(p, file).0.byDefault)) <==> Settled(p)
  {
    if !Settled(p) {
      var q := AddFile(p, PolicyFile(Some(Allow), [])).0;
      assert Rank(q.byDefault) < Rank(p.byDefault);
    }
  }

  function AddAll(p: Loaded, files: seq<PolicyFile>): Loaded
    decreases |files|
  {
    if files == [] then p else AddAll(AddFile(p, files[0]).0, files[1..])
  }

  /** None of the files is refused; the program stops at the first that is. */
  predicate AllTaken(p: Loaded, files: seq<PolicyFile>)
    decreases |files|
  {
    files == [] || (AddFile(p, files[0]).1 && AllTaken(AddFile(p, files[0]).0, files[1..]))
  }

  /** The same over any number of layers, refused ones included: only the default asks for a settled set. */
  lemma {:induction false} LaterLayersTighten(p: Loaded, files: seq<PolicyFile>, s: Subject)
    ensures var q := AddAll(p, files);
            && (Settled(p) ==> Rank(p.byDefault) <= Rank(q.byDefault))
            && (SomeRuleMatches(p.rules, s) ==> SomeRuleMatches(q.rules, s))
            && (SomeRuleMatches(p.rules, s) || p.byDefault == Allow ==>
                  Rank(Evaluate(p.rules, p.byDefault, s)) <= Rank(Evaluate(q.rules, q.byDefault, s)))
    decreases |files|
  {
    hide RuleMatches, Matched, AdmissiblePrefix, UniqueIds, Evaluate;
    if files != [] {
      var q := AddFile(p, files[0]).0;
      LaterFilesTighten(p, files[0], s);
      assert p.rules <= q.rules;
      if i :| 0 <= i < |p.rules| && RuleMatches(p.rules[i], s) {
        assert q.rules[i] == p.rules[i];
      }
      LaterLayersTighten(q, files[1..], s);
      if !SomeRuleMatches(p.rules, s) && p.byDefault == Allow {
        UnmatchedTighten(p, files, s);
      }
    }
  }

  /**
   * From the program's own start: whatever files came before, those that follow lower neither the default nor
   * a matched decision.
   */
  lemma ProgramOnlyTightens(files: seq<PolicyFile>, more: seq<PolicyFile>, s: Subject)
    requires AllTaken(START, files + more)
    ensures AddAll(START, files + more) == AddAll(AddAll(START, files), more)
    ensures var p, q := AddAll(START, files), AddAll(START, files + more);
            && Rank(p.byDefault) <= Rank(q.byDefault)
            && (SomeRuleMatches(p.rules, s) || p.byDefault == Allow ==>
                  Rank(Evaluate(p.rules, p.byDefault, s)) <= Rank(Evaluate(q.rules, q.byDefault, s)))
  {
    hide Evaluate, SomeRuleMatches, AddFile;
    LayersSplit(START, files, more);
    LaterLayersTighten(AddAll(START, files), more, s);
  }

  lemma {:induction false} LayersSplit(p: Loaded, files: seq<PolicyFile>, more: seq<PolicyFile>)
    requires Settled(p) && AllTaken(p, files + more)
    ensures var q := AddAll(p, files);
            Settled(q) && AllTaken(q, more)
            && AddAll(p, files + more) == AddAll(q, more)
    decreases |files|
  {
    if files == [] {
      assert files + more == more;
    } else {
      assert (files + more)[0] == files[0] && (files + more)[1..] == files[1..] + more;
      LayersSplit(AddFile(p, files[0]).0, files[1..], more);
    }
  }

  /** From an Allow default there is nothing lower to fall to. */
  lemma UnmatchedTighten(p: Loaded, files: seq<PolicyFile>, s: Subject)
    requires !SomeRuleMatches(p.rules, s) && p.byDefault == Allow
    ensures Evaluate(p.rules, p.byDefault, s) == Allow
  {
    hide RuleMatches, Matched;
    EvaluateIsVerdict(p.rules, p.byDefault, s, Evaluate(p.rules, p.byDefault, s));
  }

  function AllowEverything(): Rule {
    Rule("allow-all", Allow, [], None, None, [], [], [], [], None, None, None, None, Some(0), None, None, None, true)
  }

  /** Exactly when no file, first or later, can lower a subject's decision. */
  lemma NeverLoweredIff(p: Loaded, s: Subject)
    ensures (forall file :: Rank(Evaluate(p.rules, p.byDefault, s)) <=
                            Rank(Evaluate(AddFile(p, file).0.rules, AddFile(p, file).0.byDefault, s)))
            <==> (SomeRuleMatches(p.rules, s) || p.byDefault == Allow)
  {
    if SomeRuleMatches(p.rules, s) || p.byDefault == Allow {
      forall file ensures Rank(Evaluate(p.rules, p.byDefault, s)) <=
                          Rank(Evaluate(AddFile(p, file).0.rules, AddFile(p, file).0.byDefault, s)) {
        LaterFilesTighten(p, file, s);
      }
    } else {
      var r := AllowEverything();
      var file := PolicyFile(None, [r]);
      var q := AddFile(p, file).0;
      assert RuleMatches(r, s);
      hide RuleMatches, Matched;
      assert [r][..1] == [r] && q.rules == p.rules + [r];
      EvaluateIsVerdict(p.rules, p.byDefault, s, Evaluate(p.rules, p.byDefault, s));
      EvaluateIsVerdict(q.rules, q.byDefault, s, Evaluate(q.rules, q.byDefault, s));
      assert q.rules[|p.rules|] == r;
    }
  }

  /**
   * Before any file is taken the default is not settled: a set that starts stricter than the program's may be
   * lowered.
   */
  lemma FirstFileMayLower(s: Subject)
    ensures var p := Loaded([], Deny, 0);
            var q := AddFile(p, PolicyFile(Some(Allow), [])).0;
            Evaluate(p.rules, p.byDefault, s) == Deny && Evaluate(q.rules, q.byDefault, s) == Allow
  {}

  // ------------------------------------------------- scripts and their segments

  /** A rule that matches a segment of a script on its own also matches the script. */
  lemma RuleReachesScript(r: Rule, s: Subject, c: Normalized, k: nat)
    requires k < |c.segments| && c.shell
    requires r.shell != Some(false)
    requires RuleMatches(r, s.(command := Some(c.segments[k])))
    ensures RuleMatches(r, s.(command := Some(c)))
  {
    hide AllTexts, AllTags, AnyWildcard;
    SegmentShows(c, k);
  }

  /** The strictest segment bounds the script from below. */
  lemma ScriptAtLeastSegment(rules: seq<Rule>, d: Decision, s: Subject, c: Normalized, k: nat)
    requires k < |c.segments| && c.shell
    requires forall i :: 0 <= i < |rules| ==> rules[i].shell != Some(false)
    requires d == Allow || SomeRuleMatches(rules, s.(command := Some(c.segments[k])))
    ensures Rank(Evaluate(rules, d, s.(command := Some(c.segments[k])))) <=
            Rank(Evaluate(rules, d, s.(command := Some(c))))
  {
    hide RuleMatches, Matched;
    var alone, whole := s.(command := Some(c.segments[k])), s.(command := Some(c));
    EvaluateIsVerdict(rules, d, alone, Evaluate(rules, d, alone));
    EvaluateIsVerdict(rules, d, whole, Evaluate(rules, d, whole));
    if i :| 0 <= i < |rules| && RuleMatches(rules[i], alone) && rules[i].decision == Evaluate(rules, d, alone) {
      RuleReachesScript(rules[i], s, c, k);
    }
  }

  /**
   * Which rules always reach from a command to the scripts that contain it:
   * all but those that insist on `shell: false` and match anything at all.
   */
  lemma RuleReachesIff(r: Rule)
    ensures (forall s: Subject, c: Normalized, k: nat ::
               k < |c.segments| && c.shell && RuleMatches(r, s.(command := Some(c.segments[k])))
               ==> RuleMatches(r, s.(command := Some(c))))
            <==> (r.shell == Some(false) ==>
                    forall s: Subject, e: Normalized :: !RuleMatches(r, s.(command := Some(e))))
  {
    if r.shell == Some(false) {
      if s: Subject, e: Normalized :| RuleMatches(r, s.(command := Some(e))) {
        var c := Normalized([], [], [], true, [e], []);
        assert c.segments[0] == e;
        assert !RuleMatches(r, s.(command := Some(c)));
        hide RuleMatches;
        var k: nat := 0;
        assert k < |c.segments| && c.shell && RuleMatches(r, s.(command := Some(c.segments[k])));
      }
    } else {
      forall s: Subject, c: Normalized, k: nat
        | k < |c.segments| && c.shell && RuleMatches(r, s.(command := Some(c.segments[k])))
        ensures RuleMatches(r, s.(command := Some(c)))
      {
        RuleReachesScript(r, s, c, k);
      }
    }
  }

  /** No part of a chained script escapes a rule by being chained, quoted or substituted. */
  lemma ChainingCannotLoosen(
    classify: Classifier, rules: seq<Rule>, s: Subject, script: string, o: seq<string>, e: Normalized)
    requires forall i :: 0 <= i < |rules| ==> rules[i].shell != Some(false)
    requires e in NormalizeScript(classify, script, o).segments
    ensures Rank(Evaluate(rules, Allow, s.(command := Some(e)))) <=
            Rank(Evaluate(rules, Allow, s.(command := Some(NormalizeScript(classify, script, o)))))
  {
    hide Evaluate, NormalizeScript;
    ScriptIsShell(classify, script, o);
    var c := NormalizeScript(classify, script, o);
    var k :| 0 <= k < |c.segments| && c.segments[k] == e;
    ScriptAtLeastSegment(rules, Allow, s, c, k);
  }

  /** So, from the text alone: a command written behind any operator is judged no more mildly than on its own. */
  lemma ChainedCommandIsJudged(
    classify: Classifier, rules: seq<Rule>, s: Subject,
    a: string, op: string, argv: seq<string>, text: string, o: seq<string>)
    requires forall i :: 0 <= i < |rules| ==> rules[i].shell != Some(false)
    requires text == ShellWords.DisplayArgv(argv) && NormalizeArgv(classify, argv, 0).program != []
    requires ShellSplit.IsOperator(op) && ShellSplit.Whole(a, ShellSplit.START)
    requires ShellSplit.SeparatorReadable(a, op, text)
    ensures var alone, script := NormalizeArgv(classify, argv, 0), NormalizeScript(classify, a + op + text, o);
            Rank(Evaluate(rules, Allow, s.(command := Some(alone)))) <=
            Rank(Evaluate(rules, Allow, s.(command := Some(script))))
  {
    hide Evaluate, NormalizeScript, NormalizeArgv;
    ChainedCommandIsSegment(classify, a, op, argv, text, o);
    ChainingCannotLoosen(classify, rules, s, a + op + text, o, NormalizeArgv(classify, argv, 0));
  }

  lemma ScriptIsShell(classify: Classifier, script: string, o: seq<string>)
    ensures NormalizeScript(classify, script, o).shell
  {}
}
