/** What normalization makes of command lines, said in terms of the command lines themselves. */
module CommandMeaning {
  import opened Text
  import ShellWords
  import ShellSplit
  import opened Normalize

  // ------------------------------------------------------------------- programs

  /** The program is what follows the last slash. */
  lemma {:induction false} BasenameIs(dir: string, name: string)
    requires '/' !in name
    ensures Basename(name) == name && Basename(dir + "/" + name) == name
    decreases |dir|
  {
    var p := dir + "/" + name;
    assert p[|dir|] == '/';
    if dir == [] {
      assert p[1..] == name;
    } else {
      assert p[1..] == dir[1..] + "/" + name;
      BasenameIs(dir[1..], name);
    }
  }

  predicate Identifier(k: string) {
    && k != [] && (IsAlphabetic(k[0]) || k[0] == '_')
    && forall i :: 0 <= i < |k| ==> IsAlphanumeric(k[i]) || k[i] == '_'
  }

  /** An assignment is an identifier before the first `=`. */
  lemma {:induction false} AssignmentIff(k: string, v: string)
    requires '=' !in k
    ensures IsEnvAssignment(k + "=" + v) <==> Identifier(k)
    ensures !IsEnvAssignment(k)
  {
    BeforeFirst(k, v);
  }

  lemma {:induction false} BeforeFirst(k: string, v: string)
    requires '=' !in k
    ensures BeforeEquals(k + "=" + v) == Some(k) && BeforeEquals(k) == None
    decreases |k|
  {
    if k != [] {
      assert (k + "=" + v)[0] == k[0] && (k + "=" + v)[1..] == k[1..] + "=" + v;
      assert k == [k[0]] + k[1..];
      BeforeFirst(k[1..], v);
    }
  }

  // ------------------------------------------------------------------- wrappers

  predicate IsOption(a: string) {
    StartsWith(a, "-")
  }

  /** Options of `sudo` and `doas`; four of them take a value, which may look like anything. */
  predicate SudoOptions(opts: seq<string>) {
    || opts == []
    || (opts[0] in ["-u", "-g", "-C", "-h"] && |opts| > 1 && SudoOptions(opts[2..]))
    || (opts[0] !in ["-u", "-g", "-C", "-h"] && IsOption(opts[0]) && SudoOptions(opts[1..]))
  }

  /** The wrappers a command may stand behind, and whether they raise privileges. */
  ghost predicate Wraps(w: seq<string>, raises: bool) {
    w != []
    && var b, opts := Basename(w[0]), w[1..];
       if IsEnvAssignment(w[0]) then opts == [] && !raises
       else if b == "env" then !raises && forall i :: 0 <= i < |opts| ==> IsOption(opts[i]) || IsEnvAssignment(opts[i])
       else if b == "sudo" || b == "doas" then raises && SudoOptions(opts)
       else if b in ["nohup", "time", "command", "exec", "builtin"] then !raises && opts == []
       else if b == "nice" then
         !raises && (opts == [] || (|opts| == 2 && opts[0] == "-n")
                     || (|opts| == 1 && IsOption(opts[0]) && opts[0] != "-n"))
       else if b == "timeout" then
         !raises && opts != [] && !IsOption(opts[|opts| - 1]) && forall i :: 0 <= i < |opts| - 1 ==> IsOption(opts[i])
       else false
  }

  lemma {:induction false} SudoEnds(pre: seq<string>, opts: seq<string>, argv: seq<string>)
    requires SudoOptions(opts) && argv != [] && !IsOption(argv[0])
    ensures SkipSudo(pre + opts + argv, |pre|) == |pre| + |opts|
    decreases |opts|
  {
    var all := pre + opts + argv;
    if opts == [] {
      assert all[|pre|] == argv[0];
    } else if opts[0] in ["-u", "-g", "-C", "-h"] {
      assert all[|pre|] == opts[0] && all == (pre + opts[..2]) + opts[2..] + argv;
      SudoEnds(pre + opts[..2], opts[2..], argv);
    } else {
      assert all[|pre|] == opts[0] && all == (pre + opts[..1]) + opts[1..] + argv;
      SudoEnds(pre + opts[..1], opts[1..], argv);
    }
  }

  lemma {:induction false} EnvEnds(pre: seq<string>, opts: seq<string>, argv: seq<string>)
    requires forall i :: 0 <= i < |opts| ==> IsOption(opts[i]) || IsEnvAssignment(opts[i])
    requires argv != [] && !IsOption(argv[0]) && !IsEnvAssignment(argv[0])
    ensures SkipEnv(pre + opts + argv, |pre|) == |pre| + |opts|
    decreases |opts|
  {
    hide IsEnvAssignment;
    var all := pre + opts + argv;
    if opts == [] {
      assert all[|pre|] == argv[0];
    } else {
      assert all[|pre|] == opts[0] && all == (pre + opts[..1]) + opts[1..] + argv;
      EnvEnds(pre + opts[..1], opts[1..], argv);
    }
  }

  lemma {:induction false} OptionsEnd(pre: seq<string>, opts: seq<string>, argv: seq<string>)
    requires forall i :: 0 <= i < |opts| ==> IsOption(opts[i])
    requires argv != [] && !IsOption(argv[0])
    ensures SkipOptions(pre + opts + argv, |pre|) == |pre| + |opts|
    decreases |opts|
  {
    var all := pre + opts + argv;
    if opts == [] {
      assert all[|pre|] == argv[0];
    } else {
      assert all[|pre|] == opts[0] && all == (pre + opts[..1]) + opts[1..] + argv;
      OptionsEnd(pre + opts[..1], opts[1..], argv);
    }
  }

  /** Each of them is taken off as a whole in front of any command that is itself no option and no assignment. */
  lemma WrapperIs(w: seq<string>, raises: bool, argv: seq<string>)
    requires Wraps(w, raises) && argv != [] && !IsOption(argv[0]) && !IsEnvAssignment(argv[0])
    ensures Wrapper(w + argv, 0) == Some((|w|, raises))
  {
    hide IsEnvAssignment, Basename;
    var pre, opts := w[..1], w[1..];
    assert w == pre + opts && w + argv == pre + opts + argv && (w + argv)[0] == w[0];
    assert opts == [] ==> (w + argv)[1] == argv[0];
    assert opts != [] ==> (w + argv)[1] == opts[0];
    var b := Basename(w[0]);
    if IsEnvAssignment(w[0]) {
    } else if b == "env" {
      EnvEnds(pre, opts, argv);
    } else if b == "sudo" || b == "doas" {
      SudoEnds(pre, opts, argv);
    } else if b == "timeout" {
      var n := |opts| - 1;
      assert opts == opts[..n] + [opts[n]];
      assert w + argv == pre + opts[..n] + ([opts[n]] + argv);
      OptionsEnd(pre, opts[..n], [opts[n]] + argv);
    }
  }

  /** A command line that starts with none of them is judged as it is. */
  lemma NothingToUnwrap(argv: seq<string>)
    requires argv != [] && !IsEnvAssignment(argv[0])
    requires Basename(argv[0]) !in
               ["env", "sudo", "doas", "nohup", "time", "command", "exec", "builtin", "nice", "timeout"]
    ensures Core(argv) == argv && !Privileged(argv)
  {
    assert argv[0..] == argv;
  }

  /** Nothing but wrappers is no command. */
  lemma NoCommand(classify: Classifier, argv: seq<string>, d: nat)
    ensures NormalizeArgv(classify, argv, d).program == []
            && !NormalizeArgv(classify, argv, d).shell <== Core(argv) == []
  {}

  // ------------------------------------------------------------ git and the text

  /** Global options of git, with their values. */
  predicate GitGlobals(opts: seq<string>) {
    || opts == []
    || (opts[0] in ["-C", "-c", "--git-dir", "--work-tree", "--namespace"] && |opts| > 1 && GitGlobals(opts[2..]))
    || (opts[0] !in ["-C", "-c", "--git-dir", "--work-tree", "--namespace"]
        && LoneGlobal(opts[0]) && GitGlobals(opts[1..]))
  }

  /** A global option that takes no further argument. */
  predicate LoneGlobal(a: string) {
    || a in ["-P", "-p", "--no-pager", "--paginate", "--bare", "--no-replace-objects"]
    || (exists p :: p in ["--git-dir=", "--work-tree=", "--namespace=", "--exec-path"] && p <= a)
  }

  lemma LoneGlobalIff(a: string)
    ensures GitFlag(a) <==> LoneGlobal(a)
  {
    var ps := ["--git-dir=", "--work-tree=", "--namespace=", "--exec-path"];
    assert ps[0] in ps && ps[1] in ps && ps[2] in ps && ps[3] in ps;
  }

  /** Exactly the options before the subcommand are left out. */
  lemma {:induction false} GlobalsAreStripped(opts: seq<string>, rest: seq<string>)
    requires GitGlobals(opts)
    requires rest != [] ==>
               rest[0] !in ["-C", "-c", "--git-dir", "--work-tree", "--namespace"] && !LoneGlobal(rest[0])
    ensures StripGit(opts + rest) == rest
    decreases |opts|
  {
    if rest != [] { LoneGlobalIff(rest[0]); }
    if opts != [] { LoneGlobalIff(opts[0]); }
    hide GitFlag, LoneGlobal;
    var all := opts + rest;
    if opts == [] {
      assert all == rest;
    } else if GitTakesValue(opts[0]) {
      assert all[0] == opts[0] && all[2..] == opts[2..] + rest;
      GlobalsAreStripped(opts[2..], rest);
    } else {
      assert all[0] == opts[0] && all[1..] == opts[1..] + rest;
      GlobalsAreStripped(opts[1..], rest);
    }
  }

  /** An ordinary command: its program by name, its arguments, no shell and no segments. */
  lemma PlainCommand(classify: Classifier, argv: seq<string>, d: nat)
    requires argv != [] && Core(argv) == argv && !IsShell(Basename(argv[0]))
    ensures var c := NormalizeArgv(classify, argv, d);
            var program := Basename(argv[0]);
            var args := if program == "git" then StripGit(argv[1..]) else argv[1..];
            && c.program == program && !c.shell && c.segments == [] && c.argv == argv
            && c.text == CollapseBlanks(Join([program] + args, " "))
            && (!Privileged(argv) ==> c.tags == classify(program, args))
  {
    NoShellNoScript(argv);
    hide *;
    NormalizeOrdinary(classify, argv, d, if Basename(argv[0]) == "git" then StripGit(argv[1..]) else argv[1..]);
    assert classify(Basename(argv[0]), []) + [] == classify(Basename(argv[0]), []);
  }

  lemma NormalizeOrdinary(classify: Classifier, argv: seq<string>, d: nat, args: seq<string>)
    requires Core(argv) != [] && InnerScript(argv) == None
    requires var core := Core(argv); args == if Basename(core[0]) == "git" then StripGit(core[1..]) else core[1..]
    ensures var program := Basename(Core(argv)[0]);
            NormalizeArgv(classify, argv, d) ==
            Normalized(argv, program, CollapseBlanks(Join([program] + args, " ")), false, [],
                       classify(program, args) + if Privileged(argv) then [PRIVILEGE] else [])
  {
    hide Core, Privileged, InnerScript, CollapseBlanks, StripGit, Basename, NormalizeScript, Join;
  }

  lemma NoShellNoScript(argv: seq<string>)
    requires argv != [] && Core(argv) == argv && !IsShell(Basename(argv[0]))
    ensures InnerScript(argv) == None
  {
    hide Core, Basename, IsShell, ScriptAt;
  }

  predicate IsWord(w: string) {
    w != [] && forall i :: 0 <= i < |w| ==> !IsSpace(w[i])
  }

  predicate IsGap(g: string) {
    g != [] && IsBlank(g)
  }

  /** Words with blanks of any kind and length between them. */
  function Spaced(words: seq<string>, gaps: seq<string>): string
    requires |gaps| == |words|
  {
    if words == [] then [] else words[0] + gaps[0] + Spaced(words[1..], gaps[1..])
  }

  lemma {:induction false} SkipGap(g: string, rest: string)
    requires IsBlank(g)
    ensures BlankWords(g + rest, []) == BlankWords(rest, [])
    decreases |g|
  {
    if g == [] {
      assert g + rest == rest;
    } else {
      assert (g + rest)[1..] == g[1..] + rest;
      SkipGap(g[1..], rest);
    }
  }

  lemma {:induction false} TakeWord(w: string, g: string, rest: string, cur: string)
    requires (forall i :: 0 <= i < |w| ==> !IsSpace(w[i])) && IsGap(g) && cur + w != []
    ensures BlankWords(w + g + rest, cur) == [cur + w] + BlankWords(rest, [])
    decreases |w|
  {
    var s := w + g + rest;
    if w == [] {
      assert s == g + rest && s[0] == g[0] && s[1..] == g[1..] + rest && cur + w == cur;
      SkipGap(g[1..], rest);
    } else {
      assert s[0] == w[0] && s[1..] == w[1..] + g + rest && cur + w == cur + [w[0]] + w[1..];
      TakeWord(w[1..], g, rest, cur + [w[0]]);
    }
  }

  lemma {:induction false} SpacedWords(words: seq<string>, gaps: seq<string>)
    requires |gaps| == |words|
    requires forall i :: 0 <= i < |words| ==> IsWord(words[i]) && IsGap(gaps[i])
    ensures BlankWords(Spaced(words, gaps), []) == words
    decreases |words|
  {
    if words != [] {
      SpacedWords(words[1..], gaps[1..]);
      assert [] + words[0] == words[0];
      TakeWord(words[0], gaps[0], Spaced(words[1..], gaps[1..]), []);
    }
  }

  /** The canonical text has one space between words, whatever blanks were there, and none around them. */
  lemma CollapsedIs(lead: string, words: seq<string>, gaps: seq<string>)
    requires IsBlank(lead) && |gaps| == |words|
    requires forall i :: 0 <= i < |words| ==> IsWord(words[i]) && IsGap(gaps[i])
    ensures CollapseBlanks(lead + Spaced(words, gaps)) == Join(words, " ")
  {
    SkipGap(lead, Spaced(words, gaps));
    SpacedWords(words, gaps);
  }

  // --------------------------------------------------------------- shell scripts

  /** The first of the arguments that announces a script: `-c`, or a cluster of short options with a `c` in it. */
  predicate Announces(a: string) {
    |a| > 0 && a[0] == '-' && !(|a| > 1 && a[1] == '-') && 'c' in a
  }

  lemma AnnouncesIff(a: string)
    ensures TakesScript(a) <==> Announces(a)
  {
    assert StartsWith(a, "-") <==> |a| > 0 && a[0] == '-';
    assert StartsWith(a, "--") <==> |a| > 1 && a[0] == '-' && a[1] == '-';
    assert "-c"[1] == 'c';
  }

  /** A shell, by any path, that is given a script after any other options. */
  predicate RunsScript(argv: seq<string>, opts: seq<string>, script: string) {
    && |argv| >= |opts| + 3
    && argv[1..|opts| + 1] == opts && argv[|opts| + 2] == script
    && Basename(argv[0]) in ["sh", "bash", "zsh", "dash", "ksh", "fish"] && !IsEnvAssignment(argv[0])
    && Announces(argv[|opts| + 1]) && forall i :: 0 <= i < |opts| ==> !Announces(opts[i])
  }

  lemma {:induction false} ScriptAtIs(args: seq<string>, from: nat, at: nat)
    requires from <= at < |args| && TakesScript(args[at])
    requires forall i :: from <= i < at ==> !TakesScript(args[i])
    ensures ScriptAt(args, from) == Some(at)
    decreases at - from
  {
    hide TakesScript;
    if from < at { ScriptAtIs(args, from + 1, at); }
  }

  lemma InnerScriptIs(argv: seq<string>, opts: seq<string>, script: string)
    requires RunsScript(argv, opts, script)
    ensures Core(argv) == argv && !Privileged(argv) && InnerScript(argv) == Some(script)
  {
    ShellIsNoWrapper(Basename(argv[0]));
    NothingToUnwrap(argv);
    hide Core, Privileged, Basename, IsShell, IsEnvAssignment, ScriptAt, Announces, InnerScript;
    AnnouncedAt(argv, opts);
    ScriptAfter(argv, |opts|);
  }

  lemma ShellIsNoWrapper(p: string)
    requires IsShell(p)
    ensures p !in ["env", "sudo", "doas", "nohup", "time", "command", "exec", "builtin", "nice", "timeout"]
  {}

  lemma AnnouncedAt(argv: seq<string>, opts: seq<string>)
    requires |argv| >= |opts| + 3 && argv[1..|opts| + 1] == opts
    requires Announces(argv[|opts| + 1]) && forall i :: 0 <= i < |opts| ==> !Announces(opts[i])
    ensures ScriptAt(argv[1..], 0) == Some(|opts|)
  {
    hide Announces, TakesScript, ScriptAt;
    var args, at := argv[1..], |opts|;
    assert args[at] == argv[at + 1];
    AnnouncesIff(args[at]);
    forall i | 0 <= i < at ensures !TakesScript(args[i]) {
      assert args[i] == argv[1..|opts| + 1][i];
      AnnouncesIff(opts[i]);
    }
    ScriptAtIs(args, 0, at);
  }

  lemma ScriptAfter(argv: seq<string>, at: nat)
    requires argv != [] && Core(argv) == argv && IsShell(Basename(argv[0]))
    requires ScriptAt(argv[1..], 0) == Some(at) && at + 2 < |argv|
    ensures InnerScript(argv) == Some(argv[at + 2])
  {
    hide Core, Basename, IsShell, ScriptAt;
  }

  /** A script handed to a shell is judged as the script is, whatever other options and arguments there are. */
  lemma ScriptOfShellIsJudged(classify: Classifier, argv: seq<string>, opts: seq<string>, script: string, d: nat)
    requires d < 3 && RunsScript(argv, opts, script)
    ensures var c, s := NormalizeArgv(classify, argv, d), NormalizeScript(classify, script, argv);
            && c.segments == s.segments && c.program == s.program && c.shell && c.argv == argv && c.tags == s.tags
            && c.text == CollapseBlanks(Basename(argv[0]) + " -c " + script)
  {
    hide NormalizeScript, CollapseBlanks;
    InnerScriptIs(argv, opts, script);
    ShellOfScript(classify, script, argv);
  }

  lemma ShellOfScript(classify: Classifier, script: string, o: seq<string>)
    ensures NormalizeScript(classify, script, o).shell && NormalizeScript(classify, script, o).argv == o
  {
    hide NormalizeEach, UnionTags, CollapseBlanks, ShellSplit.Segments;
  }

  /** The same behind any wrapper. */
  lemma WrappedScriptIsJudged(
    classify: Classifier, w: seq<string>, raises: bool, argv: seq<string>, opts: seq<string>, script: string, d: nat)
    requires d < 3 && Wraps(w, raises) && RunsScript(argv, opts, script) && !IsOption(argv[0])
    ensures var c, s := NormalizeArgv(classify, w + argv, d), NormalizeScript(classify, script, argv);
            c.segments == s.segments && c.program == s.program && c.shell
  {
    hide NormalizeScript, NormalizeArgv, Wraps;
    WrapperIs(w, raises, argv);
    WrapperIsSeenThrough(classify, w, argv, raises, d);
    ScriptOfShellIsJudged(classify, argv, opts, script, d);
  }

  /** So a command that is quoted and handed to a shell, behind any wrapper, is judged as the command it is. */
  lemma QuotedCommandIsJudged(
    classify: Classifier, w: seq<string>, raises: bool, argv: seq<string>, opts: seq<string>, inner: seq<string>,
    text: string)
    requires text == ShellWords.DisplayArgv(inner) && NormalizeArgv(classify, inner, 0).program != []
    requires RunsScript(argv, opts, text) && !IsOption(argv[0]) && (w == [] || Wraps(w, raises))
    ensures NormalizeArgv(classify, w + argv, 0).segments == [NormalizeArgv(classify, inner, 0)]
    ensures NormalizeArgv(classify, w + argv, 0).shell
  {
    hide NormalizeScript, NormalizeArgv, Wraps, RunsScript;
    QuotedScriptIsTransparent(classify, inner, argv);
    if w == [] {
      assert w + argv == argv;
      ScriptOfShellIsJudged(classify, argv, opts, text, 0);
    } else {
      WrappedScriptIsJudged(classify, w, raises, argv, opts, text, 0);
    }
  }

  // -------------------------------------------------------------- what rules see

  lemma {:induction false} AddTagsAre(tags: seq<string>, more: seq<string>, t: string)
    ensures t in AddTags(tags, more) <==> t in tags || t in more
    decreases |more|
  {
    if more != [] {
      AddTagsAre(if more[0] in tags then tags else tags + [more[0]], more[1..], t);
    }
  }

  lemma {:induction false} UnionTagsAre(tags: seq<string>, segments: seq<Normalized>, t: string)
    ensures t in UnionTags(tags, segments) <==> t in tags || exists k :: 0 <= k < |segments| && t in segments[k].tags
    decreases |segments|
  {
    if segments != [] {
      var more := AddTags(tags, segments[0].tags);
      AddTagsAre(tags, segments[0].tags, t);
      UnionTagsAre(more, segments[1..], t);
      assert segments == [segments[0]] + segments[1..];
    }
  }

  /** The tags of a script: its own and those of its commands. */
  lemma ScriptTags(classify: Classifier, script: string, o: seq<string>, t: string)
    ensures var c := NormalizeScript(classify, script, o);
            t in c.tags <==> t == "shell" || exists k :: 0 <= k < |c.segments| && t in c.segments[k].tags
  {
    hide NormalizeEach, ShellSplit.Segments, CollapseBlanks;
    UnionTagsAre(["shell"], NormalizeScript(classify, script, o).segments, t);
    hide UnionTags;
  }

  lemma {:induction false} EachIs(classify: Classifier, segs: seq<string>, bound: nat, c: Normalized)
    requires forall i :: 0 <= i < |segs| ==> ShellWords.CountAll('h', ShellWords.Words(segs[i])) <= bound
    ensures c in NormalizeEach(classify, segs, bound)
       <==> c.program != [] && exists s :: s in segs && c == NormalizeArgv(classify, ShellWords.Words(s), 1)
    decreases |segs|
  {
    hide NormalizeArgv;
    if segs != [] {
      EachIs(classify, segs[1..], bound, c);
      assert segs == [segs[0]] + segs[1..];
    }
  }

  /** The commands of a script are those its segments spell, wherever there is one. */
  lemma ScriptCommands(classify: Classifier, script: string, o: seq<string>, c: Normalized)
    ensures c in NormalizeScript(classify, script, o).segments
       <==> c.program != []
            && exists s :: s in ShellSplit.Segments(script) && c == NormalizeArgv(classify, ShellWords.Words(s), 1)
    ensures var n := NormalizeScript(classify, script, o);
            && n.text == CollapseBlanks(script)
            && n.program == if n.segments == [] then [] else n.segments[0].program
  {
    var segs := ShellSplit.Segments(script);
    forall i | 0 <= i < |segs| ensures ShellWords.CountAll('h', ShellWords.Words(segs[i])) <= Count('h', script) {
      SegmentWordsCount(script, i);
    }
    EachIs(classify, segs, Count('h', script), c);
    hide NormalizeEach, UnionTags, CollapseBlanks;
  }

  lemma {:induction false} TextsOfAre(cs: seq<Normalized>, t: string)
    ensures t in AllTextsOf(cs) <==> exists k :: 0 <= k < |cs| && t in AllTexts(cs[k])
    decreases |cs|
  {
    hide AllTexts;
    if cs != [] {
      TextsOfAre(cs[1..], t);
      assert cs == [cs[0]] + cs[1..];
    }
  }

  lemma {:induction false} TagsOfAre(cs: seq<Normalized>, t: string)
    ensures t in AllTagsOf(cs) <==> exists k :: 0 <= k < |cs| && t in AllTags(cs[k])
    decreases |cs|
  {
    hide AllTags;
    if cs != [] {
      TagsOfAre(cs[1..], t);
      assert cs == [cs[0]] + cs[1..];
    }
  }

  /** A command shows rules its own text and tags and those of its segments, and no others. */
  lemma CommandShows(c: Normalized, t: string)
    ensures t in AllTexts(c) <==> t == c.text || exists k :: 0 <= k < |c.segments| && t in AllTexts(c.segments[k])
    ensures t in AllTags(c) <==> t in c.tags || exists k :: 0 <= k < |c.segments| && t in AllTags(c.segments[k])
  {
    TextsOfAre(c.segments, t);
    TagsOfAre(c.segments, t);
  }
}
