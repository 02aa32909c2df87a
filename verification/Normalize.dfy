/** Command normalization: unwrapping, nested `sh -c` scripts, tags, canonical text. */
module Normalize {
  import opened Text
  import opened ShellWords
  import opened ShellSplit

  datatype Normalized = Normalized(
    argv: seq<string>,
    program: string,
    text: string,
    shell: bool,
    segments: seq<Normalized>,
    tags: seq<string>)

  /** The tag table: which tags a program with these arguments gets. It stays a parameter here. */
  type Classifier = (string, seq<string>) -> seq<string>

  const PRIVILEGE := "privilege_escalation"

  // ------------------------------------------------------------ small helpers

  function Basename(p: string): string {
    if '/' in p then Basename(p[1..]) else p
  }

  /** The part before the first `=`, when there is one. */
  function BeforeEquals(s: string): Option<string> {
    if s == [] then None
    else if s[0] == '=' then Some([])
    else match BeforeEquals(s[1..])
      case None => None
      case Some(k) => Some([s[0]] + k)
  }

  predicate IsEnvAssignment(s: string) {
    match BeforeEquals(s)
    case None => false
    case Some(k) =>
      && k != [] && (IsAlphabetic(k[0]) || k[0] == '_')
      && forall i :: 0 <= i < |k| ==> IsAlphanumeric(k[i]) || k[i] == '_'
  }

  predicate IsShell(program: string) {
    program in ["sh", "bash", "zsh", "dash", "ksh", "fish"]
  }

  predicate IsTransparent(b: string) {
    b in ["nohup", "time", "command", "exec", "builtin"]
  }

  predicate TakesScript(a: string) {
    a == "-c" || (StartsWith(a, "-") && !StartsWith(a, "--") && 'c' in a)
  }

  /** Words of a text, split on white space only. */
  function BlankWords(s: string, cur: string): seq<string>
    decreases |s|
  {
    if s == [] then (if cur == [] then [] else [cur])
    else if IsSpace(s[0]) then (if cur == [] then [] else [cur]) + BlankWords(s[1..], [])
    else BlankWords(s[1..], cur + [s[0]])
  }

  function CollapseBlanks(s: string): string {
    Join(BlankWords(s, []), " ")
  }

  // ---------------------------------------------------------------- unwrapping

  /** Options of `env` and assignments that follow it. */
  function SkipEnv(argv: seq<string>, i: nat): (j: nat)
    ensures i <= j
    decreases |argv| - i
  {
    if i < |argv| && (StartsWith(argv[i], "-") || IsEnvAssignment(argv[i])) then SkipEnv(argv, i + 1) else i
  }

  function SkipOptions(argv: seq<string>, i: nat): (j: nat)
    ensures i <= j
    decreases |argv| - i
  {
    if i < |argv| && StartsWith(argv[i], "-") then SkipOptions(argv, i + 1) else i
  }

  function SkipSudo(argv: seq<string>, i: nat): (j: nat)
    ensures i <= j
    decreases |argv| - i
  {
    if i >= |argv| then i
    else if argv[i] in ["-u", "-g", "-C", "-h"] then SkipSudo(argv, i + 2)
    else if StartsWith(argv[i], "-") then SkipSudo(argv, i + 1)
    else i
  }

  function SkipNice(argv: seq<string>, i: nat): (j: nat)
    ensures i <= j
  {
    if i < |argv| && argv[i] == "-n" then i + 2
    else if i < |argv| && StartsWith(argv[i], "-") then i + 1
    else i
  }

  /** One wrapper at position `i`: where it ends and whether it raises privileges. */
  function Wrapper(argv: seq<string>, i: nat): (r: Option<(nat, bool)>)
    requires i < |argv|
    ensures r.Some? ==> r.value.0 > i
  {
    var b := Basename(argv[i]);
    if IsEnvAssignment(argv[i]) then Some((i + 1, false))
    else if b == "env" then Some((SkipEnv(argv, i + 1), false))
    else if b == "sudo" || b == "doas" then Some((SkipSudo(argv, i + 1), true))
    else if IsTransparent(b) then Some((i + 1, false))
    else if b == "nice" then Some((SkipNice(argv, i + 1), false))
    else if b == "timeout" then Some((SkipOptions(argv, i + 1) + 1, false))
    else None
  }

  /** Past all wrappers; the second part says whether one of them was `sudo` or `doas`. */
  function Unwrap(argv: seq<string>, i: nat, privileged: bool): (nat, bool)
    decreases |argv| - i
  {
    if i >= |argv| then (i, privileged)
    else match Wrapper(argv, i)
      case None => (i, privileged)
      case Some((j, p)) => Unwrap(argv, j, privileged || p)
  }

  /** The command proper: what is left after the wrappers. */
  function Core(argv: seq<string>): seq<string> {
    var i := Unwrap(argv, 0, false).0;
    if i >= |argv| then [] else argv[i..]
  }

  function Privileged(argv: seq<string>): bool {
    Unwrap(argv, 0, false).1
  }

  method PastEnv(argv: seq<string>, from: nat) returns (i: nat)
    ensures i == SkipEnv(argv, from)
  {
    i := from;
    while i < |argv| && (StartsWith(argv[i], "-") || IsEnvAssignment(argv[i]))
      invariant from <= i && SkipEnv(argv, i) == SkipEnv(argv, from)
    {
      i := i + 1;
    }
  }

  method PastSudo(argv: seq<string>, from: nat) returns (i: nat)
    ensures i == SkipSudo(argv, from)
  {
    i := from;
    while i < |argv|
      invariant from <= i && SkipSudo(argv, i) == SkipSudo(argv, from)
      decreases |argv| - i
    {
      if argv[i] in ["-u", "-g", "-C", "-h"] {
        i := i + 2;
      } else if StartsWith(argv[i], "-") {
        i := i + 1;
      } else {
        break;
      }
    }
  }

  method PastOptions(argv: seq<string>, from: nat) returns (i: nat)
    ensures i == SkipOptions(argv, from)
  {
    i := from;
    while i < |argv| && StartsWith(argv[i], "-")
      invariant from <= i && SkipOptions(argv, i) == SkipOptions(argv, from)
    {
      i := i + 1;
    }
  }

  method UnwrapPrefix(argv: seq<string>) returns (rest: seq<string>, privileged: bool)
    ensures rest == Core(argv) && privileged == Privileged(argv)
  {
    hide SkipEnv, SkipSudo, SkipOptions, Basename, BeforeEquals, IsEnvAssignment;
    var i := 0;
    privileged := false;
    while i < |argv|
      invariant Unwrap(argv, i, privileged) == Unwrap(argv, 0, false)
      decreases |argv| - i
    {
      var a := argv[i];
      var b := Basename(a);
      if IsEnvAssignment(a) {
        i := i + 1;
      } else if b == "env" {
        i := PastEnv(argv, i + 1);
      } else if b == "sudo" || b == "doas" {
        privileged := true;
        i := PastSudo(argv, i + 1);
      } else if IsTransparent(b) {
        i := i + 1;
      } else if b == "nice" {
        i := i + 1;
        if i < |argv| && argv[i] == "-n" {
          i := i + 2;
        } else if i < |argv| && StartsWith(argv[i], "-") {
          i := i + 1;
        }
      } else if b == "timeout" {
        i := PastOptions(argv, i + 1);
        i := i + 1;
      } else {
        break;
      }
    }
    rest := if i >= |argv| then [] else argv[i..];
  }

  // --------------------------------------------------------- git global options

  predicate GitTakesValue(a: string) {
    a in ["-C", "-c", "--git-dir", "--work-tree", "--namespace"]
  }

  predicate GitFlag(a: string) {
    || StartsWith(a, "--git-dir=") || StartsWith(a, "--work-tree=") || StartsWith(a, "--namespace=")
    || a in ["--no-pager", "-P", "--paginate", "-p", "--bare", "--no-replace-objects"]
    || StartsWith(a, "--exec-path")
  }

  function StripGit(args: seq<string>): seq<string>
    decreases |args|
  {
    if args == [] then []
    else if GitTakesValue(args[0]) then StripGit(if |args| > 1 then args[2..] else [])
    else if GitFlag(args[0]) then StripGit(args[1..])
    else args
  }

  method StripGitGlobalOptions(args: seq<string>) returns (out: seq<string>)
    ensures out == StripGit(args)
  {
    out := [];
    var i := 0;
    var inGlobals := true;
    while i < |args|
      invariant inGlobals ==> out == [] && StripGit(args) == StripGit(if i <= |args| then args[i..] else [])
      invariant !inGlobals ==> i <= |args| && StripGit(args) == out + args[i..]
      decreases |args| - i
    {
      var a := args[i];
      if inGlobals {
        assert args[i..][0] == a && args[i..][1..] == args[i + 1..];
        if GitTakesValue(a) {
          assert |args[i..]| > 1 ==> args[i..][2..] == args[i + 2..];
          i := i + 2;
          continue;
        }
        if GitFlag(a) {
          i := i + 1;
          continue;
        }
        inGlobals := false;
        assert StripGit(args) == out + args[i..];
      }
      assert out + args[i..] == (out + [a]) + args[i + 1..];
      out := out + [a];
      i := i + 1;
    }
  }

  /** What is left starts with the subcommand, and stripping again changes nothing. */
  lemma {:induction false} StripGitLeavesSubcommand(args: seq<string>) returns (k: nat)
    ensures k <= |args| && StripGit(args) == args[k..]
    ensures StripGit(args) != [] ==> !GitTakesValue(StripGit(args)[0]) && !GitFlag(StripGit(args)[0])
    ensures StripGit(StripGit(args)) == StripGit(args)
    decreases |args|
  {
    if args == [] {
      k := 0;
    } else if GitTakesValue(args[0]) {
      k := StripGitLeavesSubcommand(if |args| > 1 then args[2..] else []);
      if |args| > 1 {
        assert args[2..][k..] == args[2 + k..];
        k := k + 2;
      } else {
        k := |args|;
      }
    } else if GitFlag(args[0]) {
      k := StripGitLeavesSubcommand(args[1..]);
      assert args[1..][k..] == args[1 + k..];
      k := k + 1;
    } else {
      k := 0;
    }
  }

  // -------------------------------------------------- a measure that decreases

  lemma {:induction false} BasenameCount(c: char, p: string)
    ensures Count(c, Basename(p)) <= Count(c, p)
    decreases |p|
  {
    if '/' in p {
      BasenameCount(c, p[1..]);
    }
  }

  lemma ShellNamesHoldH(program: string)
    requires IsShell(program)
    ensures Count('h', program) >= 1
  {
    assert "sh"[1..] == "h" && "bash"[1..] == "ash" && "ash"[1..] == "sh" && "zsh"[1..] == "sh";
    assert "dash"[1..] == "ash" && "ksh"[1..] == "sh" && "fish"[1..] == "ish" && "ish"[1..] == "sh";
  }

  lemma CountAllSlice(c: char, words: seq<string>, i: nat)
    requires i <= |words|
    ensures CountAll(c, words[i..]) <= CountAll(c, words)
  {
    assert words == words[..i] + words[i..];
    CountAllAppend(c, words[..i], words[i..]);
  }

  lemma {:induction false} CountOne(c: char, words: seq<string>, i: nat)
    requires i < |words|
    ensures Count(c, words[i]) <= CountAll(c, words)
    decreases |words|
  {
    if i > 0 {
      CountOne(c, words[1..], i - 1);
    }
  }

  /** The script position among the arguments, if the command is `shell -c script`. */
  function ScriptAt(args: seq<string>, from: nat): (r: Option<nat>)
    requires from <= |args|
    ensures r.Some? ==> from <= r.value < |args| && TakesScript(args[r.value])
    ensures r.Some? ==> forall i :: from <= i < r.value ==> !TakesScript(args[i])
    ensures r.None? ==> forall i :: from <= i < |args| ==> !TakesScript(args[i])
    decreases |args| - from
  {
    if from == |args| then None
    else if TakesScript(args[from]) then Some(from)
    else ScriptAt(args, from + 1)
  }

  /** The script a command hands to a shell. */
  function InnerScript(argv: seq<string>): Option<string> {
    var core := Core(argv);
    if core != [] && IsShell(Basename(core[0])) then
      match ScriptAt(core[1..], 0)
      case Some(pos) => if pos + 1 < |core| - 1 then Some(core[pos + 2]) else None
      case None => None
    else None
  }

  /** A nested script holds fewer `h`s than the command around it: the shell's name keeps one. */
  lemma InnerScriptShrinks(argv: seq<string>)
    requires InnerScript(argv).Some?
    ensures Count('h', InnerScript(argv).value) < CountAll('h', argv)
  {
    var i := Unwrap(argv, 0, false).0;
    var core := Core(argv);
    ShellNamesHoldH(Basename(core[0]));
    BasenameCount('h', core[0]);
    var pos := ScriptAt(core[1..], 0).value;
    CountOne('h', core[1..], pos + 1);
    CountAllSlice('h', argv, i);
  }

  /** The scripts inside a script, tokenized, hold no more `h`s than the script. */
  lemma SegmentWordsCount(script: string, k: nat)
    requires k < |Segments(script)|
    ensures CountAll('h', Words(Segments(script)[k])) <= Count('h', script)
  {
    WordsCount('h', Segments(script)[k]);
    CountOne('h', Segments(script), k);
    SegmentsCount(script);
  }

  // -------------------------------------------------------------- normalization

  function AddTags(tags: seq<string>, more: seq<string>): seq<string>
    decreases |more|
  {
    if more == [] then tags
    else AddTags(if more[0] in tags then tags else tags + [more[0]], more[1..])
  }

  function UnionTags(tags: seq<string>, segments: seq<Normalized>): seq<string>
    decreases |segments|
  {
    if segments == [] then tags else UnionTags(AddTags(tags, segments[0].tags), segments[1..])
  }

  /** Normalize each segment; those without a program are dropped. */
  function NormalizeEach(classify: Classifier, segs: seq<string>, bound: nat): seq<Normalized>
    requires forall i :: 0 <= i < |segs| ==> CountAll('h', Words(segs[i])) <= bound
    decreases bound, 1, |segs|
  {
    if segs == [] then []
    else
      var c := NormalizeArgv(classify, Words(segs[0]), 1);
      (if c.program != [] then [c] else []) + NormalizeEach(classify, segs[1..], bound)
  }

  function NormalizeScript(classify: Classifier, script: string, original: seq<string>): Normalized
    decreases Count('h', script), 2, 0
  {
    var segs := Segments(script);
    assert forall i :: 0 <= i < |segs| ==> CountAll('h', Words(segs[i])) <= Count('h', script) by {
      forall i | 0 <= i < |segs| ensures CountAll('h', Words(segs[i])) <= Count('h', script) {
        SegmentWordsCount(script, i);
      }
    }
    var segments := NormalizeEach(classify, segs, Count('h', script));
    Normalized(
      original,
      if segments == [] then [] else segments[0].program,
      CollapseBlanks(script),
      true,
      segments,
      UnionTags(["shell"], segments))
  }

  function NormalizeArgv(classify: Classifier, argv: seq<string>, depth: nat): Normalized
    decreases CountAll('h', argv), 0, 0
  {
    var rest := Core(argv);
    if rest == [] then Normalized(argv, [], [], false, [], [])
    else
      var program := Basename(rest[0]);
      var script := InnerScript(argv);
      if script.Some? && depth < 3 then
        InnerScriptShrinks(argv);
        var inner := NormalizeScript(classify, script.value, argv);
        var text := CollapseBlanks(program + " -c " + script.value);
        inner.(text := text,
               tags := if Privileged(argv) && PRIVILEGE !in inner.tags then inner.tags + [PRIVILEGE] else inner.tags)
      else
        var args := if program == "git" then StripGit(rest[1..]) else rest[1..];
        Normalized(argv, program, CollapseBlanks(Join([program] + args, " ")), false, [],
                   classify(program, args) + if Privileged(argv) then [PRIVILEGE] else [])
  }

  function AllTexts(c: Normalized): seq<string> {
    [c.text] + AllTextsOf(c.segments)
  }

  function AllTextsOf(cs: seq<Normalized>): seq<string> {
    if cs == [] then [] else AllTexts(cs[0]) + AllTextsOf(cs[1..])
  }

  /** The set behind the sorted, deduplicated tag list. */
  function AllTags(c: Normalized): set<string> {
    (set t | t in c.tags) + AllTagsOf(c.segments)
  }

  function AllTagsOf(cs: seq<Normalized>): set<string> {
    if cs == [] then {} else AllTags(cs[0]) + AllTagsOf(cs[1..])
  }

  // ------------------------------------------------------------------ the laws

  /** The depth guard never decides anything: only depths 0 and 1 occur, and they agree. */
  lemma DepthIsIrrelevant(classify: Classifier, argv: seq<string>, d: nat, e: nat)
    requires d < 3 && e < 3
    ensures NormalizeArgv(classify, argv, d) == NormalizeArgv(classify, argv, e)
  {}

  lemma {:induction false} NormalizeEachBound(classify: Classifier, segs: seq<string>, b: nat, e: nat)
    requires forall i :: 0 <= i < |segs| ==> CountAll('h', Words(segs[i])) <= b
    requires forall i :: 0 <= i < |segs| ==> CountAll('h', Words(segs[i])) <= e
    ensures NormalizeEach(classify, segs, b) == NormalizeEach(classify, segs, e)
    decreases |segs|
  {
    hide NormalizeArgv;
    if segs != [] {
      NormalizeEachBound(classify, segs[1..], b, e);
    }
  }

  /** Quoting a command as a script and normalizing the script finds exactly that command. */
  lemma QuotedScriptIsTransparent(classify: Classifier, argv: seq<string>, original: seq<string>)
    requires NormalizeArgv(classify, argv, 0).program != []
    ensures var c := NormalizeArgv(classify, argv, 0);
            var s := NormalizeScript(classify, DisplayArgv(argv), original);
            s.segments == [c] && s.program == c.program
  {
    hide Segments, DisplayArgv, Words, CollapseBlanks;
    var text := DisplayArgv(argv);
    DisplayedIsOneSegment(argv, text);
    DisplayRoundTrip(argv);
    DepthIsIrrelevant(classify, argv, 0, 1);
    OneSegmentEach(classify, text, argv);
    var c := NormalizeArgv(classify, argv, 0);
    hide NormalizeArgv;
    assert Segments(text) == [text];
    var s := NormalizeScript(classify, text, original);
    SegmentWordsCount(text, 0);
    NormalizeEachBound(classify, [text], Count('h', text), CountAll('h', argv));
  }

  lemma OneSegmentEach(classify: Classifier, text: string, argv: seq<string>)
    requires Words(text) == argv && NormalizeArgv(classify, argv, 1).program != []
    ensures NormalizeEach(classify, [text], CountAll('h', argv)) == [NormalizeArgv(classify, argv, 1)]
  {
    hide NormalizeArgv, Words;
    assert [text][1..] == [];
  }

  lemma {:induction false} NormalizeEachSplits(classify: Classifier, a: seq<string>, b: seq<string>, n: nat)
    requires forall i :: 0 <= i < |a + b| ==> CountAll('h', Words((a + b)[i])) <= n
    ensures forall i :: 0 <= i < |a| ==> CountAll('h', Words(a[i])) <= n
    ensures forall i :: 0 <= i < |b| ==> CountAll('h', Words(b[i])) <= n
    ensures NormalizeEach(classify, a + b, n) == NormalizeEach(classify, a, n) + NormalizeEach(classify, b, n)
    decreases |a|
  {
    hide NormalizeArgv, Words;
    forall i | 0 <= i < |a| ensures CountAll('h', Words(a[i])) <= n { assert (a + b)[i] == a[i]; }
    forall i | 0 <= i < |b| ensures CountAll('h', Words(b[i])) <= n { assert (a + b)[|a| + i] == b[i]; }
    if a == [] {
      assert a + b == b;
    } else {
      assert (a + b)[1..] == a[1..] + b;
      NormalizeEachSplits(classify, a[1..], b, n);
    }
  }

  /** The bound only serves termination; any sufficient one gives the same result. */
  lemma ScriptSegments(classify: Classifier, script: string, original: seq<string>, n: nat)
    requires Count('h', script) <= n
    ensures forall i :: 0 <= i < |Segments(script)| ==> CountAll('h', Words(Segments(script)[i])) <= n
    ensures NormalizeScript(classify, script, original).segments == NormalizeEach(classify, Segments(script), n)
  {
    hide Segments, Words, NormalizeArgv, NormalizeEach, CollapseBlanks, UnionTags;
    forall i | 0 <= i < |Segments(script)| ensures CountAll('h', Words(Segments(script)[i])) <= Count('h', script) {
      SegmentWordsCount(script, i);
    }
    NormalizeEachBound(classify, Segments(script), Count('h', script), n);
  }

  lemma NormalizeFour(classify: Classifier, p: seq<string>, q: seq<string>, r: seq<string>, s: seq<string>, n: nat)
    requires forall i :: 0 <= i < |p + r| ==> CountAll('h', Words((p + r)[i])) <= n
    requires forall i :: 0 <= i < |q + s| ==> CountAll('h', Words((q + s)[i])) <= n
    requires forall i :: 0 <= i < |(p + q) + (r + s)| ==> CountAll('h', Words(((p + q) + (r + s))[i])) <= n
    ensures multiset(NormalizeEach(classify, (p + q) + (r + s), n)) ==
            multiset(NormalizeEach(classify, p + r, n)) + multiset(NormalizeEach(classify, q + s, n))
  {
    hide Words, NormalizeArgv, NormalizeEach;
    NormalizeEachSplits(classify, p, r, n);
    NormalizeEachSplits(classify, q, s, n);
    NormalizeEachSplits(classify, p + q, r + s, n);
    NormalizeEachSplits(classify, p, q, n);
    NormalizeEachSplits(classify, r, s, n);
  }

  /** Chaining two commands yields every command of either side, once, and nothing else. */
  lemma ChainedScripts(classify: Classifier, a: string, op: string, b: string, o: seq<string>)
    requires IsOperator(op) && Whole(a, START) && SeparatorReadable(a, op, b)
    ensures multiset(NormalizeScript(classify, a + op + b, o).segments) ==
            multiset(NormalizeScript(classify, a, o).segments) + multiset(NormalizeScript(classify, b, o).segments)
  {
    hide Segments, TopSegments, SegmentsOf, Substitutions, Words, NormalizeArgv, NormalizeEach, NormalizeScript, Whole;
    var n := Count('h', a + op + b);
    CountAppend('h', a + op, b);
    CountAppend('h', a, op);
    ScriptSegments(classify, a, o, n);
    ScriptSegments(classify, b, o, n);
    ScriptSegments(classify, a + op + b, o, n);
    SegmentsOfJoined(a, op, b);
    SegmentsParts(a);
    SegmentsParts(b);
    NormalizeFour(classify, TopSegments(a), TopSegments(b),
                  SegmentsOf(Substitutions(a)), SegmentsOf(Substitutions(b)), n);
  }

  /** A command written behind an operator is a segment of the script, as it would be judged on its own. */
  lemma ChainedCommandIsSegment(
    classify: Classifier, a: string, op: string, argv: seq<string>, text: string, o: seq<string>)
    requires text == DisplayArgv(argv) && NormalizeArgv(classify, argv, 0).program != []
    requires IsOperator(op) && Whole(a, START) && SeparatorReadable(a, op, text)
    ensures NormalizeArgv(classify, argv, 0) in NormalizeScript(classify, a + op + text, o).segments
  {
    hide NormalizeScript, NormalizeArgv, DisplayArgv, Whole;
    var e := NormalizeArgv(classify, argv, 0);
    QuotedScriptIsTransparent(classify, argv, o);
    var alone := NormalizeScript(classify, text, o).segments;
    assert alone == [e] && multiset(alone)[e] == 1;
    ChainedScripts(classify, a, op, text, o);
    assert e in multiset(NormalizeScript(classify, a + op + text, o).segments);
  }

  lemma {:induction false} SegmentsOfHas(scripts: seq<string>, k: nat) returns (front: seq<string>, back: seq<string>)
    requires k < |scripts|
    ensures SegmentsOf(scripts) == front + Segments(scripts[k]) + back
    decreases |scripts|
  {
    hide Segments;
    if k == 0 {
      front, back := [], SegmentsOf(scripts[1..]);
      assert front + Segments(scripts[0]) == Segments(scripts[0]);
    } else {
      front, back := SegmentsOfHas(scripts[1..], k - 1);
      assert Segments(scripts[0]) + (front + Segments(scripts[k]) + back) ==
             (Segments(scripts[0]) + front) + Segments(scripts[k]) + back;
      front := Segments(scripts[0]) + front;
    }
  }

  /** A command hidden in a substitution, however deep, is among the commands of the script. */
  lemma SubstitutionsAreJudged(classify: Classifier, script: string, k: nat, o: seq<string>)
    requires k < |Substitutions(script)|
    ensures multiset(NormalizeScript(classify, Substitutions(script)[k], o).segments) <=
            multiset(NormalizeScript(classify, script, o).segments)
  {
    hide Split, Segments, TopSegments, SegmentsOf, Words, NormalizeArgv, NormalizeEach, NormalizeScript;
    var subs := Substitutions(script);
    var n := Count('h', script) + Count('h', subs[k]);
    ScriptSegments(classify, script, o, n);
    ScriptSegments(classify, subs[k], o, n);
    SegmentsParts(script);
    var front, back := SegmentsOfHas(subs, k);
    var all := Segments(script);
    var before := TopSegments(script) + front;
    assert all == before + (Segments(subs[k]) + back);
    NormalizeEachSplits(classify, before, Segments(subs[k]) + back, n);
    NormalizeEachSplits(classify, Segments(subs[k]), back, n);
  }

  // ------------------------------------------------------ wrappers are seen through

  lemma {:induction false} SkipShift(w: seq<string>, argv: seq<string>, i: nat)
    ensures SkipEnv(w + argv, |w| + i) == |w| + SkipEnv(argv, i)
    ensures SkipOptions(w + argv, |w| + i) == |w| + SkipOptions(argv, i)
    ensures SkipSudo(w + argv, |w| + i) == |w| + SkipSudo(argv, i)
    ensures SkipNice(w + argv, |w| + i) == |w| + SkipNice(argv, i)
    decreases |argv| - i
  {
    hide IsEnvAssignment;
    if i < |argv| {
      assert (w + argv)[|w| + i] == argv[i];
      SkipShift(w, argv, i + 1);
      SkipShift(w, argv, i + 2);
    }
  }

  lemma WrapperShift(w: seq<string>, argv: seq<string>, i: nat)
    requires i < |argv|
    ensures Wrapper(w + argv, |w| + i) == match Wrapper(argv, i)
                                          case None => None
                                          case Some((j, more)) => Some((|w| + j, more))
  {
    hide SkipEnv, SkipOptions, SkipSudo, SkipNice, IsEnvAssignment, Basename;
    assert (w + argv)[|w| + i] == argv[i];
    SkipShift(w, argv, i + 1);
  }

  lemma {:induction false} UnwrapShift(w: seq<string>, argv: seq<string>, i: nat, p: bool, q: bool)
    ensures Unwrap(w + argv, |w| + i, p) == (|w| + Unwrap(argv, i, q).0, Unwrap(w + argv, |w| + i, p).1)
    ensures Unwrap(argv, i, p).1 <==> p || Unwrap(argv, i, false).1
    ensures Unwrap(w + argv, |w| + i, p).1 <==> p || Unwrap(argv, i, false).1
    decreases |argv| - i
  {
    hide Wrapper;
    if i < |argv| {
      WrapperShift(w, argv, i);
      match Wrapper(argv, i)
      case None =>
      case Some((j, more)) =>
        UnwrapShift(w, argv, j, p || more, q || more);
        UnwrapShift(w, argv, j, more, more);
    }
  }

  /**
   * Any recognized wrapper in front (an assignment, `env`, `sudo`, `nice`, `timeout`, ...)
   * leaves the judged command as it is; raising privileges only adds its tag.
   */
  lemma WrapperIsSeenThrough(classify: Classifier, w: seq<string>, argv: seq<string>, raises: bool, d: nat)
    requires w != [] && argv != [] && Wrapper(w + argv, 0) == Some((|w|, raises))
    ensures Core(w + argv) == Core(argv)
    ensures var c, inner := NormalizeArgv(classify, w + argv, d), NormalizeArgv(classify, argv, d);
            && c.program == inner.program && c.text == inner.text
            && c.shell == inner.shell && c.segments == inner.segments
            && (!raises ==> c.tags == inner.tags)
            && (raises && inner.program != [] ==> (set t | t in c.tags) == (set t | t in inner.tags) + {PRIVILEGE})
  {
    WrapperUnwraps(w, argv, raises);
    SameCore(classify, w + argv, argv, raises, d);
  }

  lemma WrapperUnwraps(w: seq<string>, argv: seq<string>, raises: bool)
    requires w != [] && argv != [] && Wrapper(w + argv, 0) == Some((|w|, raises))
    ensures Core(w + argv) == Core(argv)
    ensures Privileged(w + argv) <==> raises || Privileged(argv)
  {
    hide Wrapper, Basename;
    var all := w + argv;
    UnwrapShift(w, argv, 0, raises, false);
    assert Unwrap(all, 0, false) == Unwrap(all, |w|, raises);
    var i := Unwrap(argv, 0, false).0;
    assert i < |argv| ==> all[|w| + i..] == argv[i..];
  }

  /** Only the command proper and the privilege decide what is judged. */
  lemma SameCore(classify: Classifier, all: seq<string>, argv: seq<string>, raises: bool, d: nat)
    requires Core(all) == Core(argv) && (Privileged(all) <==> raises || Privileged(argv))
    ensures var c, inner := NormalizeArgv(classify, all, d), NormalizeArgv(classify, argv, d);
            && c.program == inner.program && c.text == inner.text
            && c.shell == inner.shell && c.segments == inner.segments
            && (!raises ==> c.tags == inner.tags)
            && (raises && inner.program != [] ==> (set t | t in c.tags) == (set t | t in inner.tags) + {PRIVILEGE})
  {
    hide Core, Privileged, Basename, Segments, Words, CollapseBlanks, NormalizeEach, UnionTags, ScriptAt;
    assert InnerScript(all) == InnerScript(argv);
    SameScript(classify, InnerScript(argv), all, argv);
  }

  /** The remembered argument list has no influence on the rest. */
  lemma SameScript(classify: Classifier, script: Option<string>, o: seq<string>, p: seq<string>)
    ensures script.Some? ==>
              NormalizeScript(classify, script.value, o) == NormalizeScript(classify, script.value, p).(argv := o)
  {
    hide Segments, Words, CollapseBlanks, NormalizeEach, UnionTags;
  }

  // --------------------------------------------- what a script shows to the rules

  lemma {:induction false} SegmentShows(c: Normalized, k: nat)
    requires k < |c.segments|
    ensures forall t :: t in AllTexts(c.segments[k]) ==> t in AllTexts(c)
    ensures AllTags(c.segments[k]) <= AllTags(c)
  {
    OneOfShows(c.segments, k);
  }

  lemma {:induction false} OneOfShows(cs: seq<Normalized>, k: nat)
    requires k < |cs|
    ensures forall t :: t in AllTexts(cs[k]) ==> t in AllTextsOf(cs)
    ensures AllTags(cs[k]) <= AllTagsOf(cs)
    decreases |cs|
  {
    hide AllTexts, AllTags;
    if k > 0 {
      OneOfShows(cs[1..], k - 1);
    }
  }
}
