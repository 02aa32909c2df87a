/** Policy on what a run has changed: what is denied, what a human is asked about, and what was accepted before. */
module DiffGate {
  import opened Policy

  /** One changed file: what it holds now, whether it stays inside the worktree and the task's scope. */
  datatype Change = Change(path: string, fingerprint: string, contained: bool, inScope: bool, decision: Decision)

  /** All changes of a run; `violations` are contract files changed after they were locked. */
  datatype Diff = Diff(files: seq<Change>, violations: seq<string>, summary: Decision)

  /** What a human accepted before, by path. */
  type Accepted = map<string, string>

  /** The name under which the diff as a whole is accepted. */
  const SUMMARY := "<diff-summary>"

  predicate IsDenied(f: Change) {
    !f.contained || f.decision.Deny?
  }

  /** Somebody must have accepted this content. */
  predicate NeedsConsent(f: Change) {
    f.contained && (f.decision.RequireApproval? || (f.decision.Allow? && !f.inScope))
  }

  predicate IsAsked(f: Change, accepted: Accepted) {
    NeedsConsent(f) && !(f.path in accepted && accepted[f.path] == f.fingerprint)
  }

  function DeniedFiles(files: seq<Change>): seq<string> {
    if files == [] then [] else (if IsDenied(files[0]) then [files[0].path] else []) + DeniedFiles(files[1..])
  }

  function AskedFiles(files: seq<Change>, accepted: Accepted): seq<string> {
    if files == [] then []
    else (if IsAsked(files[0], accepted) then [files[0].path] else []) + AskedFiles(files[1..], accepted)
  }

  function Denials(diff: Diff): seq<string> {
    diff.violations + DeniedFiles(diff.files) + (if diff.summary.Deny? then [SUMMARY] else [])
  }

  function Questions(diff: Diff, accepted: Accepted): seq<string> {
    AskedFiles(diff.files, accepted)
    + (if diff.summary.RequireApproval? && SUMMARY !in accepted then [SUMMARY] else [])
  }

  lemma Unfolded(files: seq<Change>, accepted: Accepted)
    requires files != []
    ensures DeniedFiles(files) == (if IsDenied(files[0]) then [files[0].path] else []) + DeniedFiles(files[1..])
    ensures AskedFiles(files, accepted)
         == (if IsAsked(files[0], accepted) then [files[0].path] else []) + AskedFiles(files[1..], accepted)
  {}

  lemma NothingLeft(accepted: Accepted)
    ensures DeniedFiles([]) == [] && AskedFiles([], accepted) == []
  {}

  method Examine(diff: Diff, accepted: Accepted) returns (denials: seq<string>, questions: seq<string>)
    ensures denials == Denials(diff) && questions == Questions(diff, accepted)
  {
    hide DeniedFiles, AskedFiles;
    denials, questions := diff.violations, [];
    var i := 0;
    assert diff.files[0..] == diff.files;
    while i < |diff.files|
      invariant 0 <= i <= |diff.files|
      invariant diff.violations + DeniedFiles(diff.files) == denials + DeniedFiles(diff.files[i..])
      invariant AskedFiles(diff.files, accepted) == questions + AskedFiles(diff.files[i..], accepted)
    {
      var f := diff.files[i];
      Unfolded(diff.files[i..], accepted);
      assert diff.files[i..][0] == f && diff.files[i..][1..] == diff.files[i + 1..];
      i := i + 1;
      if !f.contained {
        denials := denials + [f.path];
        continue;
      }
      match f.decision {
        case Deny =>
          denials := denials + [f.path];
        case RequireApproval =>
          if !(f.path in accepted && accepted[f.path] == f.fingerprint) {
            questions := questions + [f.path];
          }
        case Allow =>
          if !f.inScope && !(f.path in accepted && accepted[f.path] == f.fingerprint) {
            questions := questions + [f.path];
          }
      }
    }
    assert diff.files[i..] == [];
    NothingLeft(accepted);
    match diff.summary {
      case Deny =>
        denials := denials + [SUMMARY];
      case RequireApproval =>
        if SUMMARY !in accepted {
          questions := questions + [SUMMARY];
        }
      case Allow =>
    }
  }

  function Marked(accepted: Accepted, files: seq<Change>, asked: seq<string>, content: string -> string): Accepted {
    if files == [] then accepted
    else
      var last := files[|files| - 1].path;
      var before := Marked(accepted, files[..|files| - 1], asked, content);
      if last in asked then before[last := content(last)] else before
  }

  /** After the grant: what was asked about is accepted as it is by then. */
  function Remembered(accepted: Accepted, files: seq<Change>, asked: seq<string>, content: string -> string): Accepted {
    var marked := Marked(accepted, files, asked, content);
    if SUMMARY in asked then marked[SUMMARY := ""] else marked
  }

  method Remember(accepted: Accepted, files: seq<Change>, asked: seq<string>, content: string -> string)
    returns (r: Accepted)
    ensures r == Remembered(accepted, files, asked, content)
  {
    r := accepted;
    for i := 0 to |files|
      invariant r == Marked(accepted, files[..i], asked, content)
    {
      assert files[..i + 1][..i] == files[..i];
      if files[i].path in asked {
        r := r[files[i].path := content(files[i].path)];
      }
    }
    assert files[..|files|] == files;
    if SUMMARY in asked {
      r := r[SUMMARY := ""];
    }
  }

  predicate IsPath(files: seq<Change>, p: string) {
    exists f :: f in files && f.path == p
  }

  lemma {:induction false} MarkedAt(
    accepted: Accepted, files: seq<Change>, asked: seq<string>, content: string -> string, p: string)
    ensures var r := Marked(accepted, files, asked, content);
            && (p in r <==> p in accepted || (p in asked && IsPath(files, p)))
            && (p in r ==> r[p] == if p in asked && IsPath(files, p) then content(p) else accepted[p])
    decreases |files|
  {
    if files != [] {
      var n := |files| - 1;
      assert files == files[..n] + [files[n]];
      MarkedAt(accepted, files[..n], asked, content, p);
    }
  }

  lemma {:induction false} AskedFilesIff(files: seq<Change>, accepted: Accepted, p: string)
    ensures p in AskedFiles(files, accepted) <==> exists f :: f in files && f.path == p && IsAsked(f, accepted)
    decreases |files|
  {
    if files != [] {
      assert files == [files[0]] + files[1..];
      AskedFilesIff(files[1..], accepted, p);
    }
  }

  lemma {:induction false} DeniedFilesIff(files: seq<Change>)
    ensures DeniedFiles(files) == [] <==> forall f :: f in files ==> !IsDenied(f)
    decreases |files|
  {
    if files != [] {
      assert files == [files[0]] + files[1..];
      DeniedFilesIff(files[1..]);
    }
  }

  /** Exactly when nothing is denied. */
  lemma DenialsIff(diff: Diff)
    ensures Denials(diff) == []
       <==> && diff.violations == [] && !diff.summary.Deny?
            && forall f :: f in diff.files ==> f.contained && !f.decision.Deny?
  {
    DeniedFilesIff(diff.files);
  }

  lemma {:induction false} DeniedFileIff(files: seq<Change>, p: string)
    ensures p in DeniedFiles(files) <==> exists f :: f in files && f.path == p && (!f.contained || f.decision.Deny?)
    decreases |files|
  {
    if files != [] {
      assert files == [files[0]] + files[1..];
      DeniedFileIff(files[1..], p);
    }
  }

  /** Exactly what is named as denied: violations, files outside or denied, and the diff as a whole. */
  lemma DeniedIff(diff: Diff, p: string)
    ensures p in Denials(diff) <==>
            || p in diff.violations
            || (exists f :: f in diff.files && f.path == p && (!f.contained || f.decision.Deny?))
            || (p == SUMMARY && diff.summary.Deny?)
  {
    DeniedFileIff(diff.files, p);
  }

  /** Exactly what a human is asked about: content nobody accepted as it is, and a summary nobody ever accepted. */
  lemma QuestionsIff(diff: Diff, accepted: Accepted, p: string)
    ensures p in Questions(diff, accepted)
       <==> || (exists f :: f in diff.files && f.path == p && IsAsked(f, accepted))
            || (p == SUMMARY && diff.summary.RequireApproval? && SUMMARY !in accepted)
  {
    AskedFilesIff(diff.files, accepted, p);
  }

  /** The same said in full: outside the scope, even what policy allows needs consent, and what it denies never does. */
  lemma QuestionsAre(diff: Diff, accepted: Accepted, p: string)
    ensures p in Questions(diff, accepted)
       <==> || (exists f :: f in diff.files && f.path == p && f.contained && !f.decision.Deny?
                            && (f.inScope ==> f.decision.RequireApproval?)
                            && (p in accepted ==> accepted[p] != f.fingerprint))
            || (p == SUMMARY && diff.summary.RequireApproval? && SUMMARY !in accepted)
  {
    QuestionsIff(diff, accepted, p);
  }

  /**
   * Exactly when the same changes are not asked about again after they were accepted: unless a file
   * goes by the name under which the diff as a whole is accepted.
   */
  lemma AskedOnceIff(diff: Diff, accepted: Accepted, content: string -> string)
    requires forall f :: f in diff.files ==> content(f.path) == f.fingerprint
    ensures var asked := Questions(diff, accepted);
            Questions(diff, Remembered(accepted, diff.files, asked, content)) == []
            <==> (SUMMARY in asked ==>
                    forall f :: f in diff.files && f.path == SUMMARY && NeedsConsent(f) ==> f.fingerprint == "")
  {
    var asked := Questions(diff, accepted);
    var r := Remembered(accepted, diff.files, asked, content);
    QuestionsIff(diff, accepted, SUMMARY);
    MarkedAt(accepted, diff.files, asked, content, SUMMARY);
    assert diff.summary.RequireApproval? ==> SUMMARY in r;
    hide Questions, Marked;
    forall f | f in diff.files
      ensures IsAsked(f, r) <==> NeedsConsent(f) && f.path == SUMMARY && SUMMARY in asked && f.fingerprint != ""
    {
      assert IsPath(diff.files, f.path);
      MarkedAt(accepted, diff.files, asked, content, f.path);
      QuestionsIff(diff, accepted, f.path);
    }
    if Questions(diff, r) != [] {
      QuestionsIff(diff, r, Questions(diff, r)[0]);
    }
    forall f | f in diff.files && IsAsked(f, r) ensures Questions(diff, r) != [] {
      QuestionsIff(diff, r, f.path);
    }
  }

  /** What is accepted is the content at the time of the grant: a later one is asked about exactly if it differs. */
  lemma AskedAgainIff(
    accepted: Accepted, files: seq<Change>, asked: seq<string>, content: string -> string, f: Change)
    requires IsPath(files, f.path) && f.path in asked && f.path != SUMMARY && NeedsConsent(f)
    ensures IsAsked(f, Remembered(accepted, files, asked, content)) <==> f.fingerprint != content(f.path)
  {
    MarkedAt(accepted, files, asked, content, f.path);
  }

  /** The summary is accepted for good: whatever changes later, it is never asked about again. */
  lemma SummaryIsAskedOnce(accepted: Accepted, diff: Diff, content: string -> string, later: Diff)
    requires SUMMARY in Questions(diff, accepted)
    ensures var r := Remembered(accepted, diff.files, Questions(diff, accepted), content);
            SUMMARY in Questions(later, r) ==> exists f :: f in later.files && f.path == SUMMARY && IsAsked(f, r)
  {
    QuestionsIff(later, Remembered(accepted, diff.files, Questions(diff, accepted), content), SUMMARY);
  }
}
