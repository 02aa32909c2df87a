/** What the invariant buys: statements about whole executions, told by the labels that happened. */
module RunGuarantees {
  import opened Text
  import opened RunModel
  import opened RunProtocol
  import opened RunSafety

  // ------------------------------------------------------------ counting events

  datatype Event =
    | Prompting(x: nat)
    | Spawning(x: nat)
    | Losing(x: nat)
    | Reopening(x: nat)
    | Routing(id: string)

  predicate IsExec(w: World, k: nat, x: nat) {
    k < |w.doc.steps| && w.doc.steps[k].id == x
  }

  /** Does this label, in this world, prompt / spawn / lose / reopen execution `x`, or route a failure of step `id`? */
  predicate Happens(cfg: Config, e: Event, w: World, l: Label) {
    match e
    case Prompting(x) =>
      l.SendPrompt? && w.driver.Some? && w.driver.value.phase.SendDue? && IsExec(w, w.driver.value.phase.k, x)
    case Spawning(x) => l.Spawn? && IsExec(w, l.k, x)
    case Losing(x) =>
      l.Crash? && w.driver.Some? && w.driver.value.phase.Spawned? && IsExec(w, w.driver.value.phase.k, x)
    case Reopening(x) =>
      || (l.Recover? && x in Reopened(w, Classify(cfg, w.doc, w.approvals, l.probe)))
      || (l.Acquire? && x in Unrecovered(w))
    case Routing(id) => l.Route? && w.doc.cursor < |cfg.workflow| && cfg.workflow[w.doc.cursor].id == id
  }

  /** How often the event happened among the first `n` labels. */
  function Times(cfg: Config, e: Event, path: seq<World>, labels: seq<Label>, n: nat): nat
    requires n <= |labels| && |path| == |labels| + 1
  {
    if n == 0 then 0
    else Times(cfg, e, path, labels, n - 1) + (if Happens(cfg, e, path[n - 1], labels[n - 1]) then 1 else 0)
  }

  lemma LogStep(cfg: Config, w: World, l: Label, v: World, x: nat)
    requires Enabled(cfg, w, l) && v == Apply(cfg, w, l)
    ensures v.log.prompts[x] == w.log.prompts[x] + if Happens(cfg, Prompting(x), w, l) then 1 else 0
    ensures v.log.spawns[x] == w.log.spawns[x] + if Happens(cfg, Spawning(x), w, l) then 1 else 0
  {
    hide Classify, Recovered, Retried, SaveOk, GateOk;
  }

  lemma WrittenOffStep(cfg: Config, w: World, l: Label, v: World, x: nat)
    requires Enabled(cfg, w, l) && v == Apply(cfg, w, l)
    ensures v.log.lost[x] == w.log.lost[x] + if Happens(cfg, Losing(x), w, l) then 1 else 0
    ensures v.log.reopened[x] == w.log.reopened[x] + if Happens(cfg, Reopening(x), w, l) then 1 else 0
  {
    hide Classify, Recovered, Retried, SaveOk, GateOk;
  }

  lemma {:induction false} LogIsTrue(cfg: Config, path: seq<World>, labels: seq<Label>, n: nat, x: nat)
    requires Execution(cfg, path, labels) && n <= |labels|
    ensures path[n].log.prompts[x] == Times(cfg, Prompting(x), path, labels, n)
    ensures path[n].log.spawns[x] == Times(cfg, Spawning(x), path, labels, n)
    ensures path[n].log.lost[x] == Times(cfg, Losing(x), path, labels, n)
    ensures path[n].log.reopened[x] == Times(cfg, Reopening(x), path, labels, n)
  {
    hide Enabled, Apply, Happens;
    if n > 0 {
      LogIsTrue(cfg, path, labels, n - 1, x);
      assert StepAt(cfg, path, labels, n - 1);
      LogStep(cfg, path[n - 1], labels[n - 1], path[n], x);
      WrittenOffStep(cfg, path[n - 1], labels[n - 1], path[n], x);
    }
  }

  // -------------------------------------------------------------------- prompts

  /** However often the engine crashes and recovers, an execution is prompted at most once. */
  lemma AtMostOnePrompt(cfg: Config, path: seq<World>, labels: seq<Label>, x: nat)
    requires ValidWorkflow(cfg.workflow) && Execution(cfg, path, labels)
    ensures Times(cfg, Prompting(x), path, labels, |labels|) <= 1
  {
    hide IdsInv, DecidedInv, ConsentInv, SpawnInv, RetryInv, Enabled, Apply, Happens;
    AlwaysInv(cfg, path, labels, |labels|);
    LogIsTrue(cfg, path, labels, |labels|, x);
  }

  // --------------------------------------------------------------------- spawns

  /**
   * A command is spawned once, plus once for every crash between a spawn and the save of its
   * process, plus once for every recovery that reopened it, and every driver that took the run unrecovered.
   */
  lemma SpawnsAccounted(cfg: Config, path: seq<World>, labels: seq<Label>, x: nat)
    requires ValidWorkflow(cfg.workflow) && Execution(cfg, path, labels)
    ensures var n := |labels|;
            var excused := Times(cfg, Losing(x), path, labels, n) + Times(cfg, Reopening(x), path, labels, n);
            excused <= Times(cfg, Spawning(x), path, labels, n) <= excused + 1
  {
    hide IdsInv, DecidedInv, ConsentInv, PromptInv, RetryInv, Enabled, Apply, Happens;
    AlwaysInv(cfg, path, labels, |labels|);
    LogIsTrue(cfg, path, labels, |labels|, x);
  }

  /**
   * Recovery reopens a command whose process was recorded exactly when nothing was wrong with
   * looking, and the execution still refers to a request no human has decided.
   */
  lemma CommandReopenedIff(cfg: Config, w: World, probe: Probe, k: nat)
    requires Inv(cfg, w) && Enabled(cfg, w, Label.Recover(probe))
    requires k == LastOpen(w.doc.steps) && k < |w.doc.steps| && w.doc.steps[k].id in w.log.spent
    ensures w.doc.steps[k].process
    ensures w.doc.steps[k].id in Reopened(w, Classify(cfg, w.doc, w.approvals, probe))
       <==> && !probe.unreadable
            && (probe.worktreeGone ==> w.doc.status.Preparing?)
            && w.doc.steps[k].approval.Some?
            && w.approvals[w.doc.steps[k].approval.value].status == ApprovalStatus.Pending
  {
    hide PromptInv, RetryInv, DecidedInv, ConsentInv;
  }

  /** So a command that a human's decision let through is never run again by recovery alone. */
  lemma DecidedCommandStaysClosed(cfg: Config, w: World, probe: Probe, k: nat)
    requires Inv(cfg, w) && Enabled(cfg, w, Label.Recover(probe))
    requires k == LastOpen(w.doc.steps) && k < |w.doc.steps| && w.doc.steps[k].id in w.log.spent
    requires w.doc.steps[k].approval.Some? ==> w.doc.steps[k].approval.value in w.log.decided
    ensures Apply(cfg, w, Label.Recover(probe)).doc.status in {RunStatus.NeedsHuman, RunStatus.Failed}
  {
    hide PromptInv, RetryInv, ConsentInv, IdsInv;
  }

  /**
   * A driver that takes the run goes on with a command that may have run exactly when it is still open;
   * taking a pending run, as recovery and creation leave it, never does.
   */
  lemma EntryReopensIff(cfg: Config, w: World, k: nat)
    requires Inv(cfg, w) && w.driver.None? && k < |w.doc.steps|
    ensures w.doc.steps[k].id in Unrecovered(w) <==> w.doc.steps[k].IsOpen() && w.doc.steps[k].id in w.log.spent
    ensures w.doc.status.Pending? ==> Unrecovered(w) == {}
  {
    hide PromptInv, RetryInv, DecidedInv, ConsentInv;
  }

  /** The world after a crash and the recovery that follows it. */
  function AfterCrash(cfg: Config, w: World, probe: Probe): World
    requires Enabled(cfg, w, Label.Crash) && Enabled(cfg, Apply(cfg, w, Label.Crash), Label.Recover(probe))
  {
    Apply(cfg, Apply(cfg, w, Label.Crash), Label.Recover(probe))
  }

  /**
   * The window between a spawn and the save of its process. After a crash there, recovery hands the
   * command to the next driver exactly when nothing is wrong with looking, and the execution either
   * still waits for a decision or was saved as starting without a process.
   */
  lemma WindowReopenedIff(cfg: Config, w: World, probe: Probe, k: nat)
    requires Inv(cfg, w) && w.driver.Some? && w.driver.value.phase == Spawned(k)
    ensures Enabled(cfg, w, Label.Crash) && Enabled(cfg, Apply(cfg, w, Label.Crash), Label.Recover(probe))
    ensures OpenAt(w, k) && k == LastOpen(w.doc.steps)
    ensures AfterCrash(cfg, w, probe).doc.status.Pending?
       <==> && !probe.unreadable && !probe.worktreeGone
            && (AwaitsDecision(w.doc.steps[k], w.approvals)
                || (w.doc.steps[k].status.Starting? && !w.doc.steps[k].process))
  {
    hide PromptInv, RetryInv, DecidedInv, ConsentInv;
  }

  /** A command under a decided request, past waiting for it, is not run again: a human sees it, or the run failed. */
  lemma DecidedCommandSurvivesTheWindow(cfg: Config, w: World, probe: Probe, k: nat, a: nat)
    requires Inv(cfg, w) && w.driver.Some? && w.driver.value.phase == Spawned(k)
    requires k < |w.doc.steps| && UnderGrant(w.doc.steps[k], a) && a in w.log.decided
    ensures Enabled(cfg, w, Label.Crash) && Enabled(cfg, Apply(cfg, w, Label.Crash), Label.Recover(probe))
    ensures AfterCrash(cfg, w, probe).doc.status in {RunStatus.NeedsHuman, RunStatus.Failed}
  {
    WindowReopenedIff(cfg, w, probe, k);
    hide PromptInv, RetryInv, ConsentInv, IdsInv, FocusInv;
  }

  lemma GrantIsDecided(cfg: Config, w: World, k: nat, g: Gate)
    requires Inv(cfg, w) && Enabled(cfg, w, Spawn(k, g)) && g.why.ByGrant?
    ensures UnderGrant(w.doc.steps[k], g.why.approval) && g.why.approval in w.log.decided
  {
    hide PromptInv, RetryInv, IdsInv, FocusInv, SpawnInv, DecidedInv;
    assert Evidence(cfg, w, g);
  }

  /** So a command spawned under its own grant is never run again, wherever the crash falls. */
  lemma ApprovedCommandIsNotRerun(cfg: Config, w: World, probe: Probe, k: nat, g: Gate)
    requires ValidWorkflow(cfg.workflow) && Inv(cfg, w) && Enabled(cfg, w, Spawn(k, g)) && g.why.ByGrant?
    ensures var v := Apply(cfg, w, Spawn(k, g));
            && Enabled(cfg, v, Label.Crash) && Enabled(cfg, Apply(cfg, v, Label.Crash), Label.Recover(probe))
            && AfterCrash(cfg, v, probe).doc.status in {RunStatus.NeedsHuman, RunStatus.Failed}
  {
    var v := Apply(cfg, w, Spawn(k, g));
    GrantIsDecided(cfg, w, k, g);
    SpawningFrame(cfg, w, Spawn(k, g), v);
    QuietFrame(cfg, w, Spawn(k, g), v);
    hide Inv, Enabled, Apply, AfterCrash;
    InvKept(cfg, w, Spawn(k, g), v);
    DecidedCommandSurvivesTheWindow(cfg, v, probe, k, g.why.approval);
  }

  // -------------------------------------------------------------------- retries

  /** A step is routed back as often as its own limit and the global one both allow, and no more. */
  lemma CapIsTheSmaller(cfg: Config, i: nat, n: nat)
    requires i < |cfg.workflow|
    ensures n <= CapAt(cfg, i) <==>
            n == 0 || (cfg.workflow[i].onFailure.Some? && n <= cfg.workflow[i].onFailure.value.maxAttempts
                       && n <= cfg.maxRetries)
  {}

  /** A human's retry that leaves the run here starts behind this step, and so keeps its counter. */
  predicate KeepsCount(cfg: Config, v: World, id: string) {
    IndexOf(cfg.workflow, id) == |cfg.workflow| || IndexOf(cfg.workflow, id) < v.doc.cursor
  }

  lemma RetryKeepsCount(cfg: Config, w: World, l: Label, v: World, id: string)
    requires l.HumanRetry? && Enabled(cfg, w, l) && v == Apply(cfg, w, l) && KeepsCount(cfg, v, id)
    ensures CountOf(v.doc.retryCounts, id) == CountOf(w.doc.retryCounts, id)
  {
    hide IndexOf, CloseAll;
  }

  lemma RouteStep(cfg: Config, w: World, l: Label, v: World, id: string)
    requires ValidWorkflow(cfg.workflow) && Enabled(cfg, w, l) && v == Apply(cfg, w, l)
    requires l.HumanRetry? ==> KeepsCount(cfg, v, id)
    ensures CountOf(v.doc.retryCounts, id)
         == CountOf(w.doc.retryCounts, id) + if Happens(cfg, Routing(id), w, l) then 1 else 0
  {
    if l.HumanRetry? {
      RetryKeepsCount(cfg, w, l, v, id);
    }
    hide Classify, Retried, GateOk, ValidWorkflow;
  }

  lemma {:induction false} RoutesAreCounted(
    cfg: Config, path: seq<World>, labels: seq<Label>, lo: nat, hi: nat, id: string)
    requires ValidWorkflow(cfg.workflow) && Execution(cfg, path, labels) && lo <= hi <= |labels|
    requires forall i :: lo <= i < hi && labels[i].HumanRetry? ==> KeepsCount(cfg, path[i + 1], id)
    ensures CountOf(path[hi].doc.retryCounts, id) - CountOf(path[lo].doc.retryCounts, id)
         == Times(cfg, Routing(id), path, labels, hi) - Times(cfg, Routing(id), path, labels, lo)
  {
    hide Enabled, Apply, Happens, ValidWorkflow;
    if lo < hi {
      RoutesAreCounted(cfg, path, labels, lo, hi - 1, id);
      assert StepAt(cfg, path, labels, hi - 1);
      RouteStep(cfg, path[hi - 1], labels[hi - 1], path[hi], id);
    }
  }

  /** Until a human retries from a step or an earlier one, it is not routed back more often than its cap. */
  lemma RetryBudget(cfg: Config, path: seq<World>, labels: seq<Label>, lo: nat, hi: nat, id: string)
    requires ValidWorkflow(cfg.workflow) && Execution(cfg, path, labels) && lo <= hi <= |labels|
    requires forall i :: lo <= i < hi && labels[i].HumanRetry? ==> KeepsCount(cfg, path[i + 1], id)
    ensures Times(cfg, Routing(id), path, labels, hi) - Times(cfg, Routing(id), path, labels, lo)
         <= CapOf(cfg, id) - CountOf(path[lo].doc.retryCounts, id)
  {
    hide IdsInv, DecidedInv, ConsentInv, PromptInv, SpawnInv, Enabled, Apply, Happens;
    AlwaysInv(cfg, path, labels, hi);
    RoutesAreCounted(cfg, path, labels, lo, hi, id);
  }

  /** So the failures of one step send the run back no more often than either of its two limits says. */
  lemma RetryLimits(cfg: Config, path: seq<World>, labels: seq<Label>, lo: nat, hi: nat, i: nat)
    requires ValidWorkflow(cfg.workflow) && Execution(cfg, path, labels) && lo <= hi <= |labels|
    requires i < |cfg.workflow|
    requires forall n :: lo <= n < hi && labels[n].HumanRetry? ==> KeepsCount(cfg, path[n + 1], cfg.workflow[i].id)
    ensures var s := cfg.workflow[i];
            var routes := Times(cfg, Routing(s.id), path, labels, hi) - Times(cfg, Routing(s.id), path, labels, lo);
            && (s.onFailure.None? ==> routes == 0)
            && (s.onFailure.Some? ==> routes <= s.onFailure.value.maxAttempts && routes <= cfg.maxRetries)
  {
    var id := cfg.workflow[i].id;
    RetryBudget(cfg, path, labels, lo, hi, id);
    RoutesAreCounted(cfg, path, labels, lo, hi, id);
    RoutesOnlyGrow(cfg, path, labels, lo, hi, id);
    IndexOfAt(cfg.workflow, i);
    hide Execution, ValidWorkflow, Times;
  }

  lemma {:induction false} RoutesOnlyGrow(
    cfg: Config, path: seq<World>, labels: seq<Label>, lo: nat, hi: nat, id: string)
    requires lo <= hi <= |labels| && |path| == |labels| + 1
    ensures Times(cfg, Routing(id), path, labels, lo) <= Times(cfg, Routing(id), path, labels, hi)
  {
    hide Happens;
    if lo < hi {
      RoutesOnlyGrow(cfg, path, labels, lo, hi - 1, id);
    }
  }

  // ------------------------------------------------------- what becomes of requests

  /** The only ways a request's status can move. */
  predicate MayMove(cfg: Config, w: World, l: Label, a: nat, before: ApprovalStatus, after: ApprovalStatus) {
    || (l.Decide? && l.a == a && before.Pending? && after == if l.approve then ApprovalStatus.Approved else Denied)
    || (l.Expire? && l.a == a && after.Expired?)
    || ((l.CancelRequests? || l.CancelIdle?) && before.Pending? && after.Cancelled?)
  }

  /** Nothing but a human's decision on a pending request approves, and only expiry moves one that was decided. */
  lemma StatusMoves(cfg: Config, w: World, l: Label, v: World, a: nat)
    requires Enabled(cfg, w, l) && v == Apply(cfg, w, l) && IdsInv(w) && a in w.approvals
    ensures a in v.approvals
    ensures v.approvals[a].status == w.approvals[a].status
            || MayMove(cfg, w, l, a, w.approvals[a].status, v.approvals[a].status)
    ensures l == Label.Expire(a) ==> v.approvals[a].status.Expired?
  {
    if Quiet(l) {
      QuietFrame(cfg, w, l, v);
    } else if Writing(l) {
      WritingFrame(cfg, w, l, v);
    }
    hide Classify, Recovered, Retried, SaveOk, GateOk;
  }

  predicate ExpiredIn(labels: seq<Label>, lo: nat, hi: nat, a: nat)
    requires hi <= |labels|
  {
    exists i :: lo <= i < hi && labels[i] == Label.Expire(a)
  }

  /** A request that is no longer pending keeps its status, whatever it is, unless a deadline is written over it. */
  lemma {:induction false} SettledStands(cfg: Config, path: seq<World>, labels: seq<Label>, lo: nat, hi: nat, a: nat)
    requires ValidWorkflow(cfg.workflow) && Execution(cfg, path, labels) && lo <= hi <= |labels|
    requires a in path[lo].approvals && !path[lo].approvals[a].status.Pending?
    ensures a in path[hi].approvals
    ensures path[hi].approvals[a].status
         == if ExpiredIn(labels, lo, hi, a) then Expired else path[lo].approvals[a].status
  {
    hide Enabled, Apply, ValidWorkflow, PromptInv, RetryInv, SpawnInv, ConsentInv, IdsInv, DecidedInv, FocusInv;
    if lo < hi {
      SettledStands(cfg, path, labels, lo, hi - 1, a);
      AlwaysInv(cfg, path, labels, hi - 1);
      assert StepAt(cfg, path, labels, hi - 1);
      StatusMoves(cfg, path[hi - 1], labels[hi - 1], path[hi], a);
      assert ExpiredIn(labels, lo, hi - 1, a) ==> ExpiredIn(labels, lo, hi, a);
      assert labels[hi - 1] == Label.Expire(a) ==> ExpiredIn(labels, lo, hi, a);
    }
  }

  /** Exactly when a human's approval stands: no driver has written a deadline over it. */
  lemma ApprovalStandsIff(cfg: Config, path: seq<World>, labels: seq<Label>, i: nat, hi: nat, a: nat)
    requires ValidWorkflow(cfg.workflow) && Execution(cfg, path, labels) && i < hi <= |labels|
    requires labels[i] == Label.Decide(a, true)
    ensures a in path[hi].approvals
    ensures path[hi].approvals[a].status.Approved? <==> !ExpiredIn(labels, i + 1, hi, a)
    ensures ExpiredIn(labels, i + 1, hi, a) ==> path[hi].approvals[a].status.Expired?
  {
    assert StepAt(cfg, path, labels, i);
    assert path[i + 1].approvals[a].status.Approved?;
    hide Enabled, Apply;
    SettledStands(cfg, path, labels, i + 1, hi, a);
  }

  /** The race goes towards denial only: once a deadline is written, no driver ever sees the request granted. */
  lemma ExpiredIsNeverGranted(cfg: Config, path: seq<World>, labels: seq<Label>, i: nat, j: nat, a: nat)
    requires ValidWorkflow(cfg.workflow) && Execution(cfg, path, labels) && i < j < |labels|
    requires labels[i] == Label.Expire(a)
    ensures labels[j] != Label.SeeGrant(a)
  {
    assert StepAt(cfg, path, labels, i) && StepAt(cfg, path, labels, j);
    assert a in path[i + 1].approvals && path[i + 1].approvals[a].status.Expired?;
    SettledStands(cfg, path, labels, i + 1, j, a);
  }

  // -------------------------------------------------------------------- consent

  /** What a cover may name: the step right after the approval step it comes from, or a pull request step that asked. */
  lemma CoverNamesIff(cfg: Config, asked: string, i: nat)
    requires ValidWorkflow(cfg.workflow) && i < |cfg.workflow|
    ensures var wf := cfg.workflow;
            CoverNames(cfg, asked, wf[i].id) <==>
            || (i > 0 && wf[i - 1].spec.Approval? && asked == wf[i - 1].id)
            || (wf[i].spec.GithubPr? && asked == wf[i].id)
  {
    IndexOfAt(cfg.workflow, i);
    if i > 0 { IndexOfAt(cfg.workflow, i - 1); }
  }

  lemma {:induction false} DecisionsStand(cfg: Config, path: seq<World>, labels: seq<Label>, i: nat, j: nat)
    requires ValidWorkflow(cfg.workflow) && Execution(cfg, path, labels) && i <= j <= |labels|
    ensures Extends(path[i], path[j])
  {
    hide Enabled, Apply, ValidWorkflow, PromptInv, RetryInv, SpawnInv, ConsentInv, IdsInv, DecidedInv;
    if i < j {
      DecisionsStand(cfg, path, labels, i, j - 1);
      AlwaysInv(cfg, path, labels, j - 1);
      assert StepAt(cfg, path, labels, j - 1);
      RequestsStand(cfg, path[j - 1], labels[j - 1], path[j]);
    }
  }

  lemma DecidedStep(cfg: Config, w: World, l: Label, v: World)
    requires Enabled(cfg, w, l) && v == Apply(cfg, w, l)
    ensures v.log.decided == if l.Decide? then w.log.decided[l.a := l.approve] else w.log.decided
  {
    hide Classify, Recovered, Retried, SaveOk, GateOk;
  }

  /** Where a decision comes from: the label that made it. */
  lemma {:induction false} DecisionOrigin(cfg: Config, path: seq<World>, labels: seq<Label>, n: nat, a: nat)
    returns (i: nat)
    requires Execution(cfg, path, labels) && n <= |labels| && a in path[n].log.decided
    ensures i < n && labels[i] == Label.Decide(a, path[n].log.decided[a])
  {
    hide Enabled, Apply;
    assert n > 0;
    assert StepAt(cfg, path, labels, n - 1);
    DecidedStep(cfg, path[n - 1], labels[n - 1], path[n]);
    if labels[n - 1] == Label.Decide(a, path[n].log.decided[a]) {
      i := n - 1;
    } else {
      i := DecisionOrigin(cfg, path, labels, n - 1, a);
    }
  }

  lemma DecidesWhatIsPending(cfg: Config, w: World, l: Label)
    requires Enabled(cfg, w, l) && l.Decide?
    ensures l.a in w.approvals && w.approvals[l.a].status == ApprovalStatus.Pending
  {}

  /** A request is decided at most once: the first decision stands. */
  lemma DecidedOnce(cfg: Config, path: seq<World>, labels: seq<Label>, i: nat, j: nat)
    requires ValidWorkflow(cfg.workflow) && Execution(cfg, path, labels) && i < j < |labels|
    requires labels[i].Decide? && labels[j].Decide?
    ensures labels[i].a != labels[j].a
  {
    hide Enabled, Apply, PromptInv, RetryInv, FocusInv, SpawnInv, ConsentInv, IdsInv;
    assert StepAt(cfg, path, labels, i) && StepAt(cfg, path, labels, j);
    DecidedStep(cfg, path[i], labels[i], path[i + 1]);
    DecisionsStand(cfg, path, labels, i + 1, j);
    AlwaysInv(cfg, path, labels, j);
    DecidesWhatIsPending(cfg, path[j], labels[j]);
  }

  /** The driver sees a request granted only if a human approved that very request before. */
  lemma GrantWasDecided(cfg: Config, path: seq<World>, labels: seq<Label>, j: nat) returns (i: nat)
    requires ValidWorkflow(cfg.workflow) && Execution(cfg, path, labels) && j < |labels|
    requires labels[j].SeeGrant?
    ensures i < j && labels[i] == Label.Decide(labels[j].a, true)
  {
    assert StepAt(cfg, path, labels, j);
    AlwaysInv(cfg, path, labels, j);
    hide Apply, PromptInv, RetryInv, SpawnInv, ConsentInv, IdsInv, SaveOk;
    i := DecisionOrigin(cfg, path, labels, j, labels[j].a);
  }

  lemma GateStep(cfg: Config, w: World, l: Label, v: World, g: Gate)
    requires Enabled(cfg, w, l) && v == Apply(cfg, w, l)
    requires v.driver.Some? && g in v.driver.value.gates
    ensures (l.PassGate? && l.gate == g) || (w.driver.Some? && g in w.driver.value.gates)
  {
    hide Classify, Recovered, Retried, SaveOk, GateOk;
  }

  /** Where a clearance comes from: the gate that was passed, since the driver last held no such clearance. */
  lemma {:induction false} GateOrigin(cfg: Config, path: seq<World>, labels: seq<Label>, lo: nat, n: nat, g: Gate)
    returns (i: nat)
    requires Execution(cfg, path, labels) && lo <= n <= |labels|
    requires path[lo].driver.Some? ==> g !in path[lo].driver.value.gates
    requires path[n].driver.Some? && g in path[n].driver.value.gates
    ensures lo <= i < n && labels[i].PassGate? && labels[i].gate == g
  {
    hide Enabled, Apply, Init;
    assert n > lo;
    assert StepAt(cfg, path, labels, n - 1);
    GateStep(cfg, path[n - 1], labels[n - 1], path[n], g);
    if labels[n - 1].PassGate? && labels[n - 1].gate == g {
      i := n - 1;
    } else {
      i := GateOrigin(cfg, path, labels, lo, n - 1, g);
    }
  }

  lemma CoverStep(cfg: Config, w: World, l: Label, v: World, c: Cover)
    requires Enabled(cfg, w, l) && v == Apply(cfg, w, l) && c in v.log.covers
    ensures l == Label.TakeCover(c) || c in w.log.covers
  {
    hide Classify, Recovered, Retried, SaveOk, GateOk;
  }

  /** Where a cover comes from: it was taken while HEAD was the one it names. */
  lemma {:induction false} CoverOrigin(cfg: Config, path: seq<World>, labels: seq<Label>, n: nat, c: Cover)
    returns (i: nat)
    requires Execution(cfg, path, labels) && n <= |labels| && c in path[n].log.covers
    ensures i < n && labels[i] == Label.TakeCover(c) && path[i].head == c.head
  {
    hide Enabled, Apply;
    assert n > 0;
    assert StepAt(cfg, path, labels, n - 1);
    CoverStep(cfg, path[n - 1], labels[n - 1], path[n], c);
    if labels[n - 1] == Label.TakeCover(c) {
      i := n - 1;
      TakenAtHead(cfg, path[i], c);
    } else {
      i := CoverOrigin(cfg, path, labels, n - 1, c);
    }
  }

  lemma TakenAtHead(cfg: Config, w: World, c: Cover)
    requires Enabled(cfg, w, Label.TakeCover(c))
    ensures w.head == c.head && w.driver.Some? && c.approval in w.driver.value.granted
  {}

  /** The gate behind a label that has a side effect. */
  function ActedOn(l: Label): Option<Gate> {
    match l
    case Act(g) => Some(g)
    case Spawn(_, g) => Some(g)
    case _ => None
  }

  lemma ActsOnClearance(cfg: Config, w: World, l: Label)
    requires Enabled(cfg, w, l) && ActedOn(l).Some?
    ensures w.driver.Some? && ActedOn(l).value in w.driver.value.gates
  {}

  lemma PassedGateIsOk(cfg: Config, w: World, l: Label)
    requires Enabled(cfg, w, l) && l.PassGate?
    ensures w.driver.Some? && GateOk(w, w.driver.value, l.gate)
  {}

  /**
   * A launch, a command, a push or a pull request that needed approval happened only after a
   * human approved: either the request of that very execution, or the request a cover goes
   * back to, and then HEAD at the gate was what it was when the cover was taken. The decision
   * came before the gate, and before the cover.
   */
  lemma EffectsHadConsent(cfg: Config, path: seq<World>, labels: seq<Label>, j: nat)
    returns (decided: nat, gated: nat, covered: nat)
    requires ValidWorkflow(cfg.workflow) && Execution(cfg, path, labels) && j < |labels|
    requires ActedOn(labels[j]).Some?
    ensures gated < j && labels[gated].PassGate? && labels[gated].gate == ActedOn(labels[j]).value
    ensures var g := ActedOn(labels[j]).value;
            && !g.verdict.Deny?
            && (g.verdict.RequireApproval? ==>
                  && decided < gated
                  && match g.why
                     case Permitted => false
                     case ByGrant(a) =>
                       && labels[decided] == Label.Decide(a, true)
                       && a in path[j].approvals
                       && path[j].approvals[a].exec == g.exec && path[j].approvals[a].step == g.step
                     case ByCover(c) =>
                       && labels[decided] == Label.Decide(c.approval, true)
                       && !g.action.LaunchAgent?
                       && decided < covered < gated && labels[covered] == Label.TakeCover(c)
                       && path[covered].head == path[gated].head == c.head
                       && c.approval in path[j].approvals
                       && CoverNames(cfg, path[j].approvals[c.approval].step, g.step))
  {
    var g := ActedOn(labels[j]).value;
    assert StepAt(cfg, path, labels, j);
    AlwaysInv(cfg, path, labels, j);
    decided, covered := 0, 0;
    hide Apply, PromptInv, RetryInv, SpawnInv, IdsInv, DecidedInv, SaveOk, CoverNames;
    ActsOnClearance(cfg, path[j], labels[j]);
    gated := GateOrigin(cfg, path, labels, 0, j, g);
    assert StepAt(cfg, path, labels, gated);
    PassedGateIsOk(cfg, path[gated], labels[gated]);
    assert Evidence(cfg, path[j], g);
    if g.verdict.RequireApproval? {
      match g.why
      case ByGrant(a) =>
        decided := GrantedBefore(cfg, path, labels, gated, a);
      case ByCover(c) =>
        covered := CoverOrigin(cfg, path, labels, gated, c);
        assert StepAt(cfg, path, labels, covered);
        TakenAtHead(cfg, path[covered], c);
        decided := GrantedBefore(cfg, path, labels, covered, c.approval);
    }
  }

  /** What the driver holds as granted at some moment was approved before it. */
  lemma GrantedBefore(cfg: Config, path: seq<World>, labels: seq<Label>, n: nat, a: nat) returns (i: nat)
    requires ValidWorkflow(cfg.workflow) && Execution(cfg, path, labels) && n <= |labels|
    requires path[n].driver.Some? && a in path[n].driver.value.granted
    ensures i < n && labels[i] == Label.Decide(a, true)
  {
    hide Enabled, Apply, PromptInv, RetryInv, SpawnInv, FocusInv, IdsInv, DecidedInv;
    AlwaysInv(cfg, path, labels, n);
    i := DecisionOrigin(cfg, path, labels, n, a);
  }

  /** The label that moves HEAD, by the driver's commit or by anybody else. */
  predicate MovesHead(l: Label) {
    l.Commit? || l.MoveHead?
  }

  /** Where HEAD was last moved to between two points, if it was. */
  function LastMove(labels: seq<Label>, lo: nat, hi: nat): Option<Option<nat>>
    requires lo <= hi <= |labels|
  {
    if lo == hi then None
    else if MovesHead(labels[hi - 1]) then Some(labels[hi - 1].head)
    else LastMove(labels, lo, hi - 1)
  }

  lemma HeadStep(cfg: Config, w: World, l: Label, v: World)
    requires Enabled(cfg, w, l) && v == Apply(cfg, w, l)
    ensures v.head == if MovesHead(l) then l.head else w.head
  {
    hide Classify, Recovered, Retried, SaveOk, GateOk;
  }

  lemma {:induction false} HeadIsLastMove(cfg: Config, path: seq<World>, labels: seq<Label>, lo: nat, hi: nat)
    requires Execution(cfg, path, labels) && lo <= hi <= |labels|
    ensures path[hi].head == if LastMove(labels, lo, hi).Some? then LastMove(labels, lo, hi).value else path[lo].head
  {
    hide Enabled, Apply;
    if lo < hi {
      HeadIsLastMove(cfg, path, labels, lo, hi - 1);
      assert StepAt(cfg, path, labels, hi - 1);
      HeadStep(cfg, path[hi - 1], labels[hi - 1], path[hi]);
    }
  }

  /**
   * Exactly when a covered effect happens at the HEAD the cover names: nothing moved HEAD between
   * the gate and the effect, or the last such move brought it back.
   */
  lemma CoveredAtItsHeadIff(cfg: Config, path: seq<World>, labels: seq<Label>, j: nat) returns (gated: nat)
    requires ValidWorkflow(cfg.workflow) && Execution(cfg, path, labels) && j < |labels|
    requires ActedOn(labels[j]).Some?
    requires var g := ActedOn(labels[j]).value; g.verdict.RequireApproval? && g.why.ByCover?
    ensures gated < j && labels[gated].PassGate? && labels[gated].gate == ActedOn(labels[j]).value
    ensures var c := ActedOn(labels[j]).value.why.cover;
            && path[gated].head == c.head
            && (path[j].head == c.head
                <==> LastMove(labels, gated, j).None? || LastMove(labels, gated, j).value == c.head)
  {
    hide Execution;
    var decided, covered;
    decided, gated, covered := EffectsHadConsent(cfg, path, labels, j);
    HeadIsLastMove(cfg, path, labels, gated, j);
  }

  /** HEAD at `hi` is what it was at `lo`: nothing moved it in between, or the last move brought it back. */
  predicate HeadIsBack(path: seq<World>, labels: seq<Label>, lo: nat, hi: nat)
    requires lo <= hi <= |labels| && |path| == |labels| + 1
  {
    LastMove(labels, lo, hi).None? || LastMove(labels, lo, hi).value == path[lo].head
  }

  /**
   * Exactly when a covered effect happens at the HEAD a human approved, counted from the decision on;
   * and exactly when the HEAD its cover names, which the gate compares, is that HEAD.
   */
  lemma CoveredAsApprovedIff(cfg: Config, path: seq<World>, labels: seq<Label>, j: nat)
    returns (decided: nat, covered: nat, gated: nat)
    requires ValidWorkflow(cfg.workflow) && Execution(cfg, path, labels) && j < |labels|
    requires ActedOn(labels[j]).Some?
    requires var g := ActedOn(labels[j]).value; g.verdict.RequireApproval? && g.why.ByCover?
    ensures decided < covered < gated < j
    ensures labels[gated].PassGate? && labels[gated].gate == ActedOn(labels[j]).value
    ensures var c := ActedOn(labels[j]).value.why.cover;
            && labels[decided] == Label.Decide(c.approval, true) && labels[covered] == Label.TakeCover(c)
            && path[gated].head == c.head
            && (c.head == path[decided].head <==> HeadIsBack(path, labels, decided, covered))
    ensures path[j].head == path[decided].head <==> HeadIsBack(path, labels, decided, j)
  {
    hide Execution;
    decided, gated, covered := EffectsHadConsent(cfg, path, labels, j);
    HeadIsLastMove(cfg, path, labels, decided, covered);
    HeadIsLastMove(cfg, path, labels, decided, j);
  }

  // --------------------------------------------------------------------- status

  /** Every status change is one the table allows, except that recovery requeues what was interrupted. */
  lemma StatusEdges(cfg: Config, w: World, l: Label, v: World)
    requires Enabled(cfg, w, l) && v == Apply(cfg, w, l)
    ensures w.doc.status.CanTransitionTo(v.doc.status)
            || (l.Recover? && w.doc.status.Interrupted() && v.doc.status.Pending?)
  {
    hide Classify, GateOk, CanRoute;
  }

  /** Only a human's retry takes a run out of a terminal state, and nothing takes it out of success. */
  lemma TerminalRunsRest(cfg: Config, w: World, l: Label, v: World)
    requires Enabled(cfg, w, l) && v == Apply(cfg, w, l)
    requires w.doc.status.IsTerminal() && v.doc.status != w.doc.status
    ensures l.HumanRetry? && !w.doc.status.Succeeded? && v.doc.status.Pending?
  {
    hide Classify, GateOk, CanRoute;
  }

  lemma {:induction false} SuccessIsFinal(cfg: Config, path: seq<World>, labels: seq<Label>, i: nat, j: nat)
    requires Execution(cfg, path, labels) && i <= j <= |labels| && path[i].doc.status.Succeeded?
    ensures path[j].doc.status.Succeeded?
  {
    hide Enabled, Apply;
    if i < j {
      SuccessIsFinal(cfg, path, labels, i, j - 1);
      assert StepAt(cfg, path, labels, j - 1);
      if path[j].doc.status != path[j - 1].doc.status {
        TerminalRunsRest(cfg, path[j - 1], labels[j - 1], path[j]);
      }
    }
  }

  predicate ClosedStay(a: seq<Exec>, b: seq<Exec>) {
    |a| <= |b| && forall k :: 0 <= k < |a| && !a[k].IsOpen() ==> b[k] == a[k]
  }

  lemma ClosedStayStep(cfg: Config, w: World, l: Label, v: World)
    requires Enabled(cfg, w, l) && v == Apply(cfg, w, l) && SpawnInv(cfg, w)
    ensures ClosedStay(w.doc.steps, v.doc.steps)
  {
    if Offline(l) {
      hide Enabled, Apply;
      OfflineFrame(cfg, w, l, v);
    }
  }

  /** A closed execution is history: nothing edits it, and none is ever removed. */
  lemma {:induction false} ClosedStayClosed(cfg: Config, path: seq<World>, labels: seq<Label>, i: nat, j: nat)
    requires ValidWorkflow(cfg.workflow) && Execution(cfg, path, labels) && i <= j <= |labels|
    ensures ClosedStay(path[i].doc.steps, path[j].doc.steps)
  {
    hide Enabled, Apply, ValidWorkflow, IdsInv, PromptInv, RetryInv, SpawnInv, ConsentInv, DecidedInv;
    if i < j {
      ClosedStayClosed(cfg, path, labels, i, j - 1);
      AlwaysInv(cfg, path, labels, j - 1);
      assert StepAt(cfg, path, labels, j - 1);
      ClosedStayStep(cfg, path[j - 1], labels[j - 1], path[j]);
    }
  }
}
