/** What recovery and the scheduler do to stored runs that nobody drives, loop by loop. */
module RunOffline {
  import opened Text
  import opened RunModel
  import opened RunProtocol
  import RunGuarantees

  class RunStore {
    var runs: map<nat, Run>
    var approvals: Requests

    /** Every open execution is given its final status, one after the other. */
    method CloseOpen(steps: seq<Exec>, final: StepStatus) returns (closed: seq<Exec>)
      ensures closed == CloseAll(steps, final)
    {
      closed := steps;
      for k := 0 to |steps|
        invariant |closed| == |steps|
        invariant forall i :: 0 <= i < |steps| ==>
                    closed[i] == if i < k && steps[i].IsOpen() then steps[i].(status := final) else steps[i]
      {
        if closed[k].IsOpen() {
          closed := closed[k := closed[k].(status := final)];
        }
      }
    }

    /** A cancelled run that nobody drives: closed, saved, and its pending requests withdrawn. */
    method CancelIdleRun(id: nat)
      requires id in runs
      modifies this
      ensures runs == old(runs)[id := CancelledIdle(old(runs)[id])]
      ensures approvals == CancelPending(old(approvals), old(runs)[id].approvals)
    {
      var r := runs[id];
      var closed := CloseOpen(r.steps, StepStatus.Cancelled);
      r := r.(steps := closed, status := RunStatus.Cancelled);
      runs := runs[id := r];
      var i := 0;
      assert r.approvals[0..] == r.approvals;
      while i < |r.approvals|
        invariant 0 <= i <= |r.approvals|
        invariant runs == old(runs)[id := CancelledIdle(old(runs)[id])]
        invariant CancelPending(old(approvals), old(runs)[id].approvals) == CancelPending(approvals, r.approvals[i..])
      {
        assert r.approvals[i..][0] == r.approvals[i] && r.approvals[i..][1..] == r.approvals[i + 1..];
        var a := r.approvals[i];
        if a in approvals && approvals[a].status == ApprovalStatus.Pending {
          approvals := approvals[a := approvals[a].(status := ApprovalStatus.Cancelled)];
        }
        i := i + 1;
      }
      assert r.approvals[i..] == [];
    }

    /** A human's retry: back to pending at the step asked for, or where the run stopped. */
    method ResumeRun(cfg: Config, id: nat, from: Option<string>)
      requires id in runs && ValidWorkflow(cfg.workflow)
      modifies this`runs
      ensures runs == old(runs)[id := Retried(cfg, old(runs)[id], from)]
    {
      var r := runs[id];
      var wf := cfg.workflow;
      if from.Some? {
        var i := IndexOf(wf, from.value);
        if i < |wf| {
          r := r.(cursor := i);
        }
      }
      var closed := CloseOpen(r.steps, StepStatus.Cancelled);
      var kept := ForgetLater(wf, r.cursor, r.retryCounts);
      runs := runs[id := r.(steps := closed, retryCounts := kept, status := RunStatus.Pending)];
    }

    method ForgetLater(wf: Workflow, cursor: nat, counts: map<string, nat>) returns (kept: map<string, nat>)
      requires ValidWorkflow(wf)
      ensures kept == EarlierCounts(wf, cursor, counts)
    {
      var later: seq<string> := [];
      var first := if cursor < |wf| then cursor else |wf|;
      for i := first to |wf|
        invariant forall s :: s in later <==> exists j :: first <= j < i && wf[j].id == s
      {
        later := later + [wf[i].id];
      }
      LaterIds(wf, first, later);
      hide ValidWorkflow;
      kept := map s | s in counts && s !in later :: counts[s];
    }

    lemma LaterIds(wf: Workflow, first: nat, later: seq<string>)
      requires ValidWorkflow(wf) && first <= |wf|
      requires forall s :: s in later <==> exists j :: first <= j < |wf| && wf[j].id == s
      ensures forall s :: s in later <==> first <= IndexOf(wf, s) < |wf|
    {
      forall s ensures s in later <==> first <= IndexOf(wf, s) < |wf| {
        if s in later {
          var j :| first <= j < |wf| && wf[j].id == s;
          IndexOfAt(wf, j);
        }
      }
    }

    /** One interrupted run: classified, and rewritten as its class demands. What is stored by now is not looked at. */
    method RecoverRun(cfg: Config, id: nat, listed: Run, probe: Probe) returns (class_: Classification)
      modifies this`runs
      ensures class_ == Classify(cfg, listed, approvals, probe)
      ensures runs == old(runs)[id := Recovered(listed, class_)]
    {
      hide Classify, CloseAll, LastOpen;
      var r := listed;
      class_ := Classify(cfg, r, approvals, probe);
      match class_ {
        case Recoverable =>
          r := r.(status := RunStatus.Pending);
        case Stale =>
          r := r.(status := RunStatus.Pending);
        case CompletedExternally =>
          var k := LastOpen(r.steps);
          if k < |r.steps| {
            r := r.(steps := r.steps[k := r.steps[k].(status := StepStatus.Succeeded)]);
          }
          r := r.(cursor := r.cursor + 1, status := RunStatus.Pending);
        case NeedsHuman =>
          r := r.(status := RunStatus.NeedsHuman);
        case Failed =>
          var closed := CloseOpen(r.steps, StepStatus.Failed);
          r := r.(steps := closed, status := RunStatus.Failed);
      }
      runs := runs[id := r];
    }

    /**
     * At startup the runs are listed; then every run listed as interrupted is recovered as it was
     * listed, but for those whose lock another process holds when their turn comes.
     */
    method RecoverAll(cfgs: map<nat, Config>, listed: map<nat, Run>, driven: set<nat>, probes: nat -> Probe)
      requires listed.Keys <= runs.Keys && listed.Keys <= cfgs.Keys
      modifies this`runs
      ensures runs.Keys == old(runs).Keys
      ensures forall id :: id in old(runs) ==>
                runs[id] ==
                if id in listed && listed[id].status.Interrupted() && id !in driven
                then Recovered(listed[id], Classify(cfgs[id], listed[id], approvals, probes(id)))
                else old(runs)[id]
    {
      var candidates := set id | id in listed && listed[id].status.Interrupted();
      var left := candidates;
      while left != {}
        invariant left <= candidates && runs.Keys == old(runs).Keys
        invariant forall id :: id in old(runs) ==>
                    runs[id] ==
                    if id in candidates - left && id !in driven
                    then Recovered(listed[id], Classify(cfgs[id], listed[id], approvals, probes(id)))
                    else old(runs)[id]
        decreases left
      {
        var id :| id in left;
        left := left - {id};
        if id in driven {
          continue;
        }
        var _ := RecoverRun(cfgs[id], id, listed[id], probes(id));
      }
    }
  }

  /** Recovery of a run that nobody drives, from the document as it was listed before the lock was taken. */
  function RecoveredAsListed(cfg: Config, w: World, listed: Run, probe: Probe): World
    requires w.driver.None? && listed.status.Interrupted()
  {
    Apply(cfg, w.(doc := listed), Label.Recover(probe))
  }

  /** Since it was listed, the run has at most gone from running to waiting for an approval, or back. */
  predicate AsListed(listed: Run, doc: Run) {
    && doc.status.Interrupted()
    && listed == doc.(status := listed.status)
    && (listed.status.Preparing? <==> doc.status.Preparing?)
  }

  /** Recovery of the listed document does what recovery of the stored one would. */
  predicate RecoversAsStored(cfg: Config, w: World, listed: Run, probe: Probe)
    requires w.driver.None? && listed.status.Interrupted()
  {
    && Enabled(cfg, w, Label.Recover(probe))
    && RecoveredAsListed(cfg, w, listed, probe) == Apply(cfg, w, Label.Recover(probe))
  }

  /** Exactly when recovery of a listed run is recovery of the run, whatever it finds when it looks. */
  lemma RecoversAsStoredIff(cfg: Config, w: World, listed: Run)
    requires w.driver.None? && listed.status.Interrupted()
    ensures (forall probe :: RecoversAsStored(cfg, w, listed, probe)) <==> AsListed(listed, w.doc)
  {
    var unreadable, gone := Probe(true, false, Unknown, NoTool), Probe(true, true, Unknown, NoTool);
    if AsListed(listed, w.doc) {
      forall probe ensures RecoversAsStored(cfg, w, listed, probe) {
        SameButStatus(cfg, w, listed, probe);
      }
    } else if RecoversAsStored(cfg, w, listed, unreadable) && RecoversAsStored(cfg, w, listed, gone) {
      NothingReadable(cfg, w, listed, unreadable);
      NothingReadable(cfg, w, listed, gone);
      assert false;
    }
  }

  lemma SameButStatus(cfg: Config, w: World, listed: Run, probe: Probe)
    requires w.driver.None? && listed.status.Interrupted() && AsListed(listed, w.doc)
    ensures RecoveredAsListed(cfg, w, listed, probe) == Apply(cfg, w, Label.Recover(probe))
  {
    hide ClassifyStep, AwaitsDecision, LastOpen, CloseAll;
  }

  lemma NothingReadable(cfg: Config, w: World, listed: Run, probe: Probe)
    requires w.driver.None? && listed.status.Interrupted() && w.doc.status.Interrupted() && probe.unreadable
    ensures var closes := (doc: Run) => probe.worktreeGone && !doc.status.Preparing?;
            && RecoveredAsListed(cfg, w, listed, probe).doc.status.Failed? == closes(listed)
            && Apply(cfg, w, Label.Recover(probe)).doc.status.Failed? == closes(w.doc)
            && (!closes(listed) ==>
                  RecoveredAsListed(cfg, w, listed, probe).doc == listed.(status := RunStatus.NeedsHuman))
            && (!closes(w.doc) ==>
                  Apply(cfg, w, Label.Recover(probe)).doc == w.doc.(status := RunStatus.NeedsHuman))
  {
    hide ClassifyStep, AwaitsDecision, LastOpen, CloseAll;
  }

  // ------------------------------------------------ executions with lists in them

  /** What may happen to a run when recovery works from lists: a label, or recovery of an older document. */
  datatype Move = By(l: Label) | FromList(listed: Run, probe: Probe)

  predicate CanMove(cfg: Config, w: World, m: Move) {
    match m
    case By(l) => Enabled(cfg, w, l)
    case FromList(listed, _) => w.driver.None? && listed.status.Interrupted()
  }

  function Moved(cfg: Config, w: World, m: Move): World
    requires CanMove(cfg, w, m)
  {
    match m
    case By(l) => Apply(cfg, w, l)
    case FromList(listed, probe) => RecoveredAsListed(cfg, w, listed, probe)
  }

  ghost predicate MoveAt(cfg: Config, path: seq<World>, moves: seq<Move>, i: nat)
    requires i < |moves| && |path| == |moves| + 1
  {
    CanMove(cfg, path[i], moves[i]) && path[i + 1] == Moved(cfg, path[i], moves[i])
  }

  ghost predicate ListedExecution(cfg: Config, path: seq<World>, moves: seq<Move>) {
    && |path| == |moves| + 1
    && Init(cfg, path[0])
    && forall i: nat :: i < |moves| ==> MoveAt(cfg, path, moves, i)
  }

  /** Every recovery finds the run as it was listed. */
  predicate ListsAreFresh(path: seq<World>, moves: seq<Move>)
    requires |path| == |moves| + 1
  {
    forall i :: 0 <= i < |moves| && moves[i].FromList? ==> AsListed(moves[i].listed, path[i].doc)
  }

  function LabelOf(m: Move): Label {
    match m
    case By(l) => l
    case FromList(_, probe) => Label.Recover(probe)
  }

  function LabelsOf(moves: seq<Move>): (labels: seq<Label>)
    ensures |labels| == |moves|
    ensures forall i :: 0 <= i < |moves| ==> labels[i] == LabelOf(moves[i])
  {
    seq(|moves|, i requires 0 <= i < |moves| => LabelOf(moves[i]))
  }

  lemma FreshMoveIsLabel(cfg: Config, w: World, m: Move)
    requires CanMove(cfg, w, m) && (m.FromList? ==> AsListed(m.listed, w.doc))
    ensures Enabled(cfg, w, LabelOf(m)) && Moved(cfg, w, m) == Apply(cfg, w, LabelOf(m))
  {
    hide Apply;
    if m.FromList? {
      SameButStatus(cfg, w, m.listed, m.probe);
    }
  }

  /** With fresh lists, whatever happens is an execution of the protocol, so that all its guarantees hold. */
  lemma FreshListsAreAnExecution(cfg: Config, path: seq<World>, moves: seq<Move>)
    requires ListedExecution(cfg, path, moves) && ListsAreFresh(path, moves)
    ensures Execution(cfg, path, LabelsOf(moves))
  {
    hide CanMove, Moved, Enabled, Apply, Init, LabelOf, AsListed;
    var labels := LabelsOf(moves);
    forall i: nat | i < |labels| ensures StepAt(cfg, path, labels, i) {
      assert MoveAt(cfg, path, moves, i);
      FreshMoveIsLabel(cfg, path[i], moves[i]);
    }
  }

  /** In particular one prompt per execution, no spawn unaccounted for, and success that stays. */
  lemma FreshListsKeepPromises(cfg: Config, path: seq<World>, moves: seq<Move>, x: nat, i: nat)
    requires ValidWorkflow(cfg.workflow) && ListedExecution(cfg, path, moves) && ListsAreFresh(path, moves)
    ensures var log := path[|moves|].log;
            && log.prompts[x] <= 1
            && log.lost[x] + log.reopened[x] <= log.spawns[x] <= log.lost[x] + log.reopened[x] + 1
    ensures i < |moves| && path[i].doc.status.Succeeded? ==> path[|moves|].doc.status.Succeeded?
  {
    FreshListsAreAnExecution(cfg, path, moves);
    var labels := LabelsOf(moves);
    hide Execution;
    RunGuarantees.AtMostOnePrompt(cfg, path, labels, x);
    RunGuarantees.SpawnsAccounted(cfg, path, labels, x);
    RunGuarantees.LogIsTrue(cfg, path, labels, |labels|, x);
    if i < |moves| && path[i].doc.status.Succeeded? {
      RunGuarantees.SuccessIsFinal(cfg, path, labels, i, |labels|);
    }
  }

  /** Whatever recovery makes of an interrupted run, it waits for a driver, for a human, or has failed. */
  lemma RecoveryDecides(cfg: Config, doc: Run, approvals: Requests, probe: Probe)
    requires doc.status.Interrupted()
    ensures var r := Recovered(doc, Classify(cfg, doc, approvals, probe));
            && r.status in {RunStatus.Pending, RunStatus.NeedsHuman, RunStatus.Failed}
            && (r.status.Failed? <==> probe.worktreeGone && !doc.status.Preparing?)
            && r.approvals == doc.approvals && r.retryCounts == doc.retryCounts && |r.steps| == |doc.steps|
  {
    hide LastOpen, IndexOf, CloseAll;
  }

  /** Nothing is wrong with the stored workflow and the worktree. */
  predicate Readable(doc: Run, probe: Probe) {
    !probe.unreadable && (probe.worktreeGone ==> doc.status.Preparing?)
  }

  /** With no execution open, the run goes on, or is complete but for its status. */
  lemma NothingInFlight(cfg: Config, doc: Run, approvals: Requests, probe: Probe)
    requires Readable(doc, probe) && forall k :: 0 <= k < |doc.steps| ==> !doc.steps[k].IsOpen()
    ensures var c := Classify(cfg, doc, approvals, probe);
            && (c.Stale? <==> !doc.status.Preparing? && doc.cursor >= |cfg.workflow|)
            && (!c.Stale? ==> c.Recoverable?)
  {}

  /**
   * What recovery makes of the execution in flight, step by step kind: a request nobody has decided, or an
   * execution that waits for one, is waited on again; else it is run again where that is harmless or it
   * cannot have begun, and a human is asked where it may have.
   */
  lemma InFlight(cfg: Config, doc: Run, approvals: Requests, probe: Probe, k: nat, i: nat)
    requires Readable(doc, probe) && ValidWorkflow(cfg.workflow) && i < |cfg.workflow|
    requires k < |doc.steps| && doc.steps[k].IsOpen() && forall j :: k < j < |doc.steps| ==> !doc.steps[j].IsOpen()
    requires doc.steps[k].step == cfg.workflow[i].id
    ensures var c, e := Classify(cfg, doc, approvals, probe), doc.steps[k];
            if e.approval.Some? && e.approval.value in approvals
               && (approvals[e.approval.value].status.Pending? || e.status.AwaitingApproval?) then c.Recoverable?
            else match cfg.workflow[i].spec
              case GithubPr =>
                && (c.CompletedExternally? <==> probe.pr.Found?) && (c.Recoverable? <==> probe.pr.Absent?)
                && (c.NeedsHuman? <==> probe.pr.Unreachable? || probe.pr.NoTool?)
              case Command => if e.status.Starting? && !e.process then c.Recoverable? else c.NeedsHuman?
              case Agent =>
                && (c.Recoverable? || c.NeedsHuman?)
                && (c.NeedsHuman? <==> e.agent.Some? && (probe.agent.Unknown? || (probe.agent.Gone? && e.Prompted())))
              case _ => c.Recoverable?
  {
    IndexOfAt(cfg.workflow, i);
    assert LastOpen(doc.steps) == k;
  }

  /** An execution of a step the stored workflow does not know is left to a human. */
  lemma UnknownStep(cfg: Config, doc: Run, approvals: Requests, probe: Probe, k: nat)
    requires Readable(doc, probe) && k == LastOpen(doc.steps) && k < |doc.steps|
    requires forall i :: 0 <= i < |cfg.workflow| ==> cfg.workflow[i].id != doc.steps[k].step
    ensures Classify(cfg, doc, approvals, probe).NeedsHuman?
  {}

  /** Recovery closes an execution as succeeded, and moves the cursor on, exactly when it found the pull request. */
  lemma ClosedOnlyIfFound(cfg: Config, doc: Run, approvals: Requests, probe: Probe, j: nat)
    requires doc.status.Interrupted() && j < |doc.steps| && doc.steps[j].IsOpen()
    ensures var r := Recovered(doc, Classify(cfg, doc, approvals, probe));
            && |r.steps| == |doc.steps|
            && (r.steps[j].status.Succeeded? <==>
                  && j == LastOpen(doc.steps) && Readable(doc, probe) && probe.pr.Found?
                  && SpecOf(cfg.workflow, doc.steps[j].step) == Some(StepSpec.GithubPr)
                  && !AwaitsDecision(doc.steps[j], approvals))
            && (j == LastOpen(doc.steps) ==>
                  r.cursor == if r.steps[j].status.Succeeded? then doc.cursor + 1 else doc.cursor)
            && (!r.steps[j].status.Succeeded? ==>
                  r.steps[j] == if r.status.Failed? then doc.steps[j].(status := StepStatus.Failed) else doc.steps[j])
  {}

  /** What is closed stays as it is. */
  lemma RecoveryKeepsClosed(cfg: Config, doc: Run, approvals: Requests, probe: Probe, j: nat)
    requires j < |doc.steps| && !doc.steps[j].IsOpen()
    ensures var r := Recovered(doc, Classify(cfg, doc, approvals, probe));
            j < |r.steps| && r.steps[j] == doc.steps[j]
  {}

  /** A human's retry: where the run starts again, and which counters start afresh. */
  lemma RetryStartsAgain(cfg: Config, doc: Run, from: Option<string>, id: string)
    requires ValidWorkflow(cfg.workflow)
    ensures var r := Retried(cfg, doc, from);
            && r.status.Pending? && r.approvals == doc.approvals && r.cover == doc.cover
            && (forall i :: 0 <= i < |cfg.workflow| && from == Some(cfg.workflow[i].id) ==> r.cursor == i)
            && ((from.None? || forall i :: 0 <= i < |cfg.workflow| ==> from.value != cfg.workflow[i].id) ==>
                  r.cursor == doc.cursor)
            && (forall i :: 0 <= i < |cfg.workflow| && cfg.workflow[i].id == id ==>
                  CountOf(r.retryCounts, id) == if i < r.cursor then CountOf(doc.retryCounts, id) else 0)
            && |r.steps| == |doc.steps|
            && forall j :: 0 <= j < |doc.steps| ==>
                 r.steps[j] ==
                   if doc.steps[j].IsOpen() then doc.steps[j].(status := StepStatus.Cancelled) else doc.steps[j]
  {
    forall i | 0 <= i < |cfg.workflow| ensures IndexOf(cfg.workflow, cfg.workflow[i].id) == i {
      IndexOfAt(cfg.workflow, i);
    }
  }

  /** Cancelling a run that nobody drives leaves nothing open and nothing to decide. */
  lemma IdleCancelClosesAll(doc: Run, approvals: Requests)
    ensures CancelledIdle(doc).status.Cancelled?
    ensures forall j :: 0 <= j < |CancelledIdle(doc).steps| ==> !CancelledIdle(doc).steps[j].IsOpen()
    ensures forall a :: a in doc.approvals && a in approvals ==>
            !CancelPending(approvals, doc.approvals)[a].status.Pending?
  {}

  /** A prompted agent is let go on only when it is alive; one that is gone or out of reach waits for a human. */
  lemma PromptedAgentIsResumedOnlyAlive(cfg: Config, doc: Run, approvals: Requests, probe: Probe, k: nat)
    requires k == LastOpen(doc.steps) && k < |doc.steps| && doc.steps[k].Prompted()
    requires SpecOf(cfg.workflow, doc.steps[k].step) == Some(StepSpec.Agent)
    requires !AwaitsDecision(doc.steps[k], approvals)
    ensures Classify(cfg, doc, approvals, probe).Recoverable?
       <==> !probe.unreadable && (probe.worktreeGone ==> doc.status.Preparing?) && probe.agent.Alive?
  {}
}
