/** When each kind of step succeeds or stops, every outcome with its exact condition. */
module StepMeaning {
  import opened Text
  import opened RunModel
  import opened RunProtocol
  import opened RunDriving
  import DiffGate
  import Policy

  /** Policy on the changes stops the step: a broken contract, a file outside or denied, or the diff as a whole. */
  predicate ChangesDenied(f: Findings) {
    f.policyCheck
    && (f.diff.violations != [] || f.diff.summary.Deny?
        || exists c :: c in f.diff.files && (!c.contained || c.decision.Deny?))
  }

  /** The contract is not red by the end: it passes already, or there is no check to tell. */
  predicate ContractNotRed(f: Findings) {
    f.contract == Some(Green) || f.contract == Some(NoCheck)
  }

  /** No gate before the verification commands stops the step. */
  predicate Kept(f: Findings) {
    !f.wroteReadOnly && !f.nothingDone && !ChangesDenied(f) && f.commit != Some(Policy.Decision.Deny)
  }

  /** An agent that completed succeeds exactly when no gate objects and a contract, if there is one, is red. */
  lemma AgentOutcomeIff(f: Findings)
    ensures var r := AgentVerdict(f);
            && (r == Outcome.Succeeded <==>
                  Kept(f) && !f.gateFailed && !ContractNotRed(f) && f.contract != Some(ProbeStopped))
            && (r == Outcome.Blocked <==>
                  f.wroteReadOnly
                  || (!f.nothingDone && (ChangesDenied(f) || f.commit == Some(Policy.Decision.Deny))))
            && (r == Outcome.Cancelled <==> Kept(f) && !f.gateFailed && f.contract == Some(ProbeStopped))
            && (r == Outcome.Failed <==>
                  !f.wroteReadOnly && (f.nothingDone || (Kept(f) && (f.gateFailed || ContractNotRed(f)))))
  {
    DiffGate.DenialsIff(f.diff);
  }

  /** An agent that did not complete never succeeds, and only one that stalled waits for a human. */
  lemma UnfinishedAgentIff(w: AgentWorld)
    ensures var r := AgentEnded(w);
            && (!w.end.Completed? ==> r != Outcome.Succeeded && r != Outcome.Blocked)
            && (r == Outcome.NeedsHuman <==> w.end.Stalled?)
            && (!w.end.Completed? ==> (r == Outcome.Cancelled <==> w.end == AgentEnd.Cancelled))
            && (w.end.Completed? ==> r == AgentVerdict(w.found))
  {
    AgentOutcomeIff(w.found);
    hide AgentVerdict;
  }

  /**
   * A pull request step succeeds exactly when nothing locked was changed and the request is there already, or was
   * made; a denied commit stops it, unless the request is there and was not asked to follow the changes.
   */
  lemma PullRequestOutcomeIff(w: PrWorld)
    ensures var r := PrVerdict(w);
            var denied := w.commit == Some(Policy.Decision.Deny);
            && (r == Outcome.Succeeded <==>
                  !w.violated && ((w.existing.Found? && !(w.followUp && denied))
                                  || (w.existing.Absent? && !denied && w.created)))
            && (r == Outcome.Blocked <==>
                  w.violated || (denied && (w.existing.Absent? || (w.existing.Found? && w.followUp))))
            && (r == Outcome.Failed <==>
                  !w.violated && (w.existing.NoTool? || w.existing.Unreachable?
                                  || (w.existing.Absent? && !denied && !w.created)))
  {}

  /** A command succeeds exactly when it was started and exited with zero; only an interrupted one is cancelled. */
  lemma CommandOutcomeIff(w: CommandWorld)
    ensures CommandVerdict(w) == Outcome.Succeeded <==> w.spawns && w.exit.Zero?
    ensures CommandVerdict(w) == Outcome.Cancelled <==> w.spawns && w.exit.Interrupted?
    ensures CommandVerdict(w) == Outcome.Failed <==> !w.spawns || w.exit.NonZero? || w.exit.Overran?
  {}

  // -------------------------------------------------------------- agent events

  function StatusOver(status: StepStatus, evs: seq<AgentEvent>): StepStatus {
    if evs == [] then status else StatusAfter(StatusOver(status, evs[..|evs| - 1]), evs[|evs| - 1])
  }

  predicate Calls(ev: AgentEvent) {
    ev == AgentEvent.Blocked || ev.Stuck?
  }

  predicate Answers(ev: AgentEvent) {
    ev.Unblocked? || ev.Progressing?
  }

  /** The agent has called for a human and has not gone on since. */
  predicate StillCalls(evs: seq<AgentEvent>) {
    exists i :: 0 <= i < |evs| && Calls(evs[i]) && forall j :: i < j < |evs| ==> !Answers(evs[j])
  }

  /** However its agent flips, a running execution waits for a human exactly while its last call is unanswered. */
  lemma {:induction false} AwaitsHumanIff(evs: seq<AgentEvent>)
    ensures StatusOver(StepStatus.Running, evs)
         == if StillCalls(evs) then StepStatus.AwaitingHuman else StepStatus.Running
    decreases |evs|
  {
    if evs != [] {
      var n := |evs| - 1;
      var before := evs[..n];
      AwaitsHumanIff(before);
      if StillCalls(evs) {
        var i :| 0 <= i < |evs| && Calls(evs[i]) && forall j :: i < j < |evs| ==> !Answers(evs[j]);
        if i < n {
          assert before[i] == evs[i];
          assert StillCalls(before);
        }
      }
      if StillCalls(before) && !Answers(evs[n]) {
        var i :| 0 <= i < n && Calls(before[i]) && forall j :: i < j < n ==> !Answers(before[j]);
        assert evs[i] == before[i] && forall j :: i < j < |evs| ==> !Answers(evs[j]);
      }
    }
  }

  /** Before its agent has started, nothing but the start moves an execution; one that waits for approval stays. */
  lemma OnlyStartStarts(ev: AgentEvent)
    ensures StatusAfter(StepStatus.Starting, ev) == if ev.Started? then StepStatus.Running else StepStatus.Starting
    ensures StatusAfter(StepStatus.AwaitingApproval, ev) == StepStatus.AwaitingApproval
  {}
}
