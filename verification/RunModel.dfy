/** Runs, step executions, workflows, approvals: the documents and their transition tables. */
module RunModel {
  import opened Text

  datatype RunStatus =
    | Pending | Preparing | Running | AwaitingApproval | Blocked | NeedsHuman | Succeeded | Failed | Cancelled
  {
    predicate IsTerminal() {
      Succeeded? || Failed? || Cancelled?
    }

    predicate CanTransitionTo(next: RunStatus) {
      || this == next
      || match this
         case Pending => next.Preparing? || next.Running? || next.Cancelled? || next.Failed? || next.NeedsHuman?
         case Preparing => next.Running? || next.Failed? || next.Cancelled? || next.Blocked? || next.NeedsHuman?
         case Running =>
           || next.AwaitingApproval? || next.Blocked? || next.NeedsHuman?
           || next.Succeeded? || next.Failed? || next.Cancelled?
         case AwaitingApproval => next.Running? || next.Blocked? || next.Failed? || next.Cancelled? || next.NeedsHuman?
         case Blocked => next.Pending? || next.Running? || next.Cancelled? || next.Failed?
         case NeedsHuman => next.Pending? || next.Running? || next.Cancelled? || next.Failed?
         case Succeeded => false
         case Failed => next.Pending?
         case Cancelled => next.Pending?
    }

    predicate CanResume() {
      Failed? || Cancelled? || Blocked? || NeedsHuman?
    }

    /** Interrupted by a crash: recovery looks at these only. */
    predicate Interrupted() {
      Preparing? || Running? || AwaitingApproval?
    }
  }

  datatype StepStatus =
    | Pending | Starting | Running | Retrying | AwaitingApproval | AwaitingHuman
    | Succeeded | Failed | Skipped | Cancelled
  {
    predicate IsTerminal() {
      Succeeded? || Failed? || Skipped? || Cancelled?
    }

    predicate CanTransitionTo(next: StepStatus) {
      || this == next
      || match this
         case Pending => next.Starting? || next.Skipped? || next.Cancelled? || next.AwaitingApproval? || next.Failed?
         case Starting => next.Running? || next.Failed? || next.Cancelled? || next.AwaitingApproval?
         case Running =>
           || next.AwaitingHuman? || next.AwaitingApproval?
           || next.Succeeded? || next.Failed? || next.Cancelled? || next.Retrying?
         case AwaitingHuman => next.Running? || next.Succeeded? || next.Failed? || next.Cancelled?
         case AwaitingApproval => next.Running? || next.Succeeded? || next.Failed? || next.Cancelled? || next.Starting?
         case Retrying => next.Starting? || next.Running? || next.Failed? || next.Cancelled?
         case Succeeded => false
         case Failed => false
         case Skipped => false
         case Cancelled => false
    }
  }

  /** The table of runs, read from its other side: from where each status is reached. */
  lemma RunsReach(s: RunStatus, next: RunStatus)
    requires s != next
    ensures s.CanTransitionTo(next) <==>
            match next
            case Pending => s.CanResume()
            case Preparing => s.Pending?
            case Running => !s.IsTerminal()
            case AwaitingApproval => s.Running?
            case Blocked => s.Preparing? || s.Running? || s.AwaitingApproval?
            case NeedsHuman => s.Pending? || s.Interrupted()
            case Succeeded => s.Running?
            case Failed => !s.IsTerminal()
            case Cancelled => !s.IsTerminal()
  {}

  /** The table of executions, read from its other side. */
  lemma ExecutionsReach(s: StepStatus, next: StepStatus)
    requires s != next
    ensures s.CanTransitionTo(next) <==>
            match next
            case Pending => false
            case Starting => s.Pending? || s.AwaitingApproval? || s.Retrying?
            case Running => s.Starting? || s.AwaitingHuman? || s.AwaitingApproval? || s.Retrying?
            case Retrying => s.Running?
            case AwaitingApproval => s.Pending? || s.Starting? || s.Running?
            case AwaitingHuman => s.Running?
            case Succeeded => s.Running? || s.AwaitingHuman? || s.AwaitingApproval?
            case Skipped => s.Pending?
            case Failed => !s.IsTerminal()
            case Cancelled => !s.IsTerminal()
  {}

  // ---------------------------------------------------------------- workflows

  datatype StepSpec = Agent | Command | Check | Approval | Policy | Git | GithubPr

  datatype OnFailure = OnFailure(retryStep: string, maxAttempts: nat)

  datatype Step = Step(id: string, spec: StepSpec, onFailure: Option<OnFailure>, continueOnFailure: bool)

  type Workflow = seq<Step>

  /** What loading a workflow checks: unique ids, retries that go to this step or an earlier one. */
  ghost predicate ValidWorkflow(wf: Workflow) {
    && (forall i, j :: 0 <= i < j < |wf| ==> wf[i].id != wf[j].id)
    && (forall i :: 0 <= i < |wf| && wf[i].onFailure.Some? ==> IndexOf(wf, wf[i].onFailure.value.retryStep) <= i)
  }

  /** The position of a step id, or the length when there is none. */
  function IndexOf(wf: Workflow, id: string): (i: nat)
    ensures i <= |wf|
    ensures i < |wf| ==> wf[i].id == id
    ensures i == |wf| ==> forall k :: 0 <= k < |wf| ==> wf[k].id != id
    decreases |wf|
  {
    if wf == [] || wf[0].id == id then 0
    else
      var r := IndexOf(wf[1..], id);
      assert r == |wf| - 1 ==> forall k :: 0 < k < |wf| ==> wf[k] == wf[1..][k - 1];
      r + 1
  }

  function SpecOf(wf: Workflow, id: string): Option<StepSpec> {
    var i := IndexOf(wf, id);
    if i < |wf| then Some(wf[i].spec) else None
  }

  lemma IndexOfAt(wf: Workflow, i: nat)
    requires ValidWorkflow(wf) && i < |wf|
    ensures IndexOf(wf, wf[i].id) == i && SpecOf(wf, wf[i].id) == Some(wf[i].spec)
  {
    assert forall a, b :: 0 <= a < |wf| && 0 <= b < |wf| && wf[a].id == wf[b].id ==> a == b;
  }

  // --------------------------------------------------------------- documents

  datatype Binding = Binding(promptSent: bool)

  /** One attempt at one step; `process` says that a spawned process was recorded. */
  datatype Exec = Exec(
    id: nat, step: string, attempt: nat, status: StepStatus,
    agent: Option<Binding>, process: bool, approval: Option<nat>)
  {
    predicate IsOpen() {
      !status.IsTerminal()
    }

    predicate Prompted() {
      agent.Some? && agent.value.promptSent
    }
  }

  datatype Cover = Cover(step: string, approval: nat, head: Option<nat>)

  datatype Run = Run(
    status: RunStatus,
    cursor: nat,
    steps: seq<Exec>,
    retryCounts: map<string, nat>,
    approvals: seq<nat>,
    cover: Option<Cover>)

  function CountOf(counts: map<string, nat>, id: string): nat {
    if id in counts then counts[id] else 0
  }

  /** Position of the latest open execution, or the length when none is open. */
  function LastOpen(steps: seq<Exec>): (k: nat)
    ensures k <= |steps|
    ensures k < |steps| ==> steps[k].IsOpen() && forall i :: k < i < |steps| ==> !steps[i].IsOpen()
    ensures k == |steps| ==> forall i :: 0 <= i < |steps| ==> !steps[i].IsOpen()
  {
    if steps == [] then 0
    else
      var n := |steps| - 1;
      if steps[n].IsOpen() then n
      else
        var k := LastOpen(steps[..n]);
        if k < n then k else |steps|
  }

  /** Position of the latest execution of a step, or the length when there is none. */
  function LatestOf(steps: seq<Exec>, step: string): (k: nat)
    ensures k <= |steps|
    ensures k < |steps| ==> steps[k].step == step && forall i :: k < i < |steps| ==> steps[i].step != step
    ensures k == |steps| ==> forall i :: 0 <= i < |steps| ==> steps[i].step != step
  {
    if steps == [] then 0
    else
      var n := |steps| - 1;
      if steps[n].step == step then n
      else
        var k := LatestOf(steps[..n], step);
        if k < n then k else |steps|
  }

  /** Every open execution is given a final status. */
  function CloseAll(steps: seq<Exec>, final: StepStatus): (r: seq<Exec>)
    ensures |r| == |steps|
    ensures forall i :: 0 <= i < |steps| ==> r[i] == if steps[i].IsOpen() then steps[i].(status := final) else steps[i]
  {
    if steps == [] then []
    else [if steps[0].IsOpen() then steps[0].(status := final) else steps[0]] + CloseAll(steps[1..], final)
  }

  function AttemptsOf(steps: seq<Exec>, step: string): nat {
    if steps == [] then 0 else (if steps[0].step == step then 1 else 0) + AttemptsOf(steps[1..], step)
  }

  function StepsOf(steps: seq<Exec>): (r: seq<string>)
    ensures |r| == |steps| && forall k :: 0 <= k < |steps| ==> r[k] == steps[k].step
  {
    if steps == [] then [] else [steps[0].step] + StepsOf(steps[1..])
  }

  /** Attempts are counted over all executions, ended or not. */
  lemma {:induction false} AttemptsAreCounted(steps: seq<Exec>, step: string)
    ensures AttemptsOf(steps, step) == multiset(StepsOf(steps))[step]
    decreases |steps|
  {
    if steps != [] {
      AttemptsAreCounted(steps[1..], step);
      assert StepsOf(steps) == [steps[0].step] + StepsOf(steps[1..]);
    }
  }

  // ---------------------------------------------------------------- approvals

  datatype ApprovalStatus = Pending | Approved | Denied | Cancelled | Expired

  /** A request to a human, for one execution of one step. */
  datatype Request = Request(status: ApprovalStatus, exec: nat, step: string)

  type Requests = map<nat, Request>

  /** A human's decision: refused unless the request is still pending. */
  function Decide(rs: Requests, a: nat, approve: bool): (Requests, bool) {
    if a in rs && rs[a].status == ApprovalStatus.Pending
    then (rs[a := rs[a].(status := if approve then Approved else Denied)], true)
    else (rs, false)
  }

  /** The deadline write of the waiting driver; it does not look at the status again. */
  function Expire(rs: Requests, a: nat): Requests {
    if a in rs then rs[a := rs[a].(status := Expired)] else rs
  }

  /** Cancelling touches only what is still pending. */
  function CancelPending(rs: Requests, ids: seq<nat>): (r: Requests)
    ensures r.Keys == rs.Keys
    ensures forall a :: a in rs ==>
              r[a] == if a in ids && rs[a].status == ApprovalStatus.Pending
                      then rs[a].(status := ApprovalStatus.Cancelled) else rs[a]
    decreases |ids|
  {
    if ids == [] then rs
    else
      var a := ids[0];
      CancelPending(
        if a in rs && rs[a].status == ApprovalStatus.Pending
        then rs[a := rs[a].(status := ApprovalStatus.Cancelled)] else rs,
        ids[1..])
  }

  class ApprovalStore {
    var requests: Requests

    method DecideRequest(a: nat, approve: bool) returns (ok: bool)
      modifies this
      ensures (requests, ok) == Decide(old(requests), a, approve)
      ensures ok <==> a in old(requests) && old(requests)[a].status == ApprovalStatus.Pending
      ensures forall b :: b in old(requests) && b != a ==> b in requests && requests[b] == old(requests)[b]
    {
      if a !in requests || requests[a].status != ApprovalStatus.Pending {
        return false;
      }
      requests := requests[a := requests[a].(status := if approve then Approved else Denied)];
      return true;
    }
  }

  /** Deciding twice is harmless: the first decision stands. */
  lemma SecondDecisionRefused(rs: Requests, a: nat, first: bool, second: bool)
    ensures var (once, ok) := Decide(rs, a, first);
            ok ==> Decide(once, a, second) == (once, false)
                   && once[a].status == (if first then Approved else Denied)
  {}
}
