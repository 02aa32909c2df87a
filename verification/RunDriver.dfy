/**
 * The driver of one run: the step loop, the step executors and the gates, as they read and
 * write the run. Whatever the driver or the rest of the world does is one label of the
 * protocol, so every way through this code is an execution of the protocol. What agents, policy,
 * checks, git and the configuration answer are parameters; clocks, failures of the store and what
 * others do meanwhile are arbitrary choices.
 */
module RunDriving {
  import opened Text
  import opened RunModel
  import opened RunProtocol
  import opened RunSafety
  import opened RunSaves
  import RunGuarantees
  import DiffGate
  import Policy

  datatype Error = Io | Illegal

  datatype Result<+T> = Ok(value: T) | Err(error: Error)
  {
    predicate IsFailure() {
      Err?
    }

    /** Total, since many a call whose failure is passed on can be shown not to fail. */
    function PropagateFailure<U>(): Result<U> {
      if Err? then Err(error) else Err(Illegal)
    }

    function Extract(): T
      requires !IsFailure()
    {
      value
    }
  }

  datatype Outcome = Succeeded | Skipped | Failed | Blocked | NeedsHuman | Cancelled

  datatype Answer = Granted(approval: nat) | Denied | Cancelled

  /** What a gate answers: go on with this clearance, or stop the step. */
  datatype Passage = Open(gate: Gate) | Shut(outcome: Outcome)

  datatype Ruling = For(why: Clearance) | Against(outcome: Outcome)

  datatype Lock = Locked | Retry | Halted(outcome: Outcome)

  datatype AgentEvent = Started(prompted: bool) | PromptSending | PromptSent | Blocked | Unblocked | Stuck | Progressing

  datatype AgentEnd = Completed | Cancelled | Stalled | TimedOut | Failed | Lost

  // What the outside answers to one step. The driver's own decisions are made from these.

  /** Where an agent's runner breaks down, if it does. */
  datatype Breakdown = Never | AtLaunch | BeforePrompt | AtPrompt | Afterwards

  /** What the contract's check shows on the code as it is. */
  datatype Probed = NoCheck | Red | Green | ProbeStopped

  /** What an agent that completed leaves behind, and how its step is configured. */
  datatype Findings = Findings(
    overBudget: bool, wroteReadOnly: bool, nothingDone: bool, gateFailed: bool, testsOnly: bool,
    policyCheck: bool, diff: DiffGate.Diff, accepted: DiffGate.Accepted, content: string -> string,
    commit: Option<Policy.Decision>, contract: Option<Probed>)

  datatype AgentWorld = AgentWorld(
    builds: bool, tooMany: bool, skillMissing: bool, slot: bool, breakdown: Breakdown, end: AgentEnd, found: Findings)

  datatype Resolution = Found | NoContract | NoSuchCheck

  datatype Exit = Zero | NonZero | Overran | Interrupted

  datatype CommandWorld = CommandWorld(resolved: Resolution, spawns: bool, exit: Exit)

  datatype PrWorld = PrWorld(
    violated: bool, existing: PrState, followUp: bool, commit: Option<Policy.Decision>, pushes: bool, created: bool)

  /** Everything a step may ask the outside about. */
  datatype StepWorld = StepWorld(
    agent: AgentWorld, command: CommandWorld, pr: PrWorld, push: bool, commit: Option<Policy.Decision>,
    diff: DiffGate.Diff, accepted: DiffGate.Accepted, content: string -> string)

  /** What the outside answers before the first step. */
  datatype StartWorld = StartWorld(worktree: Policy.Decision, missing: bool)

  /** The executions tell how the step ended; a plain failure may have happened before any execution. */
  predicate Told(steps: seq<Exec>, step: string, outcome: Outcome) {
    match outcome
    case Succeeded => EndedAs(steps, step, StepStatus.Succeeded)
    case Skipped => EndedAs(steps, step, StepStatus.Skipped)
    case Blocked => EndedAs(steps, step, StepStatus.Failed)
    case NeedsHuman => EndedAs(steps, step, StepStatus.Failed)
    case Failed => true
    case Cancelled => true
  }

  /** The status of an execution after an event from its agent. */
  function StatusAfter(status: StepStatus, ev: AgentEvent): StepStatus {
    match ev
    case Started(_) => if status.Starting? then StepStatus.Running else status
    case Blocked => if status.Running? then StepStatus.AwaitingHuman else status
    case Stuck => if status.Running? then StepStatus.AwaitingHuman else status
    case Unblocked => if status.AwaitingHuman? then StepStatus.Running else status
    case Progressing => if status.AwaitingHuman? then StepStatus.Running else status
    case PromptSending => status
    case PromptSent => status
  }

  predicate Breaks(b: Breakdown, reattach: bool) {
    if reattach then b.Afterwards? else !b.Never?
  }

  /** A human must say whether to go on after this. */
  predicate Asks(f: Findings) {
    f.overBudget || f.testsOnly || (f.policyCheck && DiffGate.Questions(f.diff, f.accepted) != [])
  }

  /** What becomes of an agent's step when nobody is asked, the first reason to stop winning. */
  function AgentVerdict(f: Findings): Outcome {
    if f.wroteReadOnly then Outcome.Blocked
    else if f.nothingDone then Outcome.Failed
    else if f.policyCheck && DiffGate.Denials(f.diff) != [] then Outcome.Blocked
    else if f.commit == Some(Policy.Decision.Deny) then Outcome.Blocked
    else if f.gateFailed then Outcome.Failed
    else match f.contract
      case None => Outcome.Succeeded
      case Some(Red) => Outcome.Succeeded
      case Some(ProbeStopped) => Outcome.Cancelled
      case Some(_) => Outcome.Failed
  }

  /** What becomes of a step whose agent ran, when nobody is asked. */
  function AgentEnded(w: AgentWorld): Outcome {
    match w.end
    case Completed => AgentVerdict(w.found)
    case Cancelled => Outcome.Cancelled
    case Stalled => Outcome.NeedsHuman
    case _ => Outcome.Failed
  }

  /** What becomes of a pull request that is let through. */
  function Published(w: PrWorld): Outcome {
    if w.commit == Some(Policy.Decision.Deny) then Outcome.Blocked
    else if w.created then Outcome.Succeeded
    else Outcome.Failed
  }

  function PrVerdict(w: PrWorld): Outcome {
    if w.violated then Outcome.Blocked
    else match w.existing
      case NoTool => Outcome.Failed
      case Unreachable => Outcome.Failed
      case Found => if w.followUp && w.commit == Some(Policy.Decision.Deny) then Outcome.Blocked else Outcome.Succeeded
      case Absent => Published(w)
  }

  function CommandVerdict(w: CommandWorld): Outcome {
    if !w.spawns then Outcome.Failed
    else match w.exit
      case Zero => Outcome.Succeeded
      case Interrupted => Outcome.Cancelled
      case NonZero => Outcome.Failed
      case Overran => Outcome.Failed
  }

  /** What success of a step means, apart from grants. */
  predicate Deserved(spec: StepSpec, w: StepWorld) {
    match spec
    case Agent =>
      w.agent.builds && !w.agent.skillMissing && w.agent.slot && w.agent.end.Completed?
      && AgentVerdict(w.agent.found).Succeeded?
    case Command => CommandVerdict(w.command).Succeeded?
    case Check => w.command.resolved.Found? && CommandVerdict(w.command).Succeeded?
    case Policy => DiffGate.Denials(w.diff) == []
    case Git => w.push || w.commit != Some(Policy.Decision.Deny)
    case GithubPr => PrVerdict(w.pr).Succeeded?
    case Approval => true
  }

  /** Where a run goes on after an outcome, if it does. */
  function GoesOn(cfg: Config, outcome: Outcome, cursor: nat, counts: map<string, nat>): Option<(nat, map<string, nat>)>
    requires cursor < |cfg.workflow|
  {
    match outcome
    case Succeeded => Some((cursor + 1, counts))
    case Skipped => Some((cursor + 1, counts))
    case Failed =>
      var step := cfg.workflow[cursor];
      if step.continueOnFailure then Some((cursor + 1, counts))
      else if step.onFailure.Some? && CountOf(counts, step.id) < CapAt(cfg, cursor) then
        Some((IndexOf(cfg.workflow, step.onFailure.value.retryStep), counts[step.id := CountOf(counts, step.id) + 1]))
      else None
    case _ => None
  }

  /** The status of a run that an outcome stops. */
  function StatusOf(outcome: Outcome): RunStatus {
    match outcome
    case Blocked => RunStatus.Blocked
    case NeedsHuman => RunStatus.NeedsHuman
    case Cancelled => RunStatus.Cancelled
    case _ => RunStatus.Failed
  }

  /** The workflow interpreted: where a run stands after these outcomes, if it went on after each. */
  function Reached(cfg: Config, trace: seq<Outcome>, cursor: nat, counts: map<string, nat>)
    : Option<(nat, map<string, nat>)>
  {
    if trace == [] then Some((cursor, counts))
    else
      match Reached(cfg, trace[..|trace| - 1], cursor, counts)
      case None => None
      case Some((c, m)) => if c < |cfg.workflow| then GoesOn(cfg, trace[|trace| - 1], c, m) else None
  }

  /** These outcomes, one after the other, end a run in this status: past its last step, or at the last outcome. */
  predicate Interpreted(cfg: Config, trace: seq<Outcome>, cursor: nat, counts: map<string, nat>, status: RunStatus) {
    if status.Succeeded? then
      var end := Reached(cfg, trace, cursor, counts);
      end.Some? && end.value.0 >= |cfg.workflow|
    else
      trace != []
      && var before := Reached(cfg, trace[..|trace| - 1], cursor, counts);
         var last := trace[|trace| - 1];
         before.Some? && before.value.0 < |cfg.workflow|
         && GoesOn(cfg, last, before.value.0, before.value.1).None? && StatusOf(last) == status
  }

  lemma FollowsInterpretation(
    cfg: Config, trace: seq<Outcome>, cursor: nat, counts: map<string, nat>,
    outcome: Outcome, at: nat, had: map<string, nat>, r: Run)
    requires Reached(cfg, trace, cursor, counts) == Some((at, had)) && at < |cfg.workflow|
    requires Follows(cfg, outcome, at, had, r)
    ensures if r.status.Running? then Reached(cfg, trace + [outcome], cursor, counts) == Some((r.cursor, r.retryCounts))
            else Interpreted(cfg, trace + [outcome], cursor, counts, r.status)
  {
    var more := trace + [outcome];
    assert more[..|more| - 1] == trace;
  }

  /** What becomes of a run when the step at `cursor` ends like this. */
  predicate Follows(cfg: Config, outcome: Outcome, cursor: nat, counts: map<string, nat>, r: Run)
    requires cursor < |cfg.workflow|
  {
    match outcome
    case Succeeded => r.status.Running? && r.cursor == cursor + 1 && r.retryCounts == counts
    case Skipped => r.status.Running? && r.cursor == cursor + 1 && r.retryCounts == counts
    case Blocked => r.status.Blocked?
    case NeedsHuman => r.status.NeedsHuman?
    case Cancelled => r.status.Cancelled?
    case Failed =>
      var step := cfg.workflow[cursor];
      var used := CountOf(counts, step.id);
      if step.continueOnFailure then
        r.status.Running? && r.cursor == cursor + 1 && r.retryCounts == counts
      else if step.onFailure.Some? && used < CapAt(cfg, cursor) then
        && r.status.Running?
        && r.cursor == IndexOf(cfg.workflow, step.onFailure.value.retryStep) <= cursor
        && r.retryCounts == counts[step.id := used + 1]
      else r.status.Failed?
  }

  lemma FollowsIsProgress(cfg: Config, outcome: Outcome, cursor: nat, counts: map<string, nat>, r: Run)
    requires ValidWorkflow(cfg.workflow) && cursor < |cfg.workflow|
    requires Follows(cfg, outcome, cursor, counts, r) && r.status.Running?
    ensures || (r.retryCounts == counts && r.cursor == cursor + 1)
            || Left(cfg, r.retryCounts, |cfg.workflow|) + 1 == Left(cfg, counts, |cfg.workflow|)
  {
    var step := cfg.workflow[cursor];
    if outcome.Failed? && !step.continueOnFailure {
      LeftDropsAt(cfg, counts, cursor, |cfg.workflow|);
    }
  }

  /** The status in which a drive that gets past preparation comes to the step loop. */
  function Entered(s: RunStatus): RunStatus {
    if s.Pending? || s.Preparing? || s.AwaitingApproval? then RunStatus.Running else s
  }

  /**
   * The tables allow whatever the loop may move a run to exactly when it was not entered as blocked
   * or needs_human; such a run can neither ask for approval nor succeed.
   */
  lemma EntryIsLegalIff(s: RunStatus)
    requires !s.IsTerminal()
    ensures (forall next: RunStatus :: !next.Pending? && !next.Preparing? ==> Entered(s).CanTransitionTo(next))
            <==> !s.Blocked? && !s.NeedsHuman?
    ensures s.Blocked? || s.NeedsHuman? ==>
              && !Entered(s).CanTransitionTo(RunStatus.AwaitingApproval)
              && !Entered(s).CanTransitionTo(RunStatus.Succeeded)
  {
    assert Entered(s).CanTransitionTo(RunStatus.Succeeded) ==> Entered(s).Running?;
  }

  /** What a gate may stop a step with. */
  predicate Halts(outcome: Outcome) {
    outcome.Failed? || outcome.Blocked? || outcome.Cancelled?
  }

  /** What a driver did, as far as success of a step depends on it. */
  datatype Deed = Prompting | Commanding | SeeingGrant(a: nat) | Pushing | Opening

  predicate IsDeed(l: Label, d: Deed) {
    match d
    case Prompting => l.SendPrompt?
    case Commanding => l.Spawn? || (l.Act? && l.gate.action.RunCommand?)
    case SeeingGrant(a) => l == Label.SeeGrant(a)
    case Pushing => l.Act? && l.gate.action.Push?
    case Opening => l.Act? && l.gate.action.OpenPr?
  }

  predicate DidIn(labels: seq<Label>, from: nat, d: Deed) {
    exists i :: from <= i < |labels| && IsDeed(labels[i], d)
  }

  predicate GrantIn(labels: seq<Label>, from: nat) {
    exists i :: from <= i < |labels| && labels[i].SeeGrant?
  }

  lemma JustDid(labels: seq<Label>, from: nat, d: Deed)
    requires from < |labels| && IsDeed(labels[|labels| - 1], d)
    ensures DidIn(labels, from, d)
  {}

  lemma StillDid(labels: seq<Label>, more: seq<Label>, from: nat, d: Deed)
    requires DidIn(labels, from, d) && labels <= more
    ensures DidIn(more, from, d)
  {
    var i :| from <= i < |labels| && IsDeed(labels[i], d);
    assert more[i] == labels[i];
  }

  /** From here on, only other people acted: humans decided, and somebody moved HEAD. */
  predicate OnlyOthers(labels: seq<Label>, from: nat) {
    forall i :: from <= i < |labels| ==> labels[i].Decide? || labels[i].MoveHead?
  }

  predicate HeadMoved(labels: seq<Label>, from: nat) {
    exists i :: from <= i < |labels| && labels[i].MoveHead?
  }

  lemma MovedSince(past: seq<Label>, labels: seq<Label>, from: nat)
    requires HeadMoved(past, from) && past <= labels
    ensures HeadMoved(labels, from)
  {
    var i :| from <= i < |past| && past[i].MoveHead?;
    assert labels[i] == past[i];
  }

  /** The driver made no commit from here on. */
  predicate Uncommitted(labels: seq<Label>, from: nat) {
    forall i :: from <= i < |labels| ==> !labels[i].Commit?
  }

  predicate Commits(labels: seq<Label>, from: nat) {
    exists i :: from <= i < |labels| && labels[i].Commit?
  }

  /** An action of this kind followed its gate with no commit of the driver's in between. */
  predicate Straight(labels: seq<Label>, from: nat, action: Action) {
    exists i, j :: from <= i < j < |labels| && Passes(labels, i, j, action)
  }

  predicate Passes(labels: seq<Label>, i: nat, j: nat, action: Action)
    requires i < j < |labels|
  {
    && labels[i].PassGate? && labels[i].gate.action == action
    && RunGuarantees.ActedOn(labels[j]) == Some(labels[i].gate)
    && Uncommitted(labels[..j], i)
  }

  /**
   * The gate is the last label of `passed`, its action the first after `started`, and neither stretch between
   * commits.
   */
  lemma StraightThrough(passed: seq<Label>, paused: seq<Label>, started: seq<Label>, labels: seq<Label>, from: nat)
    requires passed <= paused <= started <= labels && from < |passed| && |started| < |labels|
    requires Uncommitted(paused, |passed|) && Uncommitted(started, |paused|)
    requires passed[|passed| - 1].PassGate?
    requires RunGuarantees.ActedOn(labels[|started|]) == Some(passed[|passed| - 1].gate)
    ensures Straight(labels, from, passed[|passed| - 1].gate.action)
  {
    var i, j := |passed| - 1, |started|;
    assert labels[..j] == started;
    forall n | i <= n < j ensures !started[n].Commit? {
      if n < |passed| {
        assert started[n] == passed[n];
      } else if n < |paused| {
        assert started[n] == paused[n];
      }
    }
    assert Passes(labels, i, j, passed[|passed| - 1].gate.action);
  }

  lemma CommittedSince(past: seq<Label>, labels: seq<Label>, later: nat, from: nat)
    requires Commits(past, later) && from <= later && past <= labels
    ensures Commits(labels, from)
  {
    var i :| later <= i < |past| && past[i].Commit?;
    assert labels[i] == past[i];
  }

  lemma StraightSince(labels: seq<Label>, later: nat, from: nat, action: Action)
    requires Straight(labels, later, action) && from <= later
    ensures Straight(labels, from, action)
  {
    var i, j :| later <= i < j < |labels| && Passes(labels, i, j, action);
  }

  lemma OneMoreStep(cfg: Config, path: seq<World>, labels: seq<Label>, l: Label)
    requires Execution(cfg, path, labels) && Enabled(cfg, path[|labels|], l)
    ensures Execution(cfg, path + [Apply(cfg, path[|labels|], l)], labels + [l])
  {
    hide Enabled, Apply, Init;
    var next := Apply(cfg, path[|labels|], l);
    forall i: nat | i < |labels| + 1 ensures StepAt(cfg, path + [next], labels + [l], i) {
      if i < |labels| {
        assert StepAt(cfg, path, labels, i);
      }
    }
  }

  /** Every gate passed from `start` on carries the verdict policy gave on that action of that execution. */
  predicate Honest(judge: (Action, nat) -> Policy.Decision, labels: seq<Label>, start: nat) {
    forall i :: start <= i < |labels| && labels[i].PassGate? ==>
      labels[i].gate.verdict == judge(labels[i].gate.action, labels[i].gate.exec)
  }

  /** Nothing but actions of this kind was added. */
  predicate OnlyMore(before: seq<Gate>, after: seq<Gate>, action: Action) {
    before <= after && forall i :: |before| <= i < |after| ==> after[i].action == action
  }

  /** What the decision on an approval step's request makes of the step. */
  function StepAnswer(status: ApprovalStatus): Outcome {
    match status
    case Approved => Outcome.Succeeded
    case Cancelled => Outcome.Cancelled
    case _ => Outcome.Failed
  }

  predicate CoveredAt(cover: Option<Cover>, step: string, head: Option<nat>) {
    cover.Some? && cover.value.step == step && cover.value.head == head
  }

  /** The request an execution waits on: its own, while that is pending, else a new one. */
  function RequestFor(e: Exec, w: World): nat {
    if e.approval.Some? && e.approval.value in w.approvals && w.approvals[e.approval.value].status.Pending?
    then e.approval.value else w.nextId
  }

  /** What a request's status tells the driver that waits for it; a request still pending tells it to wait on. */
  function AnswerOf(status: ApprovalStatus, a: nat): Option<Answer> {
    match status
    case Pending => None
    case Approved => Some(Granted(a))
    case Denied => Some(Answer.Denied)
    case Expired => Some(Answer.Denied)
    case Cancelled => Some(Answer.Cancelled)
  }

  predicate Stopped(status: RunStatus) {
    status.IsTerminal() || status.Blocked? || status.NeedsHuman?
  }

  function FinalOf(outcome: Outcome): StepStatus {
    match outcome
    case Succeeded => StepStatus.Succeeded
    case Skipped => StepStatus.Skipped
    case Cancelled => StepStatus.Cancelled
    case Failed => StepStatus.Failed
    case Blocked => StepStatus.Failed
    case NeedsHuman => StepStatus.Failed
  }

  /** The step has an open execution to resume, and its agent was prompted. */
  predicate WasPrompted(steps: seq<Exec>, step: string) {
    var k := LatestOf(steps, step);
    k < |steps| && steps[k].IsOpen() && steps[k].Prompted()
  }

  /** The latest execution of the step, the one it worked on, has this status. */
  predicate EndedAs(steps: seq<Exec>, step: string, status: StepStatus) {
    var k := LatestOf(steps, step);
    k < |steps| && steps[k].status == status
  }

  predicate IsLatest(steps: seq<Exec>, k: nat)
    requires k < |steps|
  {
    forall j :: k < j < |steps| ==> steps[j].step != steps[k].step
  }

  lemma LatestIs(steps: seq<Exec>, k: nat)
    requires k < |steps| && IsLatest(steps, k)
    ensures LatestOf(steps, steps[k].step) == k
  {}

  class RunDriver {
    const cfg: Config
    /** What policy says about an action of an execution. */
    const judge: (Action, nat) -> Policy.Decision
    /** Where in all that happened this drive begins. */
    ghost const start: nat
    /** The driver's copy of the run document. */
    var run: Run
    /** Everything outside the driver's memory: the store, HEAD, and what has happened. */
    var now: World
    ghost var path: seq<World>
    ghost var labels: seq<Label>
    /** What the driver has met: somebody asked it to stop, an operation failed, its time was up. */
    var asked: bool
    var trouble: bool
    var late: bool

    // ------------------------------------------------------------ validity --

    /** Everything that has happened is an execution of the protocol, and this is where it led. */
    ghost predicate Valid()
      reads `now, `path, `labels
    {
      && ValidWorkflow(cfg.workflow)
      && Execution(cfg, path, labels)
      && now == path[|labels|]
      && Inv(cfg, now)
      && start <= |labels| && path[start].driver == Some(RunProtocol.Driver(Between, {}, {}))
      && Honest(judge, labels, start)
    }

    /** The driver holds the run, nothing is half done, and what it remembers is near the document. */
    ghost predicate Ready()
      reads `run, `now, `path, `labels
    {
      Valid() && Driving(now) && Near(cfg, now, run)
    }

    ghost predicate Synced()
      reads `run, `now, `path, `labels
    {
      Ready() && run == now.doc
    }

    /** At the step under the cursor, before any of its executions is touched. */
    ghost predicate AtStep()
      reads `run, `now, `path, `labels
      ensures AtStep() ==> Synced() && run.cursor < |cfg.workflow|
    {
      Synced() && run.status.Running? && run.cursor < |cfg.workflow| && NoneSpent(now)
    }

    /** Working on execution `k` of the step under the cursor; no other open execution may have run. */
    ghost predicate At(k: nat)
      reads `run, `now, `path, `labels
      ensures At(k) ==>
                && Ready() && k < |run.steps| && run.cursor < |cfg.workflow|
                && run.steps[k].step == cfg.workflow[run.cursor].id && IsLatest(run.steps, k)
    {
      && Ready() && run.cursor < |cfg.workflow|
      && k < |run.steps| && run.steps[k].IsOpen()
      && run.steps[k].step == cfg.workflow[run.cursor].id && IsLatest(run.steps, k)
      && (cfg.workflow[run.cursor].spec.Command? ==> k + 1 == |run.steps|)
      && forall j :: 0 <= j < |run.steps| && j != k && run.steps[j].IsOpen() ==> run.steps[j].id !in now.log.spent
    }

    ghost predicate InStep(k: nat)
      reads `run, `now, `path, `labels
      ensures InStep(k) ==> At(k)
    {
      At(k) && run.status.Running?
    }

    /** Neither has execution `k` run yet. */
    ghost predicate Fresh(k: nat)
      reads `run, `now, `path, `labels
      ensures Fresh(k) ==> InStep(k)
    {
      InStep(k) && run.steps[k].id !in now.log.spent
    }

    /** The run waits for a human because of execution `k`. */
    ghost predicate Waiting(k: nat)
      reads `run, `now, `path, `labels
    {
      At(k) && Synced() && run.status.AwaitingApproval? && run.steps[k].id !in now.log.spent
    }

    /** Somebody wants the run stopped, or has withdrawn a request. */
    ghost predicate StopAsked()
      reads `asked, `now
    {
      asked || exists a :: a in now.approvals && now.approvals[a].status.Cancelled?
    }

    /** A request of this step was refused, or its deadline passed. */
    ghost predicate Refused()
      reads `run, `now
    {
      && run.cursor < |cfg.workflow|
      && exists a :: a in now.approvals && now.approvals[a].step == cfg.workflow[run.cursor].id
                     && (now.approvals[a].status.Denied? || now.approvals[a].status.Expired?)
    }

    /** Something but a grant ended a wait. */
    ghost predicate Hindered()
      reads `run, `now, `asked
    {
      StopAsked() || Refused()
    }

    /** Policy allows the action, or asks about it and nobody has refused. */
    ghost predicate Lets(action: Action)
      reads `run, `now, `asked
    {
      || (forall x :: judge(action, x).Allow?)
      || ((forall x :: !judge(action, x).Deny?) && !Hindered())
    }

    /** What every way out of a step leaves behind. */
    ghost predicate After(r: Result<Outcome>, cursor: nat, counts: map<string, nat>)
      reads this
      ensures After(r, cursor, counts) ==> Ready() && run.cursor == cursor && run.retryCounts == counts
    {
      && Ready()
      && run.cursor == cursor && run.retryCounts == counts
      && run.cursor < |cfg.workflow|
      && (r.Err? ==> r.error.Io? && trouble)
      && (r.Ok? && r.value.Cancelled? ==> StopAsked())
      && (r.Err? || r.value.Cancelled? ==> run.status.Running? || run.status.AwaitingApproval?)
      && (r.Ok? && !r.value.Cancelled? ==>
            && AtStep()
            && (cfg.workflow[run.cursor].spec.Command? ==>
                  |run.steps| > 0 && !run.steps[|run.steps| - 1].IsOpen())
            && Told(run.steps, cfg.workflow[run.cursor].id, r.value))
    }

    /** The gates passed and not yet acted on. */
    ghost function Cleared(): set<Gate>
      reads `now
    {
      if now.driver.Some? then now.driver.value.gates else {}
    }

    /** What was done later was done since. */
    lemma DidSince(past: seq<Label>, later: nat, from: nat, d: Deed)
      requires DidIn(past, later, d) && from <= later && past <= labels
      ensures DidIn(labels, from, d)
    {
      StillDid(past, labels, later, d);
    }

    lemma OpenFacts(k: nat)
      requires Ready() && k < |run.steps| && run.steps[k].IsOpen()
      ensures !run.steps[k].status.Retrying?
      ensures run.steps[k].id in now.log.spent ==> run.steps[k].status.Running?
    {
      hide Enabled, Apply, Execution, ConsentInv, DecidedInv, PromptInv, RetryInv, FocusInv;
      assert now.doc.steps[k].id == run.steps[k].id;
    }

    /** Takes the run, whatever its status; the per-run lock keeps every other driver out. */
    constructor (cfg: Config, judge: (Action, nat) -> Policy.Decision,
                 world: World, ghost path: seq<World>, ghost labels: seq<Label>)
      requires ValidWorkflow(cfg.workflow) && Execution(cfg, path, labels) && world == path[|labels|]
      requires world.driver.None?
      ensures this.cfg == cfg && this.judge == judge && this.start == |labels| + 1
      ensures Synced() && NoneSpent(now) && run == world.doc && this.labels == labels + [Acquire]
    {
      hide Enabled, Apply, PromptInv, RetryInv, DecidedInv, ConsentInv, SaveOk, Taken, NoneSpent;
      AlwaysInv(cfg, path, labels, |labels|);
      MayAcquire(cfg, world);
      hide FocusInv, SpawnInv;
      this.cfg := cfg;
      this.judge := judge;
      this.start := |labels| + 1;
      this.run := world.doc;
      var taken := Apply(cfg, world, Acquire);
      this.now := taken;
      this.path := path + [taken];
      this.labels := labels + [Acquire];
      InvKept(cfg, world, Acquire, taken);
      OneMoreStep(cfg, path, labels, Acquire);
      new;
      DocIsNear(cfg, now);
    }

    // ------------------------------------------------------- what happens --

    method Happen(l: Label)
      requires Valid() && Enabled(cfg, now, l)
      requires l.PassGate? ==> l.gate.verdict == judge(l.gate.action, l.gate.exec)
      modifies `now, `path, `labels
      ensures Valid() && now == Apply(cfg, old(now), l) && labels == old(labels) + [l]
    {
      hide Enabled, Apply, Inv, Init, ValidWorkflow;
      InvKept(cfg, now, l, Apply(cfg, now, l));
      OneMoreStep(cfg, path, labels, l);
      now := Apply(cfg, now, l);
      path := path + [now];
      labels := labels + [l];
    }

    /** Other processes: humans decide requests, agents and humans move HEAD. */
    method Others()
      requires Valid()
      modifies `now, `path, `labels
      ensures Valid() && old(labels) <= labels
      ensures now == old(now).(approvals := now.approvals, head := now.head,
              log := old(now).log.(decided := now.log.decided))
      ensures Extends(old(now), now)
      ensures old(Ready()) ==> Ready()
      ensures old(Cleared()) <= Cleared()
      ensures OnlyOthers(labels, |old(labels)|) && Uncommitted(labels, |old(labels)|)
      ensures now.head == old(now).head || HeadMoved(labels, |old(labels)|)
    {
      hide Enabled, Apply, Execution, Near, PromptInv, SpawnInv, FocusInv, RetryInv, ConsentInv;
      var n: nat :| true;
      for i := 0 to n
        invariant Valid() && old(labels) <= labels && OnlyOthers(labels, |old(labels)|)
        invariant now.head == old(now).head || HeadMoved(labels, |old(labels)|)
        invariant now == old(now).(approvals := now.approvals, head := now.head,
                  log := old(now).log.(decided := now.log.decided))
        invariant Extends(old(now), now)
      {
        ghost var before, said := now, labels;
        if * {
          var a: nat :| true;
          var approve: bool :| true;
          if a in now.approvals && now.approvals[a].status == ApprovalStatus.Pending {
            MayDecide(cfg, now, a, approve);
            Happen(Label.Decide(a, approve));
            RequestsStand(cfg, before, Label.Decide(a, approve), now);
            ExtendsTransitive(old(now), before, now);
            if HeadMoved(said, |old(labels)|) { MovedSince(said, labels, |old(labels)|); }
          }
        } else {
          var head: Option<nat> :| true;
          MayMoveHead(cfg, now, head);
          Happen(Label.MoveHead(head));
          assert labels[|said|].MoveHead?;
          ExtendsTransitive(old(now), before, before.(head := head));
        }
      }
      if old(Ready()) {
        StaysNear(cfg, old(now), now, run);
      }
    }

    // --------------------------------------------------------------- saves --

    /** The memory becomes `r`, and is saved. */
    method SaveAs(r: Run)
      requires Valid() && Driving(now) && SaveOk(cfg, now, r)
      modifies `run, `now, `path, `labels
      ensures Synced() && run == r && labels == old(labels) + [Label.Save(r)]
      ensures now == old(now).(doc := r, nextId := now.nextId)
      ensures old(Cleared()) <= Cleared()
    {
      hide Enabled, Apply, Execution, PromptInv, SpawnInv, FocusInv, RetryInv, DecidedInv, ConsentInv, SaveOk;
      MaySave(cfg, now, r);
      run := r;
      Happen(Label.Save(r));
      DocIsNear(cfg, now);
    }

    /** Moves the run, or refuses when the table does not allow it. */
    method SetStatus(next: RunStatus) returns (r: Result<()>)
      requires Valid() && Driving(now) && SaveOk(cfg, now, run) && run.status == now.doc.status
      requires !next.Pending?
      modifies `run, `now, `path, `labels
      ensures r == if old(run).status.CanTransitionTo(next) then Ok(()) else Err(Illegal)
      ensures r.Err? ==> run == old(run) && now == old(now) && labels == old(labels) && Valid()
      ensures r.Ok? ==>
                && Synced() && run == old(run).(status := next) && old(labels) <= labels
                && now == old(now).(doc := run, nextId := now.nextId)
    {
      hide Valid, Near, SaveOk;
      if !run.status.CanTransitionTo(next) {
        return Err(Illegal);
      }
      StatusIsSavable(cfg, now, run, next);
      SaveAs(run.(status := next));
      return Ok(());
    }

    /** Moves one execution, or refuses when the table does not allow it. */
    method SetExecStatus(k: nat, next: StepStatus) returns (r: Result<()>)
      requires Ready() && k < |run.steps| && run.steps[k].IsOpen() && !next.Retrying?
      requires run.steps[k].id in now.log.spent ==> next.IsTerminal()
      modifies `run, `now, `path, `labels
      ensures r == if old(run).steps[k].status.CanTransitionTo(next) then Ok(()) else Err(Illegal)
      ensures r.Err? ==> run == old(run) && now == old(now) && labels == old(labels) && Ready()
      ensures r.Ok? ==>
                && Synced() && run == WithExec(old(run), k, old(run).steps[k].(status := next))
                && labels == old(labels) + [Label.Save(run)]
                && now == old(now).(doc := run, nextId := now.nextId)
    {
      hide Valid, SaveOk;
      if !run.steps[k].status.CanTransitionTo(next) {
        return Err(Illegal);
      }
      ExecStatusIsSavable(cfg, now, run, k, next);
      SaveAs(WithExec(run, k, run.steps[k].(status := next)));
      return Ok(());
    }

    /** A new execution of the step under the cursor. */
    method NewExec() returns (k: nat)
      requires AtStep() && NoOpenCommand(cfg, run.steps)
      modifies `run, `now, `path, `labels
      ensures Fresh(k) && Synced() && old(labels) <= labels
      ensures k == |old(run).steps| && run == old(run).(steps := old(run).steps + [FreshExec(cfg, old(now))])
      ensures now.log == old(now).log
    {
      hide Enabled, Apply, Execution, PromptInv, FocusInv, RetryInv, DecidedInv, ConsentInv, SaveOk, Near;
      NewExecIsSavable(cfg, now);
      k := |run.steps|;
      SaveAs(run.(steps := run.steps + [FreshExec(cfg, now)]));
    }

    /** The open execution to resume, or a new one. */
    method OpenExec() returns (k: nat, resumed: bool)
      requires AtStep()
      modifies `run, `now, `path, `labels
      ensures Fresh(k) && Synced() && old(labels) <= labels
      ensures resumed ==> run == old(run)
      ensures run.cursor == old(run).cursor && run.retryCounts == old(run).retryCounts
      ensures |run.steps| <= |old(run).steps| + 1
      ensures !resumed ==> run.steps[k].status.Pending? && run.steps[k].agent == None
      ensures now.log == old(now).log
      ensures var j := LatestOf(old(run).steps, cfg.workflow[old(run).cursor].id);
              if j < |old(run).steps| && old(run).steps[j].IsOpen() then resumed && k == j
              else !resumed && k == |old(run).steps| && |run.steps| == |old(run).steps| + 1
    {
      hide Enabled, Apply, Execution, PromptInv, RetryInv, DecidedInv, ConsentInv, SaveOk, Near;
      k := LatestOf(run.steps, cfg.workflow[run.cursor].id);
      if k < |run.steps| && run.steps[k].IsOpen() {
        resumed := true;
        if cfg.workflow[run.cursor].spec.Command? {
          IndexOfAt(cfg.workflow, run.cursor);
          assert IsCommand(cfg, run.steps[k]);
        }
      } else {
        resumed := false;
        NothingToResume(cfg, now, k);
        k := NewExec();
      }
    }

    /** Ends an execution; success passes through `starting` and `running` first. */
    method FinishExec(k: nat, final: StepStatus) returns (r: Result<()>)
      requires InStep(k) && final.IsTerminal()
      modifies `run, `now, `path, `labels
      ensures r == if final.Skipped? && !old(run).steps[k].status.Pending? then Err(Illegal) else Ok(())
      ensures old(labels) <= labels
      ensures r.Err? ==> Ready() && run == old(run)
      ensures r.Ok? ==> AtStep() && run == WithExec(old(run), k, old(run).steps[k].(status := final))
      ensures now.log.prompts == old(now).log.prompts && now.log.effects == old(now).log.effects
      ensures Uncommitted(labels, |old(labels)|)
      ensures now.approvals == old(now).approvals
    {
      hide Valid, Near, SaveOk;
      OpenFacts(k);
      if run.steps[k].status.Starting? && final.Succeeded? {
        r := SetExecStatus(k, StepStatus.Running);
      }
      if run.steps[k].status.Pending? && final.Succeeded? {
        r := SetExecStatus(k, StepStatus.Starting);
        r := SetExecStatus(k, StepStatus.Running);
      }
      r := SetExecStatus(k, final);
    }

    /** Ends execution `k` the way the outcome of the step says. */
    method EndStep(k: nat, outcome: Outcome) returns (r: Result<Outcome>)
      requires InStep(k) && (outcome.Skipped? ==> run.steps[k].status.Pending?)
      requires outcome.Cancelled? ==> asked
      modifies `run, `now, `path, `labels
      ensures r == Ok(outcome) && After(r, old(run).cursor, old(run).retryCounts) && Akin(old(run), run)
              && old(labels) <= labels
      ensures run == WithExec(old(run), k, old(run).steps[k].(status := FinalOf(outcome)))
      ensures now.log.prompts == old(now).log.prompts && now.log.effects == old(now).log.effects
      ensures Uncommitted(labels, |old(labels)|)
      ensures now.approvals == old(now).approvals
    {
      hide Valid, Near;
      var _ :- FinishExec(k, FinalOf(outcome));
      assert run.steps[k].step == cfg.workflow[run.cursor].id && run.steps[k].status == FinalOf(outcome);
      LatestIs(run.steps, k);
      return Ok(outcome);
    }

    // ------------------------------------------------ staying in the step --

    /** The rest of the world goes on. */
    method Pause(k: nat)
      requires Fresh(k)
      modifies `now, `path, `labels
      ensures Fresh(k) && old(labels) <= labels && (old(Synced()) ==> Synced())
      ensures now == old(now).(approvals := now.approvals, head := now.head,
              log := old(now).log.(decided := now.log.decided))
      ensures old(Cleared()) <= Cleared() && Uncommitted(labels, |old(labels)|)
    {
      hide Valid, Near, SaveOk;
      Others();
    }

    method Save(k: nat)
      requires Fresh(k)
      modifies `run, `now, `path, `labels
      ensures Fresh(k) && Synced() && run == old(run) && old(labels) <= labels
      ensures now == old(now).(doc := run, nextId := now.nextId)
      ensures old(Cleared()) <= Cleared()
    {
      hide Valid, Near, SaveOk;
      SaveAs(run);
    }

    /** Write-ahead: a new execution is saved as starting before anything is done for it. */
    method StartExec(k: nat, running: bool) returns (r: Result<()>)
      requires Fresh(k)
      modifies `run, `now, `path, `labels
      ensures r.Ok? && Fresh(k) && old(labels) <= labels && (old(Synced()) ==> Synced())
      ensures Uncommitted(labels, |old(labels)|)
      ensures var was := old(run).steps[k];
              run == if !was.status.Pending? then old(run)
                     else WithExec(old(run), k,
                       was.(status := if running then StepStatus.Running else StepStatus.Starting))
      ensures now == old(now).(doc := now.doc, nextId := now.nextId)
    {
      hide Valid, Near, SaveOk;
      if run.steps[k].status.Pending? {
        var _ :- SetExecStatus(k, StepStatus.Starting);
        if running {
          var _ :- SetExecStatus(k, StepStatus.Running);
        }
      }
      return Ok(());
    }

    /** Any operation on files, git or configuration may fail. */
    method TryIo(k: nat) returns (r: Result<()>)
      requires InStep(k)
      modifies `trouble
      ensures r.Err? ==> After(Err(r.error), run.cursor, run.retryCounts)
    {
      hide Valid, Near;
      r := TryAnything();
    }

    /** An operation on files, git, processes or the network may fail at any time. */
    method TryAnything() returns (r: Result<()>)
      modifies `trouble
      ensures r.Err? ==> r.error.Io? && trouble
    {
      if * {
        trouble := true;
        return Err(Io);
      }
      return Ok(());
    }

    /** Has anybody asked to stop? */
    method CheckCancel() returns (stop: bool)
      modifies `asked
      ensures stop == asked && (old(asked) ==> asked)
    {
      if * {
        asked := true;
      }
      return asked;
    }

    lemma MayBeCancelled(k: nat)
      requires InStep(k) && asked
      ensures After(Ok(Outcome.Cancelled), run.cursor, run.retryCounts)
    {
      hide Valid, Near;
    }

    /** An agent's step may fail and leave its execution open. */
    lemma MayLeaveOpen(k: nat)
      requires Fresh(k) && Synced() && !cfg.workflow[run.cursor].spec.Command?
      ensures After(Ok(Outcome.Failed), run.cursor, run.retryCounts)
    {
      hide Valid, Near;
      assert forall j :: 0 <= j < |run.steps| && run.steps[j].IsOpen() ==> run.steps[j].id !in now.log.spent;
    }

    // ----------------------------------------------------------- approvals --

    /** Waits for the decision on a request; it may be cancelled, or expire, while the human decides. */
    method AwaitDecision(a: nat) returns (r: Result<Answer>)
      requires Ready() && a in now.approvals
      modifies `now, `path, `labels, `asked, `trouble
      ensures Ready() && old(labels) <= labels && Extends(old(now), now) && old(Cleared()) <= Cleared()
      ensures now.doc == old(now).doc && now.log.spent == old(now).log.spent && now.log.covers == old(now).log.covers
      ensures r.Err? ==> r.error.Io? && trouble
      ensures r.Ok? && r.value.Granted? ==> r.value.approval == a && now.driver.Some? && a in now.driver.value.granted
      ensures r.Ok? && r.value.Granted? ==> DidIn(labels, |old(labels)|, SeeingGrant(a))
      ensures r.Ok? && !asked ==> Some(r.value) == AnswerOf(now.approvals[a].status, a)
      ensures r.Ok? && asked ==> r.value.Cancelled?
      ensures now.log.prompts == old(now).log.prompts && now.log.effects == old(now).log.effects
    {
      hide Ready, Extends, DidIn;
      var polls: nat :| true;
      ExtendsItself(now);
      for i := 0 to polls
        invariant Ready() && old(labels) <= labels && Extends(old(now), now) && old(Cleared()) <= Cleared()
        invariant a in now.approvals
        invariant now.log.prompts == old(now).log.prompts && now.log.effects == old(now).log.effects
        invariant now.doc == old(now).doc && now.log.spent == old(now).log.spent
                  && now.log.covers == old(now).log.covers
      {
        ghost var before, waiting := now, |labels|;
        var passed: bool :| true;
        var polled := Poll(a, passed);
        ExtendsTransitive(old(now), before, now);
        var seen :- polled;
        if seen.Some? {
          if seen.value.Granted? {
            DidSince(labels, waiting, |old(labels)|, SeeingGrant(a));
          }
          return Ok(seen.value);
        }
      }
      // Nothing else ended the wait: a cancellation does.
      asked := true;
      return Ok(Answer.Cancelled);
    }

    /** One look at the request, after whatever happened meanwhile; `None` is to wait on. */
    method Poll(a: nat, deadlinePassed: bool) returns (r: Result<Option<Answer>>)
      requires Ready() && a in now.approvals
      modifies `now, `path, `labels, `asked, `trouble
      ensures Ready() && old(labels) <= labels && Extends(old(now), now) && old(Cleared()) <= Cleared()
      ensures a in now.approvals
      ensures now.doc == old(now).doc && now.log.spent == old(now).log.spent && now.log.covers == old(now).log.covers
      ensures r.Err? ==> r.error.Io? && trouble
      ensures r.Ok? && !asked ==> r.value == AnswerOf(now.approvals[a].status, a)
      ensures r.Ok? && asked ==> r.value == Some(Answer.Cancelled)
      ensures r.Ok? && r.value.Some? && r.value.value.Granted? ==>
                now.driver.Some? && a in now.driver.value.granted && DidIn(labels, |old(labels)|, SeeingGrant(a))
      ensures r == Ok(None) ==> !deadlinePassed
      ensures !deadlinePassed ==> forall i :: |old(labels)| <= i < |labels| ==> !labels[i].Expire?
      ensures now.log.prompts == old(now).log.prompts && now.log.effects == old(now).log.effects
    {
      hide Valid, Near, Told, UnderGrant, Belongs, SpecOf;
      Others();
      var stop := CheckCancel();
      if stop {
        return Ok(Some(Answer.Cancelled));
      }
      var _ :- TryAnything();
      ghost var waited, before := labels, now;
      var seen := Look(a, deadlinePassed);
      ExtendsTransitive(old(now), before, now);
      if seen.Some? && seen.value.Granted? {
        DidSince(labels, |waited|, |old(labels)|, SeeingGrant(a));
      }
      return Ok(seen);
    }

    /** The request is read; still pending past its deadline, it is written as expired, a moment later. */
    method Look(a: nat, deadlinePassed: bool) returns (seen: Option<Answer>)
      requires Ready() && a in now.approvals
      modifies `now, `path, `labels
      ensures Ready() && old(labels) <= labels && Extends(old(now), now) && old(Cleared()) <= Cleared()
      ensures a in now.approvals
      ensures now.doc == old(now).doc && now.log.spent == old(now).log.spent && now.log.covers == old(now).log.covers
      ensures seen == AnswerOf(now.approvals[a].status, a)
      ensures seen.Some? && seen.value.Granted? ==>
                now.driver.Some? && a in now.driver.value.granted && DidIn(labels, |old(labels)|, SeeingGrant(a))
      ensures seen == None ==> !deadlinePassed
      ensures !deadlinePassed ==> forall i :: |old(labels)| <= i < |labels| ==> !labels[i].Expire?
      ensures now.log.prompts == old(now).log.prompts && now.log.effects == old(now).log.effects
    {
      hide Valid, Near, Told, UnderGrant, Belongs, SpecOf;
      match now.approvals[a].status {
        case Approved =>
          SeeGrant(a);
          JustDid(labels, |old(labels)|, SeeingGrant(a));
          return Some(Granted(a));
        case Denied =>
          return Some(Answer.Denied);
        case Cancelled =>
          return Some(Answer.Cancelled);
        case Expired =>
          return Some(Answer.Denied);
        case Pending =>
      }
      if deadlinePassed {
        ghost var reading := now;
        Others();
        ExtendsTransitive(old(now), reading, now);
        Expire(a);
        return Some(Answer.Denied);
      }
      return None;
    }

    method SeeGrant(a: nat)
      requires Ready() && a in now.approvals && now.approvals[a].status.Approved?
      modifies `now, `path, `labels
      ensures Ready() && labels == old(labels) + [Label.SeeGrant(a)]
      ensures now == old(now).(driver := now.driver) && a in now.driver.value.granted
      ensures old(Cleared()) <= Cleared()
    {
      hide Enabled, Apply, Execution, IdsInv, PromptInv, SpawnInv, FocusInv, RetryInv, DecidedInv, ConsentInv;
      MaySeeGrant(cfg, now, a);
      Happen(Label.SeeGrant(a));
      hide Near;
      StaysNear(cfg, old(now), now, run);
    }

    /** The deadline passed while the request was pending: it is written as expired, whatever it is by now. */
    method Expire(a: nat)
      requires Ready() && a in now.approvals
      modifies `now, `path, `labels
      ensures Ready() && labels == old(labels) + [Label.Expire(a)]
      ensures now == old(now).(approvals := RunModel.Expire(old(now).approvals, a))
      ensures old(Cleared()) <= Cleared()
    {
      hide Enabled, Apply, Execution, IdsInv, PromptInv, SpawnInv, FocusInv, RetryInv, DecidedInv, ConsentInv;
      MayExpire(cfg, now, a);
      Happen(Label.Expire(a));
      hide Near;
      StaysNear(cfg, old(now), now, run);
    }

    /** Asks a human about execution `k`, or waits again on the request that is still pending, and waits. */
    method RequestApproval(k: nat) returns (r: Result<Answer>)
      requires Fresh(k)
      modifies this
      ensures Ready() && old(labels) <= labels && Akin(old(run), run) && run.steps[k].agent == old(run).steps[k].agent
      ensures r.Err? ==> r.error.Io? && trouble
      ensures r.Err? || r.value.Cancelled? ==> run.status.Running? || run.status.AwaitingApproval?
      ensures r.Ok? && !r.value.Cancelled? ==> Fresh(k) && Synced()
      ensures r.Ok? && r.value.Granted? ==>
                && now.driver.Some? && r.value.approval in now.driver.value.granted
                && Belongs(now.approvals, r.value.approval, run.steps[k].id, run.steps[k].step)
      ensures old(Cleared()) <= Cleared()
      ensures r.Ok? && r.value.Granted? ==> DidIn(labels, |old(labels)|, SeeingGrant(r.value.approval))
      ensures run.steps[k].id == old(run).steps[k].id
      ensures r.Ok? && r.value.Granted? ==> UnderGrant(run.steps[k], r.value.approval)
      ensures now.log.prompts == old(now).log.prompts && now.log.effects == old(now).log.effects
      ensures r.Ok? && r.value.Cancelled? ==> StopAsked()
      ensures run.steps[k].approval == Some(RequestFor(old(run).steps[k], old(now)))
      ensures r.Ok? && !asked ==>
                var a := RequestFor(old(run).steps[k], old(now));
                a in now.approvals && AnswerOf(now.approvals[a].status, a) == Some(r.value)
      ensures r.Ok? && r.value.Denied? ==> Refused()
    {
      hide Valid, Near, SaveOk;
      var a: nat;
      if run.steps[k].approval.Some? && run.steps[k].approval.value in now.approvals
         && now.approvals[run.steps[k].approval.value].status == ApprovalStatus.Pending {
        a := run.steps[k].approval.value;
        RequestBelongs(k);
      } else {
        a := CreateRequest(k);
      }
      ghost var asked := |labels|;
      r := WaitFor(k, a);
      if r.Ok? && r.value.Granted? {
        DidSince(labels, asked, |old(labels)|, SeeingGrant(a));
      }
    }

    /** While a human decides, the execution (where its status allows) and the run await the approval. */
    method WaitFor(k: nat, a: nat) returns (r: Result<Answer>)
      requires Fresh(k) && Belongs(now.approvals, a, run.steps[k].id, run.steps[k].step)
      requires run.steps[k].approval == Some(a)
      modifies this
      ensures Ready() && old(labels) <= labels && Akin(old(run), run) && run.steps[k].agent == old(run).steps[k].agent
      ensures r.Err? ==> r.error.Io? && trouble
      ensures r.Err? || r.value.Cancelled? ==> run.status.Running? || run.status.AwaitingApproval?
      ensures r.Ok? && !r.value.Cancelled? ==> Fresh(k) && Synced()
      ensures r.Ok? && r.value.Granted? ==>
                && r.value.approval == a && now.driver.Some? && a in now.driver.value.granted
                && Belongs(now.approvals, a, run.steps[k].id, run.steps[k].step)
      ensures old(Cleared()) <= Cleared()
      ensures r.Ok? && r.value.Granted? ==> DidIn(labels, |old(labels)|, SeeingGrant(a))
      ensures run.steps[k].id == old(run).steps[k].id
      ensures r.Ok? && r.value.Granted? ==> UnderGrant(run.steps[k], a)
      ensures now.log.prompts == old(now).log.prompts && now.log.effects == old(now).log.effects
      ensures r.Ok? && r.value.Cancelled? ==> StopAsked()
      ensures run.steps[k].approval == Some(a)
      ensures r.Ok? && !asked ==> a in now.approvals && AnswerOf(now.approvals[a].status, a) == Some(r.value)
      ensures r.Ok? && r.value.Denied? ==> Refused()
    {
      hide Valid, Near, SaveOk;
      var _ :- StartWaiting(k);
      var before := run;
      ghost var asked := |labels|;
      r := AwaitDecision(a);
      assert run == before;
      ghost var told := labels;
      if r.Ok? && !r.value.Cancelled? {
        var _ :- StopWaiting(k, r.value.Granted?);
        if r.value.Granted? {
          DidSince(told, asked, |old(labels)|, SeeingGrant(a));
        }
      }
    }

    method StartWaiting(k: nat) returns (r: Result<()>)
      requires Fresh(k)
      modifies `run, `now, `path, `labels
      ensures r.Ok? && Waiting(k) && old(labels) <= labels && Akin(old(run), run)
              && run.steps[k].agent == old(run).steps[k].agent
      ensures run.steps[k].step == old(run).steps[k].step && run.steps[k].id == old(run).steps[k].id
      ensures now == old(now).(doc := now.doc, nextId := now.nextId)
      ensures old(Cleared()) <= Cleared()
      ensures run.steps[k].approval == old(run).steps[k].approval
      ensures run.steps[k].status.AwaitingApproval? || run.steps[k].status.AwaitingHuman?
    {
      hide Valid, Near, SaveOk;
      OpenFacts(k);
      if run.steps[k].status.CanTransitionTo(StepStatus.AwaitingApproval) {
        var _ :- SetExecStatus(k, StepStatus.AwaitingApproval);
      }
      var _ :- SetStatus(RunStatus.AwaitingApproval);
      return Ok(());
    }

    method StopWaiting(k: nat, granted: bool) returns (r: Result<()>)
      requires Waiting(k)
      modifies `run, `now, `path, `labels
      ensures r.Ok? && Fresh(k) && Synced() && old(labels) <= labels && Akin(old(run), run)
              && run.steps[k].agent == old(run).steps[k].agent
      ensures run.steps[k].step == old(run).steps[k].step && run.steps[k].id == old(run).steps[k].id
      ensures now == old(now).(doc := now.doc, nextId := now.nextId)
      ensures old(Cleared()) <= Cleared()
      ensures run.steps[k].approval == old(run).steps[k].approval
      ensures granted && (old(run).steps[k].status.AwaitingApproval? || old(run).steps[k].status.AwaitingHuman?) ==>
                run.steps[k].status.Running? || run.steps[k].status.AwaitingHuman?
    {
      hide Valid, Near, SaveOk;
      var _ :- SetStatus(RunStatus.Running);
      if run.steps[k].status.AwaitingApproval? && granted {
        var _ :- SetExecStatus(k, StepStatus.Running);
      }
      return Ok(());
    }

    lemma RequestBelongs(k: nat)
      requires Ready() && k < |run.steps| && run.steps[k].approval.Some?
      ensures Belongs(now.approvals, run.steps[k].approval.value, run.steps[k].id, run.steps[k].step)
    {
      hide Enabled, Apply, Execution, PromptInv, SpawnInv, FocusInv, RetryInv, DecidedInv, ConsentInv;
      assert ExecKept(cfg, now, now.doc.steps[k], run.steps[k]);
    }

    method CreateRequest(k: nat) returns (a: nat)
      requires Fresh(k)
      modifies `run, `now, `path, `labels
      ensures Fresh(k) && old(labels) <= labels
      ensures run == WithExec(old(run), k, old(run).steps[k].(approval := Some(a))).(approvals := run.approvals)
      ensures Belongs(now.approvals, a, run.steps[k].id, run.steps[k].step)
      ensures old(Cleared()) <= Cleared()
      ensures now.log.prompts == old(now).log.prompts && now.log.effects == old(now).log.effects
      ensures a == old(now).nextId
    {
      hide Enabled, Apply, Execution, PromptInv, SpawnInv, FocusInv, RetryInv, DecidedInv, ConsentInv;
      assert ExecKept(cfg, now, now.doc.steps[k], run.steps[k]);
      MayAsk(cfg, now, k);
      a := now.nextId;
      ghost var before := now;
      Happen(Label.Ask(k));
      assert Extends(before, now);
      StaysNear(cfg, before, now, run);
      RequestStaysNear(cfg, now, run, k, a);
      hide Near;
      run := WithExec(run, k, run.steps[k].(approval := Some(a))).(approvals := run.approvals + [a]);
    }

    /** Does the approval step before this one cover it, with HEAD where it was? */
    method CoverApplies() returns (applies: bool)
      requires Ready() && run.cursor < |cfg.workflow|
      modifies `now, `path, `labels
      ensures Ready() && old(labels) <= labels && Extends(old(now), now)
      ensures now.doc == old(now).doc && now.driver == old(now).driver && now.log.spent == old(now).log.spent
      ensures applies <==> CoveredAt(run.cover, cfg.workflow[run.cursor].id, now.head)
      ensures applies ==> run.cover.value in now.log.covers
      ensures OnlyOthers(labels, |old(labels)|)
      ensures old(Cleared()) <= Cleared()
      ensures now.log.prompts == old(now).log.prompts && now.log.effects == old(now).log.effects
      ensures now.head == old(now).head || HeadMoved(labels, |old(labels)|)
    {
      hide Enabled, Apply, Execution, PromptInv, SpawnInv, FocusInv, RetryInv, DecidedInv;
      Others();
      applies := CoveredAt(run.cover, cfg.workflow[run.cursor].id, now.head);
    }

    /** What policy asks a human about: covered already, granted now, or the step stops. */
    method Consent(k: nat, action: Action, coverable: bool) returns (r: Result<Ruling>)
      requires Fresh(k) && (coverable ==> !action.LaunchAgent?)
      modifies this
      ensures Ready() && old(labels) <= labels && Akin(old(run), run)
      ensures r.Err? ==> After(Err(r.error), old(run).cursor, old(run).retryCounts)
      ensures r.Ok? && r.value.Against? ==> After(Ok(r.value.outcome), old(run).cursor, old(run).retryCounts)
      ensures r.Ok? && r.value.For? ==>
                && Fresh(k) && (old(Synced()) ==> Synced()) && run.steps[k].agent == old(run).steps[k].agent
                && now.driver.Some?
                && GateOk(now, now.driver.value,
                          Gate(run.steps[k].id, run.steps[k].step, action,
                               Policy.Decision.RequireApproval, r.value.why))
      ensures r.Ok? && r.value.For? ==> old(Cleared()) <= Cleared()
      ensures r.Ok? && r.value.For? ==> r.value.why.ByGrant? || (coverable && r.value.why.ByCover?)
      ensures r.Ok? && r.value.Against? ==> (r.value.outcome.Failed? || r.value.outcome.Cancelled?) && Hindered()
      ensures r.Ok? && r.value.For? ==> run.steps[k].id == old(run).steps[k].id
      ensures r.Ok? && r.value.For? && r.value.why.ByGrant? ==> UnderGrant(run.steps[k], r.value.why.approval)
      ensures now.log.prompts == old(now).log.prompts && now.log.effects == old(now).log.effects
      ensures coverable && CoveredAt(old(run).cover, cfg.workflow[old(run).cursor].id, old(now).head) ==>
                r == Ok(For(ByCover(old(run).cover.value))) || HeadMoved(labels, |old(labels)|)
    {
      hide Valid, Near, SaveOk, Told;
      if coverable {
        var covered := CoverApplies();
        if covered {
          return Ok(For(ByCover(run.cover.value)));
        }
      }
      ghost var looked := labels;
      var asking := RequestApproval(k);
      if HeadMoved(looked, |old(labels)|) {
        MovedSince(looked, labels, |old(labels)|);
      }
      ghost var answered := labels;
      var answer :- asking;
      match answer {
        case Granted(a) =>
          return Ok(For(ByGrant(a)));
        case Denied =>
          var stop :- EndStep(k, Outcome.Failed);
          if HeadMoved(answered, |old(labels)|) {
            MovedSince(answered, labels, |old(labels)|);
          }
          return Ok(Against(stop));
        case Cancelled =>
          return Ok(Against(Outcome.Cancelled));
      }
    }

    /** Policy judges an action; the gate opens, or the step stops here. */
    method Judge(k: nat, action: Action, coverable: bool) returns (r: Result<Passage>)
      requires Fresh(k) && (coverable ==> !action.LaunchAgent?)
      modifies this
      ensures Ready() && old(labels) <= labels && Akin(old(run), run)
      ensures r.Err? ==> After(Err(r.error), old(run).cursor, old(run).retryCounts)
      ensures r.Ok? && r.value.Shut? ==> After(Ok(r.value.outcome), old(run).cursor, old(run).retryCounts)
      ensures r.Ok? && r.value.Open? ==>
                && Fresh(k) && (old(Synced()) ==> Synced()) && run.steps[k].agent == old(run).steps[k].agent
                && now.driver.Some? && r.value.gate in now.driver.value.gates
                && r.value.gate.exec == run.steps[k].id && r.value.gate.step == run.steps[k].step
                && r.value.gate.action == action
      ensures r.Ok? && r.value.Open? ==> old(Cleared()) <= Cleared()
      ensures r.Ok? && r.value.Open? && r.value.gate.why.ByGrant? ==>
                && r.value.gate.why.approval in now.driver.value.granted
                && Belongs(now.approvals, r.value.gate.why.approval, run.steps[k].id, run.steps[k].step)
      ensures var verdict := judge(action, old(run).steps[k].id);
              && (verdict.Deny? ==> r == Ok(Shut(Outcome.Blocked)))
              && (verdict.Allow? ==> r.Ok? && r.value.Open? && r.value.gate.why.Permitted?)
              && (verdict.RequireApproval? && r.Ok? && r.value.Open? ==>
                    r.value.gate.why.ByGrant? || (coverable && r.value.gate.why.ByCover?))
              && (verdict.RequireApproval? && r.Ok? && r.value.Shut? ==>
                    r.value.outcome.Failed? || r.value.outcome.Cancelled?)
              && (r.Ok? && r.value.Open? ==> r.value.gate.verdict == verdict)
      ensures r.Ok? && r.value.Shut? ==> !Lets(action)
      ensures r.Ok? && r.value.Open? && r.value.gate.why.ByGrant? ==>
              UnderGrant(run.steps[k], r.value.gate.why.approval)
      ensures r.Ok? && r.value.Open? ==>
                |labels| > |old(labels)| && labels[|labels| - 1] == Label.PassGate(k, r.value.gate)
      ensures now.log.prompts == old(now).log.prompts && now.log.effects == old(now).log.effects
    {
      hide Valid, Near, SaveOk, At, InStep, Fresh, After, Synced;
      var verdict := judge(action, run.steps[k].id);
      var why := Permitted;
      if verdict.Deny? {
        var stop :- EndStep(k, Outcome.Blocked);
        return Ok(Shut(stop));
      }
      if verdict.RequireApproval? {
        var ruling :- Consent(k, action, coverable);
        if ruling.Against? {
          return Ok(Shut(ruling.outcome));
        }
        why := ruling.why;
      }
      var gate := Gate(run.steps[k].id, run.steps[k].step, action, verdict, why);
      PassGate(k, gate);
      return Ok(Open(gate));
    }

    method PassGate(k: nat, gate: Gate)
      requires Fresh(k) && gate.exec == run.steps[k].id && gate.step == run.steps[k].step
      requires now.driver.Some? && GateOk(now, now.driver.value, gate)
      requires gate.verdict == judge(gate.action, gate.exec)
      modifies `now, `path, `labels
      ensures Fresh(k) && labels == old(labels) + [Label.PassGate(k, gate)]
      ensures now.driver.Some? && gate in now.driver.value.gates
      ensures old(Synced()) ==> Synced()
      ensures old(Cleared()) <= Cleared()
      ensures now.driver.value.granted == old(now).driver.value.granted && now.approvals == old(now).approvals
      ensures now.log.prompts == old(now).log.prompts && now.log.effects == old(now).log.effects
    {
      hide Enabled, Apply, Execution, PromptInv, SpawnInv, FocusInv, RetryInv, DecidedInv, ConsentInv, GateOk;
      assert ExecKept(cfg, now, now.doc.steps[k], run.steps[k]);
      MayPassGate(cfg, now, k, gate);
      Happen(Label.PassGate(k, gate));
      hide Near;
      StaysNear(cfg, old(now), now, run);
    }

    /** A gate that needs a human for reasons of its own: the budget, test-only retries, changed paths. */
    method AskHuman(k: nat, onDenied: Outcome) returns (r: Result<Option<Outcome>>)
      requires Fresh(k) && (onDenied.Failed? || onDenied.Blocked?)
      modifies this
      ensures Ready() && old(labels) <= labels
      ensures Akin(old(run), run)
      ensures r.Err? ==> After(Err(r.error), old(run).cursor, old(run).retryCounts)
      ensures r.Ok? && r.value.Some? ==> After(Ok(r.value.value), old(run).cursor, old(run).retryCounts)
      ensures r.Ok? && r.value.None? ==> Fresh(k)
      ensures r.Ok? && r.value.Some? ==> (r.value.value == onDenied || r.value.value.Cancelled?) && Hindered()
      ensures r == Ok(None) ==> GrantSeen(|old(labels)|)
      ensures now.log.prompts == old(now).log.prompts && now.log.effects == old(now).log.effects
    {
      hide Valid, Near;
      var answer :- RequestApproval(k);
      match answer {
        case Granted(a) =>
          GrantWasSeen(|old(labels)|, a);
          return Ok(None);
        case Denied =>
          var stop :- EndStep(k, onDenied);
          return Ok(Some(stop));
        case Cancelled =>
          return Ok(Some(Outcome.Cancelled));
      }
    }

    // --------------------------------------------------------------- agent --

    /** An event from the agent's runner, other than the announcement of the prompt. */
    method OnAgentEvent(k: nat, ev: AgentEvent) returns (r: Result<()>)
      requires Fresh(k) && !ev.PromptSending?
      requires ev.Started? ==> ev.prompted == run.steps[k].Prompted()
      modifies `run, `now, `path, `labels
      ensures r.Ok? && Fresh(k) && old(labels) <= labels && (ev.Started? || old(Synced()) ==> Synced())
      ensures run == WithExec(old(run), k, old(run).steps[k].(
                status := StatusAfter(old(run).steps[k].status, ev),
                agent := if ev.Started? then Some(Binding(ev.prompted)) else old(run).steps[k].agent))
      ensures now.log.prompts == old(now).log.prompts && now.log.effects == old(now).log.effects
    {
      hide Valid, Near, SaveOk, After, GateOk;
      match ev {
        case Started(_) =>
          r := OnStarted(k);
        case Blocked =>
          if run.steps[k].status.Running? {
            var _ :- SetExecStatus(k, StepStatus.AwaitingHuman);
          }
        case Stuck =>
          if run.steps[k].status.Running? {
            var _ :- SetExecStatus(k, StepStatus.AwaitingHuman);
          } else {
            SaveAs(run);
          }
        case Unblocked =>
          if run.steps[k].status.AwaitingHuman? {
            var _ :- SetExecStatus(k, StepStatus.Running);
          }
        case Progressing =>
          if run.steps[k].status.AwaitingHuman? {
            var _ :- SetExecStatus(k, StepStatus.Running);
          } else {
            SaveAs(run);
          }
        case PromptSent =>
      }
      return Ok(());
    }

    method OnStarted(k: nat) returns (r: Result<()>)
      requires Fresh(k)
      modifies `run, `now, `path, `labels
      ensures r.Ok? && Fresh(k) && Synced() && old(labels) <= labels
      ensures var was := old(run).steps[k];
              run == WithExec(old(run), k, was.(
                status := StatusAfter(was.status, Started(was.Prompted())),
                agent := Some(Binding(was.Prompted()))))
      ensures now.log.prompts == old(now).log.prompts && now.log.effects == old(now).log.effects
    {
      hide Valid, Near, SaveOk, After, GateOk;
      BindingStaysNear(cfg, now, run, k);
      run := WithExec(run, k, run.steps[k].(agent := Some(Binding(run.steps[k].Prompted()))));
      if run.steps[k].status.Starting? {
        var _ :- SetExecStatus(k, StepStatus.Running);
      } else {
        SaveAs(run);
      }
      return Ok(());
    }

    /** Write-ahead: the document says that the prompt was sent before it is. */
    method AnnouncePrompt(k: nat)
      requires Fresh(k) && Synced() && run.steps[k].agent.Some? && !run.steps[k].Prompted()
      modifies `run, `now, `path, `labels
      ensures Valid() && now.driver.Some? && now.driver.value.phase == SendDue(k)
      ensures run == now.doc && run == WithExec(old(run), k, old(run).steps[k].(agent := Some(Binding(true))))
      ensures labels == old(labels) + [Label.AnnouncePrompt(k)]
      ensures now.log == old(now).log
    {
      hide Enabled, Apply, Execution, IdsInv, PromptInv, SpawnInv, FocusInv, RetryInv, DecidedInv, ConsentInv;
      MayAnnouncePrompt(cfg, now, k);
      run := WithExec(run, k, run.steps[k].(agent := Some(Binding(true))));
      Happen(Label.AnnouncePrompt(k));
    }

    /** The prompt goes out, or cannot be sent. */
    method SendPrompt(k: nat, sent: bool)
      requires Valid() && run == now.doc && now.driver.Some? && now.driver.value.phase == SendDue(k) && k < |run.steps|
      modifies `run, `now, `path, `labels
      ensures Synced() && run == old(run)
      ensures labels == old(labels) + [if sent then Label.SendPrompt else Label.DropPrompt]
      ensures now.log.spent == old(now).log.spent
    {
      hide Enabled, Apply, Execution, PromptInv, SpawnInv, FocusInv, RetryInv, DecidedInv, ConsentInv;
      MaySendPrompt(cfg, now, k);
      Happen(if sent then Label.SendPrompt else Label.DropPrompt);
      DocIsNear(cfg, now);
    }

    /** Any number of reports from the agent, while the rest of the world goes on. */
    method Chatter(k: nat)
      requires Fresh(k) && Synced() && run.steps[k].agent.Some?
      modifies `run, `now, `path, `labels
      ensures Fresh(k) && Synced() && old(labels) <= labels && SameButExecs(old(run), run)
      ensures run.steps[k].agent.Some? && run.steps[k].Prompted() == old(run).steps[k].Prompted()
      ensures now.log.prompts == old(now).log.prompts && now.log.effects == old(now).log.effects
    {
      hide Valid, Near, SaveOk, After, GateOk;
      var n: nat :| true;
      for i := 0 to n
        invariant Fresh(k) && Synced() && old(labels) <= labels && SameButExecs(old(run), run)
        invariant run.steps[k].agent.Some? && run.steps[k].Prompted() == old(run).steps[k].Prompted()
        invariant now.log.prompts == old(now).log.prompts && now.log.effects == old(now).log.effects
      {
        Others();
        var ev: AgentEvent :| true;
        if !ev.PromptSending? && (ev.Started? ==> ev.prompted == run.steps[k].Prompted()) {
          var _ := OnAgentEvent(k, ev);
        }
      }
    }

    /** The runner launches or reattaches to the agent, prompts it if that is still to do, and waits for its end. */
    method RunAgent(k: nat, gate: Gate, reattach: bool, breakdown: Breakdown, end: AgentEnd)
      returns (r: Result<AgentEnd>)
      requires Fresh(k) && now.driver.Some? && gate in now.driver.value.gates && gate.action.LaunchAgent?
      requires reattach == run.steps[k].Prompted()
      modifies `run, `now, `path, `labels, `asked
      ensures Fresh(k) && old(labels) <= labels && SameButExecs(old(run), run)
      ensures r == if Breaks(breakdown, reattach) then Err(Io) else Ok(end)
      ensures r == Ok(AgentEnd.Cancelled) ==> asked
      ensures r.Ok? ==> reattach || DidIn(labels, |old(labels)|, Prompting)
      ensures reattach ==> now.log.prompts == old(now).log.prompts && now.log.effects == old(now).log.effects
    {
      hide Valid, Near, SaveOk, Fresh, InStep, At, DidIn;
      if reattach {
        var _ := OnAgentEvent(k, Started(true));
      } else {
        var _ :- LaunchAndPrompt(k, gate, breakdown);
      }
      ghost var past := labels;
      Chatter(k);
      if !reattach {
        DidSince(past, |old(labels)|, |old(labels)|, Prompting);
      }
      if breakdown.Afterwards? {
        return Err(Io);
      }
      asked := asked || end.Cancelled?; // a runner stops its agent only when asked to
      return Ok(end);
    }

    method LaunchAndPrompt(k: nat, gate: Gate, breakdown: Breakdown) returns (r: Result<()>)
      requires Fresh(k) && now.driver.Some? && gate in now.driver.value.gates && gate.action.LaunchAgent?
      requires !run.steps[k].Prompted()
      modifies `run, `now, `path, `labels
      ensures Fresh(k) && old(labels) <= labels && SameButExecs(old(run), run)
      ensures r == if breakdown.Never? || breakdown.Afterwards? then Ok(()) else Err(Io)
      ensures r.Ok? ==> Synced() && run.steps[k].agent.Some? && DidIn(labels, |old(labels)|, Prompting)
    {
      hide Valid, Near, SaveOk, DidIn;
      Launch(k, gate);
      if breakdown.AtLaunch? {
        return Err(Io);
      }
      var _ := OnAgentEvent(k, Started(false));
      Chatter(k);
      if breakdown.BeforePrompt? {
        return Err(Io);
      }
      AnnouncePrompt(k);
      SendPrompt(k, !breakdown.AtPrompt?);
      if breakdown.AtPrompt? {
        return Err(Io);
      }
      JustDid(labels, |old(labels)|, Prompting);
      ghost var past := labels;
      var _ := OnAgentEvent(k, PromptSent);
      DidSince(past, |old(labels)|, |old(labels)|, Prompting);
      return Ok(());
    }

    /** A side effect the gate cleared. */
    method Launch(k: nat, gate: Gate)
      requires Fresh(k) && now.driver.Some? && gate in now.driver.value.gates
      requires gate.action.RunCommand? ==> SpecOf(cfg.workflow, gate.step) != Some(StepSpec.Command)
      modifies `now, `path, `labels
      ensures Fresh(k) && labels == old(labels) + [Label.Act(gate)]
      ensures now.log == old(now).log.(effects := old(now).log.effects + [gate])
      ensures old(Synced()) ==> Synced()
      ensures Cleared() == old(Cleared()) - {gate}
    {
      hide Enabled, Apply, Execution, IdsInv, PromptInv, SpawnInv, FocusInv, RetryInv, DecidedInv, ConsentInv;
      MayAct(cfg, now, gate);
      Happen(Label.Act(gate));
      hide Near;
      StaysNear(cfg, old(now), now, run);
    }

    /** The driver has seen a grant since. */
    ghost predicate GrantSeen(since: nat)
      reads `labels
    {
      GrantIn(labels, since)
    }

    /** Policy on what changed: a denial blocks, and a human is asked about what was not accepted as it is now. */
    method DiffPolicyGate(k: nat, diff: DiffGate.Diff, accepted: DiffGate.Accepted, content: string -> string)
      returns (r: Result<Option<Outcome>>, remembered: DiffGate.Accepted)
      requires Fresh(k)
      modifies this
      ensures Ready() && old(labels) <= labels && Akin(old(run), run)
      ensures r.Err? ==> After(Err(r.error), old(run).cursor, old(run).retryCounts)
      ensures r.Ok? && r.value.Some? ==> After(Ok(r.value.value), old(run).cursor, old(run).retryCounts)
      ensures r.Ok? && r.value.None? ==> Fresh(k)
      ensures r.Ok? && r.value.Some? ==> Halts(r.value.value)
      ensures r.Ok? && DiffGate.Denials(diff) != [] ==> r.value == Some(Outcome.Blocked)
      ensures r == Ok(None) && DiffGate.Questions(diff, accepted) != [] ==> GrantSeen(|old(labels)|)
      ensures r.Ok? && DiffGate.Denials(diff) == [] ==>
                || r.value == None
                || (DiffGate.Questions(diff, accepted) != [] && Hindered()
                    && (r.value.value.Failed? || r.value.value.Cancelled?))
      ensures now.log.prompts == old(now).log.prompts && now.log.effects == old(now).log.effects
      ensures var asked := DiffGate.Questions(diff, accepted);
              remembered == if r == Ok(None) && asked != []
                            then DiffGate.Remembered(accepted, diff.files, asked, content) else accepted
    {
      hide Valid, Near, SaveOk, At, InStep, Fresh, After, Synced, DidIn;
      remembered := accepted;
      var io := TryIo(k);
      if io.Err? {
        return Err(io.error), accepted;
      }
      var denials, questions := DiffGate.Examine(diff, accepted);
      if denials != [] {
        var stop :- EndStep(k, Outcome.Blocked);
        return Ok(Some(stop)), accepted;
      }
      if questions == [] {
        return Ok(None), accepted;
      }
      r := AskHuman(k, Outcome.Failed);
      if r == Ok(None) {
        remembered := DiffGate.Remember(accepted, diff.files, questions, content);
        ghost var granted := labels;
        Save(k);
        GrantSince(granted, |old(labels)|, |old(labels)|);
      }
    }

    /** Commits what changed, unless policy denies it; there may be nothing to commit. */
    method CommitChanges(k: nat, verdict: Option<Policy.Decision>) returns (r: Result<Option<Outcome>>)
      requires Fresh(k)
      modifies `run, `now, `path, `labels, `trouble
      ensures Ready() && old(labels) <= labels && Akin(old(run), run)
      ensures r.Err? ==> After(Err(r.error), old(run).cursor, old(run).retryCounts)
      ensures r.Ok? && r.value.Some? ==> After(Ok(r.value.value), old(run).cursor, old(run).retryCounts)
      ensures r.Ok? && r.value.None? ==> Fresh(k)
      ensures r.Ok? && r.value.None? ==> old(Cleared()) <= Cleared()
      ensures r.Ok? ==> r.value == if verdict == Some(Policy.Decision.Deny) then Some(Outcome.Blocked) else None
      ensures r == Ok(None) && verdict.Some? ==> Commits(labels, |old(labels)|)
      ensures verdict.None? || verdict == Some(Policy.Decision.Deny) ==> Uncommitted(labels, |old(labels)|)
      ensures now.log.prompts == old(now).log.prompts && now.log.effects == old(now).log.effects
    {
      hide Valid, Near, SaveOk, At, InStep, Fresh, After, Synced;
      var _ :- TryIo(k);
      match verdict {
        case None =>
          return Ok(None);
        case Some(Deny) =>
          var stop :- EndStep(k, Outcome.Blocked);
          return Ok(Some(stop));
        case Some(_) =>
          Commit(k);
          assert labels[|old(labels)|].Commit?;
          Save(k);
          return Ok(None);
      }
    }

    /** The worktree's changes become the new HEAD. */
    method Commit(k: nat)
      requires Fresh(k)
      modifies `now, `path, `labels
      ensures Fresh(k) && labels == old(labels) + [Label.Commit(now.head)]
      ensures now == old(now).(head := now.head) && old(Cleared()) <= Cleared()
    {
      hide Enabled, Apply, Execution, IdsInv, PromptInv, SpawnInv, FocusInv, RetryInv, DecidedInv, ConsentInv;
      var head: Option<nat> :| true;
      MayCommit(cfg, now, head);
      Happen(Label.Commit(head));
      hide Near;
      StaysNear(cfg, old(now), now, run);
    }

    lemma StepSpecOf()
      requires Valid() && run.cursor < |cfg.workflow|
      ensures SpecOf(cfg.workflow, cfg.workflow[run.cursor].id) == Some(cfg.workflow[run.cursor].spec)
    {
      IndexOfAt(cfg.workflow, run.cursor);
    }

    /** The contract's check must fail before it is locked; it runs like any command, through policy. */
    method LockContract(k: nat, probed: Probed) returns (r: Result<Lock>)
      requires Fresh(k) && cfg.workflow[run.cursor].spec.Agent?
      modifies this
      ensures Ready() && old(labels) <= labels && Akin(old(run), run)
      ensures r.Err? ==> After(Err(r.error), old(run).cursor, old(run).retryCounts)
      ensures r.Ok? && r.value.Halted? ==> After(Ok(r.value.outcome), old(run).cursor, old(run).retryCounts)
      ensures r.Ok? && !r.value.Halted? ==> Fresh(k)
      ensures r.Ok? && r.value.Halted? ==> Halts(r.value.outcome)
      ensures r == Ok(Locked) ==> probed.Red?
      ensures r == Ok(Retry) ==> probed.NoCheck? || probed.Green?
      ensures r.Ok? && (probed.NoCheck? || Lets(RunCommand)) ==>
                match probed
                case NoCheck => r.value == Retry
                case Green => r.value == Retry
                case Red => r.value == Locked
                case ProbeStopped => r.value == Halted(Outcome.Cancelled)
      ensures now.log.prompts == old(now).log.prompts && OnlyMore(old(now).log.effects, now.log.effects, RunCommand)
    {
      hide Valid, Near, SaveOk, At, InStep, Fresh, After, Synced, Told, UnderGrant, Belongs, DidIn, SpecOf;
      if probed.NoCheck? {
        return Ok(Retry);
      }
      var passage :- Judge(k, RunCommand, false);
      if passage.Shut? {
        return Ok(Halted(passage.outcome));
      }
      r := ProbeContract(k, passage.gate, probed);
    }

    /** The check has been let through, and shows what it shows. */
    method ProbeContract(k: nat, gate: Gate, probed: Probed) returns (r: Result<Lock>)
      requires Fresh(k) && cfg.workflow[run.cursor].spec.Agent? && !probed.NoCheck?
      requires gate in Cleared() && gate.exec == run.steps[k].id && gate.step == run.steps[k].step
      requires gate.action.RunCommand?
      modifies this
      ensures Ready() && old(labels) <= labels && Akin(old(run), run)
      ensures r.Err? ==> After(Err(r.error), old(run).cursor, old(run).retryCounts)
      ensures r.Ok? ==>
                match probed
                case Red => r.value == Locked
                case ProbeStopped => r.value == Halted(Outcome.Cancelled)
                case _ => r.value == Retry
      ensures r.Ok? && r.value.Halted? ==> After(Ok(r.value.outcome), old(run).cursor, old(run).retryCounts)
      ensures r.Ok? && !r.value.Halted? ==> Fresh(k)
      ensures now.log.prompts == old(now).log.prompts && OnlyMore(old(now).log.effects, now.log.effects, RunCommand)
    {
      hide Valid, Near, SaveOk, At, InStep, Fresh, After, Synced, Told, UnderGrant, Belongs, DidIn, SpecOf;
      StepSpecOf();
      Launch(k, gate);
      var _ :- TryIo(k);
      if probed.ProbeStopped? {
        asked := true; // a command is stopped only when asked to
        MayBeCancelled(k);
        return Ok(Halted(Outcome.Cancelled));
      }
      if probed.Green? {
        return Ok(Retry);
      }
      Save(k);
      return Ok(Locked);
    }

    /** Budget, and what the agent left behind. */
    method OutputGates(k: nat, f: Findings) returns (r: Result<Option<Outcome>>)
      requires Fresh(k)
      modifies this
      ensures Ready() && old(labels) <= labels && Akin(old(run), run)
      ensures r.Err? ==> After(Err(r.error), old(run).cursor, old(run).retryCounts)
      ensures r.Ok? && r.value.Some? ==> After(Ok(r.value.value), old(run).cursor, old(run).retryCounts)
      ensures r.Ok? && r.value.None? ==> Fresh(k)
      ensures r.Ok? && r.value.Some? ==> Halts(r.value.value)
      ensures r == Ok(None) ==> !f.wroteReadOnly && !f.nothingDone && (f.overBudget ==> GrantSeen(|old(labels)|))
      ensures r.Ok? ==>
                || r.value == (if f.wroteReadOnly then Some(Outcome.Blocked)
                               else if f.nothingDone then Some(Outcome.Failed) else None)
                || (f.overBudget && Hindered() && r.value.Some? && (r.value.value.Blocked? || r.value.value.Cancelled?))
      ensures now.log.prompts == old(now).log.prompts && now.log.effects == old(now).log.effects
    {
      hide Valid, Near, SaveOk, At, InStep, Fresh, After, Synced, DidIn;
      if f.overBudget {
        var stop :- AskHuman(k, Outcome.Blocked);
        if stop.Some? {
          return Ok(stop);
        }
      }
      var _ :- TryIo(k);
      if f.wroteReadOnly {
        var stop :- EndStep(k, Outcome.Blocked);
        return Ok(Some(stop));
      }
      if f.nothingDone {
        var stop :- EndStep(k, Outcome.Failed);
        return Ok(Some(stop));
      }
      return Ok(None);
    }

    /** Policy on the changes, the guard against test-only retries, and the commit. */
    method ChangeGates(k: nat, f: Findings) returns (r: Result<Option<Outcome>>)
      requires Fresh(k)
      modifies this
      ensures Ready() && old(labels) <= labels && Akin(old(run), run)
      ensures r.Err? ==> After(Err(r.error), old(run).cursor, old(run).retryCounts)
      ensures r.Ok? && r.value.Some? ==> After(Ok(r.value.value), old(run).cursor, old(run).retryCounts)
      ensures r.Ok? && r.value.None? ==> Fresh(k)
      ensures r.Ok? && r.value.Some? ==> Halts(r.value.value)
      ensures r == Ok(None) ==>
                && (f.policyCheck ==> DiffGate.Denials(f.diff) == []) && f.commit != Some(Policy.Decision.Deny)
                && (Asks(f) && !f.overBudget ==> GrantSeen(|old(labels)|))
      ensures r.Ok? ==>
                || r.value == (if (f.policyCheck && DiffGate.Denials(f.diff) != [])
                                  || f.commit == Some(Policy.Decision.Deny)
                               then Some(Outcome.Blocked) else None)
                || (Asks(f) && Hindered() && r.value.Some? && (r.value.value.Failed? || r.value.value.Cancelled?))
      ensures now.log.prompts == old(now).log.prompts && now.log.effects == old(now).log.effects
    {
      hide Valid, Near, SaveOk, At, InStep, Fresh, After, Synced, DidIn, GrantIn;
      ghost var asking := false;
      if f.policyCheck {
        var found, _ := DiffPolicyGate(k, f.diff, f.accepted, f.content);
        var stop :- found;
        if stop.Some? {
          return Ok(stop);
        }
        asking := DiffGate.Questions(f.diff, f.accepted) != [];
      }
      ghost var checked := labels;
      if f.testsOnly {
        var stop :- AskHuman(k, Outcome.Failed);
        if stop.Some? {
          return Ok(stop);
        }
        GrantSince(labels, |checked|, |old(labels)|);
      } else if asking {
        GrantSince(checked, |old(labels)|, |old(labels)|);
      }
      ghost var settled := labels;
      var stop :- CommitChanges(k, f.commit);
      if f.testsOnly || asking {
        GrantSince(settled, |old(labels)|, |old(labels)|);
      }
      return Ok(stop);
    }

    /** What an agent left behind decides its step: no gate is left out, and none is made up. */
    method AfterAgent(k: nat, f: Findings) returns (r: Result<Outcome>)
      requires Fresh(k) && cfg.workflow[run.cursor].spec.Agent?
      modifies this
      ensures After(r, old(run).cursor, old(run).retryCounts) && |run.steps| == |old(run).steps|
              && old(labels) <= labels
      ensures r == Ok(Outcome.Succeeded) ==>
                AgentVerdict(f).Succeeded? && (Asks(f) ==> GrantSeen(|old(labels)|))
      ensures r.Ok? && (Asks(f) ==> !Hindered()) && (f.contract.Some? ==> Lets(RunCommand)) ==>
                r.value == AgentVerdict(f)
      ensures now.log.prompts == old(now).log.prompts && OnlyMore(old(now).log.effects, now.log.effects, RunCommand)
    {
      hide Valid, Near, SaveOk, At, InStep, Fresh, After, Synced, DidIn, GrantIn;
      var stop :- OutputGates(k, f);
      if stop.Some? {
        return Ok(stop.value);
      }
      ghost var first := labels;
      stop :- ChangeGates(k, f);
      if stop.Some? {
        return Ok(stop.value);
      }
      ghost var second := labels;
      var gateFailed := f.gateFailed;
      if !gateFailed && f.contract.Some? {
        var lock :- LockContract(k, f.contract.value);
        if lock.Halted? {
          return Ok(lock.outcome);
        }
        gateFailed := lock.Retry?;
      }
      r := EndStep(k, if gateFailed then Outcome.Failed else Outcome.Succeeded);
      if f.overBudget {
        GrantSince(first, |old(labels)|, |old(labels)|);
      } else if Asks(f) {
        GrantSince(second, |first|, |old(labels)|);
      }
    }

    /**
     * An agent's step. An execution that is still open is resumed, and one that was prompted is only
     * reattached to: no new execution, no launch and no prompt.
     */
    method AgentStep(dryRun: bool, w: AgentWorld) returns (r: Result<Outcome>)
      requires AtStep() && cfg.workflow[run.cursor].spec.Agent?
      modifies this
      ensures After(r, old(run).cursor, old(run).retryCounts) && |run.steps| <= |old(run).steps| + 1
      ensures old(labels) <= labels
      ensures r == Ok(Outcome.Succeeded) && !dryRun ==>
                DidIn(labels, |old(labels)|, Prompting) || WasPrompted(old(run).steps, cfg.workflow[old(run).cursor].id)
      ensures WasPrompted(old(run).steps, cfg.workflow[old(run).cursor].id) ==>
                && |run.steps| == |old(run).steps| && now.log.prompts == old(now).log.prompts
                && OnlyMore(old(now).log.effects, now.log.effects, RunCommand)
      ensures r.Ok? && !w.builds ==> r == Ok(Outcome.Failed) && run.steps == old(run).steps
      ensures r == Ok(Outcome.Succeeded) && !dryRun ==>
                && w.builds && !w.skillMissing && w.slot && w.end.Completed?
                && AgentVerdict(w.found).Succeeded? && (Asks(w.found) ==> GrantSeen(|old(labels)|))
      ensures r.Ok? && !dryRun && w.builds && !w.tooMany && !w.skillMissing && w.slot && w.breakdown.Never?
              && Lets(LaunchAgent) && (Asks(w.found) ==> !Hindered())
              && (w.found.contract.Some? ==> Lets(RunCommand)) ==>
                r.value == AgentEnded(w)
      ensures r.Ok? && w.builds && dryRun && !w.tooMany && Lets(LaunchAgent) ==> r.value.Succeeded?
      ensures r.Ok? && w.builds && !dryRun && !w.tooMany && Lets(LaunchAgent) ==>
                && (w.skillMissing ==> r.value.Failed?) && (!w.skillMissing && !w.slot ==> r.value.Cancelled?)
                && (!w.skillMissing && w.slot && w.breakdown.Never? && !w.end.Completed? ==> r.value == AgentEnded(w))
      ensures dryRun ==> now.log.prompts == old(now).log.prompts && now.log.effects == old(now).log.effects
    {
      hide Valid, Near, SaveOk, AtStep, At, InStep, Fresh, After, Synced, DidIn, Halts, Asks, AgentVerdict;
      hide GrantIn;
      if !w.builds {
        NothingYet();
        return Ok(Outcome.Failed);
      }
      var io := TryAnything();
      if io.Err? {
        NothingYet();
        return Err(io.error);
      }
      var k, resumed := OpenExec();
      ResumesLatest(k);
      ghost var ready := labels;
      r := AgentExec(k, resumed && run.steps[k].Prompted(), dryRun, w);
      if r == Ok(Outcome.Succeeded) && !dryRun {
        DeedsSince(labels, |ready|, |old(labels)|);
      }
    }

    /** An agent's step from its execution on. */
    method AgentExec(k: nat, reattach: bool, dryRun: bool, w: AgentWorld) returns (r: Result<Outcome>)
      requires Fresh(k) && Synced() && cfg.workflow[run.cursor].spec.Agent? && reattach == run.steps[k].Prompted()
      modifies this
      ensures After(r, old(run).cursor, old(run).retryCounts) && |run.steps| == |old(run).steps|
      ensures old(labels) <= labels
      ensures r == Ok(Outcome.Succeeded) && !dryRun ==> reattach || DidIn(labels, |old(labels)|, Prompting)
      ensures reattach ==>
                now.log.prompts == old(now).log.prompts && OnlyMore(old(now).log.effects, now.log.effects, RunCommand)
      ensures r == Ok(Outcome.Succeeded) && !dryRun ==>
                && !w.skillMissing && w.slot && w.end.Completed?
                && AgentVerdict(w.found).Succeeded? && (Asks(w.found) ==> GrantSeen(|old(labels)|))
      ensures r.Ok? && !dryRun && !w.tooMany && !w.skillMissing && w.slot && w.breakdown.Never?
              && Lets(LaunchAgent) && (Asks(w.found) ==> !Hindered())
              && (w.found.contract.Some? ==> Lets(RunCommand)) ==>
                r.value == AgentEnded(w)
      ensures r.Ok? && w.tooMany && old(run).steps[k].agent.None? && Lets(LaunchAgent) ==> r.value.Failed?
      ensures r.Ok? && dryRun && !w.tooMany && Lets(LaunchAgent) ==> r.value.Succeeded?
      ensures r.Ok? && !dryRun && !w.tooMany && Lets(LaunchAgent) ==>
                && (w.skillMissing ==> r.value.Failed?) && (!w.skillMissing && !w.slot ==> r.value.Cancelled?)
                && (!w.skillMissing && w.slot && Breaks(w.breakdown, reattach) ==> r.value.Failed?)
                && (!w.skillMissing && w.slot && !Breaks(w.breakdown, reattach) && !w.end.Completed? ==>
                      r.value == AgentEnded(w))
      ensures dryRun ==> now.log.prompts == old(now).log.prompts && now.log.effects == old(now).log.effects
    {
      hide Valid, Near, SaveOk, AtStep, At, InStep, Fresh, After, Synced, DidIn, Halts, Asks, AgentVerdict;
      hide GrantIn;
      var passage :- Judge(k, LaunchAgent, false);
      if passage.Shut? {
        return Ok(passage.outcome);
      }
      if w.tooMany && run.steps[k].agent.None? {
        r := EndStep(k, Outcome.Failed);
        return;
      }
      if dryRun {
        r := EndStep(k, Outcome.Succeeded);
        return;
      }
      ghost var ready := labels;
      r := PromptAgent(k, passage.gate, reattach, w);
      if r == Ok(Outcome.Succeeded) {
        DeedsSince(labels, |ready|, |old(labels)|);
      }
    }

    /** What was done, or granted, later was done or granted since. */
    lemma DeedsSince(past: seq<Label>, later: nat, from: nat)
      requires from <= later && past <= labels
      ensures DidIn(past, later, Prompting) ==> DidIn(labels, from, Prompting)
      ensures GrantIn(past, later) ==> GrantSeen(from)
    {
      if DidIn(past, later, Prompting) {
        DidSince(past, later, from, Prompting);
      }
      if GrantIn(past, later) {
        GrantSince(past, later, from);
      }
    }

    lemma ResumesLatest(k: nat)
      requires Fresh(k)
      ensures run.steps[k].Prompted() ==> WasPrompted(run.steps, cfg.workflow[run.cursor].id)
    {
      LatestIs(run.steps, k);
    }

    lemma NothingYet()
      requires AtStep() && !cfg.workflow[run.cursor].spec.Command?
      ensures After(Ok(Outcome.Failed), run.cursor, run.retryCounts)
      ensures trouble ==> After(Err(Io), run.cursor, run.retryCounts)
    {
      hide Valid, Near, SaveOk;
    }

    method PromptAgent(k: nat, gate: Gate, reattach: bool, w: AgentWorld) returns (r: Result<Outcome>)
      requires Fresh(k) && Synced() && cfg.workflow[run.cursor].spec.Agent?
      requires now.driver.Some? && gate in now.driver.value.gates && gate.action.LaunchAgent?
      requires reattach == run.steps[k].Prompted()
      modifies this
      ensures After(r, old(run).cursor, old(run).retryCounts) && |run.steps| == |old(run).steps|
              && old(labels) <= labels
      ensures r == Ok(Outcome.Succeeded) ==> reattach || DidIn(labels, |old(labels)|, Prompting)
      ensures reattach ==>
                now.log.prompts == old(now).log.prompts && OnlyMore(old(now).log.effects, now.log.effects, RunCommand)
      ensures r.Ok? && w.skillMissing ==> r.value.Failed?
      ensures r.Ok? && !w.skillMissing && !w.slot ==> r.value.Cancelled?
      ensures r.Ok? && !w.skillMissing && w.slot && Breaks(w.breakdown, reattach) ==> r.value.Failed?
      ensures r.Ok? && !w.skillMissing && w.slot && !Breaks(w.breakdown, reattach) ==>
                && (!w.end.Completed? ==> r.value == AgentEnded(w))
                && (r.value.Succeeded? ==>
                      AgentVerdict(w.found).Succeeded? && (Asks(w.found) ==> GrantSeen(|old(labels)|)))
                && ((Asks(w.found) ==> !Hindered()) && (w.found.contract.Some? ==> Lets(RunCommand)) ==>
                      r.value == AgentEnded(w))
    {
      hide Valid, Near, SaveOk, At, InStep, Fresh, After, Synced, Asks, AgentVerdict, GrantIn, DidIn;
      var _ :- TryIo(k);
      if w.skillMissing {
        MayLeaveOpen(k);
        return Ok(Outcome.Failed); // the execution stays open
      }
      if !w.slot {
        asked := true; // the wait for a slot ends without one only when asked to
        MayBeCancelled(k);
        return Ok(Outcome.Cancelled);
      }
      var _ :- StartExec(k, false);
      ghost var ready := labels;
      var end := RunAgent(k, gate, reattach, w.breakdown, w.end);
      ghost var past := labels;
      if end.Err? {
        r := EndStep(k, Outcome.Failed);
      } else if end.value.Completed? {
        r := AfterAgent(k, w.found);
        DeedsSince(past, |ready|, |old(labels)|);
        DeedsSince(labels, |past|, |old(labels)|);
      } else if end.value.Cancelled? {
        r := EndStep(k, Outcome.Cancelled);
      } else if end.value.Stalled? {
        r := EndStep(k, Outcome.NeedsHuman);
      } else {
        r := EndStep(k, Outcome.Failed);
      }
    }

    // ------------------------------------------------------------- command --

    /** A command, or a check. A check without a contract or a configured command ends before it runs. */
    method CommandStep(dryRun: bool, w: CommandWorld) returns (r: Result<Outcome>)
      requires AtStep() && (cfg.workflow[run.cursor].spec.Command? || cfg.workflow[run.cursor].spec.Check?)
      modifies this
      ensures After(r, old(run).cursor, old(run).retryCounts) && |run.steps| <= |old(run).steps| + 1
      ensures old(labels) <= labels
      ensures r == Ok(Outcome.Succeeded) && !dryRun ==> DidIn(labels, |old(labels)|, Commanding)
      ensures r == Ok(Outcome.Succeeded) && !dryRun ==> Straight(labels, |old(labels)|, RunCommand)
      ensures r == Ok(Outcome.Succeeded) && !dryRun ==> CommandVerdict(w).Succeeded?
      ensures var check := cfg.workflow[old(run).cursor].spec.Check?;
              && (r.Ok? && check && w.resolved.NoContract? ==> r.value.Blocked?)
              && (r.Ok? && check && w.resolved.NoSuchCheck? ==> r.value.Skipped?)
              && (r.Ok? && !dryRun && (check ==> w.resolved.Found?) && Lets(RunCommand) ==>
                  r.value == CommandVerdict(w))
              && (r.Ok? && dryRun && (check ==> w.resolved.Found?) && Lets(RunCommand) ==> r.value.Succeeded?)
      ensures dryRun ==> now.log.prompts == old(now).log.prompts && now.log.effects == old(now).log.effects
    {
      hide Valid, Near, SaveOk, AtStep, At, InStep, Fresh, After, Synced, DidIn, Straight, UnderGrant;
      hide CommandVerdict;
      if cfg.workflow[run.cursor].spec.Check? && !w.resolved.Found? {
        NoCommandHere();
        var k := NewExec();
        r := EndStep(k, if w.resolved.NoContract? then Outcome.Blocked else Outcome.Skipped);
        return;
      }
      var k, _ := OpenExec();
      ghost var ready := |labels|;
      r := CommandExec(k, dryRun, w);
      if r == Ok(Outcome.Succeeded) && !dryRun {
        DidSince(labels, ready, |old(labels)|, Commanding);
        StraightSince(labels, ready, |old(labels)|, RunCommand);
      }
    }

    /** A command from its execution on. */
    method CommandExec(k: nat, dryRun: bool, w: CommandWorld) returns (r: Result<Outcome>)
      requires Fresh(k) && Synced()
      requires cfg.workflow[run.cursor].spec.Command? || cfg.workflow[run.cursor].spec.Check?
      modifies this
      ensures After(r, old(run).cursor, old(run).retryCounts) && |run.steps| == |old(run).steps|
      ensures old(labels) <= labels
      ensures r == Ok(Outcome.Succeeded) && !dryRun ==>
                && DidIn(labels, |old(labels)|, Commanding) && Straight(labels, |old(labels)|, RunCommand)
                && CommandVerdict(w).Succeeded?
      ensures r.Ok? && Lets(RunCommand) ==> r.value == if dryRun then Outcome.Succeeded else CommandVerdict(w)
      ensures dryRun ==> now.log.prompts == old(now).log.prompts && now.log.effects == old(now).log.effects
    {
      hide Valid, Near, SaveOk, AtStep, At, InStep, Fresh, After, Synced, DidIn, Straight, UnderGrant;
      hide CommandVerdict;
      var _ :- TryIo(k);
      var passage :- Judge(k, RunCommand, true);
      if passage.Shut? {
        return Ok(passage.outcome);
      }
      if dryRun {
        r := EndStep(k, Outcome.Succeeded);
        return;
      }
      ghost var ready := |labels|;
      r := RunCleared(k, passage.gate, w);
      if r == Ok(Outcome.Succeeded) {
        DidSince(labels, ready, |old(labels)|, Commanding);
        StraightSince(labels, ready - 1, |old(labels)|, RunCommand);
      }
    }

    /** The gate has just been passed: the execution is saved as starting, and the command is spawned. */
    method RunCleared(k: nat, gate: Gate, w: CommandWorld) returns (r: Result<Outcome>)
      requires Fresh(k) && Synced()
      requires cfg.workflow[run.cursor].spec.Command? || cfg.workflow[run.cursor].spec.Check?
      requires now.driver.Some? && gate in now.driver.value.gates && gate.action.RunCommand?
      requires gate.exec == run.steps[k].id && gate.step == run.steps[k].step
      requires gate.why.ByGrant? ==> UnderGrant(run.steps[k], gate.why.approval)
      requires labels != [] && labels[|labels| - 1] == Label.PassGate(k, gate)
      modifies this
      ensures After(r, old(run).cursor, old(run).retryCounts) && |run.steps| == |old(run).steps|
      ensures old(labels) <= labels
      ensures r == Ok(Outcome.Succeeded) ==>
                DidIn(labels, |old(labels)|, Commanding) && Straight(labels, |old(labels)| - 1, RunCommand)
      ensures r.Ok? ==> r.value == CommandVerdict(w)
    {
      hide Valid, Near, SaveOk, AtStep, At, InStep, Fresh, After, Synced, Uncommitted, Straight;
      Pause(k);
      ghost var paused := labels;
      var _ :- TryIo(k);
      var _ :- StartExec(k, false);
      if !w.spawns {
        r := EndStep(k, Outcome.Failed);
        return;
      }
      ghost var started := labels;
      r := RunProcess(k, gate, w.exit);
      DidSince(labels, |started|, |old(labels)|, Commanding);
      StraightThrough(old(labels), paused, started, labels, |old(labels)| - 1);
    }

    lemma NoCommandHere()
      requires AtStep() && !cfg.workflow[run.cursor].spec.Command?
      ensures NoOpenCommand(cfg, run.steps)
    {
      hide Enabled, Apply, Execution, IdsInv, PromptInv, SpawnInv, RetryInv, DecidedInv, ConsentInv, SaveOk, Near;
      NothingLeftOpen(cfg, now);
    }

    /** Spawns the process, records it, and waits for it. */
    method RunProcess(k: nat, gate: Gate, exit: Exit) returns (r: Result<Outcome>)
      requires Fresh(k) && Synced() && run.steps[k].status != StepStatus.Pending
      requires cfg.workflow[run.cursor].spec.Command? || cfg.workflow[run.cursor].spec.Check?
      requires now.driver.Some? && gate in now.driver.value.gates && gate.action.RunCommand?
      requires gate.exec == run.steps[k].id && gate.step == run.steps[k].step
      requires gate.why.ByGrant? ==> UnderGrant(run.steps[k], gate.why.approval)
      modifies `run, `now, `path, `labels, `asked, `trouble
      ensures After(r, old(run).cursor, old(run).retryCounts) && |run.steps| == |old(run).steps|
              && old(labels) <= labels
      ensures DidIn(labels, |old(labels)|, Commanding)
      ensures |labels| > |old(labels)| && RunGuarantees.ActedOn(labels[|old(labels)|]) == Some(gate)
      ensures r.Ok? ==>
                r.value == match exit
                           case Zero => Outcome.Succeeded
                           case Interrupted => Outcome.Cancelled
                           case _ => Outcome.Failed
    {
      hide Valid, Near, SaveOk, AtStep, After, Synced, UnderGrant, DidIn;
      var _ :- StartProcess(k, gate);
      ghost var past := labels;
      RunFirst(past, |old(labels)|, gate);
      var _ :- TryIo(k);
      match exit {
        case Interrupted =>
          asked := true; // a command is stopped only when asked to
          r := EndStep(k, Outcome.Cancelled);
        case Zero =>
          r := EndStep(k, Outcome.Succeeded);
        case _ =>
          r := EndStep(k, Outcome.Failed);
      }
      DidSince(past, |old(labels)|, |old(labels)|, Commanding);
    }

    lemma RunFirst(labels: seq<Label>, from: nat, gate: Gate)
      requires from < |labels| && RunGuarantees.ActedOn(labels[from]) == Some(gate) && gate.action.RunCommand?
      ensures DidIn(labels, from, Commanding)
    {
      assert IsDeed(labels[from], Commanding);
    }

    method StartProcess(k: nat, gate: Gate) returns (r: Result<()>)
      requires Fresh(k) && Synced() && run.steps[k].status != StepStatus.Pending
      requires cfg.workflow[run.cursor].spec.Command? || cfg.workflow[run.cursor].spec.Check?
      requires now.driver.Some? && gate in now.driver.value.gates && gate.action.RunCommand?
      requires gate.exec == run.steps[k].id && gate.step == run.steps[k].step
      requires gate.why.ByGrant? ==> UnderGrant(run.steps[k], gate.why.approval)
      modifies `run, `now, `path, `labels
      ensures r.Ok? && InStep(k) && SameButExecs(old(run), run) && old(labels) <= labels
      ensures |labels| > |old(labels)| && RunGuarantees.ActedOn(labels[|old(labels)|]) == Some(gate)
    {
      hide Valid, Near, SaveOk, AtStep, After, Synced, UnderGrant, GateOk, Told;
      StepSpecOf();
      if cfg.workflow[run.cursor].spec.Command? {
        Spawn(k, gate);
        var _ :- BindProcess(k);
      } else {
        Launch(k, gate);
        var _ :- BindCheck(k);
      }
      return Ok(());
    }

    /** The process starts; until it is recorded, a crash would lose it. */
    method Spawn(k: nat, gate: Gate)
      requires Fresh(k) && Synced() && cfg.workflow[run.cursor].spec.Command?
      requires run.steps[k].status != StepStatus.Pending
      requires now.driver.Some? && gate in now.driver.value.gates && gate.action.RunCommand?
               && gate.exec == run.steps[k].id
      requires gate.why.ByGrant? ==> UnderGrant(run.steps[k], gate.why.approval)
      modifies `now, `path, `labels
      ensures Valid() && run == now.doc && now.driver.Some? && now.driver.value.phase == Spawned(k)
      ensures labels == old(labels) + [Label.Spawn(k, gate)]
      ensures now.log.spent == old(now).log.spent + {run.steps[k].id}
    {
      hide Enabled, Apply, Execution, IdsInv, PromptInv, SpawnInv, FocusInv, RetryInv, DecidedInv, ConsentInv;
      OpenFacts(k);
      StepSpecOf();
      MaySpawn(cfg, now, k, gate);
      Happen(Label.Spawn(k, gate));
    }

    /** Records the process and moves the execution to running, in one save. */
    method BindProcess(k: nat) returns (r: Result<()>)
      requires Valid() && run == now.doc && now.driver.Some? && now.driver.value.phase == Spawned(k)
      requires k + 1 == |run.steps| && run.status.Running? && run.cursor < |cfg.workflow|
      requires run.steps[k].step == cfg.workflow[run.cursor].id
      modifies `run, `now, `path, `labels
      ensures r.Ok? && InStep(k) && old(labels) <= labels
      ensures run == WithExec(old(run), k, old(run).steps[k].(process := true, status := StepStatus.Running))
    {
      hide Enabled, Apply, Execution, PromptInv, RetryInv, DecidedInv, ConsentInv, SaveOk, Near;
      if !run.steps[k].status.CanTransitionTo(StepStatus.Running) {
        return Err(Illegal);
      }
      MayBind(cfg, now, k);
      Happen(Label.Bind);
      run := WithExec(run, k, run.steps[k].(process := true, status := StepStatus.Running));
      DocIsNear(cfg, now);
      return Ok(());
    }

    method BindCheck(k: nat) returns (r: Result<()>)
      requires Fresh(k) && !cfg.workflow[run.cursor].spec.Command? && run.steps[k].status != StepStatus.Pending
      modifies `run, `now, `path, `labels
      ensures r.Ok? && InStep(k) && old(labels) <= labels && SameButExecs(old(run), run)
    {
      hide Valid, Near, SaveOk;
      OpenFacts(k);
      StepSpecOf();
      ProcessStaysNear(cfg, now, run, k);
      run := WithExec(run, k, run.steps[k].(process := true));
      var _ :- SetExecStatus(k, StepStatus.Running);
      return Ok(());
    }

    // --------------------------------------------- approval, policy, git, PR --

    /** The decision on execution `k` covers a step, for as long as HEAD stays where it is now. */
    method TakeCover(k: nat, a: nat, covered: string)
      requires Fresh(k) && now.driver.Some? && a in now.driver.value.granted
      requires Belongs(now.approvals, a, run.steps[k].id, run.steps[k].step)
      requires CoverNames(cfg, run.steps[k].step, covered)
      modifies `run, `now, `path, `labels
      ensures Fresh(k) && old(labels) <= labels
      ensures run == old(run).(cover := Some(Cover(covered, a, old(now).head)))
      ensures old(Cleared()) <= Cleared()
      ensures now.approvals == old(now).approvals
    {
      hide Enabled, Apply, Execution, IdsInv, PromptInv, SpawnInv, FocusInv, RetryInv, DecidedInv, ConsentInv;
      var c := Cover(covered, a, now.head);
      MayTakeCover(cfg, now, c);
      ghost var before := now;
      Happen(Label.TakeCover(c));
      StaysNear(cfg, before, now, run);
      CoverStaysNear(cfg, now, run, c);
      hide Near;
      run := run.(cover := Some(c));
    }

    /** The step after the cursor, if there is one, is covered by this approval. */
    ghost predicate CoversNext(a: nat)
      reads `run, `now, `path, `labels
    {
      run.cursor + 1 < |cfg.workflow| ==>
        run.cover.Some? && run.cover.value.approval == a && run.cover.value.step == cfg.workflow[run.cursor + 1].id
    }

    method ApprovalStep(dryRun: bool) returns (r: Result<Outcome>)
      requires AtStep() && cfg.workflow[run.cursor].spec.Approval?
      modifies this
      ensures After(r, old(run).cursor, old(run).retryCounts) && |run.steps| <= |old(run).steps| + 1
      ensures old(labels) <= labels
      ensures r == Ok(Outcome.Succeeded) && !dryRun ==>
                exists a :: DidIn(labels, |old(labels)|, SeeingGrant(a)) && CoversNext(a)
      ensures r.Ok? && !dryRun ==> Answered(r.value)
      ensures r.Ok? && dryRun ==> r.value.Succeeded?
      ensures dryRun ==> now.log.prompts == old(now).log.prompts && now.log.effects == old(now).log.effects
    {
      hide Valid, Near, SaveOk, AtStep, At, InStep, Fresh, After, Synced, CoversNext, DidIn, Answered;
      var k, _ := OpenExec();
      var _ :- TryIo(k);
      if dryRun {
        r := EndStep(k, Outcome.Succeeded);
        return;
      }
      ghost var ready := |labels|;
      r := ApprovalExec(k);
      if r == Ok(Outcome.Succeeded) {
        ghost var a :| DidIn(labels, ready, SeeingGrant(a)) && CoversNext(a);
        DidSince(labels, ready, |old(labels)|, SeeingGrant(a));
      }
    }

    /** The outcome of the step under the cursor is what became of its latest execution's request. */
    ghost predicate Answered(outcome: Outcome)
      reads `run, `now, `asked
    {
      !asked && !outcome.Cancelled? ==>
        && run.cursor < |cfg.workflow|
        && var k := LatestOf(run.steps, cfg.workflow[run.cursor].id);
           && k < |run.steps| && run.steps[k].approval.Some? && run.steps[k].approval.value in now.approvals
           && outcome == StepAnswer(now.approvals[run.steps[k].approval.value].status)
    }

    /** An approval step from its execution on. */
    method ApprovalExec(k: nat) returns (r: Result<Outcome>)
      requires Fresh(k) && cfg.workflow[run.cursor].spec.Approval?
      modifies this
      ensures After(r, old(run).cursor, old(run).retryCounts) && |run.steps| == |old(run).steps|
      ensures old(labels) <= labels
      ensures r == Ok(Outcome.Succeeded) ==>
                exists a :: DidIn(labels, |old(labels)|, SeeingGrant(a)) && CoversNext(a)
      ensures r.Ok? ==> Answered(r.value)
    {
      hide Valid, Near, SaveOk, AtStep, At, InStep, Fresh, Synced, DidIn, CoversNext;
      var answer :- RequestApproval(k);
      ghost var past := labels;
      match answer {
        case Granted(a) =>
          r := CoverNext(k, a);
          DidSince(past, |old(labels)|, |old(labels)|, SeeingGrant(a));
        case Denied =>
          r := EndStep(k, Outcome.Failed);
          LatestIs(run.steps, k);
        case Cancelled =>
          return Ok(Outcome.Cancelled);
      }
    }

    method CoverNext(k: nat, a: nat) returns (r: Result<Outcome>)
      requires Fresh(k) && cfg.workflow[run.cursor].spec.Approval?
      requires now.driver.Some? && a in now.driver.value.granted
      requires Belongs(now.approvals, a, run.steps[k].id, run.steps[k].step)
      modifies `run, `now, `path, `labels
      ensures r == Ok(Outcome.Succeeded) && After(r, old(run).cursor, old(run).retryCounts)
      ensures |run.steps| == |old(run).steps| && CoversNext(a) && old(labels) <= labels
      ensures now.approvals == old(now).approvals && LatestOf(run.steps, cfg.workflow[run.cursor].id) == k
              && run.steps[k].approval == old(run).steps[k].approval
    {
      hide Valid, Near, SaveOk, AtStep, At, InStep, Fresh, Synced, After;
      if run.cursor + 1 < |cfg.workflow| {
        NextIsCovered();
        TakeCover(k, a, cfg.workflow[run.cursor + 1].id);
      }
      r := EndStep(k, Outcome.Succeeded);
      LatestIs(run.steps, k);
    }

    lemma NextIsCovered()
      requires Valid() && run.cursor + 1 < |cfg.workflow| && cfg.workflow[run.cursor].spec.Approval?
      ensures CoverNames(cfg, cfg.workflow[run.cursor].id, cfg.workflow[run.cursor + 1].id)
    {
      IndexOfAt(cfg.workflow, run.cursor);
      IndexOfAt(cfg.workflow, run.cursor + 1);
    }

    method PolicyStep(dryRun: bool, diff: DiffGate.Diff, accepted: DiffGate.Accepted, content: string -> string)
      returns (r: Result<Outcome>)
      requires AtStep() && cfg.workflow[run.cursor].spec.Policy?
      modifies this
      ensures After(r, old(run).cursor, old(run).retryCounts) && |run.steps| <= |old(run).steps| + 1
      ensures old(labels) <= labels
      ensures r.Ok? && !dryRun && DiffGate.Denials(diff) != [] ==> r == Ok(Outcome.Blocked)
      ensures r == Ok(Outcome.Succeeded) && !dryRun && DiffGate.Questions(diff, accepted) != [] ==>
                GrantSeen(|old(labels)|)
      ensures dryRun ==> now.log.prompts == old(now).log.prompts && now.log.effects == old(now).log.effects
      ensures r.Ok? && dryRun ==> r.value.Succeeded?
      ensures r.Ok? && !dryRun && DiffGate.Denials(diff) == [] ==>
                || r.value.Succeeded?
                || (DiffGate.Questions(diff, accepted) != [] && Hindered() && (r.value.Failed? || r.value.Cancelled?))
    {
      hide Valid, Near, SaveOk, AtStep, At, InStep, Fresh, After, Synced, DidIn;
      var k, _ := OpenExec();
      var _ :- StartExec(k, true);
      ghost var ready := |labels|;
      if !dryRun {
        var found, _ := DiffPolicyGate(k, diff, accepted, content);
        var stop :- found;
        if stop.Some? {
          return Ok(stop.value);
        }
      }
      ghost var past := labels;
      r := EndStep(k, Outcome.Succeeded);
      if !dryRun && DiffGate.Questions(diff, accepted) != [] {
        GrantSince(past, ready, |old(labels)|);
      }
    }

    lemma GrantSince(past: seq<Label>, later: nat, from: nat)
      requires GrantIn(past, later) && from <= later && past <= labels
      ensures GrantSeen(from)
    {
      var i :| later <= i < |past| && past[i].SeeGrant?;
      assert labels[i] == past[i];
    }

    lemma GrantWasSeen(from: nat, a: nat)
      requires DidIn(labels, from, SeeingGrant(a))
      ensures GrantSeen(from)
    {}

    /** Pushes the branch, if policy or a human lets it through. */
    method PushBranch(k: nat) returns (r: Result<Option<Outcome>>)
      requires Fresh(k)
      modifies this
      ensures Ready() && old(labels) <= labels && Akin(old(run), run)
      ensures r.Err? ==> After(Err(r.error), old(run).cursor, old(run).retryCounts)
      ensures r.Ok? && r.value.Some? ==> After(Ok(r.value.value), old(run).cursor, old(run).retryCounts)
      ensures r.Ok? && r.value.None? ==>
              Fresh(k) && now.log.effects != [] && now.log.effects[|now.log.effects| - 1].action.Push?
      ensures r.Ok? && r.value.None? ==> forall g :: g in old(Cleared()) && !g.action.Push? ==> g in Cleared()
      ensures r.Ok? && r.value.None? ==> DidIn(labels, |old(labels)|, Pushing)
      ensures r.Ok? && r.value.None? ==> Straight(labels, |old(labels)|, Push)
      ensures r.Ok? && r.value.Some? ==> Halts(r.value.value)
      ensures OnlyMore(old(now).log.effects, now.log.effects, Push)
      ensures r.Ok? && Lets(Push) ==> r.value == None
    {
      hide Valid, Near, SaveOk, AtStep, At, InStep, Fresh, After, Synced, Uncommitted, Straight;
      var _ :- TryIo(k);
      var passage :- Judge(k, Push, true);
      if passage.Shut? {
        return Ok(Some(passage.outcome));
      }
      ghost var ready := labels;
      PushCleared(k, passage.gate);
      StraightSince(labels, |ready| - 1, |old(labels)|, Push);
      DidSince(labels, |ready|, |old(labels)|, Pushing);
      var _ :- TryIo(k);
      return Ok(None);
    }

    /** The gate has just been passed; others may act before the push does. */
    method PushCleared(k: nat, gate: Gate)
      requires Fresh(k) && now.driver.Some? && gate in now.driver.value.gates && gate.action.Push?
      requires labels != [] && labels[|labels| - 1] == Label.PassGate(k, gate)
      modifies `now, `path, `labels
      ensures Fresh(k) && old(labels) <= labels && (old(Synced()) ==> Synced())
      ensures now.log.effects == old(now).log.effects + [gate] && old(Cleared()) - {gate} <= Cleared()
      ensures DidIn(labels, |old(labels)|, Pushing) && Straight(labels, |old(labels)| - 1, Push)
    {
      hide Valid, Near, SaveOk, AtStep, At, InStep, Fresh, After, Synced, Uncommitted, Straight;
      Pause(k);
      ghost var paused := labels;
      Launch(k, gate);
      JustDid(labels, |old(labels)|, Pushing);
      StraightThrough(old(labels), paused, paused, labels, |old(labels)| - 1);
    }

    method GitStep(push: bool, dryRun: bool, commit: Option<Policy.Decision>) returns (r: Result<Outcome>)
      requires AtStep() && cfg.workflow[run.cursor].spec.Git?
      modifies this
      ensures After(r, old(run).cursor, old(run).retryCounts) && |run.steps| <= |old(run).steps| + 1
      ensures old(labels) <= labels
      ensures r == Ok(Outcome.Succeeded) && push && !dryRun ==> DidIn(labels, |old(labels)|, Pushing)
      ensures r == Ok(Outcome.Succeeded) && !push && !dryRun && commit.Some? ==> Commits(labels, |old(labels)|)
      ensures r.Ok? && dryRun ==> r.value.Succeeded?
      ensures r.Ok? && !push && !dryRun ==>
                r.value == if commit == Some(Policy.Decision.Deny) then Outcome.Blocked else Outcome.Succeeded
      ensures r.Ok? && push && Lets(Push) ==> r.value.Succeeded?
      ensures dryRun ==> now.log.prompts == old(now).log.prompts && now.log.effects == old(now).log.effects
    {
      hide Valid, Near, SaveOk, AtStep, At, InStep, Fresh, After, Synced, DidIn;
      var k, _ := OpenExec();
      var _ :- StartExec(k, true);
      if dryRun {
        r := EndStep(k, Outcome.Succeeded);
        return;
      }
      var stop: Option<Outcome>;
      ghost var ready := |labels|;
      if push {
        stop :- PushBranch(k);
        if stop.None? {
          DidSince(labels, ready, |old(labels)|, Pushing);
        }
      } else {
        stop :- CommitChanges(k, commit);
      }
      if stop.Some? {
        return Ok(stop.value);
      }
      ghost var past := labels;
      r := EndStep(k, Outcome.Succeeded);
      if push {
        DidSince(past, |old(labels)|, |old(labels)|, Pushing);
      } else if commit.Some? {
        CommittedSince(past, labels, ready, |old(labels)|);
      }
    }

    /** Opens the pull request, unless the tool reports one already or cannot tell. */
    method PrStep(dryRun: bool, w: PrWorld) returns (r: Result<Outcome>)
      requires AtStep() && cfg.workflow[run.cursor].spec.GithubPr?
      modifies this
      ensures After(r, old(run).cursor, old(run).retryCounts) && |run.steps| <= |old(run).steps| + 1
      ensures old(labels) <= labels
      ensures dryRun || w.violated || !w.existing.Absent? ==> OnlyMore(old(now).log.effects, now.log.effects, Push)
      ensures r == Ok(Outcome.Succeeded) && !dryRun ==>
                && PrVerdict(w).Succeeded?
                && (w.existing.Found? || (w.existing.Absent? && DidIn(labels, |old(labels)|, Opening)))
                && ((if w.existing.Found? then w.followUp else w.pushes) ==> DidIn(labels, |old(labels)|, Pushing))
      ensures r.Ok? && dryRun ==> r.value.Succeeded?
      ensures r.Ok? && !dryRun && Lets(OpenPr) && Lets(Push) ==> r.value == PrVerdict(w)
      ensures dryRun ==> now.log.prompts == old(now).log.prompts && now.log.effects == old(now).log.effects
    {
      hide Valid, Near, SaveOk, AtStep, At, InStep, Fresh, After, Synced, DidIn;
      var k, _ := OpenExec();
      var _ :- StartExec(k, true);
      var _ :- TryIo(k);
      if dryRun {
        r := EndStep(k, Outcome.Succeeded);
        return;
      }
      if w.violated {
        r := EndStep(k, Outcome.Blocked); // contract files changed after they were locked
        return;
      }
      ghost var ready := |labels|;
      match w.existing {
        case NoTool =>
          r := EndStep(k, Outcome.Failed);
        case Unreachable =>
          r := EndStep(k, Outcome.Failed);
        case Found =>
          r := UpdatePr(k, w);
        case Absent =>
          r := OpenPullRequest(k, w);
      }
      PublishedSince(labels, ready, |old(labels)|);
    }

    /** What was pushed or opened later was pushed or opened since. */
    lemma PublishedSince(past: seq<Label>, later: nat, from: nat)
      requires from <= later && past <= labels
      ensures DidIn(past, later, Pushing) ==> DidIn(labels, from, Pushing)
      ensures DidIn(past, later, Opening) ==> DidIn(labels, from, Opening)
    {
      if DidIn(past, later, Pushing) {
        DidSince(past, later, from, Pushing);
      }
      if DidIn(past, later, Opening) {
        DidSince(past, later, from, Opening);
      }
    }

    /** The pull request exists: a follow-up commits and pushes to it. */
    method UpdatePr(k: nat, w: PrWorld) returns (r: Result<Outcome>)
      requires Fresh(k)
      modifies this
      ensures After(r, old(run).cursor, old(run).retryCounts) && |run.steps| == |old(run).steps|
              && old(labels) <= labels
      ensures OnlyMore(old(now).log.effects, now.log.effects, Push)
      ensures r == Ok(Outcome.Succeeded) && w.followUp ==>
                w.commit != Some(Policy.Decision.Deny) && DidIn(labels, |old(labels)|, Pushing)
      ensures r.Ok? && Lets(Push) ==>
                r.value == if w.followUp && w.commit == Some(Policy.Decision.Deny)
                           then Outcome.Blocked else Outcome.Succeeded
    {
      hide Valid, Near, SaveOk, AtStep, At, InStep, Fresh, After, Synced, DidIn;
      ghost var ready := labels;
      if w.followUp {
        var stop :- CommitChanges(k, w.commit);
        if stop.Some? {
          return Ok(stop.value);
        }
        ready := labels;
        stop :- PushBranch(k);
        if stop.Some? {
          return Ok(stop.value);
        }
      }
      ghost var past := labels;
      r := EndStep(k, Outcome.Succeeded);
      PublishedSince(past, |ready|, |old(labels)|);
    }

    method OpenPullRequest(k: nat, w: PrWorld) returns (r: Result<Outcome>)
      requires Fresh(k) && cfg.workflow[run.cursor].spec.GithubPr?
      modifies this
      ensures After(r, old(run).cursor, old(run).retryCounts) && |run.steps| == |old(run).steps|
              && old(labels) <= labels
      ensures r == Ok(Outcome.Succeeded) ==>
                && w.created && w.commit != Some(Policy.Decision.Deny) && DidIn(labels, |old(labels)|, Opening)
                && (w.pushes ==> DidIn(labels, |old(labels)|, Pushing))
      ensures r.Ok? && Lets(OpenPr) && Lets(Push) ==> r.value == Published(w)
    {
      hide Valid, Near, SaveOk, AtStep, At, InStep, Fresh, After, Synced, DidIn;
      var passage :- Judge(k, OpenPr, true);
      if passage.Shut? {
        return Ok(passage.outcome);
      }
      if passage.gate.why.ByGrant? {
        CoverOwnPush(k, passage.gate.why.approval);
      }
      ghost var ready := |labels|;
      r := Publish(k, passage.gate, w);
      PublishedSince(labels, ready, |old(labels)|);
    }

    /** The explicit decision on the pull request covers the push that follows. */
    method CoverOwnPush(k: nat, a: nat)
      requires Fresh(k) && cfg.workflow[run.cursor].spec.GithubPr?
      requires now.driver.Some? && a in now.driver.value.granted
      requires Belongs(now.approvals, a, run.steps[k].id, run.steps[k].step)
      modifies `run, `now, `path, `labels
      ensures Fresh(k) && old(labels) <= labels && run == old(run).(cover := run.cover) && old(Cleared()) <= Cleared()
    {
      hide Valid, Near, SaveOk, AtStep, At, InStep, Fresh, After, Synced;
      StepSpecOf();
      TakeCover(k, a, cfg.workflow[run.cursor].id);
    }

    method Publish(k: nat, gate: Gate, w: PrWorld) returns (r: Result<Outcome>)
      requires Fresh(k) && gate in Cleared() && gate.action.OpenPr?
      modifies this
      ensures After(r, old(run).cursor, old(run).retryCounts) && |run.steps| == |old(run).steps|
              && old(labels) <= labels
      ensures r == Ok(Outcome.Succeeded) ==>
                && w.created && w.commit != Some(Policy.Decision.Deny) && DidIn(labels, |old(labels)|, Opening)
                && (w.pushes ==> DidIn(labels, |old(labels)|, Pushing))
      ensures r.Ok? && Lets(Push) ==> r.value == Published(w)
    {
      hide Valid, Near, SaveOk, AtStep, At, InStep, Fresh, After, Synced, DidIn;
      var stop :- CommitChanges(k, w.commit);
      if stop.Some? {
        return Ok(stop.value);
      }
      ghost var ready := labels;
      if w.pushes {
        stop :- PushBranch(k);
        if stop.Some? {
          return Ok(stop.value);
        }
      }
      ghost var pushed := labels;
      Save(k);
      Launch(k, gate);
      JustDid(labels, |old(labels)|, Opening);
      ghost var past := labels;
      r := EndStep(k, if w.created then Outcome.Succeeded else Outcome.Failed);
      PublishedSince(pushed, |ready|, |old(labels)|);
      PublishedSince(past, |old(labels)|, |old(labels)|);
    }

    // ----------------------------------------------------------- lifecycle --

    method ExecuteStep(dryRun: bool, w: StepWorld) returns (r: Result<Outcome>)
      requires AtStep()
      modifies this
      ensures After(r, old(run).cursor, old(run).retryCounts) && |run.steps| <= |old(run).steps| + 1
      ensures r.Ok? && !r.value.Cancelled? ==> AtStep() && NoOpenCommand(cfg, run.steps)
      ensures old(labels) <= labels
      ensures r == Ok(Outcome.Succeeded) && !dryRun ==> Deserved(cfg.workflow[old(run).cursor].spec, w)
      ensures dryRun ==> now.log.prompts == old(now).log.prompts && now.log.effects == old(now).log.effects
    {
      hide Valid, Near, SaveOk, AtStep, After, Synced, DidIn, Straight, AgentVerdict, CommandVerdict, PrVerdict;
      match cfg.workflow[run.cursor].spec {
        case Agent =>
          r := AgentStep(dryRun, w.agent);
        case Command =>
          r := CommandStep(dryRun, w.command);
        case Check =>
          r := CommandStep(dryRun, w.command);
        case Approval =>
          r := ApprovalStep(dryRun);
        case Policy =>
          r := PolicyStep(dryRun, w.diff, w.accepted, w.content);
        case Git =>
          r := GitStep(w.push, dryRun, w.commit);
        case GithubPr =>
          r := PrStep(dryRun, w.pr);
      }
      StepIsOver(r, run.cursor, run.retryCounts);
    }

    lemma StepIsOver(r: Result<Outcome>, cursor: nat, counts: map<string, nat>)
      requires After(r, cursor, counts)
      ensures r.Ok? && !r.value.Cancelled? ==> AtStep() && NoOpenCommand(cfg, run.steps)
    {
      hide Enabled, Apply, Execution, IdsInv, PromptInv, SpawnInv, RetryInv, DecidedInv, ConsentInv, SaveOk, Near;
      if r.Ok? && !r.value.Cancelled? {
        NothingLeftOpen(cfg, now);
      }
    }

    /** Ends the run with a status that is legal from where it is. */
    method Stop(status: RunStatus) returns (r: Result<RunStatus>)
      requires Ready() && !status.Pending? && run.status.CanTransitionTo(status)
      modifies `run, `now, `path, `labels
      ensures r == Ok(status) && Synced() && run == old(run).(status := status) && old(labels) <= labels
      ensures now.log == old(now).log
      ensures now.log.prompts == old(now).log.prompts && now.log.effects == old(now).log.effects
    {
      hide Valid, Near, SaveOk;
      var _ :- SetStatus(status);
      return Ok(status);
    }

    method Advance()
      requires AtStep() && NoOpenCommand(cfg, run.steps)
      modifies `run, `now, `path, `labels
      ensures Synced() && NoneSpent(now) && run == old(run).(cursor := old(run).cursor + 1) && old(labels) <= labels
      ensures now.log.prompts == old(now).log.prompts && now.log.effects == old(now).log.effects
    {
      hide Enabled, Apply, Execution, PromptInv, SpawnInv, FocusInv, RetryInv, DecidedInv, ConsentInv, SaveOk, Near;
      AdvanceIsSavable(cfg, now);
      SaveAs(run.(cursor := run.cursor + 1));
    }

    /** A failed step is ignored, goes back to its retry step while it has retries left, or fails the run. */
    method HandleFailure() returns (r: Result<Option<RunStatus>>)
      requires AtStep() && NoOpenCommand(cfg, run.steps)
      modifies `run, `now, `path, `labels
      ensures r.Ok? && Synced() && NoneSpent(now) && old(labels) <= labels
      ensures var step := cfg.workflow[old(run).cursor];
              if step.continueOnFailure then
                r.value == None && run == old(run).(cursor := old(run).cursor + 1)
              else if CanRoute(cfg, old(run)) then
                r.value == None && run == Routed(cfg, old(run))
              else
                r.value == Some(RunStatus.Failed) && run == old(run).(status := RunStatus.Failed)
      ensures now.log.prompts == old(now).log.prompts && now.log.effects == old(now).log.effects
    {
      hide Valid, Near, SaveOk;
      var step := cfg.workflow[run.cursor];
      if step.continueOnFailure {
        Advance();
        return Ok(None);
      }
      if step.onFailure.Some? {
        var used := CountOf(run.retryCounts, step.id);
        if used < CapAt(cfg, run.cursor) {
          RetryStepIsBack();
          GoBack();
          return Ok(None);
        }
      }
      var status :- Stop(RunStatus.Failed);
      return Ok(Some(status));
    }

    method GoBack()
      requires AtStep() && CanRoute(cfg, run)
      modifies `run, `now, `path, `labels
      ensures Synced() && NoneSpent(now) && run == Routed(cfg, old(run)) && labels == old(labels) + [Route]
      ensures now.log.prompts == old(now).log.prompts && now.log.effects == old(now).log.effects
    {
      hide Enabled, Apply, Execution, PromptInv, SpawnInv, FocusInv, RetryInv, DecidedInv, ConsentInv, SaveOk, Near;
      MayRoute(cfg, now);
      run := Routed(cfg, run);
      Happen(Route);
      DocIsNear(cfg, now);
    }

    /** Creates or attaches the worktree, unless policy denies it. */
    method Prepare(verdict: Policy.Decision) returns (r: Result<Option<RunStatus>>)
      requires Synced() && run.status.Preparing?
      modifies `run, `now, `path, `labels, `trouble
      ensures r.Err? ==> r.error.Io? && trouble && Synced() && run == old(run)
      ensures r.Ok? ==> r.value == if verdict.Deny? then Some(RunStatus.Blocked) else None
      ensures r == Ok(None) ==> Synced() && run == old(run)
      ensures r.Ok? && r.value.Some? ==> Synced() && run == old(run).(status := RunStatus.Blocked)
      ensures now.log == old(now).log && old(labels) <= labels
    {
      hide Valid, Near, SaveOk;
      var _ :- TryAnything();
      SaveAs(run);
      if verdict.Deny? {
        var _ :- SetStatus(RunStatus.Blocked);
        return Ok(Some(RunStatus.Blocked));
      }
      var _ :- TryAnything();
      SaveAs(run);
      return Ok(None);
    }

    /** A cancelled run closes what is open and withdraws its pending requests. */
    method CancelRun() returns (r: Result<RunStatus>)
      requires Ready() && run.status.CanTransitionTo(RunStatus.Cancelled)
      modifies `run, `now, `path, `labels
      ensures r == Ok(RunStatus.Cancelled) && Synced() && old(labels) <= labels
      ensures run == old(run).(status := RunStatus.Cancelled, steps := CloseAll(old(run).steps, StepStatus.Cancelled))
      ensures forall a :: a in run.approvals && a in now.approvals ==> now.approvals[a].status != ApprovalStatus.Pending
      ensures now.log.prompts == old(now).log.prompts && now.log.effects == old(now).log.effects
    {
      hide Enabled, Apply, Execution, PromptInv, SpawnInv, FocusInv, RetryInv, ConsentInv, SaveOk, Near;
      ClosingIsSavable(cfg, now, run, StepStatus.Cancelled);
      run := run.(steps := CloseAll(run.steps, StepStatus.Cancelled));
      ghost var before := now;
      MayCancelRequests(cfg, now, run.approvals);
      Happen(CancelRequests(run.approvals));
      RequestsStand(cfg, before, CancelRequests(run.approvals), now);
      StaysSavable(cfg, before, now, run);
      var _ :- SetStatus(RunStatus.Cancelled);
      return Ok(RunStatus.Cancelled);
    }

    /** After an internal error: everything open is closed, and the run fails where the table allows it. */
    method Fail()
      requires Ready()
      modifies `run, `now, `path, `labels
      ensures old(labels) <= labels && Valid() && Driving(now)
      ensures !old(run).status.IsTerminal() ==>
                && Synced()
                && run == old(run).(status := RunStatus.Failed, steps := CloseAll(old(run).steps, StepStatus.Failed))
      ensures old(run).status.IsTerminal() ==> run == old(run) && now == old(now)
      ensures now.log.prompts == old(now).log.prompts && now.log.effects == old(now).log.effects
    {
      hide Enabled, Apply, Execution, PromptInv, SpawnInv, FocusInv, RetryInv, DecidedInv, ConsentInv, SaveOk, Near;
      if run.status.IsTerminal() {
        return;
      }
      ClosingIsSavable(cfg, now, run, StepStatus.Failed);
      run := run.(steps := CloseAll(run.steps, StepStatus.Failed));
      if run.status.CanTransitionTo(RunStatus.Failed) {
        var _ := SetStatus(RunStatus.Failed);
      }
    }

    /** Why a drive ended as it did. */
    ghost predicate Explained(trace: seq<Outcome>, was: Run, first: StartWorld, status: RunStatus)
      reads `asked, `late
    {
      || (status.Cancelled? && asked)
      || (status.Failed? && late)
      || (status.Blocked? && first.worktree.Deny? && (was.status.Pending? || was.status.Preparing?))
      || (status.NeedsHuman? && first.missing)
      || Interpreted(cfg, trace, was.cursor, was.retryCounts, status)
    }

    /**
     * Drives the run to a stop. Whatever the steps return, the loop makes at most
     * n * (1 + retries left) rounds, and no transition it tries is refused by a table. The run ends as
     * its workflow, interpreted over the outcomes of its steps, says, unless it was stopped from outside.
     */
    method Execute(dryRun: bool, first: StartWorld)
      returns (r: Result<RunStatus>, ghost rounds: nat, ghost trace: seq<Outcome>)
      requires Synced() && NoneSpent(now) && !run.status.Blocked? && !run.status.NeedsHuman?
      modifies this
      ensures Ready() && old(labels) <= labels
      ensures r.Err? ==> r.error.Io? && trouble && !Stopped(run.status)
      ensures r.Ok? ==> Synced() && run.status == r.value && Stopped(r.value)
      ensures old(run).status.IsTerminal() ==> r == Ok(old(run).status) && run == old(run)
      ensures r == Ok(RunStatus.Succeeded) && !old(run).status.IsTerminal() ==> run.cursor >= |cfg.workflow|
      ensures rounds <= |cfg.workflow| * (1 + Left(cfg, old(run).retryCounts, |cfg.workflow|))
      ensures r.Ok? && !old(run).status.IsTerminal() ==> Explained(trace, old(run), first, r.value)
      ensures dryRun ==> now.log.prompts == old(now).log.prompts && now.log.effects == old(now).log.effects
    {
      hide Valid, Near, SaveOk, Interpreted;
      rounds, trace := 0, [];
      if run.status.IsTerminal() {
        return Ok(run.status), 0, [];
      }
      var stop := CheckCancel();
      if stop {
        r := CancelRun();
        return;
      }
      if run.status.Pending? {
        var _ :- SetStatus(RunStatus.Preparing);
      }
      if run.status.Preparing? {
        var blocked :- Prepare(first.worktree);
        if blocked.Some? {
          return Ok(blocked.value), 0, [];
        }
        var _ :- SetStatus(RunStatus.Running);
      } else if run.status.AwaitingApproval? {
        var _ :- SetStatus(RunStatus.Running);
      }
      if first.missing && !dryRun {
        r := Stop(RunStatus.NeedsHuman);
        return;
      }
      r, rounds, trace := Loop(dryRun);
    }

    lemma WorkflowIsValid()
      requires Valid()
      ensures ValidWorkflow(cfg.workflow)
    {
      hide Execution, Inv, Honest, ValidWorkflow;
    }

    method Loop(dryRun: bool) returns (r: Result<RunStatus>, ghost rounds: nat, ghost trace: seq<Outcome>)
      requires Synced() && NoneSpent(now) && run.status.Running?
      modifies this
      ensures Ready() && old(labels) <= labels
      ensures r.Err? ==> r.error.Io? && trouble && !Stopped(run.status)
      ensures r.Ok? ==> Synced() && run.status == r.value && Stopped(r.value)
      ensures rounds <= |cfg.workflow| * (1 + Left(cfg, old(run).retryCounts, |cfg.workflow|))
      ensures r == Ok(RunStatus.Succeeded) ==> run.cursor >= |cfg.workflow|
      ensures r.Ok? ==>
                || (r.value.Cancelled? && asked) || (r.value.Failed? && late)
                || Interpreted(cfg, trace, old(run).cursor, old(run).retryCounts, r.value)
      ensures dryRun ==> now.log.prompts == old(now).log.prompts && now.log.effects == old(now).log.effects
    {
      hide Valid, Near, SaveOk, After, AtStep, Left, CanRoute, Routed, Follows, ValidWorkflow, NoneSpent, DidIn;
      hide Rounds, Reached, GoesOn;
      rounds, trace := 0, [];
      ghost var n := |cfg.workflow|;
      ghost var allowed := Rounds(n, Left(cfg, run.retryCounts, n), run.cursor);
      RoundsInAll(n, Left(cfg, run.retryCounts, n), run.cursor);
      NothingYetReached(cfg, run.cursor, run.retryCounts);
      while run.cursor < |cfg.workflow|
        invariant Synced() && NoneSpent(now) && run.status.Running? && old(labels) <= labels
        invariant rounds + Rounds(n, Left(cfg, run.retryCounts, n), run.cursor) <= allowed
        invariant Reached(cfg, trace, old(run).cursor, old(run).retryCounts) == Some((run.cursor, run.retryCounts))
        invariant dryRun ==> now.log.prompts == old(now).log.prompts && now.log.effects == old(now).log.effects
        decreases Left(cfg, run.retryCounts, n), n - run.cursor
      {
        rounds := rounds + 1;
        ghost var left, cursor := Left(cfg, run.retryCounts, n), run.cursor;
        OneRoundAllowed(n, left, cursor);
        ghost var counts := run.retryCounts;
        ghost var outcome: Option<Outcome>;
        var w: StepWorld :| true;
        r, outcome := Round(dryRun, w);
        if outcome.Some? && r.Ok? {
          FollowsInterpretation(
            cfg, trace, old(run).cursor, old(run).retryCounts, outcome.value, cursor, counts, run);
          trace := trace + [outcome.value];
        }
        if r.Err? || Stopped(run.status) {
          return;
        }
        WorkflowIsValid();
        FollowsIsProgress(cfg, outcome.value, cursor, counts, run);
        OneRound(n, left, cursor, Left(cfg, run.retryCounts, n), run.cursor);
      }
      r := Stop(RunStatus.Succeeded);
    }

    lemma NothingYetReached(cfg: Config, cursor: nat, counts: map<string, nat>)
      ensures Reached(cfg, [], cursor, counts) == Some((cursor, counts))
    {}

    /** One round of the loop: the step under the cursor, and what becomes of its outcome. */
    method Round(dryRun: bool, w: StepWorld) returns (r: Result<RunStatus>, ghost outcome: Option<Outcome>)
      requires Synced() && NoneSpent(now) && run.status.Running? && run.cursor < |cfg.workflow|
      modifies this
      ensures Ready() && old(labels) <= labels
      ensures r.Err? ==> r.error.Io? && trouble && !Stopped(run.status)
      ensures r.Ok? ==> Synced() && run.status == r.value && (Stopped(r.value) || (r.value.Running? && NoneSpent(now)))
      ensures r.Ok? && outcome.Some? ==>
                && Follows(cfg, outcome.value, old(run).cursor, old(run).retryCounts, run)
                && Told(run.steps, cfg.workflow[old(run).cursor].id, outcome.value)
                && (outcome.value.Succeeded? && !dryRun ==> Deserved(cfg.workflow[old(run).cursor].spec, w))
      ensures r.Ok? && outcome.None? ==> (r.value.Cancelled? && asked) || (r.value.Failed? && late)
      ensures r.Ok? ==> !r.value.Succeeded?
      ensures dryRun ==> now.log.prompts == old(now).log.prompts && now.log.effects == old(now).log.effects
    {
      hide Valid, Near, SaveOk, DidIn, Follows, Deserved;
      outcome := None;
      var stop := CheckCancel();
      if stop {
        r := CancelRun();
        return;
      }
      Others(); // the run may be paused for a while
      var _ :- TryAnything();
      if * {
        late := true;
        r := Stop(RunStatus.Failed);
        return;
      }
      var done :- ExecuteStep(dryRun, w);
      outcome := Some(done);
      r := Conclude(done);
    }

    /** What the loop makes of the outcome of a step. */
    method Conclude(outcome: Outcome) returns (r: Result<RunStatus>)
      requires Ready() && run.cursor < |cfg.workflow|
      requires outcome.Cancelled? ==> run.status.Running? || run.status.AwaitingApproval?
      requires !outcome.Cancelled? ==> AtStep() && NoOpenCommand(cfg, run.steps)
      modifies `run, `now, `path, `labels
      ensures r.Ok? && Synced() && run.status == r.value && old(labels) <= labels
      ensures if r.value.Running? then NoneSpent(now) else Stopped(r.value) && !r.value.Succeeded?
      ensures Follows(cfg, outcome, old(run).cursor, old(run).retryCounts, run)
      ensures now.log.prompts == old(now).log.prompts && now.log.effects == old(now).log.effects
      ensures !outcome.Cancelled? ==> run.steps == old(run).steps
    {
      hide Near, SaveOk, Left, Inv, Execution, DidIn, Honest;
      match outcome {
        case Succeeded =>
          Advance();
          r := Ok(RunStatus.Running);
        case Skipped =>
          Advance();
          r := Ok(RunStatus.Running);
        case Failed =>
          RetryStepIsBack();
          var stop :- HandleFailure();
          r := Ok(run.status);
        case Blocked =>
          r := Stop(RunStatus.Blocked);
        case NeedsHuman =>
          r := Stop(RunStatus.NeedsHuman);
        case Cancelled =>
          r := CancelRun();
      }
    }

    lemma RetryStepIsBack()
      requires Valid() && run.cursor < |cfg.workflow|
      ensures var f := cfg.workflow[run.cursor].onFailure;
              f.Some? ==> IndexOf(cfg.workflow, f.value.retryStep) <= run.cursor
    {
      hide Execution, Inv, Honest;
    }

    /** Drives the run and lets go of it; an internal error fails it. */
    method Drive(dryRun: bool, first: StartWorld) returns (status: RunStatus, ghost trace: seq<Outcome>)
      requires Synced() && NoneSpent(now) && !run.status.Blocked? && !run.status.NeedsHuman?
      modifies this
      ensures Valid() && now.driver == None && old(labels) < labels
      ensures now.doc.status == status && Stopped(status)
      ensures status.Succeeded? && !old(run).status.IsTerminal() ==> now.doc.cursor >= |cfg.workflow|
      ensures old(run).status.IsTerminal() ==> now.doc == old(now).doc
      ensures !old(run).status.IsTerminal() ==>
                Explained(trace, old(run), first, status) || (status.Failed? && trouble)
      ensures dryRun ==> now.log.prompts == old(now).log.prompts && now.log.effects == old(now).log.effects
    {
      hide Enabled, Apply, Execution, SaveOk, Near, Interpreted;
      hide IdsInv, PromptInv, SpawnInv, FocusInv, RetryInv, DecidedInv, ConsentInv;
      var r, _, outcomes := Execute(dryRun, first);
      trace := outcomes;
      if r.Err? {
        Fail();
      }
      status := run.status;
      MayRelease(cfg, now);
      Happen(Release);
    }

    /**
     * On every way through the code above: whatever the driver did was allowed by policy, and
     * what policy asks a human about was approved by a human before.
     */
    lemma PolicyWasHonoured(j: nat) returns (decided: nat)
      requires Valid() && start <= j < |labels| && RunGuarantees.ActedOn(labels[j]).Some?
      ensures var g := RunGuarantees.ActedOn(labels[j]).value;
              && !judge(g.action, g.exec).Deny?
              && (judge(g.action, g.exec).RequireApproval? ==>
                    decided < j && labels[decided].Decide? && labels[decided].approve)
    {
      hide Enabled, Apply, Inv, Init;
      var g := RunGuarantees.ActedOn(labels[j]).value;
      var d, _, _ := RunGuarantees.EffectsHadConsent(cfg, path, labels, j);
      decided := d;
      assert StepAt(cfg, path, labels, j);
      RunGuarantees.ActsOnClearance(cfg, path[j], labels[j]);
      var gated := RunGuarantees.GateOrigin(cfg, path, labels, start, j, g);
    }
  }
}
