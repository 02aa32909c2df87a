/**
 * One run as a crash-prone protocol. A world holds what is durable (the run document, the
 * approval requests), what the outside can see (the worktree's HEAD), what dies in a crash
 * (the driver's volatile state), and a log of what really happened, which no step reads.
 * Everything a driver, a human, a crash, recovery or the scheduler may do is one label.
 */
module RunProtocol {
  import opened Text
  import opened RunModel
  import Policy

  /** The workflow snapshot of the run and the configured limit on retries. */
  datatype Config = Config(workflow: Workflow, maxRetries: nat)

  /** How often the failures of a step may be routed back: the smaller of its own and the global limit. */
  function CapAt(cfg: Config, i: nat): nat
    requires i < |cfg.workflow|
  {
    match cfg.workflow[i].onFailure
    case None => 0
    case Some(f) => if f.maxAttempts < cfg.maxRetries then f.maxAttempts else cfg.maxRetries
  }

  function CapOf(cfg: Config, id: string): nat {
    var i := IndexOf(cfg.workflow, id);
    if i < |cfg.workflow| then CapAt(cfg, i) else 0
  }

  // ------------------------------------------------------------------- worlds

  datatype Action = LaunchAgent | RunCommand | Push | OpenPr

  /** Why a gate let an action through. */
  datatype Clearance = Permitted | ByGrant(approval: nat) | ByCover(cover: Cover)

  datatype Gate = Gate(exec: nat, step: string, action: Action, verdict: Policy.Decision, why: Clearance)

  /** What a crash would interrupt: nothing, a prompt announced but not yet sent, or a spawn not yet recorded. */
  datatype Phase = Between | SendDue(k: nat) | Spawned(k: nat)

  datatype Driver = Driver(phase: Phase, granted: set<nat>, gates: set<Gate>)

  /** What really happened. `spent` holds the executions whose process may have run and was not written off. */
  datatype History = History(
    prompts: multiset<nat>,
    spawns: multiset<nat>,
    lost: multiset<nat>,
    reopened: multiset<nat>,
    spent: set<nat>,
    routes: multiset<string>,
    decided: map<nat, bool>,
    covers: set<Cover>,
    effects: seq<Gate>)

  datatype World = World(
    doc: Run,
    approvals: Requests,
    head: Option<nat>,
    nextId: nat,
    driver: Option<Driver>,
    log: History)

  const NEW_RUN := Run(RunStatus.Pending, 0, [], map[], [], None)

  const NOTHING_HAPPENED :=
    History(multiset{}, multiset{}, multiset{}, multiset{}, {}, multiset{}, map[], {}, [])

  ghost predicate Init(cfg: Config, w: World) {
    w.doc == NEW_RUN && w.approvals == map[] && w.driver == None && w.log == NOTHING_HAPPENED
  }

  // ----------------------------------------------------------------- recovery

  datatype AgentState = Alive | Gone | Unknown

  datatype PrState = Found | Absent | Unreachable | NoTool

  /**
   * What recovery finds outside the run document. `unreadable` says that the stored workflow cannot be read;
   * an agent whose configuration cannot be loaded is `Unknown`.
   */
  datatype Probe = Probe(unreadable: bool, worktreeGone: bool, agent: AgentState, pr: PrState)

  datatype Classification = Recoverable | NeedsHuman | Stale | CompletedExternally | Failed

  predicate AwaitsDecision(e: Exec, approvals: Requests) {
    && e.approval.Some?
    && e.approval.value in approvals
    && (approvals[e.approval.value].status == ApprovalStatus.Pending || e.status.AwaitingApproval?)
  }

  function ClassifyStep(spec: StepSpec, e: Exec, probe: Probe): Classification {
    match spec
    case Agent =>
      if e.agent.None? || probe.agent.Alive? then Recoverable
      else if probe.agent.Gone? && !e.agent.value.promptSent then Recoverable
      else Classification.NeedsHuman
    case Check => Recoverable
    case Command => if e.status.Starting? && !e.process then Recoverable else Classification.NeedsHuman
    case GithubPr =>
      if probe.pr.Found? then CompletedExternally
      else if probe.pr.Absent? then Recoverable
      else Classification.NeedsHuman
    case Git => Recoverable
    case Policy => Recoverable
    case Approval => Recoverable
  }

  function Classify(cfg: Config, doc: Run, approvals: Requests, probe: Probe): Classification {
    if probe.worktreeGone && !doc.status.Preparing? then Classification.Failed
    else if probe.unreadable then Classification.NeedsHuman
    else
      var k := LastOpen(doc.steps);
      if k == |doc.steps| then
        if !doc.status.Preparing? && doc.cursor >= |cfg.workflow| then Stale else Recoverable
      else
        var e := doc.steps[k];
        var i := IndexOf(cfg.workflow, e.step);
        if i == |cfg.workflow| then Classification.NeedsHuman
        else if AwaitsDecision(e, approvals) then Recoverable
        else ClassifyStep(cfg.workflow[i].spec, e, probe)
  }

  function Recovered(doc: Run, class_: Classification): Run {
    match class_
    case Recoverable => doc.(status := RunStatus.Pending)
    case Stale => doc.(status := RunStatus.Pending)
    case CompletedExternally =>
      var k := LastOpen(doc.steps);
      doc.(
        status := RunStatus.Pending,
        cursor := doc.cursor + 1,
        steps := if k < |doc.steps| then doc.steps[k := doc.steps[k].(status := StepStatus.Succeeded)] else doc.steps)
    case NeedsHuman => doc.(status := RunStatus.NeedsHuman)
    case Failed => doc.(status := RunStatus.Failed, steps := CloseAll(doc.steps, StepStatus.Failed))
  }

  /** The execution recovery will let the next driver run again although its process may have run. */
  function Reopened(w: World, class_: Classification): set<nat> {
    var k := LastOpen(w.doc.steps);
    if (class_.Recoverable? || class_.Stale?) && k < |w.doc.steps| && w.doc.steps[k].id in w.log.spent
    then {w.doc.steps[k].id}
    else {}
  }

  /** The counters of steps before the cursor; those of the cursor's step and later ones are forgotten. */
  function EarlierCounts(wf: Workflow, cursor: nat, counts: map<string, nat>): map<string, nat> {
    map id | id in counts && (IndexOf(wf, id) == |wf| || IndexOf(wf, id) < cursor) :: counts[id]
  }

  /** A human's retry: everything open is closed, and the counters from the cursor on start afresh. */
  function Retried(cfg: Config, doc: Run, from: Option<string>): Run {
    var wf := cfg.workflow;
    var cursor := if from.Some? && IndexOf(wf, from.value) < |wf| then IndexOf(wf, from.value) else doc.cursor;
    doc.(
      status := RunStatus.Pending,
      cursor := cursor,
      steps := CloseAll(doc.steps, StepStatus.Cancelled),
      retryCounts := EarlierCounts(wf, cursor, doc.retryCounts))
  }

  function CancelledIdle(doc: Run): Run {
    doc.(status := RunStatus.Cancelled, steps := CloseAll(doc.steps, StepStatus.Cancelled))
  }

  // -------------------------------------------------------------- driver saves

  predicate Belongs(approvals: Requests, a: nat, exec: nat, step: string) {
    a in approvals && approvals[a].exec == exec && approvals[a].step == step
  }

  predicate IsCommand(cfg: Config, e: Exec) {
    SpecOf(cfg.workflow, e.step) == Some(StepSpec.Command)
  }

  predicate NoOpenCommand(cfg: Config, steps: seq<Exec>) {
    forall k :: 0 <= k < |steps| && steps[k].IsOpen() ==> !IsCommand(cfg, steps[k])
  }

  /** What one save may do to one execution. */
  predicate ExecKept(cfg: Config, w: World, e: Exec, f: Exec) {
    && f.id == e.id && f.step == e.step && f.attempt == e.attempt
    && (f.process == e.process || !IsCommand(cfg, e))
    && (!e.IsOpen() ==> f == e)
    && e.status.CanTransitionTo(f.status) && !f.status.Retrying?
    && (e.agent.Some? ==> f.agent.Some?) && f.Prompted() == e.Prompted()
    && (f.approval == e.approval || (f.approval.Some? && Belongs(w.approvals, f.approval.value, e.id, e.step)))
    && (e.id in w.log.spent ==> f.approval == e.approval && (f == e || f.status.IsTerminal()))
  }

  /** No open execution has a process that may have run. */
  predicate NoneSpent(w: World) {
    forall k :: 0 <= k < |w.doc.steps| && w.doc.steps[k].IsOpen() ==> w.doc.steps[k].id !in w.log.spent
  }

  function FreshExec(cfg: Config, w: World): Exec
    requires w.doc.cursor < |cfg.workflow|
  {
    var id := cfg.workflow[w.doc.cursor].id;
    Exec(w.nextId, id, AttemptsOf(w.doc.steps, id) + 1, StepStatus.Pending, None, false, None)
  }

  /** A save by the driver; the status tables are what the driver checks before it gets here. */
  predicate SaveOk(cfg: Config, w: World, r: Run) {
    var d := w.doc;
    && d.status.CanTransitionTo(r.status) && (r.status.Pending? ==> d.status.Pending?)
    && r.retryCounts == d.retryCounts
    && |d.steps| <= |r.steps| <= |d.steps| + 1
    && (forall k :: 0 <= k < |d.steps| ==> ExecKept(cfg, w, d.steps[k], r.steps[k]))
    && (|r.steps| > |d.steps| ==>
          && d.cursor < |cfg.workflow| && r.cursor == d.cursor
          && NoneSpent(w) && NoOpenCommand(cfg, d.steps)
          && r.steps[|d.steps|] == FreshExec(cfg, w))
    && (r.cursor == d.cursor
        || (r.cursor == d.cursor + 1 && d.cursor < |cfg.workflow| && NoOpenCommand(cfg, r.steps)))
    && (forall a :: a in r.approvals ==> a in w.approvals)
    && (r.cover == d.cover || (r.cover.Some? && r.cover.value in w.log.covers))
  }

  /** The step at the cursor failed, has retries left, and goes back to its retry step. */
  predicate CanRoute(cfg: Config, d: Run) {
    && d.cursor < |cfg.workflow|
    && NoOpenCommand(cfg, d.steps)
    && var s := cfg.workflow[d.cursor];
       && s.onFailure.Some?
       && CountOf(d.retryCounts, s.id) < CapAt(cfg, d.cursor)
       && IndexOf(cfg.workflow, s.onFailure.value.retryStep) < |cfg.workflow|
  }

  function Routed(cfg: Config, d: Run): Run
    requires CanRoute(cfg, d)
  {
    var s := cfg.workflow[d.cursor];
    d.(
      cursor := IndexOf(cfg.workflow, s.onFailure.value.retryStep),
      retryCounts := d.retryCounts[s.id := CountOf(d.retryCounts, s.id) + 1])
  }

  /** A cover names the step right after the approval step it comes from, or the PR step that asked itself. */
  predicate CoverNames(cfg: Config, asked: string, covered: string) {
    || (SpecOf(cfg.workflow, asked) == Some(StepSpec.Approval)
        && IndexOf(cfg.workflow, covered) == IndexOf(cfg.workflow, asked) + 1)
    || (SpecOf(cfg.workflow, asked) == Some(StepSpec.GithubPr) && covered == asked)
  }

  /** The gate in front of a side effect. An agent's launch is never covered by an earlier approval. */
  predicate GateOk(w: World, d: Driver, g: Gate) {
    match g.verdict
    case Deny => false
    case Allow => g.why.Permitted?
    case RequireApproval =>
      match g.why
      case Permitted => false
      case ByGrant(a) => a in d.granted && Belongs(w.approvals, a, g.exec, g.step)
      case ByCover(c) => !g.action.LaunchAgent? && c in w.log.covers && c.step == g.step && c.head == w.head
  }

  // -------------------------------------------------------------------- labels

  datatype Label =
    | Acquire
    | Save(run: Run)
    | Route
    | AnnouncePrompt(k: nat)
    | SendPrompt
    | DropPrompt
    | PassGate(k: nat, gate: Gate)
    | Act(gate: Gate)
    | Spawn(k: nat, gate: Gate)
    | Bind
    | Ask(k: nat)
    | SeeGrant(a: nat)
    | Expire(a: nat)
    | TakeCover(cover: Cover)
    | CancelRequests(ids: seq<nat>)
    | Release
    | Decide(a: nat, approve: bool)
    | Commit(head: Option<nat>)
    | MoveHead(head: Option<nat>)
    | Crash
    | Recover(probe: Probe)
    | HumanRetry(from: Option<string>)
    | CancelIdle

  /** The request granted is the execution's own, and it is past waiting for it. */
  predicate UnderGrant(e: Exec, a: nat) {
    e.approval == Some(a) && (e.status.Running? || e.status.AwaitingHuman?)
  }

  predicate Driving(w: World) {
    w.driver.Some? && w.driver.value.phase.Between?
  }

  predicate OpenAt(w: World, k: nat) {
    k < |w.doc.steps| && w.doc.steps[k].IsOpen()
  }

  predicate Enabled(cfg: Config, w: World, l: Label) {
    match l
    // The per-run lock: one driver at a time. Whatever the status is, the driver takes the run.
    case Acquire => w.driver.None?
    case Save(r) => Driving(w) && SaveOk(cfg, w, r)
    case Route => Driving(w) && CanRoute(cfg, w.doc)
    case AnnouncePrompt(k) => Driving(w) && OpenAt(w, k) && w.doc.steps[k].agent.Some? && !w.doc.steps[k].Prompted()
                              && w.doc.steps[k].id !in w.log.spent
    case SendPrompt => w.driver.Some? && w.driver.value.phase.SendDue?
    case DropPrompt => w.driver.Some? && w.driver.value.phase.SendDue?
    case PassGate(k, g) => Driving(w) && OpenAt(w, k) && g.exec == w.doc.steps[k].id && g.step == w.doc.steps[k].step
                           && GateOk(w, w.driver.value, g)
    // A check or a probe may run again at any time; only commands are tracked from spawn to end.
    case Act(g) => Driving(w) && g in w.driver.value.gates
                   && (g.action.RunCommand? ==> SpecOf(cfg.workflow, g.step) != Some(StepSpec.Command))
    case Spawn(k, g) => Driving(w) && w.doc.status.Running?
                        && OpenAt(w, k) && IsCommand(cfg, w.doc.steps[k]) && w.doc.steps[k].id !in w.log.spent
                        && g in w.driver.value.gates && g.action.RunCommand? && g.exec == w.doc.steps[k].id
                        && w.doc.steps[k].status.CanTransitionTo(StepStatus.Running)
                        && (g.why.ByGrant? ==> UnderGrant(w.doc.steps[k], g.why.approval))
    case Bind => w.driver.Some? && w.driver.value.phase.Spawned?
    case Ask(k) => Driving(w) && OpenAt(w, k)
    case SeeGrant(a) => Driving(w) && a in w.approvals && w.approvals[a].status.Approved?
    // The waiting driver writes the deadline without looking at the status again.
    case Expire(a) => Driving(w) && a in w.approvals
    case TakeCover(c) => Driving(w) && c.approval in w.driver.value.granted && c.approval in w.approvals
                         && c.head == w.head && CoverNames(cfg, w.approvals[c.approval].step, c.step)
    case CancelRequests(_) => Driving(w)
    case Release => Driving(w)
    case Decide(a, _) => a in w.approvals && w.approvals[a].status == ApprovalStatus.Pending
    // The driver's own commit; anybody else may move HEAD at any time.
    case Commit(_) => Driving(w)
    case MoveHead(_) => true
    case Crash => w.driver.Some?
    case Recover(_) => w.driver.None? && w.doc.status.Interrupted()
    case HumanRetry(_) => w.driver.None? && w.doc.status.CanResume()
    case CancelIdle => w.driver.None? && (w.doc.status.Pending? || w.doc.status.Blocked? || w.doc.status.NeedsHuman?)
  }

  function InPhase(w: World, p: Phase): World
    requires w.driver.Some?
  {
    w.(driver := Some(w.driver.value.(phase := p)))
  }

  /** The open command that a driver taking the run will run again although its process may have run. */
  function Unrecovered(w: World): set<nat> {
    var k := LastOpen(w.doc.steps);
    if k < |w.doc.steps| && w.doc.steps[k].id in w.log.spent then {w.doc.steps[k].id} else {}
  }

  /** A driver takes the run and will go on with what is open. */
  function Taken(w: World): World {
    var again := Unrecovered(w);
    var v := w.(driver := Some(Driver(Between, {}, {})));
    if again == {} then v
    else v.(log := v.log.(reopened := v.log.reopened + multiset(again), spent := v.log.spent - again))
  }

  /** A crash forgets the driver; a spawn not yet recorded is written off as lost. */
  function Crashed(w: World): World
    requires w.driver.Some?
  {
    var p := w.driver.value.phase;
    if p.Spawned? && p.k < |w.doc.steps| then
      var x := w.doc.steps[p.k].id;
      w.(driver := None, log := w.log.(lost := w.log.lost + multiset{x}, spent := w.log.spent - {x}))
    else
      w.(driver := None)
  }

  function SentPrompt(w: World): World
    requires w.driver.Some? && w.driver.value.phase.SendDue?
  {
    var k := w.driver.value.phase.k;
    InPhase(
      if k < |w.doc.steps| then w.(log := w.log.(prompts := w.log.prompts + multiset{w.doc.steps[k].id})) else w,
      Between)
  }

  function Bound(w: World): World
    requires w.driver.Some? && w.driver.value.phase.Spawned?
  {
    var k := w.driver.value.phase.k;
    InPhase(
      if k < |w.doc.steps| then
        w.(doc := w.doc.(steps := w.doc.steps[k := w.doc.steps[k].(process := true, status := StepStatus.Running)]))
      else w,
      Between)
  }

  function Apply(cfg: Config, w: World, l: Label): World
    requires Enabled(cfg, w, l)
  {
    match l
    case Acquire => Taken(w)
    case Save(r) => w.(doc := r, nextId := if |r.steps| > |w.doc.steps| then w.nextId + 1 else w.nextId)
    case Route =>
      w.(doc := Routed(cfg, w.doc),
         log := w.log.(routes := w.log.routes + multiset{cfg.workflow[w.doc.cursor].id}))
    case AnnouncePrompt(k) =>
      InPhase(w.(doc := w.doc.(steps := w.doc.steps[k := w.doc.steps[k].(agent := Some(Binding(true)))])), SendDue(k))
    case SendPrompt => SentPrompt(w)
    case DropPrompt => InPhase(w, Between)
    case PassGate(_, g) => w.(driver := Some(w.driver.value.(gates := w.driver.value.gates + {g})))
    case Act(g) =>
      w.(driver := Some(w.driver.value.(gates := w.driver.value.gates - {g})),
         log := w.log.(effects := w.log.effects + [g]))
    case Spawn(k, g) =>
      var x := w.doc.steps[k].id;
      w.(driver := Some(w.driver.value.(phase := Spawned(k), gates := w.driver.value.gates - {g})),
         log := w.log.(
           effects := w.log.effects + [g], spawns := w.log.spawns + multiset{x}, spent := w.log.spent + {x}))
    case Bind => Bound(w)
    case Ask(k) =>
      w.(approvals := w.approvals[w.nextId := Request(ApprovalStatus.Pending, w.doc.steps[k].id, w.doc.steps[k].step)],
         nextId := w.nextId + 1)
    case SeeGrant(a) => w.(driver := Some(w.driver.value.(granted := w.driver.value.granted + {a})))
    case Expire(a) => w.(approvals := RunModel.Expire(w.approvals, a))
    case TakeCover(c) => w.(log := w.log.(covers := w.log.covers + {c}))
    case CancelRequests(ids) => w.(approvals := CancelPending(w.approvals, ids))
    case Release => w.(driver := None)
    case Decide(a, approve) =>
      w.(approvals := RunModel.Decide(w.approvals, a, approve).0, log := w.log.(decided := w.log.decided[a := approve]))
    case Commit(h) => w.(head := h)
    case MoveHead(h) => w.(head := h)
    case Crash => Crashed(w)
    case Recover(probe) =>
      var class_ := Classify(cfg, w.doc, w.approvals, probe);
      var again := Reopened(w, class_);
      w.(doc := Recovered(w.doc, class_),
         log := w.log.(reopened := w.log.reopened + multiset(again), spent := w.log.spent - again))
    case HumanRetry(from) => w.(doc := Retried(cfg, w.doc, from))
    case CancelIdle => w.(doc := CancelledIdle(w.doc), approvals := CancelPending(w.approvals, w.doc.approvals))
  }

  ghost predicate StepAt(cfg: Config, path: seq<World>, labels: seq<Label>, i: nat)
    requires i < |labels| && |path| == |labels| + 1
  {
    Enabled(cfg, path[i], labels[i]) && path[i + 1] == Apply(cfg, path[i], labels[i])
  }

  /** A run from its creation through any number of steps, crashes included. */
  ghost predicate Execution(cfg: Config, path: seq<World>, labels: seq<Label>) {
    && |path| == |labels| + 1
    && Init(cfg, path[0])
    && forall i: nat :: i < |labels| ==> StepAt(cfg, path, labels, i)
  }

  // ---------------------------------------------------------------- invariants

  predicate IdsInv(w: World) {
    && (forall i, j :: 0 <= i < j < |w.doc.steps| ==> w.doc.steps[i].id != w.doc.steps[j].id)
    && (forall i :: 0 <= i < |w.doc.steps| ==> w.doc.steps[i].id < w.nextId && !w.doc.steps[i].status.Retrying?)
    && (forall a :: a in w.approvals ==> a < w.nextId)
    && (forall a :: a in w.doc.approvals ==> a in w.approvals)
    && (forall i :: 0 <= i < |w.doc.steps| && w.doc.steps[i].approval.Some? ==>
          Belongs(w.approvals, w.doc.steps[i].approval.value, w.doc.steps[i].id, w.doc.steps[i].step))
  }

  /** At most one prompt per execution, and the document knows of it. */
  ghost predicate PromptInv(w: World) {
    && (forall x :: w.log.prompts[x] <= 1 && (w.log.prompts[x] > 0 ==> x < w.nextId))
    && (forall k :: 0 <= k < |w.doc.steps| && w.log.prompts[w.doc.steps[k].id] > 0 && w.doc.steps[k].IsOpen() ==>
          w.doc.steps[k].Prompted())
    && (w.driver.Some? && w.driver.value.phase.SendDue? ==>
          var k := w.driver.value.phase.k;
          k < |w.doc.steps| && w.doc.steps[k].Prompted() && w.log.prompts[w.doc.steps[k].id] == 0)
  }

  /** An open command execution is the last one, and the cursor is on its step. */
  predicate FocusInv(cfg: Config, w: World) {
    forall k :: 0 <= k < |w.doc.steps| && w.doc.steps[k].IsOpen() && IsCommand(cfg, w.doc.steps[k]) ==>
      k + 1 == |w.doc.steps| && w.doc.cursor < |cfg.workflow| && cfg.workflow[w.doc.cursor].id == w.doc.steps[k].step
  }

  /** Every spawn is the one under way, was lost in a crash, or was reopened by recovery. */
  ghost predicate SpawnInv(cfg: Config, w: World) {
    && (forall x :: w.log.spawns[x] == w.log.lost[x] + w.log.reopened[x] + (if x in w.log.spent then 1 else 0))
    && (forall x :: x in w.log.spent ==> x < w.nextId)
    && (forall k :: 0 <= k < |w.doc.steps| && w.doc.steps[k].id in w.log.spent ==> IsCommand(cfg, w.doc.steps[k]))
    && (forall k :: 0 <= k < |w.doc.steps| && w.doc.steps[k].IsOpen() && w.doc.steps[k].id in w.log.spent ==>
          && (w.driver == None || w.driver.value.phase != Spawned(k) ==>
                w.doc.steps[k].process && w.doc.steps[k].status.Running?))
    && (w.driver.Some? && w.driver.value.phase.Spawned? ==>
          var k := w.driver.value.phase.k;
          w.doc.status.Running? && OpenAt(w, k) && w.doc.steps[k].id in w.log.spent
          && w.doc.steps[k].status.CanTransitionTo(StepStatus.Running))
    && (w.doc.status.Pending? ==> NoneSpent(w))
  }

  ghost predicate RetryInv(cfg: Config, w: World) {
    forall id :: CountOf(w.doc.retryCounts, id) <= CapOf(cfg, id)
  }

  predicate Granted(w: World, a: nat) {
    a in w.approvals && a in w.log.decided && w.log.decided[a]
  }

  predicate Evidence(cfg: Config, w: World, g: Gate) {
    match g.verdict
    case Deny => false
    case Allow => g.why.Permitted?
    case RequireApproval =>
      match g.why
      case Permitted => false
      case ByGrant(a) => Granted(w, a) && w.approvals[a].exec == g.exec && w.approvals[a].step == g.step
      case ByCover(c) =>
        !g.action.LaunchAgent? && Granted(w, c.approval) && c.step == g.step
        && CoverNames(cfg, w.approvals[c.approval].step, g.step)
  }

  predicate CoverEvidence(cfg: Config, w: World, c: Cover) {
    Granted(w, c.approval) && CoverNames(cfg, w.approvals[c.approval].step, c.step)
  }

  /** An approved request was approved by a human, and a decided request is never pending again. */
  predicate DecidedInv(w: World) {
    && (forall a :: a in w.log.decided ==> a in w.approvals && w.approvals[a].status != ApprovalStatus.Pending)
    && (forall a :: a in w.approvals && w.approvals[a].status.Approved? ==> Granted(w, a))
  }

  /** Consent: what is granted, covered, cleared or done goes back to a decision a human made. */
  predicate ConsentInv(cfg: Config, w: World) {
    && (forall c :: c in w.log.covers ==> CoverEvidence(cfg, w, c))
    && (forall i :: 0 <= i < |w.log.effects| ==> Evidence(cfg, w, w.log.effects[i]))
    && (w.doc.cover.Some? ==> w.doc.cover.value in w.log.covers)
    && (w.driver.Some? ==>
          && (forall a :: a in w.driver.value.granted ==> Granted(w, a))
          && (forall g :: g in w.driver.value.gates ==> Evidence(cfg, w, g)))
  }

  ghost predicate Inv(cfg: Config, w: World) {
    && IdsInv(w) && PromptInv(w) && FocusInv(cfg, w) && SpawnInv(cfg, w)
    && RetryInv(cfg, w) && DecidedInv(w) && ConsentInv(cfg, w)
  }
}
