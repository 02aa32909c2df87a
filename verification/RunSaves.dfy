/** What the driver may save next: how each change it makes in memory keeps the document savable. */
module RunSaves {
  import opened Text
  import opened RunModel
  import opened RunProtocol
  import opened RunSafety

  /** The memory is the document, up to changes that do not touch any status. */
  predicate Near(cfg: Config, w: World, r: Run): (near: bool)
    ensures near ==> SaveOk(cfg, w, r) && r.status == w.doc.status && |r.steps| == |w.doc.steps|
  {
    && SaveOk(cfg, w, r)
    && r.status == w.doc.status
    && r.cursor == w.doc.cursor
    && |r.steps| == |w.doc.steps|
    && forall k :: 0 <= k < |r.steps| ==> r.steps[k].status == w.doc.steps[k].status
  }

  /** Where the run stands in its workflow has not changed. */
  predicate Akin(a: Run, b: Run) {
    a.cursor == b.cursor && a.retryCounts == b.retryCounts && a.cover == b.cover && |a.steps| == |b.steps|
  }

  /** Only what is recorded about executions differs. */
  predicate SameButExecs(a: Run, b: Run) {
    b == a.(steps := b.steps) && |b.steps| == |a.steps|
  }

  function WithExec(r: Run, k: nat, e: Exec): Run
    requires k < |r.steps|
  {
    r.(steps := r.steps[k := e])
  }

  lemma DocIsNear(cfg: Config, w: World)
    requires IdsInv(w)
    ensures Near(cfg, w, w.doc)
  {}

  lemma StatusIsSavable(cfg: Config, w: World, r: Run, next: RunStatus)
    requires SaveOk(cfg, w, r) && r.status == w.doc.status
    requires r.status.CanTransitionTo(next) && !next.Pending?
    ensures SaveOk(cfg, w, r.(status := next))
  {}

  lemma ExecStatusIsSavable(cfg: Config, w: World, r: Run, k: nat, next: StepStatus)
    requires Near(cfg, w, r) && k < |r.steps| && r.steps[k].IsOpen()
    requires r.steps[k].status.CanTransitionTo(next) && !next.Retrying?
    requires r.steps[k].id in w.log.spent ==> next.IsTerminal()
    ensures SaveOk(cfg, w, WithExec(r, k, r.steps[k].(status := next)))
  {}

  lemma BindingStaysNear(cfg: Config, w: World, r: Run, k: nat)
    requires Near(cfg, w, r) && k < |r.steps| && r.steps[k].IsOpen() && r.steps[k].id !in w.log.spent
    ensures Near(cfg, w, WithExec(r, k, r.steps[k].(agent := Some(Binding(r.steps[k].Prompted())))))
  {}

  lemma ProcessStaysNear(cfg: Config, w: World, r: Run, k: nat)
    requires Near(cfg, w, r) && k < |r.steps| && r.steps[k].IsOpen() && !IsCommand(cfg, r.steps[k])
    requires r.steps[k].id !in w.log.spent
    ensures Near(cfg, w, WithExec(r, k, r.steps[k].(process := true)))
  {}

  lemma RequestStaysNear(cfg: Config, w: World, r: Run, k: nat, a: nat)
    requires Near(cfg, w, r) && k < |r.steps| && r.steps[k].IsOpen() && r.steps[k].id !in w.log.spent
    requires Belongs(w.approvals, a, r.steps[k].id, r.steps[k].step)
    ensures Near(cfg, w, WithExec(r, k, r.steps[k].(approval := Some(a))).(approvals := r.approvals + [a]))
  {}

  lemma CoverStaysNear(cfg: Config, w: World, r: Run, c: Cover)
    requires Near(cfg, w, r) && c in w.log.covers
    ensures Near(cfg, w, r.(cover := Some(c)))
  {}

  lemma ClosingIsSavable(cfg: Config, w: World, r: Run, final: StepStatus)
    requires Near(cfg, w, r) && IdsInv(w) && final in {StepStatus.Failed, StepStatus.Cancelled}
    ensures SaveOk(cfg, w, r.(steps := CloseAll(r.steps, final)))
  {}

  lemma AdvanceIsSavable(cfg: Config, w: World)
    requires IdsInv(w) && w.doc.cursor < |cfg.workflow| && NoOpenCommand(cfg, w.doc.steps)
    ensures SaveOk(cfg, w, w.doc.(cursor := w.doc.cursor + 1))
  {}

  lemma NewExecIsSavable(cfg: Config, w: World)
    requires IdsInv(w) && w.doc.cursor < |cfg.workflow| && NoneSpent(w) && NoOpenCommand(cfg, w.doc.steps)
    ensures SaveOk(cfg, w, w.doc.(steps := w.doc.steps + [FreshExec(cfg, w)]))
  {}

  /** The rest of the world may move on: what could be saved still can. */
  lemma StaysNear(cfg: Config, w: World, v: World, r: Run)
    requires Near(cfg, w, r) && Extends(w, v)
    requires v.doc == w.doc && v.nextId >= w.nextId && w.log.covers <= v.log.covers && v.log.spent == w.log.spent
    ensures Near(cfg, v, r)
  {}

  lemma StaysSavable(cfg: Config, w: World, v: World, r: Run)
    requires SaveOk(cfg, w, r) && Extends(w, v)
    requires v.doc == w.doc && v.nextId == w.nextId && w.log.covers <= v.log.covers && v.log.spent == w.log.spent
    ensures SaveOk(cfg, v, r)
  {}

  /** Nothing to resume at the cursor's step means that no command is open at all. */
  lemma NothingToResume(cfg: Config, w: World, k: nat)
    requires FocusInv(cfg, w) && w.doc.cursor < |cfg.workflow|
    requires k == LatestOf(w.doc.steps, cfg.workflow[w.doc.cursor].id) && !OpenAt(w, k)
    ensures NoOpenCommand(cfg, w.doc.steps)
  {}

  /** At the end of a step, no command is open: the last execution is closed, or the step is none. */
  lemma NothingLeftOpen(cfg: Config, w: World)
    requires ValidWorkflow(cfg.workflow) && FocusInv(cfg, w) && w.doc.cursor < |cfg.workflow|
    requires cfg.workflow[w.doc.cursor].spec.Command? ==> |w.doc.steps| > 0 && !w.doc.steps[|w.doc.steps| - 1].IsOpen()
    ensures NoOpenCommand(cfg, w.doc.steps)
  {
    IndexOfAt(cfg.workflow, w.doc.cursor);
  }

  // ------------------------------------------------- when a label may happen

  lemma MaySave(cfg: Config, w: World, r: Run)
    requires Driving(w) && SaveOk(cfg, w, r)
    ensures Enabled(cfg, w, Label.Save(r))
    ensures Apply(cfg, w, Label.Save(r))
         == w.(doc := r, nextId := if |r.steps| > |w.doc.steps| then w.nextId + 1 else w.nextId)
  {}

  lemma MayDecide(cfg: Config, w: World, a: nat, approve: bool)
    requires a in w.approvals && w.approvals[a].status == ApprovalStatus.Pending
    ensures Enabled(cfg, w, Label.Decide(a, approve))
    ensures var v := Apply(cfg, w, Label.Decide(a, approve));
            v == w.(approvals := v.approvals, log := w.log.(decided := v.log.decided))
  {}

  lemma MayCommit(cfg: Config, w: World, head: Option<nat>)
    requires Driving(w)
    ensures Enabled(cfg, w, Label.Commit(head)) && Apply(cfg, w, Label.Commit(head)) == w.(head := head)
  {}

  lemma MayMoveHead(cfg: Config, w: World, head: Option<nat>)
    ensures Enabled(cfg, w, Label.MoveHead(head)) && Apply(cfg, w, Label.MoveHead(head)) == w.(head := head)
  {}

  lemma MayAsk(cfg: Config, w: World, k: nat)
    requires Driving(w) && OpenAt(w, k)
    ensures Enabled(cfg, w, Label.Ask(k))
    ensures Apply(cfg, w, Label.Ask(k)) == w.(
              approvals := w.approvals[
                w.nextId := Request(ApprovalStatus.Pending, w.doc.steps[k].id, w.doc.steps[k].step)],
              nextId := w.nextId + 1)
  {}

  lemma MaySeeGrant(cfg: Config, w: World, a: nat)
    requires Driving(w) && a in w.approvals && w.approvals[a].status.Approved?
    ensures Enabled(cfg, w, Label.SeeGrant(a))
    ensures Apply(cfg, w, Label.SeeGrant(a))
         == w.(driver := Some(w.driver.value.(granted := w.driver.value.granted + {a})))
  {}

  lemma MayExpire(cfg: Config, w: World, a: nat)
    requires Driving(w) && a in w.approvals
    ensures Enabled(cfg, w, Label.Expire(a))
    ensures Apply(cfg, w, Label.Expire(a)) == w.(approvals := RunModel.Expire(w.approvals, a))
  {}

  lemma MayTakeCover(cfg: Config, w: World, c: Cover)
    requires Driving(w) && c.approval in w.driver.value.granted && c.approval in w.approvals && c.head == w.head
    requires CoverNames(cfg, w.approvals[c.approval].step, c.step)
    ensures Enabled(cfg, w, Label.TakeCover(c))
    ensures Apply(cfg, w, Label.TakeCover(c)) == w.(log := w.log.(covers := w.log.covers + {c}))
  {}

  lemma MayPassGate(cfg: Config, w: World, k: nat, g: Gate)
    requires Driving(w) && OpenAt(w, k) && g.exec == w.doc.steps[k].id && g.step == w.doc.steps[k].step
    requires GateOk(w, w.driver.value, g)
    ensures Enabled(cfg, w, Label.PassGate(k, g))
    ensures Apply(cfg, w, Label.PassGate(k, g))
         == w.(driver := Some(w.driver.value.(gates := w.driver.value.gates + {g})))
  {}

  lemma MayAct(cfg: Config, w: World, g: Gate)
    requires Driving(w) && g in w.driver.value.gates
    requires g.action.RunCommand? ==> SpecOf(cfg.workflow, g.step) != Some(StepSpec.Command)
    ensures Enabled(cfg, w, Label.Act(g))
    ensures Apply(cfg, w, Label.Act(g)) == w.(
              driver := Some(w.driver.value.(gates := w.driver.value.gates - {g})),
              log := w.log.(effects := w.log.effects + [g]))
  {}

  lemma MaySpawn(cfg: Config, w: World, k: nat, g: Gate)
    requires Driving(w) && w.doc.status.Running? && OpenAt(w, k) && IsCommand(cfg, w.doc.steps[k])
    requires w.doc.steps[k].id !in w.log.spent && w.doc.steps[k].status.CanTransitionTo(StepStatus.Running)
    requires g in w.driver.value.gates && g.action.RunCommand? && g.exec == w.doc.steps[k].id
    requires g.why.ByGrant? ==> UnderGrant(w.doc.steps[k], g.why.approval)
    ensures Enabled(cfg, w, Label.Spawn(k, g))
    ensures Apply(cfg, w, Label.Spawn(k, g)) == w.(
              driver := Some(w.driver.value.(phase := Spawned(k), gates := w.driver.value.gates - {g})),
              log := w.log.(
                effects := w.log.effects + [g],
                spawns := w.log.spawns + multiset{w.doc.steps[k].id},
                spent := w.log.spent + {w.doc.steps[k].id}))
  {}

  lemma MayBind(cfg: Config, w: World, k: nat)
    requires w.driver.Some? && w.driver.value.phase == Spawned(k) && k < |w.doc.steps|
    ensures Enabled(cfg, w, Label.Bind)
    ensures Apply(cfg, w, Label.Bind) == w.(
              doc := WithExec(w.doc, k, w.doc.steps[k].(process := true, status := StepStatus.Running)),
              driver := Some(w.driver.value.(phase := Between)))
  {}

  lemma MayAnnouncePrompt(cfg: Config, w: World, k: nat)
    requires Driving(w) && OpenAt(w, k) && w.doc.steps[k].agent.Some? && !w.doc.steps[k].Prompted()
    requires w.doc.steps[k].id !in w.log.spent
    ensures Enabled(cfg, w, Label.AnnouncePrompt(k))
    ensures Apply(cfg, w, Label.AnnouncePrompt(k)) == w.(
              doc := WithExec(w.doc, k, w.doc.steps[k].(agent := Some(Binding(true)))),
              driver := Some(w.driver.value.(phase := SendDue(k))))
  {}

  lemma MaySendPrompt(cfg: Config, w: World, k: nat)
    requires w.driver.Some? && w.driver.value.phase == SendDue(k) && k < |w.doc.steps|
    ensures Enabled(cfg, w, SendPrompt) && Enabled(cfg, w, DropPrompt)
    ensures Apply(cfg, w, SendPrompt) == w.(
              driver := Some(w.driver.value.(phase := Between)),
              log := w.log.(prompts := w.log.prompts + multiset{w.doc.steps[k].id}))
    ensures Apply(cfg, w, DropPrompt) == w.(driver := Some(w.driver.value.(phase := Between)))
  {}

  lemma MayRoute(cfg: Config, w: World)
    requires Driving(w) && CanRoute(cfg, w.doc)
    ensures Enabled(cfg, w, Route)
    ensures Apply(cfg, w, Route) == w.(
              doc := Routed(cfg, w.doc),
              log := w.log.(routes := w.log.routes + multiset{cfg.workflow[w.doc.cursor].id}))
  {}

  lemma MayCancelRequests(cfg: Config, w: World, ids: seq<nat>)
    requires Driving(w)
    ensures Enabled(cfg, w, CancelRequests(ids))
    ensures Apply(cfg, w, CancelRequests(ids)) == w.(approvals := CancelPending(w.approvals, ids))
  {}

  lemma MayAcquire(cfg: Config, w: World)
    requires w.driver.None? && FocusInv(cfg, w) && SpawnInv(cfg, w)
    ensures Enabled(cfg, w, Acquire) && Apply(cfg, w, Acquire) == Taken(w)
    ensures NoneSpent(Taken(w)) && Taken(w).driver == Some(RunProtocol.Driver(Between, {}, {}))
    ensures Taken(w) == w.(driver := Taken(w).driver, log := Taken(w).log)
  {}

  lemma MayRelease(cfg: Config, w: World)
    requires Driving(w)
    ensures Enabled(cfg, w, Release) && Apply(cfg, w, Release) == w.(driver := None)
  {}

  // -------------------------------------------------------- retries still left

  /** The retries left to the first `n` steps of the workflow. */
  function Left(cfg: Config, counts: map<string, nat>, n: nat): nat
    requires n <= |cfg.workflow|
  {
    if n == 0 then 0
    else
      var used := CountOf(counts, cfg.workflow[n - 1].id);
      Left(cfg, counts, n - 1) + if used < CapAt(cfg, n - 1) then CapAt(cfg, n - 1) - used else 0
  }

  lemma {:induction false} LeftElsewhere(cfg: Config, counts: map<string, nat>, id: string, c: nat, n: nat)
    requires n <= |cfg.workflow|
    requires forall i :: 0 <= i < n ==> cfg.workflow[i].id != id
    ensures Left(cfg, counts[id := c], n) == Left(cfg, counts, n)
  {
    if n > 0 {
      LeftElsewhere(cfg, counts, id, c, n - 1);
    }
  }

  lemma {:induction false} LeftDropsAt(cfg: Config, counts: map<string, nat>, at: nat, n: nat)
    requires ValidWorkflow(cfg.workflow) && at < n <= |cfg.workflow|
    requires CountOf(counts, cfg.workflow[at].id) < CapAt(cfg, at)
    ensures var id := cfg.workflow[at].id;
            Left(cfg, counts[id := CountOf(counts, id) + 1], n) + 1 == Left(cfg, counts, n)
  {
    var id := cfg.workflow[at].id;
    if at == n - 1 {
      LeftElsewhere(cfg, counts, id, CountOf(counts, id) + 1, n - 1);
    } else {
      LeftDropsAt(cfg, counts, at, n - 1);
    }
  }

  /** Going back to a retry step uses up one retry. */
  lemma RouteUsesOne(cfg: Config, d: Run)
    requires ValidWorkflow(cfg.workflow) && CanRoute(cfg, d)
    ensures Left(cfg, Routed(cfg, d).retryCounts, |cfg.workflow|) + 1 == Left(cfg, d.retryCounts, |cfg.workflow|)
  {
    LeftDropsAt(cfg, d.retryCounts, d.cursor, |cfg.workflow|);
  }

  function Ahead(cursor: nat, n: nat): nat {
    if cursor < n then n - cursor else 0
  }

  /** The rounds that the retries left and the steps ahead allow. */
  function Rounds(n: nat, left: nat, cursor: nat): nat {
    n * left + Ahead(cursor, n)
  }

  /** Going on uses up at least one of the rounds allowed. */
  lemma OneRound(n: nat, left: nat, cursor: nat, nextLeft: nat, nextCursor: nat)
    requires cursor < n
    requires (nextLeft == left && nextCursor == cursor + 1) || nextLeft + 1 == left
    ensures Rounds(n, nextLeft, nextCursor) + 1 <= Rounds(n, left, cursor)
  {
    if nextLeft + 1 == left {
      assert n * nextLeft + n == n * left;
    }
  }

  lemma OneRoundAllowed(n: nat, left: nat, cursor: nat)
    requires cursor < n
    ensures Rounds(n, left, cursor) >= 1
  {}

  lemma RoundsInAll(n: nat, left: nat, cursor: nat)
    ensures Rounds(n, left, cursor) <= n * (1 + left)
  {
    assert n * (1 + left) == n * left + n;
  }
}
