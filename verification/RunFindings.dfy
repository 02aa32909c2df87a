/** Executions, step by step, in which what one would expect of the engine does not hold. */
module RunFindings {
  import opened Text
  import opened RunModel
  import opened RunProtocol
  import opened RunOffline
  import Policy

  const ONE_COMMAND := Config([Step("c", StepSpec.Command, None, false)], 0)

  const ALLOWED := Gate(0, "c", RunCommand, Policy.Decision.Allow, Permitted)

  const NEW_EXEC := Exec(0, "c", 1, StepStatus.Pending, None, false, None)

  const FIRST := World(NEW_RUN, map[], None, 0, None, NOTHING_HAPPENED)

  const FOUND_NOTHING_WRONG := Probe(false, false, Gone, NoTool)

  predicate Unaided(labels: seq<Label>) {
    forall k :: 0 <= k < |labels| ==> !labels[k].HumanRetry?
  }

  /** These labels lead from world to world, wherever the first one comes from. */
  ghost predicate Leads(cfg: Config, path: seq<World>, labels: seq<Label>) {
    |path| == |labels| + 1 && forall i: nat :: i < |labels| ==> StepAt(cfg, path, labels, i)
  }

  lemma Extend(cfg: Config, path: seq<World>, labels: seq<Label>, l: Label)
    returns (longer: seq<World>, more: seq<Label>)
    requires Leads(cfg, path, labels) && Enabled(cfg, path[|labels|], l)
    ensures more == labels + [l] && longer == path + [Apply(cfg, path[|labels|], l)]
    ensures Leads(cfg, longer, more)
    ensures Unaided(labels) && !l.HumanRetry? ==> Unaided(more)
  {
    hide Enabled, Apply;
    more := labels + [l];
    longer := path + [Apply(cfg, path[|labels|], l)];
    forall i: nat | i < |more| ensures StepAt(cfg, longer, more, i) {
      if i < |labels| {
        assert StepAt(cfg, path, labels, i);
      }
    }
  }

  /** A driver takes the pending run and moves it to running. */
  lemma Begin(path: seq<World>, labels: seq<Label>) returns (longer: seq<World>, more: seq<Label>)
    requires Leads(ONE_COMMAND, path, labels) && Unaided(labels)
    requires var w := path[|labels|]; w.driver == None && w.doc.status.Pending? && w.log.spent == {}
    requires forall k :: 0 <= k < |path[|labels|].doc.steps| ==> !path[|labels|].doc.steps[k].status.Retrying?
    requires forall a :: a in path[|labels|].doc.approvals ==> a in path[|labels|].approvals
    requires var w := path[|labels|];
             forall k :: 0 <= k < |w.doc.steps| && w.doc.steps[k].approval.Some? ==>
               Belongs(w.approvals, w.doc.steps[k].approval.value, w.doc.steps[k].id, w.doc.steps[k].step)
    ensures Leads(ONE_COMMAND, longer, more) && Unaided(more) && labels <= more && path <= longer
    ensures var w := path[|labels|];
            longer[|more|] == w.(doc := w.doc.(status := RunStatus.Running), driver := Some(Driver(Between, {}, {})))
  {
    longer, more := Extend(ONE_COMMAND, path, labels, Acquire);
    var a := longer[|more|];
    longer, more := Extend(ONE_COMMAND, longer, more, Save(a.doc.(status := RunStatus.Preparing)));
    var b := longer[|more|];
    longer, more := Extend(ONE_COMMAND, longer, more, Save(b.doc.(status := RunStatus.Running)));
  }

  /** Policy allows the command, and it is spawned. */
  lemma RunIt(path: seq<World>, labels: seq<Label>) returns (longer: seq<World>, more: seq<Label>)
    requires Leads(ONE_COMMAND, path, labels) && Unaided(labels)
    requires var w := path[|labels|];
             && w.driver == Some(Driver(Between, {}, {})) && w.doc.status.Running? && w.log.spent == {}
             && |w.doc.steps| == 1 && w.doc.steps[0].id == 0 && w.doc.steps[0].step == "c"
             && w.doc.steps[0].IsOpen() && w.doc.steps[0].status.CanTransitionTo(StepStatus.Running)
    ensures Leads(ONE_COMMAND, longer, more) && Unaided(more) && labels < more && path <= longer
    ensures more == labels + [PassGate(0, ALLOWED), Label.Spawn(0, ALLOWED)]
    ensures var w := path[|labels|];
            longer[|more|] == w.(
              driver := Some(Driver(Spawned(0), {}, {})),
              log := w.log.(effects := w.log.effects + [ALLOWED], spawns := w.log.spawns + multiset{0}, spent := {0}))
  {
    longer, more := Extend(ONE_COMMAND, path, labels, PassGate(0, ALLOWED));
    longer, more := Extend(ONE_COMMAND, longer, more, Spawn(0, ALLOWED));
    var v := longer[|more|];
    assert v.driver.value.gates == {};
  }

  /** From a new run to the moment before the first command's gate: its execution is saved as `starting`. */
  lemma Started() returns (path: seq<World>, labels: seq<Label>)
    ensures Execution(ONE_COMMAND, path, labels) && Unaided(labels)
    ensures path[|labels|] ==
            FIRST.(
              doc := NEW_RUN.(status := RunStatus.Running, steps := [NEW_EXEC.(status := StepStatus.Starting)]),
              nextId := 1, driver := Some(Driver(Between, {}, {})))
  {
    path, labels := Begin([FIRST], []);
    var a := path[|labels|];
    path, labels := Extend(ONE_COMMAND, path, labels, Save(a.doc.(steps := [NEW_EXEC])));
    var b := path[|labels|];
    path, labels := Extend(ONE_COMMAND, path, labels,
      Save(b.doc.(steps := [NEW_EXEC.(status := StepStatus.Starting)])));
  }

  /**
   * The window: a crash after the spawn and before the save of the process leaves an execution
   * that looks as if it had never been spawned, and recovery hands it to a driver that spawns it again.
   */
  lemma SpawnedTwiceAcrossTheWindow() returns (path: seq<World>, labels: seq<Label>, i: nat, j: nat)
    ensures ValidWorkflow(ONE_COMMAND.workflow) && Execution(ONE_COMMAND, path, labels) && Unaided(labels)
    ensures i < j < |labels| && labels[i] == labels[j] == Label.Spawn(0, ALLOWED)
  {
    path, labels := Started();
    path, labels := RunIt(path, labels);
    i := |labels| - 1;
    path, labels := Interrupt(path, labels);
    path, labels := Begin(path, labels);
    path, labels := RunIt(path, labels);
    j := |labels| - 1;
  }

  /** A crash, and the recovery after it. */
  lemma Interrupt(path: seq<World>, labels: seq<Label>) returns (longer: seq<World>, more: seq<Label>)
    requires Leads(ONE_COMMAND, path, labels) && Unaided(labels)
    requires var w := path[|labels|];
             && w.driver.Some? && w.doc.status.Interrupted() && |w.doc.steps| == 1
             && w.doc.steps[0].IsOpen() && w.doc.steps[0].id == 0 && w.doc.steps[0].step == "c"
             && w.log.spent <= {0}
             && (if w.driver.value.phase == Spawned(0) then w.doc.steps[0].status.Starting? && !w.doc.steps[0].process
                 else w.driver.value.phase == Between && AwaitsDecision(w.doc.steps[0], w.approvals))
    ensures Leads(ONE_COMMAND, longer, more) && Unaided(more) && labels < more && path <= longer
    ensures var w := path[|labels|];
            var v := longer[|more|];
            && v == w.(doc := w.doc.(status := RunStatus.Pending), driver := None, log := v.log)
            && v.log.spent == {}
  {
    longer, more := Extend(ONE_COMMAND, path, labels, Crash);
    var a := longer[|more|];
    assert LastOpen(a.doc.steps) == 0;
    assert IndexOf(ONE_COMMAND.workflow, "c") == 0;
    longer, more := Extend(ONE_COMMAND, longer, more, Recover(FOUND_NOTHING_WRONG));
  }

  const ASKED := NEW_EXEC.(status := StepStatus.AwaitingApproval, approval := Some(1))

  /** From a new run to a driver waiting for the decision on its first command. */
  lemma Waiting() returns (path: seq<World>, labels: seq<Label>)
    ensures Execution(ONE_COMMAND, path, labels) && Unaided(labels)
    ensures path[|labels|] ==
            FIRST.(
              doc := NEW_RUN.(status := RunStatus.AwaitingApproval, steps := [ASKED], approvals := [1]),
              approvals := map[1 := Request(ApprovalStatus.Pending, 0, "c")],
              nextId := 2, driver := Some(Driver(Between, {}, {})))
  {
    path, labels := Begin([FIRST], []);
    var a := path[|labels|];
    path, labels := Extend(ONE_COMMAND, path, labels, Save(a.doc.(steps := [NEW_EXEC])));
    path, labels := Extend(ONE_COMMAND, path, labels, Ask(0));
    var b := path[|labels|];
    path, labels := Extend(ONE_COMMAND, path, labels, Save(b.doc.(steps := [ASKED], approvals := [1])));
    var c := path[|labels|];
    path, labels := Extend(ONE_COMMAND, path, labels, Save(c.doc.(status := RunStatus.AwaitingApproval)));
  }

  /**
   * The stale request: the request of an execution is still pending when policy, edited while the
   * engine was down, lets the command run. Its process is recorded, and yet recovery takes the
   * pending request as the reason to let the next driver run the command again.
   */
  lemma SpawnedTwiceUnderAStaleRequest()
    returns (path: seq<World>, labels: seq<Label>, i: nat, bound: nat, j: nat)
    ensures ValidWorkflow(ONE_COMMAND.workflow) && Execution(ONE_COMMAND, path, labels) && Unaided(labels)
    ensures i < bound < j < |labels| && labels[i] == labels[j] == Label.Spawn(0, ALLOWED) && labels[bound].Bind?
  {
    path, labels := Waiting();
    path, labels := Interrupt(path, labels);
    path, labels := Begin(path, labels);
    path, labels := RunIt(path, labels);
    i := |labels| - 1;
    path, labels := Extend(ONE_COMMAND, path, labels, Label.Bind);
    bound := |labels| - 1;
    path, labels := Interrupt(path, labels);
    path, labels := Begin(path, labels);
    path, labels := RunIt(path, labels);
    j := |labels| - 1;
  }

  /**
   * The run that nobody recovered: a driver crashes while a recorded command runs, and the next driver
   * takes the run as it is, goes on with the open execution and runs the command again.
   */
  lemma SpawnedTwiceWithoutRecovery()
    returns (path: seq<World>, labels: seq<Label>, i: nat, bound: nat, j: nat)
    ensures ValidWorkflow(ONE_COMMAND.workflow) && Execution(ONE_COMMAND, path, labels) && Unaided(labels)
    ensures i < bound < j < |labels| && labels[i] == labels[j] == Label.Spawn(0, ALLOWED) && labels[bound].Bind?
    ensures labels[bound + 1..] == [Label.Crash, Acquire, PassGate(0, ALLOWED), Label.Spawn(0, ALLOWED)]
  {
    path, labels := Started();
    path, labels := RunIt(path, labels);
    i := |labels| - 1;
    path, labels := Extend(ONE_COMMAND, path, labels, Label.Bind);
    bound := |labels| - 1;
    path, labels := Extend(ONE_COMMAND, path, labels, Label.Crash);
    assert LastOpen(path[|labels|].doc.steps) == 0;
    path, labels := Extend(ONE_COMMAND, path, labels, Acquire);
    path, labels := RunIt(path, labels);
    j := |labels| - 1;
  }

  /**
   * The race of a deadline and a decision: a human's approval is accepted, and then the waiting
   * driver, which had read the request as pending, writes it as expired.
   */
  lemma ApprovedThenExpired() returns (path: seq<World>, labels: seq<Label>)
    ensures ValidWorkflow(ONE_COMMAND.workflow) && Execution(ONE_COMMAND, path, labels) && |labels| >= 2
    ensures labels[|labels| - 2..] == [Label.Decide(1, true), Label.Expire(1)]
    ensures var w := path[|labels|];
            w.log.decided == map[1 := true] && 1 in w.approvals && w.approvals[1].status.Expired?
  {
    path, labels := Waiting();
    path, labels := Extend(ONE_COMMAND, path, labels, Label.Decide(1, true));
    path, labels := Extend(ONE_COMMAND, path, labels, Label.Expire(1));
  }

  // ------------------------------------------------- a cover and a later commit

  const ASK_THEN_OPEN :=
    Config([Step("a", StepSpec.Approval, None, false), Step("p", StepSpec.GithubPr, None, false)], 0)

  const APPROVED_AT := Cover("p", 1, Some(7))

  const COVERED := Gate(2, "p", OpenPr, Policy.Decision.RequireApproval, ByCover(APPROVED_AT))

  const ASKING := Exec(0, "a", 1, StepStatus.Pending, None, false, None)

  const OPENING := Exec(2, "p", 1, StepStatus.Pending, None, false, None)

  const ASKED_AT_SEVEN := NEW_RUN.(
    status := RunStatus.Running,
    steps := [ASKING.(status := StepStatus.AwaitingApproval, approval := Some(1))],
    approvals := [1])

  /** From a new run to its first execution, HEAD being 7. */
  lemma AtSeven() returns (path: seq<World>, labels: seq<Label>)
    ensures Execution(ASK_THEN_OPEN, path, labels)
    ensures path[|labels|] ==
            FIRST.(doc := NEW_RUN.(status := RunStatus.Running, steps := [ASKING]),
                   head := Some(7), nextId := 1, driver := Some(Driver(Between, {}, {})))
  {
    path, labels := Extend(ASK_THEN_OPEN, [FIRST], [], Acquire);
    path, labels := Extend(ASK_THEN_OPEN, path, labels, Label.MoveHead(Some(7)));
    var doc := NEW_RUN.(status := RunStatus.Preparing);
    path, labels := Extend(ASK_THEN_OPEN, path, labels, Save(doc));
    doc := doc.(status := RunStatus.Running);
    path, labels := Extend(ASK_THEN_OPEN, path, labels, Save(doc));
    doc := doc.(steps := [ASKING]);
    path, labels := Extend(ASK_THEN_OPEN, path, labels, Save(doc));
  }

  /** The approval step asks, and a human approves. */
  lemma DecidedAtSeven() returns (path: seq<World>, labels: seq<Label>)
    ensures Execution(ASK_THEN_OPEN, path, labels)
    ensures labels != [] && labels[|labels| - 1] == Label.Decide(1, true) && path[|labels| - 1].head == Some(7)
    ensures path[|labels|] ==
            FIRST.(doc := ASKED_AT_SEVEN, head := Some(7), nextId := 2, driver := Some(Driver(Between, {}, {})),
                   approvals := map[1 := Request(ApprovalStatus.Approved, 0, "a")],
                   log := NOTHING_HAPPENED.(decided := map[1 := true]))
  {
    path, labels := AtSeven();
    path, labels := Extend(ASK_THEN_OPEN, path, labels, Ask(0));
    path, labels := Extend(ASK_THEN_OPEN, path, labels, Save(ASKED_AT_SEVEN));
    path, labels := Extend(ASK_THEN_OPEN, path, labels, Label.Decide(1, true));
  }

  /** The driver sees the grant, and it covers the next step at the HEAD of this moment. */
  lemma SeenAndCovered(path: seq<World>, labels: seq<Label>, c: Cover) returns (longer: seq<World>, more: seq<Label>)
    requires Leads(ASK_THEN_OPEN, path, labels)
    requires c == Cover("p", 1, path[|labels|].head)
    requires path[|labels|] ==
             FIRST.(doc := ASKED_AT_SEVEN, head := c.head, nextId := 2, driver := Some(Driver(Between, {}, {})),
                    approvals := map[1 := Request(ApprovalStatus.Approved, 0, "a")],
                    log := NOTHING_HAPPENED.(decided := map[1 := true]))
    ensures Leads(ASK_THEN_OPEN, longer, more) && path <= longer && labels <= more
    ensures var w := longer[|more|];
            && w.doc == ASKED_AT_SEVEN && w.head == c.head && w.nextId == 2 && w.log.spent == {}
            && Driving(w) && w.driver.value.gates == {} && c in w.log.covers && w.approvals.Keys == {1}
  {
    longer, more := Extend(ASK_THEN_OPEN, path, labels, Label.SeeGrant(1));
    assert 1 in longer[|more|].driver.value.granted;
    longer, more := Extend(ASK_THEN_OPEN, longer, more, Label.TakeCover(c));
  }

  /** So the approval step ends, and the execution of the pull request step begins. */
  lemma CoverNext(path: seq<World>, labels: seq<Label>, c: Cover) returns (longer: seq<World>, more: seq<Label>)
    requires Leads(ASK_THEN_OPEN, path, labels)
    requires c == Cover("p", 1, path[|labels|].head)
    requires path[|labels|] ==
             FIRST.(doc := ASKED_AT_SEVEN, head := c.head, nextId := 2, driver := Some(Driver(Between, {}, {})),
                    approvals := map[1 := Request(ApprovalStatus.Approved, 0, "a")],
                    log := NOTHING_HAPPENED.(decided := map[1 := true]))
    ensures Leads(ASK_THEN_OPEN, longer, more) && path <= longer && labels <= more
    ensures var w := longer[|more|];
            && w.head == c.head && c in w.log.covers && Driving(w) && w.driver.value.gates == {}
            && w.doc.status.Running? && |w.doc.steps| == 2 && w.doc.steps[1] == OPENING
  {
    longer, more := SeenAndCovered(path, labels, c);
    var asked := ASKED_AT_SEVEN.steps[0].(status := StepStatus.Succeeded);
    var doc := ASKED_AT_SEVEN.(steps := [asked], cover := Some(c));
    longer, more := Extend(ASK_THEN_OPEN, longer, more, Save(doc));
    doc := doc.(cursor := 1);
    longer, more := Extend(ASK_THEN_OPEN, longer, more, Save(doc));
    doc := doc.(steps := [asked, OPENING]);
    assert AttemptsOf([asked], "p") == 0 by { assert [asked][1..] == []; }
    longer, more := Extend(ASK_THEN_OPEN, longer, more, Save(doc));
  }

  /**
   * The pull request step commits between its gate and its effect: a pull request that an approval
   * covers is opened at a HEAD nobody approved.
   */
  lemma OpenedAtAnotherHead() returns (path: seq<World>, labels: seq<Label>)
    ensures ValidWorkflow(ASK_THEN_OPEN.workflow) && Execution(ASK_THEN_OPEN, path, labels) && |labels| >= 3
    ensures labels[|labels| - 3..] == [PassGate(1, COVERED), Label.Commit(Some(8)), Act(COVERED)]
    ensures path[|labels| - 1].head != APPROVED_AT.head
  {
    path, labels := DecidedAtSeven();
    path, labels := CoverNext(path, labels, APPROVED_AT);
    path, labels := Extend(ASK_THEN_OPEN, path, labels, PassGate(1, COVERED));
    path, labels := Extend(ASK_THEN_OPEN, path, labels, Label.Commit(Some(8)));
    path, labels := Extend(ASK_THEN_OPEN, path, labels, Act(COVERED));
  }

  const TAKEN_AT := Cover("p", 1, Some(8))

  const COVERED_LATE := Gate(2, "p", OpenPr, Policy.Decision.RequireApproval, ByCover(TAKEN_AT))

  /**
   * The cover takes the HEAD of the moment the driver sees the grant: here HEAD moved after the human
   * had decided, and the pull request is opened at a HEAD nobody approved, with nothing in between
   * gate and effect.
   */
  lemma CoveredAfterAMove() returns (path: seq<World>, labels: seq<Label>, decided: nat)
    ensures ValidWorkflow(ASK_THEN_OPEN.workflow) && Execution(ASK_THEN_OPEN, path, labels) && |labels| >= 2
    ensures labels[|labels| - 2..] == [PassGate(1, COVERED_LATE), Act(COVERED_LATE)]
    ensures decided < |labels| && labels[decided] == Label.Decide(1, true)
    ensures path[decided].head == Some(7) && path[|labels| - 1].head == Some(8)
  {
    path, labels := DecidedAtSeven();
    decided := |labels| - 1;
    path, labels := Extend(ASK_THEN_OPEN, path, labels, Label.MoveHead(Some(8)));
    path, labels := CoverNext(path, labels, TAKEN_AT);
    path, labels := Extend(ASK_THEN_OPEN, path, labels, PassGate(1, COVERED_LATE));
    path, labels := Extend(ASK_THEN_OPEN, path, labels, Act(COVERED_LATE));
  }

  // ------------------------------------------------------- recovery of an old list

  /** From the moment before the first command's gate to success. */
  lemma Finish(path: seq<World>, labels: seq<Label>) returns (longer: seq<World>, more: seq<Label>)
    requires Execution(ONE_COMMAND, path, labels) && Unaided(labels)
    requires path[|labels|] ==
             FIRST.(
               doc := NEW_RUN.(status := RunStatus.Running, steps := [NEW_EXEC.(status := StepStatus.Starting)]),
               nextId := 1, driver := Some(Driver(Between, {}, {})))
    ensures Execution(ONE_COMMAND, longer, more) && Unaided(more) && labels <= more && path <= longer
    ensures var w := longer[|more|];
            w.driver == None && w.doc.status.Succeeded? && w.log.spent == {0} && w.log.spawns == multiset{0}
  {
    longer, more := RunIt(path, labels);
    longer, more := Extend(ONE_COMMAND, longer, more, Label.Bind);
    var doc := longer[|more|].doc;
    doc := doc.(steps := [doc.steps[0].(status := StepStatus.Succeeded)]);
    longer, more := Extend(ONE_COMMAND, longer, more, Save(doc));
    doc := doc.(cursor := 1);
    longer, more := Extend(ONE_COMMAND, longer, more, Save(doc));
    doc := doc.(status := RunStatus.Succeeded);
    longer, more := Extend(ONE_COMMAND, longer, more, Save(doc));
    longer, more := Extend(ONE_COMMAND, longer, more, Release);
  }

  /**
   * Recovery lists a run while its driver is at work; the driver finishes and lets go; recovery then
   * takes the lock and recovers what it had listed. The run that succeeded is pending again, and
   * the next driver runs its command once more.
   */
  lemma SucceededRunRecoveredAsListed()
    returns (path: seq<World>, labels: seq<Label>, i: nat, again: seq<World>, more: seq<Label>)
    ensures ValidWorkflow(ONE_COMMAND.workflow) && Execution(ONE_COMMAND, path, labels) && Unaided(labels)
    ensures i < |labels| && path[i].doc.status.Interrupted()
    ensures path[|labels|].driver == None && path[|labels|].doc.status.Succeeded?
    ensures path[|labels|].log.spawns == multiset{0}
    ensures Leads(ONE_COMMAND, again, more) && Unaided(more)
    ensures again[0] == RecoveredAsListed(ONE_COMMAND, path[|labels|], path[i].doc, FOUND_NOTHING_WRONG)
    ensures again[0].doc.status.Pending?
    ensures more != [] && more[|more| - 1] == Label.Spawn(0, ALLOWED)
  {
    path, labels := Started();
    i := |labels|;
    path, labels := Finish(path, labels);
    var w := path[|labels|];
    assert LastOpen(path[i].doc.steps) == 0;
    assert IndexOf(ONE_COMMAND.workflow, "c") == 0;
    var u := RecoveredAsListed(ONE_COMMAND, w, path[i].doc, FOUND_NOTHING_WRONG);
    again, more := Begin([u], []);
    again, more := RunIt(again, more);
  }
}
