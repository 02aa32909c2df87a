/** What every run keeps, however it is interrupted: one invariant, preserved by every label. */
module RunSafety {
  import opened Text
  import opened RunModel
  import opened RunProtocol

  /** Labels that leave the document and the approval requests alone. */
  predicate Quiet(l: Label) {
    || l.Acquire? || l.SendPrompt? || l.DropPrompt? || l.PassGate? || l.Act? || l.Spawn? || l.SeeGrant?
    || l.TakeCover? || l.Release? || l.Commit? || l.MoveHead? || l.Crash?
  }

  /** Labels that change approval requests only. */
  predicate Asking(l: Label) {
    l.Ask? || l.Expire? || l.CancelRequests? || l.Decide?
  }

  /** Labels that find no driver: they only close executions and move the status, the cursor and the counters. */
  predicate Offline(l: Label) {
    l.Recover? || l.HumanRetry? || l.CancelIdle?
  }

  /** Labels with which the driver writes the document. */
  predicate Writing(l: Label) {
    l.Save? || l.Route? || l.AnnouncePrompt? || l.Bind?
  }

  predicate ClosesOnly(a: seq<Exec>, b: seq<Exec>) {
    && |a| == |b|
    && forall k :: 0 <= k < |a| ==>
         b[k] == a[k] || (a[k].IsOpen() && b[k].status.IsTerminal() && b[k] == a[k].(status := b[k].status))
  }

  lemma InitHolds(cfg: Config, w: World)
    requires Init(cfg, w)
    ensures Inv(cfg, w)
  {}

  // --------------------------------------------------------- what labels touch

  lemma QuietFrame(cfg: Config, w: World, l: Label, v: World)
    requires Quiet(l) && Enabled(cfg, w, l) && v == Apply(cfg, w, l)
    ensures v.doc == w.doc && v.approvals == w.approvals && v.nextId == w.nextId && v.log.decided == w.log.decided
  {}

  lemma WritingFrame(cfg: Config, w: World, l: Label, v: World)
    requires Writing(l) && Enabled(cfg, w, l) && v == Apply(cfg, w, l)
    ensures v.approvals == w.approvals && v.nextId >= w.nextId && v.head == w.head
    ensures v.log == w.log.(routes := v.log.routes)
  {}

  lemma SaveFrame(cfg: Config, w: World, l: Label, v: World)
    requires l.Save? && Enabled(cfg, w, l) && v == Apply(cfg, w, l)
    ensures Driving(w) && SaveOk(cfg, w, l.run)
    ensures v == w.(doc := l.run, nextId := if |l.run.steps| > |w.doc.steps| then w.nextId + 1 else w.nextId)
  {}

  lemma AskingFrame(cfg: Config, w: World, l: Label, v: World)
    requires Asking(l) && Enabled(cfg, w, l) && v == Apply(cfg, w, l)
    ensures v.doc == w.doc && v.driver == w.driver && v.head == w.head && v.log == w.log.(decided := v.log.decided)
    ensures v.nextId >= w.nextId && forall a :: a in v.approvals ==> a in w.approvals || w.nextId == a < v.nextId
  {}

  lemma OfflineFrame(cfg: Config, w: World, l: Label, v: World)
    requires Offline(l) && Enabled(cfg, w, l) && v == Apply(cfg, w, l)
    ensures ClosesOnly(w.doc.steps, v.doc.steps)
    ensures v.driver == None && v.nextId == w.nextId
    ensures v.doc.approvals == w.doc.approvals && v.doc.cover == w.doc.cover
    ensures v.log == w.log.(spent := v.log.spent, reopened := v.log.reopened)
  {}

  lemma OfflineRequests(cfg: Config, w: World, l: Label, v: World)
    requires Offline(l) && Enabled(cfg, w, l) && v == Apply(cfg, w, l)
    ensures v.approvals.Keys == w.approvals.Keys
    ensures forall a :: a in w.approvals ==>
              v.approvals[a] == w.approvals[a]
              || (w.approvals[a].status == ApprovalStatus.Pending
                  && v.approvals[a] == w.approvals[a].(status := ApprovalStatus.Cancelled))
  {}

  /**
   * No request is removed or given to another execution, and the log keeps every decision; a stored status
   * may move.
   */
  predicate Extends(w: World, v: World) {
    && (forall a :: a in w.approvals ==>
          a in v.approvals && v.approvals[a].exec == w.approvals[a].exec && v.approvals[a].step == w.approvals[a].step)
    && (forall a :: a in w.log.decided ==> a in v.log.decided && v.log.decided[a] == w.log.decided[a])
  }

  lemma ExtendsItself(w: World)
    ensures Extends(w, w)
  {}

  lemma ExtendsTransitive(u: World, w: World, v: World)
    requires Extends(u, w) && Extends(w, v)
    ensures Extends(u, v)
  {}

  lemma AskingStands(cfg: Config, w: World, l: Label, v: World)
    requires Asking(l) && Enabled(cfg, w, l) && v == Apply(cfg, w, l)
    requires IdsInv(w) && DecidedInv(w)
    ensures Extends(w, v)
  {}

  lemma RequestsStand(cfg: Config, w: World, l: Label, v: World)
    requires Enabled(cfg, w, l) && v == Apply(cfg, w, l)
    requires IdsInv(w) && DecidedInv(w)
    ensures Extends(w, v)
  {
    hide Apply, Enabled;
    if Offline(l) {
      OfflineFrame(cfg, w, l, v);
      OfflineRequests(cfg, w, l, v);
    } else if Quiet(l) {
      QuietFrame(cfg, w, l, v);
    } else if Writing(l) {
      WritingFrame(cfg, w, l, v);
    } else {
      AskingStands(cfg, w, l, v);
    }
  }

  lemma QuietKeepsIds(cfg: Config, w: World, l: Label, v: World)
    requires Quiet(l) && Enabled(cfg, w, l) && v == Apply(cfg, w, l)
    requires DecidedInv(w) && IdsInv(w)
    ensures IdsInv(v)
  {
    hide Apply, Enabled;
    QuietFrame(cfg, w, l, v);
  }

  lemma AskingKeepsIds(cfg: Config, w: World, l: Label, v: World)
    requires Asking(l) && Enabled(cfg, w, l) && v == Apply(cfg, w, l)
    requires DecidedInv(w) && IdsInv(w)
    ensures IdsInv(v)
  {
    hide Apply, Enabled;
    AskingFrame(cfg, w, l, v);
    RequestsStand(cfg, w, l, v);
  }

  lemma SavedIds(cfg: Config, w: World, r: Run, v: World)
    requires IdsInv(w) && SaveOk(cfg, w, r)
    requires v == w.(doc := r, nextId := if |r.steps| > |w.doc.steps| then w.nextId + 1 else w.nextId)
    ensures IdsInv(v)
  {}

  lemma WritingKeepsIds(cfg: Config, w: World, l: Label, v: World)
    requires Writing(l) && Enabled(cfg, w, l) && v == Apply(cfg, w, l)
    requires IdsInv(w)
    ensures IdsInv(v)
  {
    if l.Save? {
      hide Apply, Enabled, IdsInv, SaveOk;
      SaveFrame(cfg, w, l, v);
      SavedIds(cfg, w, l.run, v);
    }
  }

  lemma OfflineKeepsIds(cfg: Config, w: World, l: Label, v: World)
    requires Offline(l) && Enabled(cfg, w, l) && v == Apply(cfg, w, l)
    requires DecidedInv(w) && IdsInv(w)
    ensures IdsInv(v)
  {
    hide Apply, Enabled;
    OfflineFrame(cfg, w, l, v);
    OfflineRequests(cfg, w, l, v);
  }

  lemma SendingFrame(cfg: Config, w: World, l: Label, v: World)
    requires l.SendPrompt? && Enabled(cfg, w, l) && v == Apply(cfg, w, l)
    ensures w.driver.Some? && w.driver.value.phase.SendDue? && v.driver.Some? && v.driver.value.phase.Between?
    ensures var k := w.driver.value.phase.k;
            k < |w.doc.steps| ==> v.log.prompts == w.log.prompts + multiset{w.doc.steps[k].id}
  {}

  lemma NotSendingFrame(cfg: Config, w: World, l: Label, v: World)
    requires Quiet(l) && !l.SendPrompt? && Enabled(cfg, w, l) && v == Apply(cfg, w, l)
    ensures v.log.prompts == w.log.prompts
    ensures v.driver.Some? && v.driver.value.phase.SendDue? ==>
            w.driver.Some? && w.driver.value.phase == v.driver.value.phase
  {}

  lemma QuietKeepsPrompts(cfg: Config, w: World, l: Label, v: World)
    requires Quiet(l) && Enabled(cfg, w, l) && v == Apply(cfg, w, l)
    requires IdsInv(w) && PromptInv(w)
    ensures PromptInv(v)
  {
    hide Enabled, Apply, Quiet;
    QuietFrame(cfg, w, l, v);
    if l.SendPrompt? {
      SendingFrame(cfg, w, l, v);
    } else {
      NotSendingFrame(cfg, w, l, v);
    }
  }

  lemma AskingKeepsPrompts(cfg: Config, w: World, l: Label, v: World)
    requires Asking(l) && Enabled(cfg, w, l) && v == Apply(cfg, w, l)
    requires IdsInv(w) && FocusInv(cfg, w) && SpawnInv(cfg, w) && DecidedInv(w) && PromptInv(w)
    ensures PromptInv(v)
  {
    hide Apply, Enabled;
    AskingFrame(cfg, w, l, v);
    RequestsStand(cfg, w, l, v);
  }

  lemma BindFrame(cfg: Config, w: World, l: Label, v: World)
    requires l.Bind? && Enabled(cfg, w, l) && v == Apply(cfg, w, l)
    ensures w.driver.Some? && w.driver.value.phase.Spawned? && v.driver.Some? && v.driver.value.phase.Between?
    ensures v.log == w.log && v.nextId == w.nextId && v.doc.status == w.doc.status
    ensures var k := w.driver.value.phase.k;
            k < |w.doc.steps| ==>
              v.doc.steps == w.doc.steps[k := w.doc.steps[k].(process := true, status := StepStatus.Running)]
  {}

  lemma AnnounceFrame(cfg: Config, w: World, l: Label, v: World)
    requires l.AnnouncePrompt? && Enabled(cfg, w, l) && v == Apply(cfg, w, l)
    ensures l.k < |w.doc.steps| && w.doc.steps[l.k].IsOpen() && !w.doc.steps[l.k].Prompted()
    ensures w.doc.steps[l.k].id !in w.log.spent && Driving(w)
    ensures v.driver.Some? && v.driver.value.phase == SendDue(l.k)
    ensures v.log == w.log && v.nextId == w.nextId && v.doc.status == w.doc.status
    ensures v.doc.steps == w.doc.steps[l.k := w.doc.steps[l.k].(agent := Some(Binding(true)))]
  {}

  lemma RouteFrame(cfg: Config, w: World, l: Label, v: World)
    requires l.Route? && Enabled(cfg, w, l) && v == Apply(cfg, w, l)
    ensures v.doc.steps == w.doc.steps && v.doc.status == w.doc.status && v.driver == w.driver && v.nextId == w.nextId
    ensures v.log == w.log.(routes := v.log.routes)
  {}

  lemma WritingKeepsPrompts(cfg: Config, w: World, l: Label, v: World)
    requires Writing(l) && Enabled(cfg, w, l) && v == Apply(cfg, w, l)
    requires IdsInv(w) && FocusInv(cfg, w) && SpawnInv(cfg, w) && PromptInv(w)
    ensures PromptInv(v)
  {
    hide Enabled, Apply, FocusInv;
    if l.Save? {
      SaveFrame(cfg, w, l, v);
    } else if l.Route? {
      RouteFrame(cfg, w, l, v);
    } else if l.Bind? {
      BindFrame(cfg, w, l, v);
    } else {
      AnnounceFrame(cfg, w, l, v);
    }
  }

  lemma OfflineKeepsPrompts(cfg: Config, w: World, l: Label, v: World)
    requires Offline(l) && Enabled(cfg, w, l) && v == Apply(cfg, w, l)
    requires IdsInv(w) && FocusInv(cfg, w) && SpawnInv(cfg, w) && DecidedInv(w) && PromptInv(w)
    ensures PromptInv(v)
  {
    hide Apply, Enabled;
    OfflineFrame(cfg, w, l, v);
    OfflineRequests(cfg, w, l, v);
  }

  lemma SpawningFrame(cfg: Config, w: World, l: Label, v: World)
    requires l.Spawn? && Enabled(cfg, w, l) && v == Apply(cfg, w, l)
    ensures w.driver.Some? && w.driver.value.phase.Between? && w.doc.status.Running?
    ensures OpenAt(w, l.k) && IsCommand(cfg, w.doc.steps[l.k]) && w.doc.steps[l.k].id !in w.log.spent
    ensures w.doc.steps[l.k].status.CanTransitionTo(StepStatus.Running)
    ensures v.doc == w.doc && v.nextId == w.nextId && v.driver.Some? && v.driver.value.phase == Spawned(l.k)
    ensures v.log == w.log.(
              effects := v.log.effects,
              spawns := w.log.spawns + multiset{w.doc.steps[l.k].id},
              spent := w.log.spent + {w.doc.steps[l.k].id})
  {}

  lemma SpawningKeepsSpawns(cfg: Config, w: World, l: Label, v: World)
    requires l.Spawn? && Enabled(cfg, w, l) && v == Apply(cfg, w, l)
    requires IdsInv(w) && SpawnInv(cfg, w)
    ensures SpawnInv(cfg, v)
  {
    SpawningFrame(cfg, w, l, v);
    hide Apply, Enabled;
  }

  lemma CrashKeepsSpawns(cfg: Config, w: World, l: Label, v: World)
    requires l.Crash? && Enabled(cfg, w, l) && v == Apply(cfg, w, l)
    requires IdsInv(w) && FocusInv(cfg, w) && SpawnInv(cfg, w)
    ensures SpawnInv(cfg, v)
  {}

  lemma AcquireFrame(cfg: Config, w: World, l: Label, v: World)
    requires l.Acquire? && Enabled(cfg, w, l) && v == Apply(cfg, w, l)
    ensures w.driver == None && v.driver == Some(Driver(Between, {}, {}))
    ensures v == w.(driver := v.driver, log := v.log)
    ensures v.log == w.log.(
              spent := w.log.spent - Unrecovered(w), reopened := w.log.reopened + multiset(Unrecovered(w)))
  {}

  lemma AcquireKeepsSpawns(cfg: Config, w: World, l: Label, v: World)
    requires l.Acquire? && Enabled(cfg, w, l) && v == Apply(cfg, w, l)
    requires FocusInv(cfg, w) && SpawnInv(cfg, w)
    ensures SpawnInv(cfg, v) && NoneSpent(v)
  {
    AcquireFrame(cfg, w, l, v);
    hide Apply, Enabled;
  }

  lemma OtherQuietFrame(cfg: Config, w: World, l: Label, v: World)
    requires Quiet(l) && !l.Spawn? && !l.Crash? && !l.Acquire? && Enabled(cfg, w, l) && v == Apply(cfg, w, l)
    ensures v.log == w.log.(prompts := v.log.prompts, covers := v.log.covers, effects := v.log.effects)
    ensures v.driver.Some? && v.driver.value.phase.Spawned? <==> w.driver.Some? && w.driver.value.phase.Spawned?
    ensures v.driver.Some? && v.driver.value.phase.Spawned? ==> v.driver == w.driver
  {}

  lemma QuietKeepsSpawns(cfg: Config, w: World, l: Label, v: World)
    requires Quiet(l) && Enabled(cfg, w, l) && v == Apply(cfg, w, l)
    requires IdsInv(w) && FocusInv(cfg, w) && SpawnInv(cfg, w)
    ensures SpawnInv(cfg, v)
  {
    hide Apply, Enabled, Quiet, IdsInv;
    if l.Spawn? {
      hide SpawnInv;
      SpawningKeepsSpawns(cfg, w, l, v);
    } else if l.Crash? {
      hide SpawnInv;
      CrashKeepsSpawns(cfg, w, l, v);
    } else if l.Acquire? {
      hide SpawnInv;
      AcquireKeepsSpawns(cfg, w, l, v);
    } else {
      QuietFrame(cfg, w, l, v);
      OtherQuietFrame(cfg, w, l, v);
    }
  }

  lemma AskingKeepsSpawns(cfg: Config, w: World, l: Label, v: World)
    requires Asking(l) && Enabled(cfg, w, l) && v == Apply(cfg, w, l)
    requires IdsInv(w) && FocusInv(cfg, w) && DecidedInv(w) && SpawnInv(cfg, w)
    ensures SpawnInv(cfg, v)
  {
    hide Apply, Enabled;
    AskingFrame(cfg, w, l, v);
    RequestsStand(cfg, w, l, v);
  }

  lemma SavingKeepsSpawns(cfg: Config, w: World, l: Label, v: World)
    requires l.Save? && Enabled(cfg, w, l) && v == Apply(cfg, w, l)
    requires IdsInv(w) && FocusInv(cfg, w) && SpawnInv(cfg, w)
    ensures SpawnInv(cfg, v)
  {
    SaveFrame(cfg, w, l, v);
    hide Apply, Enabled;
  }

  lemma WritingKeepsSpawns(cfg: Config, w: World, l: Label, v: World)
    requires Writing(l) && Enabled(cfg, w, l) && v == Apply(cfg, w, l)
    requires IdsInv(w) && FocusInv(cfg, w) && SpawnInv(cfg, w)
    ensures SpawnInv(cfg, v)
  {
    hide Enabled, Apply;
    if l.Save? {
      hide IdsInv, SpawnInv, FocusInv;
      SavingKeepsSpawns(cfg, w, l, v);
    } else if l.Route? {
      RouteFrame(cfg, w, l, v);
    } else if l.Bind? {
      BindFrame(cfg, w, l, v);
    } else {
      AnnounceFrame(cfg, w, l, v);
    }
  }

  lemma QuietKeepsDecisions(cfg: Config, w: World, l: Label, v: World)
    requires Quiet(l) && Enabled(cfg, w, l) && v == Apply(cfg, w, l)
    requires IdsInv(w) && DecidedInv(w)
    ensures DecidedInv(v)
  {
    hide Apply, Enabled;
    QuietFrame(cfg, w, l, v);
  }

  lemma AskingKeepsDecisions(cfg: Config, w: World, l: Label, v: World)
    requires Asking(l) && Enabled(cfg, w, l) && v == Apply(cfg, w, l)
    requires IdsInv(w) && DecidedInv(w)
    ensures DecidedInv(v)
  {}

  lemma WritingKeepsDecisions(cfg: Config, w: World, l: Label, v: World)
    requires Writing(l) && Enabled(cfg, w, l) && v == Apply(cfg, w, l)
    requires IdsInv(w) && DecidedInv(w)
    ensures DecidedInv(v)
  {
    hide Apply, Enabled;
    WritingFrame(cfg, w, l, v);
  }

  lemma OfflineKeepsDecisions(cfg: Config, w: World, l: Label, v: World)
    requires Offline(l) && Enabled(cfg, w, l) && v == Apply(cfg, w, l)
    requires IdsInv(w) && DecidedInv(w)
    ensures DecidedInv(v)
  {
    hide Apply, Enabled;
    OfflineFrame(cfg, w, l, v);
    OfflineRequests(cfg, w, l, v);
  }

  /** The last open execution is the only one that can be both open and spent. */
  lemma OnlyTheLastIsSpent(cfg: Config, w: World, k: nat)
    requires FocusInv(cfg, w) && SpawnInv(cfg, w) && k == LastOpen(w.doc.steps)
    ensures forall j :: 0 <= j < |w.doc.steps| && w.doc.steps[j].IsOpen() && w.doc.steps[j].id in w.log.spent ==> j == k
  {}

  lemma ReopeningKeepsSpawns(cfg: Config, w: World, v: World, k: nat, again: set<nat>)
    requires IdsInv(w) && SpawnInv(cfg, w) && again <= w.log.spent && k <= |w.doc.steps|
    requires forall j :: 0 <= j < |w.doc.steps| && w.doc.steps[j].IsOpen() && w.doc.steps[j].id in w.log.spent ==>
             j == k
    requires ClosesOnly(w.doc.steps, v.doc.steps) && v.driver == None && v.nextId == w.nextId
    requires v.log == w.log.(spent := w.log.spent - again, reopened := w.log.reopened + multiset(again))
    requires w.driver == None
    requires v.doc.status.Pending? && k < |w.doc.steps| && w.doc.steps[k].IsOpen()
             && w.doc.steps[k].id in w.log.spent ==>
               w.doc.steps[k].id in again || !v.doc.steps[k].IsOpen()
    ensures SpawnInv(cfg, v)
  {}

  lemma RecoverFrame(cfg: Config, w: World, l: Label, v: World, k: nat, again: set<nat>)
    requires l.Recover? && Enabled(cfg, w, l) && v == Apply(cfg, w, l) && k == LastOpen(w.doc.steps)
    requires again == Reopened(w, Classify(cfg, w.doc, w.approvals, l.probe))
    ensures w.driver == None && again <= w.log.spent
    ensures v.log == w.log.(spent := w.log.spent - again, reopened := w.log.reopened + multiset(again))
    ensures v.doc.status.Pending? && k < |w.doc.steps| && w.doc.steps[k].IsOpen()
            && w.doc.steps[k].id in w.log.spent ==>
              w.doc.steps[k].id in again || !v.doc.steps[k].IsOpen()
  {}

  lemma RecoverKeepsSpawns(cfg: Config, w: World, l: Label, v: World)
    requires l.Recover? && Enabled(cfg, w, l) && v == Apply(cfg, w, l)
    requires IdsInv(w) && FocusInv(cfg, w) && SpawnInv(cfg, w)
    ensures SpawnInv(cfg, v)
  {
    var k := LastOpen(w.doc.steps);
    var again := Reopened(w, Classify(cfg, w.doc, w.approvals, l.probe));
    hide Apply, Enabled, Classify, Reopened, IdsInv, FocusInv, SpawnInv, ClosesOnly;
    OfflineFrame(cfg, w, l, v);
    RecoverFrame(cfg, w, l, v, k, again);
    OnlyTheLastIsSpent(cfg, w, k);
    ReopeningKeepsSpawns(cfg, w, v, k, again);
  }

  lemma HumanKeepsSpawns(cfg: Config, w: World, l: Label, v: World)
    requires (l.HumanRetry? || l.CancelIdle?) && Enabled(cfg, w, l) && v == Apply(cfg, w, l)
    requires IdsInv(w) && FocusInv(cfg, w) && SpawnInv(cfg, w)
    ensures SpawnInv(cfg, v)
  {
    assert v.log == w.log && v.doc.steps == CloseAll(w.doc.steps, StepStatus.Cancelled) && v.driver == None;
    hide Apply, Enabled;
  }

  /** Labels after which the driver holds a new grant, clearance or cover. */
  predicate Clearing(l: Label) {
    l.PassGate? || l.SeeGrant? || l.TakeCover?
  }

  predicate Acting(l: Label) {
    l.Act? || l.Spawn?
  }

  lemma ClearingKeepsConsent(cfg: Config, w: World, l: Label, v: World)
    requires Clearing(l) && Enabled(cfg, w, l) && v == Apply(cfg, w, l)
    requires IdsInv(w) && DecidedInv(w) && ConsentInv(cfg, w) && Extends(w, v)
    ensures ConsentInv(cfg, v)
  {
    EvidenceKept(cfg, w, v);
    hide CoverNames, Extends, IdsInv;
  }

  lemma ActingKeepsConsent(cfg: Config, w: World, l: Label, v: World)
    requires Acting(l) && Enabled(cfg, w, l) && v == Apply(cfg, w, l)
    requires ConsentInv(cfg, w) && Extends(w, v)
    ensures ConsentInv(cfg, v)
  {
    EvidenceKept(cfg, w, v);
    hide CoverNames, Extends, Evidence, CoverEvidence, Granted;
  }

  lemma OtherwiseConsentFrame(cfg: Config, w: World, l: Label, v: World)
    requires !Clearing(l) && !Acting(l) && !l.Save? && Enabled(cfg, w, l) && v == Apply(cfg, w, l)
    ensures v.log.covers == w.log.covers && v.log.effects == w.log.effects && v.doc.cover == w.doc.cover
    ensures v.driver.Some? ==>
              if w.driver.None? then v.driver.value.granted == {} && v.driver.value.gates == {}
              else v.driver.value == w.driver.value.(phase := v.driver.value.phase)
  {}

  lemma SavingKeepsConsent(cfg: Config, w: World, l: Label, v: World)
    requires l.Save? && Enabled(cfg, w, l) && v == Apply(cfg, w, l)
    requires ConsentInv(cfg, w) && Extends(w, v)
    ensures ConsentInv(cfg, v)
  {
    EvidenceKept(cfg, w, v);
    hide CoverNames, Extends, Evidence, CoverEvidence, Granted;
  }

  lemma ConsentKept(cfg: Config, w: World, l: Label, v: World)
    requires Enabled(cfg, w, l) && v == Apply(cfg, w, l)
    requires IdsInv(w) && DecidedInv(w) && ConsentInv(cfg, w)
    ensures ConsentInv(cfg, v)
  {
    RequestsStand(cfg, w, l, v);
    hide Apply, Enabled, Extends;
    if Clearing(l) {
      ClearingKeepsConsent(cfg, w, l, v);
    } else if Acting(l) {
      ActingKeepsConsent(cfg, w, l, v);
    } else if l.Save? {
      SavingKeepsConsent(cfg, w, l, v);
    } else {
      OtherwiseConsentFrame(cfg, w, l, v);
      EvidenceKept(cfg, w, v);
    }
  }

  lemma EvidenceKept(cfg: Config, w: World, v: World)
    requires Extends(w, v)
    ensures forall a :: Granted(w, a) ==> Granted(v, a)
    ensures forall g :: Evidence(cfg, w, g) ==> Evidence(cfg, v, g)
    ensures forall c :: CoverEvidence(cfg, w, c) ==> CoverEvidence(cfg, v, c)
  {
    hide CoverNames;
  }

  // ------------------------------------------------------------ the invariant

  lemma SpawnsKept(cfg: Config, w: World, l: Label, v: World)
    requires Enabled(cfg, w, l) && v == Apply(cfg, w, l)
    requires IdsInv(w) && FocusInv(cfg, w) && DecidedInv(w) && SpawnInv(cfg, w)
    ensures SpawnInv(cfg, v)
  {
    hide Enabled, Apply, IdsInv, FocusInv, DecidedInv, SpawnInv, Quiet, Asking, Writing;
    if Quiet(l) {
      QuietKeepsSpawns(cfg, w, l, v);
    } else if Asking(l) {
      AskingKeepsSpawns(cfg, w, l, v);
    } else if Writing(l) {
      WritingKeepsSpawns(cfg, w, l, v);
    } else if l.Recover? {
      RecoverKeepsSpawns(cfg, w, l, v);
    } else {
      KindsAreAll(l);
      HumanKeepsSpawns(cfg, w, l, v);
    }
  }

  lemma KindsAreAll(l: Label)
    ensures Quiet(l) || Asking(l) || Writing(l) || Offline(l)
  {}

  /** Every label keeps the invariant. */
  lemma InvKept(cfg: Config, w: World, l: Label, v: World)
    requires ValidWorkflow(cfg.workflow)
    requires Enabled(cfg, w, l) && v == Apply(cfg, w, l)
    requires Inv(cfg, w)
    ensures Inv(cfg, v)
  {
    RetriesKept(cfg, w, l, v);
    FocusKept(cfg, w, l, v);
    SpawnsKept(cfg, w, l, v);
    ConsentKept(cfg, w, l, v);
    KindsAreAll(l);
    hide Enabled, Apply, Quiet, Asking, Writing, Offline;
    hide IdsInv, PromptInv, FocusInv, DecidedInv, SpawnInv, RetryInv, ConsentInv;
    if Quiet(l) {
      QuietKeepsIds(cfg, w, l, v);
      QuietKeepsPrompts(cfg, w, l, v);
      QuietKeepsDecisions(cfg, w, l, v);
    } else if Asking(l) {
      AskingKeepsIds(cfg, w, l, v);
      AskingKeepsPrompts(cfg, w, l, v);
      AskingKeepsDecisions(cfg, w, l, v);
    } else if Writing(l) {
      WritingKeepsIds(cfg, w, l, v);
      WritingKeepsPrompts(cfg, w, l, v);
      WritingKeepsDecisions(cfg, w, l, v);
    } else {
      OfflineKeepsIds(cfg, w, l, v);
      OfflineKeepsPrompts(cfg, w, l, v);
      OfflineKeepsDecisions(cfg, w, l, v);
    }
  }

  lemma FocusKept(cfg: Config, w: World, l: Label, v: World)
    requires ValidWorkflow(cfg.workflow)
    requires Enabled(cfg, w, l) && v == Apply(cfg, w, l)
    requires FocusInv(cfg, w) && SpawnInv(cfg, w)
    ensures FocusInv(cfg, v)
  {
    if Quiet(l) {
      hide Apply, Enabled;
      QuietFrame(cfg, w, l, v);
    } else if Asking(l) {
      hide Apply, Enabled;
      AskingFrame(cfg, w, l, v);
    } else if Writing(l) {
      WritingKeepsFocus(cfg, w, l, v);
    } else {
      OfflineKeepsFocus(cfg, w, l, v);
    }
  }

  lemma WritingKeepsFocus(cfg: Config, w: World, l: Label, v: World)
    requires Writing(l) && Enabled(cfg, w, l) && v == Apply(cfg, w, l)
    requires FocusInv(cfg, w) && SpawnInv(cfg, w)
    ensures FocusInv(cfg, v)
  {
    if l.Save? {
      SaveFrame(cfg, w, l, v);
      hide Apply, Enabled, SpawnInv;
    }
  }

  lemma OfflineKeepsFocus(cfg: Config, w: World, l: Label, v: World)
    requires ValidWorkflow(cfg.workflow)
    requires Offline(l) && Enabled(cfg, w, l) && v == Apply(cfg, w, l)
    requires FocusInv(cfg, w)
    ensures FocusInv(cfg, v)
  {
    OfflineFrame(cfg, w, l, v);
    OfflineCursor(cfg, w, l, v);
    hide Apply, Enabled;
  }

  /** Without a driver, the cursor moves only when no command is left open. */
  lemma OfflineCursor(cfg: Config, w: World, l: Label, v: World)
    requires Offline(l) && Enabled(cfg, w, l) && v == Apply(cfg, w, l)
    requires FocusInv(cfg, w)
    ensures v.doc.cursor == w.doc.cursor || NoOpenCommand(cfg, v.doc.steps)
  {
    if l.Recover? {
      var k := LastOpen(w.doc.steps);
      assert forall j :: 0 <= j < |w.doc.steps| && w.doc.steps[j].IsOpen() && IsCommand(cfg, w.doc.steps[j]) ==> j == k;
    }
  }

  lemma CountersFrame(cfg: Config, w: World, l: Label, v: World)
    requires !l.Route? && Enabled(cfg, w, l) && v == Apply(cfg, w, l)
    ensures forall id :: CountOf(v.doc.retryCounts, id) <= CountOf(w.doc.retryCounts, id)
  {
    hide Classify, GateOk, CanRoute;
  }

  lemma RetriesKept(cfg: Config, w: World, l: Label, v: World)
    requires ValidWorkflow(cfg.workflow)
    requires Enabled(cfg, w, l) && v == Apply(cfg, w, l)
    requires RetryInv(cfg, w)
    ensures RetryInv(cfg, v)
  {
    if l.Route? {
      IndexOfAt(cfg.workflow, w.doc.cursor);
    } else {
      hide Enabled, Apply, CapOf;
      CountersFrame(cfg, w, l, v);
    }
  }

  lemma {:induction false} AlwaysInv(cfg: Config, path: seq<World>, labels: seq<Label>, i: nat)
    requires ValidWorkflow(cfg.workflow)
    requires Execution(cfg, path, labels) && i < |path|
    ensures Inv(cfg, path[i])
  {
    hide Inv, Enabled, Apply, ValidWorkflow, Init;
    if i == 0 {
      InitHolds(cfg, path[0]);
    } else {
      AlwaysInv(cfg, path, labels, i - 1);
      assert StepAt(cfg, path, labels, i - 1);
      InvKept(cfg, path[i - 1], labels[i - 1], path[i]);
    }
  }
}
