/** The epic lifecycle: planned, proposed, accepted, planned again, followed up. */
module Epics {
  import opened Text
  import opened PlanGraph
  import Decimal

  datatype EpicStatus = Planning | Proposed | PlanFailed | Accepted | Done | Rejected

  datatype Epic = Epic(
    status: EpicStatus,
    planningTasks: seq<nat>,
    plan: Option<seq<PlanTask>>,
    tasks: map<string, nat>,
    declined: seq<string>,
    conformanceTask: Option<nat>,
    reviewed: bool)

  datatype TaskStatus = Queued | Running | Blocked | AwaitingApproval | Succeeded | Failed | Cancelled

  predicate IsTerminal(s: TaskStatus) {
    s == Succeeded || s == Failed || s == Cancelled
  }

  datatype Task = Task(status: TaskStatus, dependsOn: seq<nat>, started: bool)

  /** Everything stored: numbered tasks, the counter behind the numbers, numbered epics. */
  datatype World = World(tasks: map<nat, Task>, counter: nat, epics: map<nat, Epic>)

  const EMPTY := World(map[], 0, map[])

  function PlanOf(e: Epic): seq<PlanTask> {
    if e.plan.Some? then e.plan.value else []
  }

  /** Plan tasks nobody has accepted or declined yet. */
  function OpenKeys(e: Epic): seq<string> {
    OpenAmong(KeyList(PlanOf(e)), e.tasks.Keys, e.declined)
  }

  function OpenAmong(ks: seq<string>, accepted: set<string>, declined: seq<string>): (r: seq<string>)
    ensures forall k :: k in r <==> k in ks && k !in accepted && k !in declined
  {
    if ks == [] then []
    else (if ks[0] !in accepted && ks[0] !in declined then [ks[0]] else []) + OpenAmong(ks[1..], accepted, declined)
  }

  // ---------------------------------------------------------------- invariants

  /** Keys are unique, and every accepted key has its plan entry and its stored task. */
  ghost predicate EpicOk(e: Epic, tasks: map<nat, Task>) {
    && UniqueKeys(PlanOf(e))
    && (forall k :: k in e.tasks ==> k in Keys(PlanOf(e)) && e.tasks[k] in tasks)
  }

  /** A task waits only for stored tasks with smaller numbers. */
  ghost predicate TasksOk(tasks: map<nat, Task>, counter: nat) {
    forall n :: n in tasks ==> n <= counter && forall d :: d in tasks[n].dependsOn ==> d < n && d in tasks
  }

  ghost predicate Inv(w: World) {
    TasksOk(w.tasks, w.counter) && forall i :: i in w.epics ==> EpicOk(w.epics[i], w.tasks)
  }

  /** Every dependency names a task of the plan. */
  ghost predicate Closed(plan: seq<PlanTask>) {
    forall t, d :: t in plan && d in t.dependsOn ==> d in Keys(plan)
  }

  /** No plan ever has a cycle, and a plan in execution names only its own tasks. */
  ghost predicate GraphOk(e: Epic) {
    && Acyclic(PlanOf(e))
    && (e.status == Accepted || e.status == Done ==> Closed(PlanOf(e)))
  }

  ghost predicate GraphsOk(epics: map<nat, Epic>) {
    forall i :: i in epics ==> GraphOk(epics[i])
  }

  // ---------------------------------------------------------------- operations

  /** A new queued task; numbers are never reused. */
  function AddTask(w: World, dependsOn: seq<nat>): World {
    w.(tasks := w.tasks[w.counter + 1 := Task(Queued, dependsOn, false)], counter := w.counter + 1)
  }

  /** Re-planning keeps the entries of accepted tasks, in front. */
  function KeepAccepted(was: seq<PlanTask>, accepted: set<string>, merged: seq<PlanTask>): seq<PlanTask>
    decreases |was|
  {
    if was == [] then merged
    else KeepAccepted(was[1..], accepted,
      if was[0].key in accepted && was[0].key !in Keys(merged) then [was[0]] + merged else merged)
  }

  /** What a finished planning task does to the epic; `proposal` is its validated plan, if it has one. */
  function SyncPlanning(e: Epic, tid: nat, proposal: Option<seq<PlanTask>>): Epic {
    if e.status != Planning || e.planningTasks == [] || e.planningTasks[|e.planningTasks| - 1] != tid then e
    else match proposal
      case None => e.(status := PlanFailed)
      case Some(p) => e.(plan := Some(KeepAccepted(PlanOf(e), e.tasks.Keys, p)), status := Proposed)
  }

  /** The planning task of an epic in planning has just ended. */
  predicate Awaited(e: Epic, tid: nat) {
    e.status == Planning && e.planningTasks != [] && e.planningTasks[|e.planningTasks| - 1] == tid
  }

  /** What a conformance review came back with: nothing readable, or a report with or without follow-ups. */
  datatype Review = NoReport | Report(followups: Option<seq<Option<PlanTask>>>)

  /** The review the epic waits for is recorded once; its follow-ups extend the plan. */
  function Reviewed(e: Epic, tid: nat, review: Review): Epic {
    if (e.status != Accepted && e.status != Done) || e.conformanceTask != Some(tid) || e.reviewed then e
    else match review
      case NoReport => e.(reviewed := true)
      case Report(None) => e.(reviewed := true)
      case Report(Some(fs)) =>
        e.(reviewed := true, plan := Some(AddFollowups(PlanOf(e), CountF(KeyList(PlanOf(e))) + 1, fs)))
  }

  /** Every accepted task has finished, and nothing is left to decide. */
  ghost predicate Finished(e: Epic, tasks: map<nat, Task>) {
    && e.status == Accepted && e.tasks != map[] && OpenKeys(e) == []
    && forall k :: k in e.tasks ==> e.tasks[k] in tasks ==> IsTerminal(tasks[e.tasks[k]].status)
  }

  function FollowupKey(n: nat): string {
    "F" + Decimal.Show(n)
  }

  predicate NumberedFrom(k: string, n: nat) {
    |k| > 1 && Decimal.AllDigits(k[1..]) && k == FollowupKey(Decimal.Value(k[1..])) && Decimal.Value(k[1..]) >= n
  }

  function Above(keys: set<string>, n: nat): set<string> {
    set k | k in keys && NumberedFrom(k, n)
  }

  lemma FollowupNumber(n: nat)
    ensures NumberedFrom(FollowupKey(n), n) && !NumberedFrom(FollowupKey(n), n + 1)
  {
    Decimal.ShowValue(n);
    assert FollowupKey(n)[1..] == Decimal.Show(n);
  }

  lemma AboveShrinks(keys: set<string>, n: nat)
    requires FollowupKey(n) in keys
    ensures |Above(keys, n + 1)| < |Above(keys, n)|
  {
    FollowupNumber(n);
    assert FollowupKey(n) in Above(keys, n) && FollowupKey(n) !in Above(keys, n + 1);
    SubsetSmaller(Above(keys, n + 1), Above(keys, n), FollowupKey(n));
  }

  lemma SubsetSmaller(a: set<string>, b: set<string>, x: string)
    requires a <= b && x in b && x !in a
    ensures |a| < |b|
  {
    var rest := b - {x};
    assert a <= rest;
    SubsetSize(a, rest);
  }

  lemma {:induction false} SubsetSize(a: set<string>, b: set<string>)
    requires a <= b
    ensures |a| <= |b|
    decreases |a|
  {
    if a != {} {
      var x :| x in a;
      SubsetSize(a - {x}, b - {x});
    }
  }

  /** The first number from `n` on whose follow-up key is free. */
  function FreeNumber(keys: set<string>, n: nat): (m: nat)
    ensures m >= n && FollowupKey(m) !in keys
    decreases |Above(keys, n)|
  {
    if FollowupKey(n) in keys then
      AboveShrinks(keys, n);
      FreeNumber(keys, n + 1)
    else n
  }

  function KnownOnly(ds: seq<string>, known: set<string>): (r: seq<string>)
    ensures forall d :: d in r <==> d in ds && d in known
  {
    if ds == [] then [] else (if ds[0] in known then [ds[0]] else []) + KnownOnly(ds[1..], known)
  }

  /** Usable follow-ups get a fresh key and keep only dependencies the plan knows. */
  function AddFollowups(plan: seq<PlanTask>, n: nat, fs: seq<Option<PlanTask>>): seq<PlanTask>
    decreases |fs|
  {
    if fs == [] then plan
    else if fs[0].None? || IsBlank(fs[0].value.title) || fs[0].value.acceptance == [] then
      AddFollowups(plan, n, fs[1..])
    else
      var m := FreeNumber(Keys(plan), n);
      var t := fs[0].value.(key := FollowupKey(m), dependsOn := KnownOnly(fs[0].value.dependsOn, Keys(plan)));
      AddFollowups(plan + [t], m + 1, fs[1..])
  }

  function CountF(ks: seq<string>): nat {
    if ks == [] then 0 else (if ks[0] != [] && ks[0][0] == 'F' then 1 else 0) + CountF(ks[1..])
  }

  method FollowUp(plan: seq<PlanTask>, fs: seq<Option<PlanTask>>) returns (out: seq<PlanTask>)
    ensures out == AddFollowups(plan, CountF(KeyList(plan)) + 1, fs)
  {
    hide Keys, KnownOnly, FollowupKey;
    out := plan;
    var n: nat := CountF(KeyList(plan)) + 1;
    var i := 0;
    assert fs[0..] == fs;
    while i < |fs|
      invariant 0 <= i <= |fs|
      invariant AddFollowups(plan, CountF(KeyList(plan)) + 1, fs) == AddFollowups(out, n, fs[i..])
    {
      assert fs[i..][0] == fs[i] && fs[i..][1..] == fs[i + 1..];
      var f := fs[i];
      i := i + 1;
      if f.None? || IsBlank(f.value.title) || f.value.acceptance == [] {
        continue;
      }
      ghost var from := n;
      while FollowupKey(n) in Keys(out)
        invariant n >= from && FreeNumber(Keys(out), n) == FreeNumber(Keys(out), from)
        decreases |Above(Keys(out), n)|
      {
        AboveShrinks(Keys(out), n);
        n := n + 1;
      }
      var t := f.value.(key := FollowupKey(n), dependsOn := KnownOnly(f.value.dependsOn, Keys(out)));
      n := n + 1;
      out := out + [t];
    }
    assert fs[i..] == [];
  }

  // ------------------------------------------------------------------ accepting

  /** Why an acceptance is refused, or the keys it selects. */
  ghost predicate Selectable(e: Epic, selected: seq<string>) {
    && selected != []
    && (forall k :: k in selected ==> k in OpenKeys(e))
    && DependenciesSelected(PlanOf(e), selected, e.tasks)
  }

  /** Every dependency of a selected task is accepted already or selected too. */
  predicate DependenciesSelected(plan: seq<PlanTask>, selected: seq<string>, accepted: map<string, nat>) {
    forall t :: t in plan && t.key in selected ==> forall d :: d in t.dependsOn ==> d in selected || d in accepted
  }

  function Selection(e: Epic, only: Option<seq<string>>): seq<string> {
    if only.Some? then only.value else OpenKeys(e)
  }

  function Chosen(plan: seq<PlanTask>, selected: seq<string>): (r: seq<PlanTask>)
    ensures forall t :: t in r <==> t in plan && t.key in selected
  {
    if plan == [] then []
    else (if plan[0].key in selected then [plan[0]] else []) + Chosen(plan[1..], selected)
  }

  ghost predicate CanAccept(e: Epic, only: Option<seq<string>>, rules: PlanRules) {
    && (e.status == Proposed || e.status == Accepted || e.status == Done)
    && e.plan.Some?
    && Selectable(e, Selection(e, only))
    && PlanOk(e.plan.value, Revalidation(rules, |e.plan.value|))
  }

  /** Acceptance checks the whole plan again, on its own and without a size limit below its size. */
  function Revalidation(rules: PlanRules, size: nat): PlanRules {
    rules.(maxTasks := if rules.maxTasks > size then rules.maxTasks else size, existingKeys := [])
  }

  function Ids(ds: seq<string>, ids: map<string, nat>): seq<nat> {
    if ds == [] then []
    else (if ds[0] in ids then [ids[ds[0]]] else []) + Ids(ds[1..], ids)
  }

  function TaskFor(tasks: seq<PlanTask>, key: string): (t: PlanTask)
    requires key in Keys(tasks)
    ensures t in tasks && t.key == key
  {
    if tasks[0].key == key then tasks[0]
    else
      assert key in Keys(tasks[1..]) by {
        var i :| 0 <= i < |tasks| && tasks[i].key == key;
        assert tasks[1..][i - 1].key == key;
      }
      TaskFor(tasks[1..], key)
  }

  /** The keys got the numbers after `base`, in their order; no other task was made, and none has begun. */
  ghost predicate OnePerKey(
    order: seq<string>, created: map<string, nat>, tasks: map<nat, Task>, before: map<nat, Task>, base: nat)
  {
    && (forall i :: 0 <= i < |order| ==> order[i] in created && created[order[i]] == base + 1 + i)
    && (forall n :: n in tasks <==> n in before || base < n <= base + |order|)
    && (forall n :: n in tasks && base < n ==> tasks[n].status == Queued && !tasks[n].started)
  }

  // ------------------------------------------------------------ the class of it

  datatype AcceptResult = Refused | Interrupted | Taken(keys: seq<string>, created: map<string, nat>)

  class Board {
    var tasks: map<nat, Task>
    var counter: nat
    var epics: map<nat, Epic>

    ghost function State(): World
      reads this
    {
      World(tasks, counter, epics)
    }

    ghost predicate Valid()
      reads this
    {
      Inv(State())
    }

    /** The plans' own dependencies are sound. */
    ghost predicate Sound()
      reads this
    {
      GraphsOk(epics)
    }

    constructor ()
      ensures Valid() && Sound() && State() == EMPTY
    {
      tasks, counter, epics := map[], 0, map[];
    }

    method CreateTask(dependsOn: seq<nat>) returns (id: nat)
      requires forall d :: d in dependsOn ==> d in tasks
      requires Valid()
      modifies this`tasks, this`counter
      ensures Valid() && State() == AddTask(old(State()), dependsOn)
      ensures id == counter && id !in old(tasks)
    {
      AddTaskKeeps(State(), dependsOn);
      counter := counter + 1;
      id := counter;
      tasks := tasks[id := Task(Queued, dependsOn, false)];
    }

    /** A new epic is stored first and gets its planning task second; the second half may fail. */
    method CreateEpic(id: nat, plannable: bool)
      requires Valid() && id !in epics
      modifies this
      ensures Valid() && epics.Keys == old(epics).Keys + {id}
      ensures old(Sound()) ==> Sound()
      ensures epics[id].status == Planning && epics[id].plan == None && epics[id].tasks == map[]
      ensures epics[id].declined == [] && epics[id].conformanceTask == None && !epics[id].reviewed
      ensures forall i :: i in old(epics) ==> epics[i] == old(epics)[i]
      ensures counter !in old(tasks) || !plannable
      ensures tasks == if plannable then old(tasks)[counter := Task(Queued, [], false)] else old(tasks)
      ensures epics[id].planningTasks == if plannable then [counter] else []
    {
      NoPlanIsAcyclic();
      hide Acyclic, Closed;
      epics := epics[id := Epic(Planning, [], None, map[], [], None, false)];
      if plannable {
        var t := CreateTask([]);
        epics := epics[id := epics[id].(planningTasks := [t])];
      }
    }

    /** A planning task ended; a proposal with a key twice is what plan validation keeps away from here. */
    method Sync(id: nat, tid: nat, proposal: Option<seq<PlanTask>>)
      requires Valid() && id in epics
      modifies this`epics
      ensures epics == old(epics)[id := SyncPlanning(old(epics)[id], tid, proposal)]
      ensures Valid() <==> (Awaited(old(epics)[id], tid) && proposal.Some? ==> UniqueKeys(proposal.value))
      ensures old(Sound()) && (proposal.Some? ==> Acyclic(proposal.value) && Closed(proposal.value)) ==> Sound()
    {
      hide UniqueKeys, GraphOk, Acyclic, Closed, EpicOk;
      SyncKeepsIff(State(), id, tid, proposal);
      if GraphOk(epics[id]) && (proposal.Some? ==> Acyclic(proposal.value) && Closed(proposal.value)) {
        SyncKeepsGraph(epics[id], tid, proposal);
      }
      var x := epics[id];
      if x.status == Planning && x.planningTasks != [] && x.planningTasks[|x.planningTasks| - 1] == tid {
        match proposal {
          case None => x := x.(status := PlanFailed);
          case Some(p) =>
            var merged := p;
            var was := PlanOf(x);
            var i := 0;
            assert was[0..] == was;
            while i < |was|
              invariant 0 <= i <= |was|
              invariant KeepAccepted(was, x.tasks.Keys, p) == KeepAccepted(was[i..], x.tasks.Keys, merged)
            {
              assert was[i..][0] == was[i] && was[i..][1..] == was[i + 1..];
              if was[i].key in x.tasks && was[i].key !in Keys(merged) {
                merged := [was[i]] + merged;
              }
              i := i + 1;
            }
            assert was[i..] == [];
            x := x.(plan := Some(merged), status := Proposed);
        }
      }
      epics := epics[id := x];
    }

    /** Starts a conformance review, the first or a further one. */
    method Verify(id: nat) returns (ok: bool)
      requires Valid() && id in epics
      modifies this
      ensures Valid()
      ensures old(Sound()) ==> Sound()
      ensures ok <==> old(epics)[id].tasks != map[]
      ensures !ok ==> State() == old(State())
      ensures ok ==>
                && counter !in old(tasks) && tasks == old(tasks)[counter := Task(Queued, [], false)]
                && epics == old(epics)[id := old(epics)[id].(conformanceTask := Some(counter), reviewed := false)]
    {
      if epics[id].tasks == map[] {
        return false;
      }
      var t := CreateTask([]);
      epics := epics[id := epics[id].(conformanceTask := Some(t), reviewed := false)];
      return true;
    }

    method ReviewConformance(id: nat, tid: nat, review: Review)
      requires Valid() && id in epics
      modifies this`epics
      ensures Valid() && epics == old(epics)[id := Reviewed(old(epics)[id], tid, review)]
      ensures old(Sound()) ==> Sound()
    {
      hide AddFollowups, CountF, KeyList, FollowupKey, KnownOnly, Acyclic, Closed, UniqueKeys;
      var x := epics[id];
      if (x.status != Accepted && x.status != Done) || x.conformanceTask != Some(tid) || x.reviewed {
        return;
      }
      match review {
        case NoReport =>
        case Report(None) =>
        case Report(Some(fs)) =>
          FollowupsKeep(PlanOf(x), CountF(KeyList(PlanOf(x))) + 1, fs);
          var plan := FollowUp(PlanOf(x), fs);
          PrefixKeys(PlanOf(x), plan);
          x := x.(plan := Some(plan));
      }
      epics := epics[id := x.(reviewed := true)];
    }

    /** An accepted epic is done when all its tasks are and nothing is open. */
    method Finish(id: nat)
      requires Valid() && id in epics
      modifies this`epics
      ensures Valid()
      ensures old(Sound()) ==> Sound()
      ensures epics ==
              if Finished(old(epics)[id], tasks) then old(epics)[id := old(epics)[id].(status := Done)] else old(epics)
    {
      var x := epics[id];
      if x.status == Accepted && x.tasks != map[] && OpenKeys(x) == []
         && forall k :: k in x.tasks ==> x.tasks[k] in tasks ==> IsTerminal(tasks[x.tasks[k]].status) {
        epics := epics[id := x.(status := Done)];
      }
    }

    method Accept(id: nat, only: Option<seq<string>>, rules: PlanRules) returns (r: AcceptResult)
      requires Valid() && id in epics
      modifies this
      ensures Valid()
      ensures old(Sound()) ==> Sound()
      ensures r.Refused? <==> !CanAccept(old(epics)[id], only, rules)
      ensures r.Refused? ==> State() == old(State())
      ensures r.Interrupted? ==> epics == old(epics)
      ensures forall n :: n in old(tasks) ==> n in tasks && tasks[n] == old(tasks)[n]
      ensures r.Taken? ==>
                var e := old(epics)[id];
                && r.created.Keys == (set k | k in Selection(e, only))
                && epics == old(epics)[id := e.(tasks := e.tasks + r.created, status := Accepted)]
                && forall k :: k in r.created ==>
                     && r.created[k] in tasks && r.created[k] > old(counter)
                     && tasks[r.created[k]].dependsOn == Ids(TaskFor(PlanOf(e), k).dependsOn, e.tasks + r.created)
                     && |tasks[r.created[k]].dependsOn| == |TaskFor(PlanOf(e), k).dependsOn|
      ensures r.Taken? ==> Order(Chosen(PlanOf(old(epics)[id]), Selection(old(epics)[id], only))) == Ordered(r.keys)
      ensures r.Taken? ==> OnePerKey(r.keys, r.created, tasks, old(tasks), old(counter))
    {
      var e := epics[id];
      var may := CheckAcceptance(e, only, rules);
      if !may {
        return Refused;
      }
      hide Inv, CanAccept, Selectable, PlanOk, OrderFits, Linked, Keys, UniqueKeys, TaskFor, Ids, Order, OnePerKey;
      var plan, selected := PlanOf(e), Selection(e, only);
      var chosen := Chosen(plan, selected);
      AcceptableOrder(e, only, rules);
      var sorted := TopoOrder(chosen);
      AcceptedIdsStored(State(), id);
      var ok, created := CreateTasks(chosen, sorted.order, e.tasks);
      if !ok {
        return Interrupted;
      }
      LinkedIsExact(plan, chosen, e.tasks, created, tasks, old(counter));
      AcceptedKeeps(State(), id, created);
      epics := epics[id := e.(tasks := e.tasks + created, status := Accepted)];
      return Taken(sorted.order, created);
    }

    method CheckAcceptance(e: Epic, only: Option<seq<string>>, rules: PlanRules) returns (ok: bool)
      ensures ok <==> CanAccept(e, only, rules)
    {
      hide PlanOk, OpenKeys;
      if e.status !in {Proposed, Accepted, Done} || e.plan.None? {
        return false;
      }
      var selected := Selection(e, only);
      if selected == [] || exists k :: k in selected && k !in OpenKeys(e) {
        return false;
      }
      if !DependenciesSelected(PlanOf(e), selected, e.tasks) {
        return false;
      }
      var errs := ValidatePlan(e.plan.value, Revalidation(rules, |e.plan.value|));
      return errs == [];
    }

    /** One task per key, in order; stopping half-way leaves tasks no epic knows. */
    method CreateTasks(chosen: seq<PlanTask>, order: seq<string>, accepted: map<string, nat>)
      returns (ok: bool, created: map<string, nat>)
      requires Valid() && OrderFits(chosen, order, accepted)
      requires forall k :: k in accepted ==> accepted[k] in tasks
      modifies this`tasks, this`counter
      ensures Valid()
      ensures forall n :: n in old(tasks) ==> n in tasks && tasks[n] == old(tasks)[n]
      ensures ok ==> created.Keys == (set k | k in order) && Linked(chosen, accepted, created, tasks, old(counter))
      ensures ok ==> OnePerKey(order, created, tasks, old(tasks), old(counter))
    {
      hide Linked, TaskFor, Keys, Ids, UniqueKeys, OnePerKey;
      created := map[];
      LinkedNone(chosen, accepted, tasks, counter);
      NoneMade(State());
      var i := 0;
      while i < |order|
        invariant 0 <= i <= |order|
        invariant epics == old(epics) && Valid() && counter >= old(counter)
        invariant forall n :: n in old(tasks) ==> n in tasks && tasks[n] == old(tasks)[n]
        invariant created.Keys == set k | k in order[..i]
        invariant forall k :: k in created ==> created[k] in tasks
        invariant Linked(chosen, accepted, created, tasks, old(counter))
        invariant counter == old(counter) + i && OnePerKey(order[..i], created, tasks, old(tasks), old(counter))
      {
        var key := order[i];
        assert Fits(chosen, order, accepted, i);
        var t := TaskFor(chosen, key);
        var ids := Ids(t.dependsOn, accepted + created);
        IdsStored(t.dependsOn, accepted + created, tasks);
        if * {
          return false, created;
        }
        ghost var before, made := tasks, created;
        var n := CreateTask(ids);
        created := created[key := n];
        assert key !in made;
        LinkedGrows(chosen, accepted, made, key, n, before, tasks, old(counter));
        assert order[..i + 1] == order[..i] + [key];
        OneMore(order, i, made, before, old(tasks), old(counter), ids);
        i := i + 1;
      }
      assert order[..i] == order;
      return true, created;
    }

    /** Decline open tasks, or the proposal as a whole. */
    method Reject(id: nat, only: Option<seq<string>>) returns (ok: bool)
      requires Valid() && id in epics
      modifies this`epics
      ensures Valid()
      ensures old(Sound()) ==> Sound()
      ensures ok <==> only.None? || forall k :: k in only.value ==> k in OpenKeys(old(epics)[id])
      ensures !ok ==> epics == old(epics)
      ensures ok ==> epics == old(epics)[id := Rejecting(old(epics)[id], only)]
    {
      hide Acyclic, Closed, UniqueKeys;
      var x := epics[id];
      match only {
        case Some(keys) =>
          if exists k :: k in keys && k !in OpenKeys(x) {
            return false;
          }
          x := x.(declined := x.declined + keys);
        case None =>
          x := if x.tasks == map[] then x.(status := Rejected) else x.(declined := x.declined + OpenKeys(x));
      }
      epics := epics[id := x];
      return true;
    }

    method Replan(id: nat) returns (ok: bool)
      requires Valid() && id in epics
      modifies this
      ensures Valid()
      ensures old(Sound()) ==> Sound()
      ensures ok <==> old(epics)[id].status != Planning
      ensures !ok ==> State() == old(State())
      ensures ok ==>
                && counter !in old(tasks) && tasks == old(tasks)[counter := Task(Queued, [], false)]
                && epics == old(epics)[id := Replanning(old(epics)[id], counter)]
    {
      if epics[id].status == Planning {
        return false;
      }
      var t := CreateTask([]);
      epics := epics[id := Replanning(epics[id], t)];
      return true;
    }

    method SetPlan(id: nat, plan: seq<PlanTask>, rules: PlanRules) returns (ok: bool)
      requires Valid() && id in epics
      modifies this`epics
      ensures Valid()
      ensures old(Sound()) ==> Sound()
      ensures ok <==> PlanOk(plan, rules.(existingKeys := [])) && old(epics)[id].tasks.Keys <= Keys(plan)
      ensures epics == if ok then old(epics)[id := Replaced(old(epics)[id], plan)] else old(epics)
    {
      var errs := ValidatePlan(plan, rules.(existingKeys := []));
      if errs != [] || !(epics[id].tasks.Keys <= Keys(plan)) {
        return false;
      }
      epics := epics[id := Replaced(epics[id], plan)];
      return true;
    }

    /** A human starts a task without waiting for its dependencies. */
    method Unblock(n: nat) returns (ok: bool)
      requires Valid() && n in tasks
      modifies this`tasks
      ensures Valid()
      ensures ok <==> old(tasks)[n].dependsOn != [] && !old(tasks)[n].started
      ensures !ok ==> tasks == old(tasks)
      ensures ok ==> var status := if old(tasks)[n].status == Blocked then Queued else old(tasks)[n].status;
                     tasks == old(tasks)[n := Task(status, [], false)]
    {
      var t := tasks[n];
      if t.dependsOn == [] || t.started {
        return false;
      }
      tasks := tasks[n := Task(if t.status == Blocked then Queued else t.status, [], false)];
      return true;
    }

    /** The engine moves a task along. */
    method SetStatus(n: nat, status: TaskStatus, started: bool)
      requires Valid() && n in tasks
      modifies this`tasks
      ensures Valid() && tasks == old(tasks)[n := old(tasks)[n].(status := status, started := started)]
    {
      tasks := tasks[n := tasks[n].(status := status, started := started)];
    }
  }

  function Rejecting(e: Epic, only: Option<seq<string>>): Epic {
    match only
    case Some(keys) => e.(declined := e.declined + keys)
    case None => if e.tasks == map[] then e.(status := Rejected) else e.(declined := e.declined + OpenKeys(e))
  }

  function Replanning(e: Epic, t: nat): Epic {
    e.(planningTasks := e.planningTasks + [t], status := Planning, declined := [])
  }

  function Replaced(e: Epic, plan: seq<PlanTask>): Epic {
    e.(plan := Some(plan), status := if e.status == PlanFailed || e.status == Planning then Proposed else e.status)
  }

  // --------------------------------------------------------- what the steps keep

  lemma AddTaskKeeps(w: World, dependsOn: seq<nat>)
    requires Inv(w) && forall d :: d in dependsOn ==> d in w.tasks
    ensures Inv(AddTask(w, dependsOn))
  {
    var v := AddTask(w, dependsOn);
    forall n | n in v.tasks ensures n <= v.counter && forall d :: d in v.tasks[n].dependsOn ==> d < n && d in v.tasks {
    }
  }

  lemma PrefixKeys(a: seq<PlanTask>, b: seq<PlanTask>)
    requires a <= b
    ensures Keys(a) <= Keys(b)
  {
    forall k | k in Keys(a) ensures k in Keys(b) {
      var i :| 0 <= i < |a| && a[i].key == k;
      assert b[i] == a[i];
    }
  }

  lemma KeysFront(t: PlanTask, plan: seq<PlanTask>)
    ensures Keys([t] + plan) == {t.key} + Keys(plan)
    ensures UniqueKeys([t] + plan) <==> UniqueKeys(plan) && t.key !in Keys(plan)
  {
    var all := [t] + plan;
    assert forall i :: 0 <= i < |plan| ==> all[i + 1] == plan[i];
    forall k ensures k in Keys(all) <==> k in {t.key} + Keys(plan) {
      if k in Keys(plan) {
        var i :| 0 <= i < |plan| && plan[i].key == k;
        assert all[i + 1].key == k;
      }
      assert all[0].key == t.key;
    }
    if UniqueKeys(all) {
      forall i | 0 <= i < |plan| ensures plan[i].key != t.key {
        assert all[0].key != all[i + 1].key;
      }
      forall i, j | 0 <= i < j < |plan| ensures plan[i].key != plan[j].key {
        assert all[i + 1].key != all[j + 1].key;
      }
    }
  }

  /** Keys stay unique, everything proposed stays, and no accepted entry is lost. */
  lemma {:induction false} KeepAcceptedKeeps(was: seq<PlanTask>, accepted: set<string>, merged: seq<PlanTask>)
    requires UniqueKeys(merged)
    ensures var r := KeepAccepted(was, accepted, merged);
            UniqueKeys(r) && Keys(r) == Keys(merged) + (Keys(was) * accepted)
    decreases |was|
  {
    if was != [] {
      assert was == [was[0]] + was[1..];
      KeysFront(was[0], was[1..]);
      KeysFront(was[0], merged);
      hide UniqueKeys, Keys;
      KeepAcceptedKeeps(was[1..], accepted,
        if was[0].key in accepted && was[0].key !in Keys(merged) then [was[0]] + merged else merged);
    }
  }

  lemma SyncKeeps(e: Epic, tasks: map<nat, Task>, tid: nat, proposal: Option<seq<PlanTask>>)
    requires EpicOk(e, tasks) && (proposal.Some? ==> UniqueKeys(proposal.value))
    ensures EpicOk(SyncPlanning(e, tid, proposal), tasks)
  {
    hide UniqueKeys, Keys, KeepAccepted;
    if proposal.Some? {
      KeepAcceptedKeeps(PlanOf(e), e.tasks.Keys, proposal.value);
    }
  }

  /** The proposal is the back of what re-planning makes of it. */
  lemma {:induction false} KeepAcceptedEndsIn(was: seq<PlanTask>, accepted: set<string>, merged: seq<PlanTask>)
    returns (front: seq<PlanTask>)
    ensures KeepAccepted(was, accepted, merged) == front + merged
    decreases |was|
  {
    if was == [] {
      front := [];
    } else if was[0].key in accepted && was[0].key !in Keys(merged) {
      front := KeepAcceptedEndsIn(was[1..], accepted, [was[0]] + merged);
      Associative(front, [was[0]], merged);
      front := front + [was[0]];
    } else {
      front := KeepAcceptedEndsIn(was[1..], accepted, merged);
    }
  }

  lemma UniqueBack(front: seq<PlanTask>, back: seq<PlanTask>)
    requires UniqueKeys(front + back)
    ensures UniqueKeys(back)
  {
    forall i, j | 0 <= i < j < |back| ensures back[i].key != back[j].key {
      assert (front + back)[|front| + i] == back[i] && (front + back)[|front| + j] == back[j];
    }
  }

  /** Taking a proposal keeps the invariant exactly when its keys are unique. */
  lemma SyncKeepsIff(w: World, id: nat, tid: nat, proposal: Option<seq<PlanTask>>)
    requires Inv(w) && id in w.epics
    ensures Inv(w.(epics := w.epics[id := SyncPlanning(w.epics[id], tid, proposal)]))
       <==> (Awaited(w.epics[id], tid) && proposal.Some? ==> UniqueKeys(proposal.value))
  {
    hide UniqueKeys, KeepAccepted, Keys;
    var e := w.epics[id];
    var v := w.(epics := w.epics[id := SyncPlanning(e, tid, proposal)]);
    if !Awaited(e, tid) || proposal.None? {
      SyncKeeps(e, w.tasks, tid, None);
    } else if UniqueKeys(proposal.value) {
      SyncKeeps(e, w.tasks, tid, proposal);
    } else {
      var front := KeepAcceptedEndsIn(PlanOf(e), e.tasks.Keys, proposal.value);
      if UniqueKeys(front + proposal.value) {
        UniqueBack(front, proposal.value);
      }
      assert !EpicOk(v.epics[id], v.tasks);
    }
  }

  lemma CycleAvoidsNewTask(plan: seq<PlanTask>, t: PlanTask, path: seq<string>)
    requires Closed(plan) && t.key !in Keys(plan) && forall d :: d in t.dependsOn ==> d in Keys(plan)
    requires IsCycle(plan + [t], path)
    ensures IsCycle(plan, path)
  {
    KeysSnoc(plan, t);
    var all := plan + [t];
    hide Keys;
    forall i | 0 <= i < |path| ensures path[i] != t.key {
      var from := if i == 0 then path[|path| - 1] else path[i - 1];
      assert DependsOn(all, from, path[i]);
      var s :| s in all && s.key == from && path[i] in s.dependsOn;
    }
    forall a, b | DependsOn(all, a, b) && a != t.key && b != t.key ensures DependsOn(plan, a, b) {
      var s :| s in all && s.key == a && b in s.dependsOn;
      assert s in plan;
    }
  }

  /** A new task that depends only on the plan, and that the plan does not know, closes no cycle. */
  lemma AddedTaskKeepsAcyclic(plan: seq<PlanTask>, t: PlanTask)
    requires Acyclic(plan) && Closed(plan) && t.key !in Keys(plan)
    requires forall d :: d in t.dependsOn ==> d in Keys(plan)
    ensures Acyclic(plan + [t]) && Closed(plan + [t])
  {
    hide IsCycle;
    KeysSnoc(plan, t);
    forall path ensures !IsCycle(plan + [t], path) {
      if IsCycle(plan + [t], path) {
        CycleAvoidsNewTask(plan, t, path);
      }
    }
  }

  /** Follow-ups only add: keys stay unique, and a sound dependency graph stays sound. */
  lemma {:induction false} FollowupsKeep(plan: seq<PlanTask>, n: nat, fs: seq<Option<PlanTask>>)
    requires UniqueKeys(plan)
    ensures var r := AddFollowups(plan, n, fs);
            plan <= r && UniqueKeys(r) && (Acyclic(plan) && Closed(plan) ==> Acyclic(r) && Closed(r))
    decreases |fs|
  {
    hide UniqueKeys, Acyclic, Closed, Keys, FollowupKey, FreeNumber;
    if fs != [] {
      if fs[0].None? || IsBlank(fs[0].value.title) || fs[0].value.acceptance == [] {
        FollowupsKeep(plan, n, fs[1..]);
      } else {
        var m := FreeNumber(Keys(plan), n);
        var t := fs[0].value.(key := FollowupKey(m), dependsOn := KnownOnly(fs[0].value.dependsOn, Keys(plan)));
        UniqueSnoc(plan, t);
        if Acyclic(plan) && Closed(plan) { AddedTaskKeepsAcyclic(plan, t); }
        FollowupsKeep(plan + [t], m + 1, fs[1..]);
      }
    }
  }

  lemma {:induction false} ForwardIn(tasks: seq<PlanTask>, path: seq<string>, ks: set<string>, i: nat, j: nat)
    requires Chained(tasks, path) && i <= j < |path| && path[i] in ks
    requires forall a, b :: DependsOn(tasks, a, b) && a in ks ==> b in ks
    ensures path[j] in ks
    decreases j
  {
    hide DependsOn;
    if i < j {
      ForwardIn(tasks, path, ks, i, j - 1);
    }
  }

  /** A cycle that meets a set of tasks nothing leads out of stays in it. */
  lemma CycleStays(tasks: seq<PlanTask>, path: seq<string>, ks: set<string>, i: nat)
    requires IsCycle(tasks, path) && i < |path| && path[i] in ks
    requires forall a, b :: DependsOn(tasks, a, b) && a in ks ==> b in ks
    ensures forall j :: 0 <= j < |path| ==> path[j] in ks
  {
    hide DependsOn;
    ForwardIn(tasks, path, ks, i, |path| - 1);
    forall j | 0 <= j < |path| ensures path[j] in ks {
      ForwardIn(tasks, path, ks, 0, j);
    }
  }

  lemma {:induction false} KeptOrProposed(was: seq<PlanTask>, accepted: set<string>, merged: seq<PlanTask>)
    ensures var r := KeepAccepted(was, accepted, merged);
            && (forall t :: t in r ==> t in merged || (t in was && t.key !in Keys(merged)))
            && (forall t :: t in merged ==> t in r)
    decreases |was|
  {
    hide Keys, UniqueKeys;
    if was != [] {
      if was[0].key in accepted && was[0].key !in Keys(merged) {
        KeysFront(was[0], merged);
        KeptOrProposed(was[1..], accepted, [was[0]] + merged);
      } else {
        KeptOrProposed(was[1..], accepted, merged);
      }
    }
  }

  /** Accepted entries kept in front of a proposal that names only its own tasks close no cycle. */
  lemma MergedIsAcyclic(was: seq<PlanTask>, accepted: set<string>, proposal: seq<PlanTask>)
    requires Acyclic(was) && Acyclic(proposal) && Closed(proposal)
    ensures Acyclic(KeepAccepted(was, accepted, proposal))
  {
    var r := KeepAccepted(was, accepted, proposal);
    KeptOrProposed(was, accepted, proposal);
    hide KeepAccepted, IsCycle;
    forall path ensures !IsCycle(r, path) {
      if IsCycle(r, path) {
        MergedCycle(was, proposal, r, path);
      }
    }
  }

  lemma SyncKeepsGraph(e: Epic, tid: nat, proposal: Option<seq<PlanTask>>)
    requires GraphOk(e) && (proposal.Some? ==> Acyclic(proposal.value) && Closed(proposal.value))
    ensures GraphOk(SyncPlanning(e, tid, proposal))
  {
    hide Acyclic, Closed, KeepAccepted;
    if proposal.Some? {
      MergedIsAcyclic(PlanOf(e), e.tasks.Keys, proposal.value);
    }
  }

  lemma ProposalIsClosed(was: seq<PlanTask>, proposal: seq<PlanTask>, r: seq<PlanTask>, a: string, b: string)
    requires Closed(proposal) && forall t :: t in r ==> t in proposal || (t in was && t.key !in Keys(proposal))
    requires DependsOn(r, a, b)
    ensures a in Keys(proposal) ==> b in Keys(proposal) && DependsOn(proposal, a, b)
    ensures a !in Keys(proposal) && b !in Keys(proposal) ==> DependsOn(was, a, b)
  {
    var t :| t in r && t.key == a && b in t.dependsOn;
    if t in proposal {
      var i :| 0 <= i < |proposal| && proposal[i] == t;
      assert proposal[i].key == a;
    } else if b !in Keys(proposal) {
      var i :| 0 <= i < |r| && r[i].key == b;
      var j :| 0 <= j < |was| && was[j] == r[i];
      assert was[j].key == b;
    }
  }

  lemma MergedCycle(was: seq<PlanTask>, proposal: seq<PlanTask>, r: seq<PlanTask>, path: seq<string>)
    requires Closed(proposal) && forall t :: t in r ==> t in proposal || (t in was && t.key !in Keys(proposal))
    requires IsCycle(r, path)
    ensures IsCycle(proposal, path) || IsCycle(was, path)
  {
    forall a, b | DependsOn(r, a, b)
      ensures a in Keys(proposal) ==> b in Keys(proposal) && DependsOn(proposal, a, b)
      ensures a !in Keys(proposal) && b !in Keys(proposal) ==> DependsOn(was, a, b)
    {
      ProposalIsClosed(was, proposal, r, a, b);
    }
    hide Keys, DependsOn;
    if i :| 0 <= i < |path| && path[i] in Keys(proposal) {
      CycleStays(r, path, Keys(proposal), i);
      assert IsCycle(proposal, path);
    } else {
      assert forall i :: 0 <= i < |path| ==> path[i] !in Keys(proposal);
      assert IsCycle(was, path);
    }
  }

  /** A plan that stands on its own is acyclic and names only its own tasks. */
  lemma PlanOkIsClosed(plan: seq<PlanTask>, rules: PlanRules)
    requires PlanOk(plan, rules) && rules.existingKeys == []
    ensures Acyclic(plan) && Closed(plan) && UniqueKeys(plan)
  {
    hide Acyclic, UniqueKeys, TaskOk, Keys;
  }

  /** Accepting more of a plan in execution can fail for the form of its tasks, never for its dependencies. */
  lemma AcceptedPlanIsOkIff(e: Epic, tasks: map<nat, Task>, rules: PlanRules)
    requires EpicOk(e, tasks) && GraphOk(e) && (e.status == Accepted || e.status == Done) && e.plan.Some?
    ensures var r := Revalidation(rules, |e.plan.value|);
            PlanOk(e.plan.value, r) <==> e.plan.value != [] && forall t :: t in e.plan.value ==> TaskOk(t, r)
  {
    var plan := e.plan.value;
    hide TaskOk, UniqueKeys;
    forall t | t in plan ensures t.key !in t.dependsOn {
      if t.key in t.dependsOn {
        SelfDependencyIsCycle(plan, t);
      }
    }
  }

  lemma SelfDependencyIsCycle(plan: seq<PlanTask>, t: PlanTask)
    requires t in plan && t.key in t.dependsOn && t.key in Keys(plan)
    ensures !Acyclic(plan)
  {
    assert DependsOn(plan, t.key, t.key);
    assert IsCycle(plan, [t.key]);
  }

  lemma NoPlanIsAcyclic()
    ensures Acyclic([])
  {}

  // ------------------------------------------------------- what accepting keeps

  lemma {:induction false} ChosenUnique(plan: seq<PlanTask>, selected: seq<string>)
    requires UniqueKeys(plan)
    ensures UniqueKeys(Chosen(plan, selected))
    decreases |plan|
  {
    if plan != [] {
      assert plan == [plan[0]] + plan[1..];
      KeysFront(plan[0], plan[1..]);
      ChosenUnique(plan[1..], selected);
      var rest := Chosen(plan[1..], selected);
      KeysFront(plan[0], rest);
      SubsetKeys(rest, plan[1..]);
      assert [] + rest == rest;
    }
  }

  lemma SubsetKeys(some: seq<PlanTask>, tasks: seq<PlanTask>)
    requires forall t :: t in some ==> t in tasks
    ensures Keys(some) <= Keys(tasks)
  {
    forall k | k in Keys(some) ensures k in Keys(tasks) {
      var i :| 0 <= i < |some| && some[i].key == k;
      assert some[i] in tasks;
    }
  }

  lemma SelectedKeys(e: Epic, selected: seq<string>)
    requires forall k :: k in selected ==> k in OpenKeys(e)
    ensures Keys(Chosen(PlanOf(e), selected)) == set k | k in selected
  {
    var plan := PlanOf(e);
    var chosen := Chosen(plan, selected);
    forall k ensures k in Keys(chosen) <==> k in selected {
      if k in selected {
        KeysListed(plan, k);
        var i :| 0 <= i < |plan| && plan[i].key == k;
        assert plan[i] in chosen;
        var j :| 0 <= j < |chosen| && chosen[j] == plan[i];
      }
    }
  }

  /** The key at place `i` is new, and what its task waits for has a number by then. */
  ghost predicate Fits(chosen: seq<PlanTask>, order: seq<string>, accepted: map<string, nat>, i: nat)
    requires i < |order|
  {
    && order[i] in Keys(chosen) && order[i] !in accepted && order[i] !in order[..i]
    && forall d :: d in TaskFor(chosen, order[i]).dependsOn ==> d in accepted || d in order[..i]
  }

  ghost predicate OrderFits(chosen: seq<PlanTask>, order: seq<string>, accepted: map<string, nat>) {
    forall i :: 0 <= i < |order| ==> Fits(chosen, order, accepted, i)
  }

  /** Sorting the selection by dependencies gives every task its dependencies' numbers in time. */
  lemma OrderFitsSelection(e: Epic, selected: seq<string>, chosen: seq<PlanTask>, order: seq<string>)
    requires Selectable(e, selected) && UniqueKeys(PlanOf(e)) && chosen == Chosen(PlanOf(e), selected)
    requires Order(chosen) == Ordered(order)
    ensures OrderFits(chosen, order, e.tasks)
    ensures (set k | k in order) == (set k | k in selected)
  {
    hide Order;
    ChosenUnique(PlanOf(e), selected);
    OrderIsTopological(chosen);
    KeysInOrder(chosen, order);
    SelectedKeys(e, selected);
    forall i | 0 <= i < |order| ensures Fits(chosen, order, e.tasks, i) {
      assert order[i] in Keys(chosen);
      var t := TaskFor(chosen, order[i]);
      forall d | d in t.dependsOn ensures d in e.tasks || d in order[..i] {
        if d !in e.tasks {
          assert d in selected;
          assert d in Keys(chosen);
        }
      }
    }
  }

  lemma {:induction false} IdsStored(ds: seq<string>, ids: map<string, nat>, tasks: map<nat, Task>)
    requires forall k :: k in ids ==> ids[k] in tasks
    ensures forall n :: n in Ids(ds, ids) ==> n in tasks
    ensures (forall d :: d in ds ==> d in ids) ==> |Ids(ds, ids)| == |ds|
    decreases |ds|
  {
    if ds != [] {
      IdsStored(ds[1..], ids, tasks);
    }
  }

  lemma {:induction false} IdsStable(ds: seq<string>, ids: map<string, nat>, more: map<string, nat>)
    requires forall d :: d in ds ==> d in ids && d in more && ids[d] == more[d]
    ensures Ids(ds, ids) == Ids(ds, more)
    decreases |ds|
  {
    if ds != [] {
      IdsStable(ds[1..], ids, more);
    }
  }

  /** Every created task waits for exactly the tasks behind its plan dependencies. */
  ghost predicate Linked(
    chosen: seq<PlanTask>, accepted: map<string, nat>, created: map<string, nat>, tasks: map<nat, Task>, base: nat)
  {
    && created.Keys <= Keys(chosen)
    && forall k :: k in created ==>
         && created[k] in tasks && created[k] > base && k in Keys(chosen)
         && (forall d :: d in TaskFor(chosen, k).dependsOn ==> d in accepted || d in created)
         && tasks[created[k]].dependsOn == Ids(TaskFor(chosen, k).dependsOn, accepted + created)
  }

  lemma LinkedGrows(chosen: seq<PlanTask>, accepted: map<string, nat>, created: map<string, nat>, key: string, n: nat,
                    before: map<nat, Task>, after: map<nat, Task>, base: nat)
    requires Linked(chosen, accepted, created, before, base)
    requires key in Keys(chosen) && key !in created && n > base && n !in before && n in after
    requires forall m :: m in before ==> m in after && after[m] == before[m]
    requires forall d :: d in TaskFor(chosen, key).dependsOn ==> d in accepted || d in created
    requires key !in accepted
    requires after[n].dependsOn == Ids(TaskFor(chosen, key).dependsOn, accepted + created)
    ensures Linked(chosen, accepted, created[key := n], after, base)
  {
    hide TaskFor, Keys, Ids;
    var made: map<string, nat> := created[key := n];
    forall k | k in made
      ensures made[k] in after && made[k] > base && k in Keys(chosen)
      ensures forall d :: d in TaskFor(chosen, k).dependsOn ==> d in accepted || d in made
      ensures after[made[k]].dependsOn == Ids(TaskFor(chosen, k).dependsOn, accepted + made)
    {
      var ds := TaskFor(chosen, k).dependsOn;
      assert forall d :: d in ds ==> d in accepted || d in created;
      forall d | d in ds
        ensures d in accepted + created && d in accepted + made && (accepted + created)[d] == (accepted + made)[d]
      {
        assert d != key || d in created || d in accepted;
      }
      IdsStable(ds, accepted + created, accepted + made);
    }
  }

  lemma NoneMade(w: World)
    requires Inv(w)
    ensures OnePerKey([], map[], w.tasks, w.tasks, w.counter)
  {}

  lemma OneMore(order: seq<string>, i: nat, made: map<string, nat>, tasks: map<nat, Task>, before: map<nat, Task>,
                base: nat, ids: seq<nat>)
    requires i < |order| && order[i] !in order[..i] && order[i] !in made
    requires OnePerKey(order[..i], made, tasks, before, base)
    requires forall n :: n in tasks ==> n <= base + i
    ensures OnePerKey(order[..i + 1], made[order[i] := base + 1 + i],
                      tasks[base + 1 + i := Task(Queued, ids, false)], before, base)
  {
    forall j | 0 <= j < i ensures order[j] != order[i] {
      assert order[..i][j] == order[j];
    }
  }

  lemma LinkedNone(chosen: seq<PlanTask>, accepted: map<string, nat>, tasks: map<nat, Task>, base: nat)
    ensures Linked(chosen, accepted, map[], tasks, base)
  {}

  lemma ChosenFor(plan: seq<PlanTask>, selected: seq<string>, chosen: seq<PlanTask>)
    requires UniqueKeys(plan) && chosen == Chosen(plan, selected)
    ensures forall k :: k in Keys(chosen) ==> k in Keys(plan) && TaskFor(chosen, k) == TaskFor(plan, k)
  {
    SubsetKeys(chosen, plan);
    forall k | k in Keys(chosen) ensures TaskFor(chosen, k) == TaskFor(plan, k) {
      SameKeySameTask(plan, TaskFor(chosen, k), TaskFor(plan, k));
    }
  }

  /** No dependency was dropped on the way from the plan to the stored task. */
  lemma LinkedIsExact(plan: seq<PlanTask>, chosen: seq<PlanTask>, accepted: map<string, nat>, created: map<string, nat>,
                      tasks: map<nat, Task>, base: nat)
    requires Linked(chosen, accepted, created, tasks, base)
    requires forall k :: k in accepted ==> accepted[k] in tasks
    requires forall k :: k in Keys(chosen) ==> k in Keys(plan) && TaskFor(chosen, k) == TaskFor(plan, k)
    ensures forall k :: k in created ==>
              && k in Keys(plan) && created[k] in tasks && created[k] > base
              && tasks[created[k]].dependsOn == Ids(TaskFor(plan, k).dependsOn, accepted + created)
              && |tasks[created[k]].dependsOn| == |TaskFor(plan, k).dependsOn|
  {
    hide Keys, TaskFor, Ids;
    forall k | k in created
      ensures |Ids(TaskFor(chosen, k).dependsOn, accepted + created)| == |TaskFor(chosen, k).dependsOn|
    {
      IdsStored(TaskFor(chosen, k).dependsOn, accepted + created, tasks);
    }
  }

  lemma AcceptedKeeps(w: World, id: nat, created: map<string, nat>)
    requires Inv(w) && id in w.epics
    requires forall k :: k in created ==> k in Keys(PlanOf(w.epics[id])) && created[k] in w.tasks
    ensures Inv(w.(epics := w.epics[id := w.epics[id].(tasks := w.epics[id].tasks + created, status := Accepted)]))
  {
    hide Keys, UniqueKeys;
    assert EpicOk(w.epics[id], w.tasks);
  }

  lemma AcceptedIdsStored(w: World, id: nat)
    requires Inv(w) && id in w.epics
    ensures forall k :: k in w.epics[id].tasks ==> w.epics[id].tasks[k] in w.tasks
  {
    assert EpicOk(w.epics[id], w.tasks);
  }

  /** The cycle error of an acceptance cannot happen: the plan has just been validated. */
  lemma AcceptableOrder(e: Epic, only: Option<seq<string>>, rules: PlanRules)
    requires CanAccept(e, only, rules)
    ensures var chosen := Chosen(PlanOf(e), Selection(e, only));
            && Order(chosen).Ordered?
            && OrderFits(chosen, Order(chosen).order, e.tasks)
            && (set k | k in Order(chosen).order) == (set k | k in Selection(e, only))
            && (forall k :: k in Keys(chosen) ==> k in Keys(PlanOf(e)) && TaskFor(chosen, k) == TaskFor(PlanOf(e), k))
  {
    hide Order, TaskFor, Keys, Acyclic, TaskOk, DependenciesOk;
    var plan, selected := PlanOf(e), Selection(e, only);
    var chosen := Chosen(plan, selected);
    ChosenUnique(plan, selected);
    SelectionCanBeOrdered(plan, Revalidation(rules, |plan|), chosen);
    OrderFitsSelection(e, selected, chosen, Order(chosen).order);
    ChosenFor(plan, selected, chosen);
  }

  // -------------------------------------------------------------- dependencies

  datatype Mode = Merged | Stacked

  datatype DepState =
    | Ready(base: Option<nat>) | WaitingFor(on: nat) | NoRun(on: nat) | WaitingMerge
    | BlockedBy(on: nat) | Unknown(on: nat)

  /** How a finished dependency looks in the repository: no successful run, merged, or not yet merged. */
  datatype Landing = NoSuccessfulRun | Landed | Pending

  /** The scan over the dependencies, in order; `unmerged` collects those not merged yet. */
  function ScanDependencies(
    tasks: map<nat, Task>, landing: nat -> Landing, ds: seq<nat>, unmerged: seq<nat>, mode: Mode): DepState
    decreases |ds|
  {
    if ds == [] then
      if unmerged == [] then Ready(None)
      else if mode == Stacked && |unmerged| == 1 then Ready(Some(unmerged[0]))
      else WaitingMerge
    else
      var d := ds[0];
      if d !in tasks then Unknown(d)
      else match tasks[d].status
        case Failed => BlockedBy(d)
        case Cancelled => BlockedBy(d)
        case Succeeded =>
          (match landing(d)
           case NoSuccessfulRun => NoRun(d)
           case Landed => ScanDependencies(tasks, landing, ds[1..], unmerged, mode)
           case Pending => ScanDependencies(tasks, landing, ds[1..], unmerged + [d], mode))
        case _ => WaitingFor(d)
  }

  function DependencyState(tasks: map<nat, Task>, landing: nat -> Landing, t: Task, mode: Mode): DepState {
    ScanDependencies(tasks, landing, t.dependsOn, [], mode)
  }

  method CheckDependencyState(tasks: map<nat, Task>, landing: nat -> Landing, t: Task, mode: Mode) returns (r: DepState)
    ensures r == DependencyState(tasks, landing, t, mode)
  {
    var unmerged: seq<nat> := [];
    var i := 0;
    assert t.dependsOn[0..] == t.dependsOn;
    while i < |t.dependsOn|
      invariant 0 <= i <= |t.dependsOn|
      invariant DependencyState(tasks, landing, t, mode)
                == ScanDependencies(tasks, landing, t.dependsOn[i..], unmerged, mode)
    {
      var d := t.dependsOn[i];
      assert t.dependsOn[i..][0] == d && t.dependsOn[i..][1..] == t.dependsOn[i + 1..];
      if d !in tasks {
        return Unknown(d);
      }
      match tasks[d].status {
        case Failed => return BlockedBy(d);
        case Cancelled => return BlockedBy(d);
        case Succeeded =>
        case _ => return WaitingFor(d);
      }
      match landing(d) {
        case NoSuccessfulRun => return NoRun(d);
        case Landed =>
        case Pending => unmerged := unmerged + [d];
      }
      i := i + 1;
    }
    assert t.dependsOn[i..] == [];
    if unmerged == [] {
      return Ready(None);
    } else if mode == Stacked && |unmerged| == 1 {
      return Ready(Some(unmerged[0]));
    }
    return WaitingMerge;
  }

  function PendingAmong(ds: seq<nat>, landing: nat -> Landing): seq<nat> {
    if ds == [] then [] else (if landing(ds[0]) == Pending then [ds[0]] else []) + PendingAmong(ds[1..], landing)
  }

  lemma {:induction false} ScanReadyIff(
    tasks: map<nat, Task>, landing: nat -> Landing, ds: seq<nat>, unmerged: seq<nat>, mode: Mode)
    ensures ScanDependencies(tasks, landing, ds, unmerged, mode).Ready? <==>
            (forall d :: d in ds ==> d in tasks && tasks[d].status == Succeeded && landing(d) != NoSuccessfulRun)
            && |unmerged + PendingAmong(ds, landing)| <= (if mode == Stacked then 1 else 0)
    decreases |ds|
  {
    if ds == [] {
      assert unmerged + [] == unmerged;
    } else {
      var d := ds[0];
      assert ds == [d] + ds[1..];
      if d in tasks && tasks[d].status == Succeeded && landing(d) != NoSuccessfulRun {
        ScanReadyIff(tasks, landing, ds[1..], if landing(d) == Pending then unmerged + [d] else unmerged, mode);
      } else {
        assert d in ds;
      }
    }
  }

  /**
   * A task may start exactly when all its dependencies have succeeded with a run, and all of them
   * (all but one, when stacking) are merged.
   */
  lemma ReadyIff(tasks: map<nat, Task>, landing: nat -> Landing, t: Task, mode: Mode)
    ensures DependencyState(tasks, landing, t, mode).Ready? <==>
            (forall d :: d in t.dependsOn ==>
              d in tasks && tasks[d].status == Succeeded && landing(d) != NoSuccessfulRun)
            && |PendingAmong(t.dependsOn, landing)| <= (if mode == Stacked then 1 else 0)
  {
    ScanReadyIff(tasks, landing, t.dependsOn, [], mode);
    assert [] + PendingAmong(t.dependsOn, landing) == PendingAmong(t.dependsOn, landing);
  }

  lemma {:induction false} WaitsForListed(
    tasks: map<nat, Task>, landing: nat -> Landing, ds: seq<nat>, unmerged: seq<nat>, mode: Mode)
    requires forall d :: d in ds ==> d in tasks && IsTerminal(tasks[d].status)
    ensures var s := ScanDependencies(tasks, landing, ds, unmerged, mode); !s.WaitingFor? && !s.Unknown?
    decreases |ds|
  {
    if ds != [] {
      assert ds[0] in ds;
      WaitsForListed(tasks, landing, ds[1..], unmerged, mode);
      WaitsForListed(tasks, landing, ds[1..], unmerged + [ds[0]], mode);
    }
  }

  /** No deadlock: while anything is unfinished, something unfinished waits for nothing unfinished. */
  lemma SomeTaskIsNotWaiting(w: World, landing: nat -> Landing, mode: Mode) returns (n: nat)
    requires Inv(w) && exists m :: m in w.tasks && !IsTerminal(w.tasks[m].status)
    ensures n in w.tasks && !IsTerminal(w.tasks[n].status)
    ensures forall d :: d in w.tasks[n].dependsOn ==> d in w.tasks && IsTerminal(w.tasks[d].status)
    ensures var s := DependencyState(w.tasks, landing, w.tasks[n], mode); !s.WaitingFor? && !s.Unknown?
  {
    n :| n in w.tasks && !IsTerminal(w.tasks[n].status);
    while exists d :: d in w.tasks[n].dependsOn && !IsTerminal(w.tasks[d].status)
      invariant n in w.tasks && !IsTerminal(w.tasks[n].status)
      decreases n
    {
      var d :| d in w.tasks[n].dependsOn && !IsTerminal(w.tasks[d].status);
      n := d;
    }
    WaitsForListed(w.tasks, landing, w.tasks[n].dependsOn, [], mode);
  }

  ghost predicate Awaits(w: World, a: nat, b: nat) {
    a in w.tasks && b in w.tasks[a].dependsOn
  }

  /** Waiting chains always lead to smaller numbers, so no task waits for itself through others. */
  lemma {:induction false} NoCyclicWait(w: World, path: seq<nat>)
    requires Inv(w) && |path| > 1
    requires forall i :: 0 < i < |path| ==> Awaits(w, path[i - 1], path[i])
    ensures path[|path| - 1] < path[0]
    decreases |path|
  {
    var n := |path| - 1;
    assert Awaits(w, path[n - 1], path[n]);
    if n > 1 {
      NoCyclicWait(w, path[..n]);
    }
  }
}
