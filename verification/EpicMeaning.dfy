/** What planning, follow-ups, decisions and waiting mean, said without the functions that compute them. */
module EpicMeaning {
  import opened Text
  import opened PlanGraph
  import opened Epics
  import Decimal

  ghost predicate Rising(places: seq<nat>, n: nat) {
    && (forall i :: 0 <= i < |places| ==> places[i] < n)
    && (forall i, j :: 0 <= i < j < |places| ==> places[i] < places[j])
  }

  /** `r` is what `keep` keeps of `s`: the entries at the given places, in order. */
  ghost predicate Picked<T>(r: seq<T>, s: seq<T>, keep: T -> bool, places: seq<nat>) {
    && Rising(places, |s|) && |r| == |places|
    && (forall i :: 0 <= i < |places| ==> r[i] == s[places[i]])
    && forall i: nat :: i < |s| ==> (i in places <==> keep(s[i]))
  }

  function Later(places: seq<nat>): (r: seq<nat>)
    ensures |r| == |places| && forall i :: 0 <= i < |places| ==> r[i] == places[i] + 1
  {
    if places == [] then [] else [places[0] + 1] + Later(places[1..])
  }

  lemma LaterHas(places: seq<nat>, i: nat)
    ensures i in Later(places) <==> i > 0 && i - 1 in places
  {
    if i > 0 && i - 1 in places {
      var j :| 0 <= j < |places| && places[j] == i - 1;
      assert Later(places)[j] == i;
    }
  }

  lemma RisingFront(places: seq<nat>, n: nat)
    requires Rising(places, n)
    ensures Rising(Later(places), n + 1) && Rising([0] + Later(places), n + 1)
  {
    var all := [0] + Later(places);
    forall i, j | 0 <= i < j < |all| ensures all[i] < all[j] {
      assert all[j] == places[j - 1] + 1;
      assert i > 0 ==> all[i] == places[i - 1] + 1;
    }
  }

  lemma MarkedFront<T>(s: seq<T>, keep: T -> bool, places: seq<nat>)
    requires s != [] && forall k: nat :: k < |s[1..]| ==> (k in places <==> keep(s[1..][k]))
    ensures var all := if keep(s[0]) then [0] + Later(places) else Later(places);
            forall i: nat :: i < |s| ==> (i in all <==> keep(s[i]))
  {
    forall i: nat | i < |s| ensures i in (if keep(s[0]) then [0] + Later(places) else Later(places)) <==> keep(s[i]) {
      LaterHas(places, i);
      assert i > 0 ==> s[i] == s[1..][i - 1];
    }
  }

  lemma TakenFront<T>(r: seq<T>, s: seq<T>, places: seq<nat>)
    requires s != [] && |r| == |places| && Rising(places, |s| - 1)
    requires forall k :: 0 <= k < |places| ==> r[k] == s[1..][places[k]]
    ensures forall i :: 0 <= i < |places| ==> Later(places)[i] < |s| && r[i] == s[Later(places)[i]]
    ensures var all := [0] + Later(places);
            forall i :: 0 <= i <= |places| ==> all[i] < |s| && ([s[0]] + r)[i] == s[all[i]]
  {
    assert forall k :: 0 <= k < |places| ==> s[1..][places[k]] == s[places[k] + 1];
  }

  lemma PickedFront<T>(r: seq<T>, s: seq<T>, keep: T -> bool, places: seq<nat>)
    requires s != [] && Picked(r, s[1..], keep, places)
    ensures keep(s[0]) ==> Picked([s[0]] + r, s, keep, [0] + Later(places))
    ensures !keep(s[0]) ==> Picked(r, s, keep, Later(places))
  {
    RisingFront(places, |s| - 1);
    TakenFront(r, s, places);
    MarkedFront(s, keep, places);
    hide Rising, Later;
  }

  lemma PickedAlike<T>(r: seq<T>, s: seq<T>, keep: T -> bool, like: T -> bool, places: seq<nat>)
    requires Picked(r, s, keep, places) && forall i :: 0 <= i < |s| ==> keep(s[i]) == like(s[i])
    ensures Picked(r, s, like, places)
  {}

  // --------------------------------------------------------------- follow-ups

  ghost predicate KnownAt(r: seq<string>, ds: seq<string>, known: set<string>, places: seq<nat>) {
    Picked(r, ds, d => d in known, places)
  }

  /** Kept dependencies keep their order and their repetitions. */
  lemma {:induction false} KnownInOrder(ds: seq<string>, known: set<string>) returns (places: seq<nat>)
    ensures KnownAt(KnownOnly(ds, known), ds, known, places)
    decreases |ds|
  {
    if ds == [] {
      places := [];
    } else {
      var rest := KnownInOrder(ds[1..], known);
      assert KnownOnly(ds, known) == (if ds[0] in known then [ds[0]] else []) + KnownOnly(ds[1..], known);
      hide Picked;
      PickedFront(KnownOnly(ds[1..], known), ds, d => d in known, rest);
      places := if ds[0] in known then [0] + Later(rest) else Later(rest);
      assert [] + KnownOnly(ds[1..], known) == KnownOnly(ds[1..], known);
    }
  }

  /** A follow-up that could be read, with a title and something to accept it by. */
  predicate Usable(f: Option<PlanTask>) {
    f.Some? && !IsBlank(f.value.title) && f.value.acceptance != []
  }

  /** The task at place `j` is the follow-up `f` under the first free number from `low` on. */
  ghost predicate Follows(r: seq<PlanTask>, j: nat, f: PlanTask, low: nat, m: nat)
    requires j < |r|
  {
    && r[j] == f.(key := r[j].key, dependsOn := r[j].dependsOn)
    && r[j].key == "F" + Decimal.Show(m) && low <= m
    && (forall k: nat :: low <= k <= m ==> (FollowupKey(k) in Keys(r[..j]) <==> k < m))
    && exists places :: KnownAt(r[j].dependsOn, f.dependsOn, Keys(r[..j]), places)
  }

  lemma {:induction false} FreeNumberIsFirst(keys: set<string>, n: nat, k: nat)
    requires n <= k < FreeNumber(keys, n)
    ensures FollowupKey(k) in keys
    decreases |Above(keys, n)|
  {
    if FollowupKey(n) in keys {
      AboveShrinks(keys, n);
      hide Above;
      if k > n {
        FreeNumberIsFirst(keys, n + 1, k);
      }
    }
  }

  lemma AddedFollows(plan: seq<PlanTask>, f: PlanTask, n: nat, t: PlanTask, r: seq<PlanTask>)
    requires t == f.(key := FollowupKey(FreeNumber(Keys(plan), n)), dependsOn := KnownOnly(f.dependsOn, Keys(plan)))
    requires plan + [t] <= r
    ensures Follows(r, |plan|, f, n, FreeNumber(Keys(plan), n))
  {
    hide Keys, KnownOnly, FreeNumber;
    assert r[..|plan|] == plan && r[|plan|] == t;
    var places := KnownInOrder(f.dependsOn, Keys(plan));
    var m := FreeNumber(Keys(plan), n);
    forall k: nat | n <= k < m ensures FollowupKey(k) in Keys(plan) {
      FreeNumberIsFirst(Keys(plan), n, k);
    }
    assert KnownAt(t.dependsOn, f.dependsOn, Keys(r[..|plan|]), places);
  }

  /** Where the search for the number of the `i`th added task starts. */
  function LowAt(n: nat, numbers: seq<nat>, i: nat): nat
    requires i <= |numbers|
  {
    if i == 0 then n else numbers[i - 1] + 1
  }

  /** Exactly the usable follow-ups are added, at the end and in their order. */
  ghost predicate Extended(
    plan: seq<PlanTask>, n: nat, added: seq<Option<PlanTask>>, r: seq<PlanTask>, numbers: seq<nat>)
  {
    && plan <= r && |r| == |plan| + |added| && |numbers| == |added|
    && forall i: nat :: i < |added| ==> AddedAt(|plan|, n, added, r, numbers, i)
  }

  ghost predicate AddedAt(base: nat, n: nat, added: seq<Option<PlanTask>>, r: seq<PlanTask>, numbers: seq<nat>, i: nat)
    requires |r| == base + |added| && |numbers| == |added| && i < |added|
  {
    added[i].Some? && Follows(r, base + i, added[i].value, LowAt(n, numbers, i), numbers[i])
  }

  lemma AddedExtends(plan: seq<PlanTask>, n: nat, f: PlanTask, t: PlanTask, m: nat, r: seq<PlanTask>,
                     added: seq<Option<PlanTask>>, numbers: seq<nat>)
    requires Extended(plan + [t], m + 1, added, r, numbers)
    requires |r| > |plan| && Follows(r, |plan|, f, n, m)
    ensures Extended(plan, n, [Some(f)] + added, r, [m] + numbers)
  {
    hide Follows;
    var all, ms := [Some(f)] + added, [m] + numbers;
    forall i: nat | i < |all| ensures AddedAt(|plan|, n, all, r, ms, i) {
      if i > 0 {
        assert AddedAt(|plan + [t]|, m + 1, added, r, numbers, i - 1);
        assert all[i] == added[i - 1] && ms[i] == numbers[i - 1];
        assert LowAt(n, ms, i) == LowAt(m + 1, numbers, i - 1);
      }
    }
  }

  lemma {:induction false} FollowupsAre(plan: seq<PlanTask>, n: nat, fs: seq<Option<PlanTask>>)
    returns (added: seq<Option<PlanTask>>, places: seq<nat>, numbers: seq<nat>)
    ensures Picked(added, fs, Usable, places)
    ensures Extended(plan, n, added, AddFollowups(plan, n, fs), numbers)
    decreases |fs|
  {
    var r := AddFollowups(plan, n, fs);
    if fs == [] {
      added, places, numbers := [], [], [];
    } else if !Usable(fs[0]) {
      assert r == AddFollowups(plan, n, fs[1..]);
      hide AddFollowups, Extended, Picked, Usable;
      added, places, numbers := FollowupsAre(plan, n, fs[1..]);
      PickedFront(added, fs, Usable, places);
      places := Later(places);
    } else {
      var f := fs[0].value;
      var m := FreeNumber(Keys(plan), n);
      var t := f.(key := FollowupKey(m), dependsOn := KnownOnly(f.dependsOn, Keys(plan)));
      assert r == AddFollowups(plan + [t], m + 1, fs[1..]);
      hide AddFollowups, Follows, KnownOnly, FreeNumber, FollowupKey, Keys, Picked, Usable;
      added, places, numbers := FollowupsAre(plan + [t], m + 1, fs[1..]);
      PickedFront(added, fs, Usable, places);
      AddedFollows(plan, f, n, t, r);
      AddedExtends(plan, n, f, t, m, r, added, numbers);
      added, places, numbers := [fs[0]] + added, [0] + Later(places), [m] + numbers;
    }
  }

  predicate IsF(k: string) {
    k != [] && k[0] == 'F'
  }

  lemma {:induction false} CountedKeys(plan: seq<PlanTask>)
    requires UniqueKeys(plan)
    ensures CountF(KeyList(plan)) == |set k | k in Keys(plan) && IsF(k)|
    decreases |plan|
  {
    if plan != [] {
      var rest := plan[1..];
      assert plan == [plan[0]] + rest;
      KeysFront(plan[0], rest);
      CountedKeys(rest);
      FFront(plan[0].key, Keys(rest));
      assert KeyList(plan) == [plan[0].key] + KeyList(rest) && KeyList(plan)[1..] == KeyList(rest);
      hide Keys, UniqueKeys, KeyList, IsF;
      assert CountF(KeyList(plan)) == (if IsF(plan[0].key) then 1 else 0) + CountF(KeyList(rest)) by {
        assert IsF(plan[0].key) <==> plan[0].key != [] && plan[0].key[0] == 'F';
      }
    }
  }

  lemma FFront(key: string, ks: set<string>)
    requires key !in ks
    ensures |set k | k in {key} + ks && IsF(k)| == (if IsF(key) then 1 else 0) + |set k | k in ks && IsF(k)|
  {
    var all, more := set k | k in {key} + ks && IsF(k), set k | k in ks && IsF(k);
    hide IsF;
    if IsF(key) {
      assert all == more + {key};
    } else {
      assert all == more;
    }
  }

  /**
   * A review that was waited for adds exactly its usable follow-ups, numbered from one more than the keys that
   * begin with `F`, and changes nothing else but that the epic is reviewed.
   */
  lemma ReviewAdds(e: Epic, tid: nat, fs: seq<Option<PlanTask>>)
    returns (added: seq<Option<PlanTask>>, places: seq<nat>, numbers: seq<nat>)
    requires (e.status == Accepted || e.status == Done) && e.conformanceTask == Some(tid) && !e.reviewed
    requires UniqueKeys(PlanOf(e))
    ensures var r := Reviewed(e, tid, Report(Some(fs)));
            && Picked(added, fs, Usable, places)
            && r == e.(reviewed := true, plan := r.plan) && r.plan.Some?
            && Extended(PlanOf(e), |set k | k in Keys(PlanOf(e)) && IsF(k)| + 1, added, r.plan.value, numbers)
  {
    CountedKeys(PlanOf(e));
    hide Extended, UniqueKeys, Keys, CountF, Picked, Usable;
    added, places, numbers := FollowupsAre(PlanOf(e), CountF(KeyList(PlanOf(e))) + 1, fs);
  }

  /** Nothing is added without a report, and a review counts once. */
  lemma OtherReviews(e: Epic, tid: nat, review: Review, other: nat, again: Review)
    ensures !(review.Report? && review.followups.Some?) ==> PlanOf(Reviewed(e, tid, review)) == PlanOf(e)
    ensures e.conformanceTask != Some(tid) || e.reviewed || e.status !in {Accepted, Done} ==>
              Reviewed(e, tid, review) == e
    ensures e.conformanceTask == Some(tid) && e.status in {Accepted, Done} ==> Reviewed(e, tid, review).reviewed
    ensures var r := Reviewed(e, tid, review); r.reviewed ==> Reviewed(r, other, again) == r
  {
    hide AddFollowups, CountF;
  }

  // ------------------------------------------------------------- planning again

  predicate IsKept(t: PlanTask, accepted: set<string>, proposal: seq<PlanTask>) {
    t.key in accepted && t.key !in Keys(proposal)
  }

  lemma KeptElsewhere(t: PlanTask, rest: seq<PlanTask>, accepted: set<string>, proposal: seq<PlanTask>)
    requires t.key !in Keys(rest)
    ensures forall i :: 0 <= i < |rest| ==>
              (IsKept(rest[i], accepted, [t] + proposal) <==> IsKept(rest[i], accepted, proposal))
  {
    KeysFront(t, proposal);
  }

  /** The accepted entries that the proposal lacks stand in front of it, the last one first. */
  lemma {:induction false} AcceptedAreKept(was: seq<PlanTask>, accepted: set<string>, proposal: seq<PlanTask>)
    returns (kept: seq<PlanTask>, places: seq<nat>)
    requires UniqueKeys(was)
    ensures Picked(kept, was, t => IsKept(t, accepted, proposal), places)
    ensures var r := KeepAccepted(was, accepted, proposal);
            |r| == |kept| + |proposal| && r[|kept|..] == proposal
            && forall i :: 0 <= i < |kept| ==> r[i] == kept[|kept| - 1 - i]
    decreases |was|
  {
    if was == [] {
      kept, places := [], [];
    } else {
      var t, rest := was[0], was[1..];
      assert was == [t] + rest;
      KeysFront(t, rest);
      var keeps := IsKept(t, accepted, proposal);
      var merged := if keeps then [t] + proposal else proposal;
      var r := KeepAccepted(was, accepted, proposal);
      assert r == KeepAccepted(rest, accepted, merged);
      KeptElsewhere(t, rest, accepted, proposal);
      assert keeps <==> IsKept(t, accepted, proposal);
      hide KeepAccepted, UniqueKeys, Keys, Picked, IsKept, Later;
      kept, places := AcceptedAreKept(rest, accepted, merged);
      PickedAlike(kept, rest, x => IsKept(x, accepted, merged), x => IsKept(x, accepted, proposal), places);
      PickedFront(kept, was, x => IsKept(x, accepted, proposal), places);
      if keeps {
        assert r[|kept| + 1..] == r[|kept|..][1..] && r[|kept|] == r[|kept|..][0];
        kept, places := [t] + kept, [0] + Later(places);
      } else {
        places := Later(places);
      }
    }
  }

  // ------------------------------------------------------------------ accepting

  /** Form of a task, on its own and however large the plan is. */
  predicate WellFormed(t: PlanTask, rules: PlanRules) {
    TaskOk(t, rules.(existingKeys := []))
  }

  /** When tasks may be accepted: what must hold of the epic, of the keys, and of the plan as a whole. */
  lemma AcceptableIff(e: Epic, only: Option<seq<string>>, rules: PlanRules)
    ensures var plan, ks := PlanOf(e), if only.Some? then only.value else OpenKeys(e);
            CanAccept(e, only, rules) <==>
            && e.status !in {Planning, PlanFailed, EpicStatus.Rejected} && e.plan.Some?
            && ks != [] && (forall k :: k in ks ==> k in KeyList(plan) && k !in e.tasks && k !in e.declined)
            && (forall t, d :: t in plan && t.key in ks && d in t.dependsOn ==> d in ks || d in e.tasks)
            && plan != [] && UniqueKeys(plan) && Closed(plan) && Acyclic(plan)
            && (forall t :: t in plan ==> WellFormed(t, rules))
  {
    var plan := PlanOf(e);
    var r := Revalidation(rules, |plan|);
    assert |plan| <= r.maxTasks;
    forall t | t in plan ensures TaskOk(t, r) <==> WellFormed(t, rules) {}
    hide TaskOk, WellFormed, OpenKeys, UniqueKeys, Acyclic, Closed;
    PlanOkUnfolded(plan, r);
    OpenKeysIff(e);
    var ks := Selection(e, only);
    assert DependenciesSelected(plan, ks, e.tasks) <==>
           forall t, d :: t in plan && t.key in ks && d in t.dependsOn ==> d in ks || d in e.tasks;
    assert e.status !in {Planning, PlanFailed, EpicStatus.Rejected} <==>
           e.status == Proposed || e.status == Accepted || e.status == Done;
    hide PlanOk, DependenciesSelected;
  }

  lemma OpenKeysIff(e: Epic)
    ensures forall k :: k in OpenKeys(e) <==> k in KeyList(PlanOf(e)) && k !in e.tasks && k !in e.declined
  {}

  lemma PlanOkUnfolded(plan: seq<PlanTask>, r: PlanRules)
    requires |plan| <= r.maxTasks && r.existingKeys == []
    ensures PlanOk(plan, r) <==>
            plan != [] && UniqueKeys(plan) && Closed(plan) && Acyclic(plan) && forall t :: t in plan ==> TaskOk(t, r)
  {
    hide TaskOk, UniqueKeys;
    if Closed(plan) && Acyclic(plan) {
      forall t | t in plan ensures DependenciesOk(t, Keys(plan), r) {
        if t.key in t.dependsOn {
          SelfDependencyIsCycle(plan, t);
        }
      }
    }
  }

  /** What is accepted is taken from the plan in the plan's order. */
  lemma {:induction false} ChosenInOrder(plan: seq<PlanTask>, selected: seq<string>) returns (places: seq<nat>)
    ensures Picked(Chosen(plan, selected), plan, (t: PlanTask) => t.key in selected, places)
    decreases |plan|
  {
    if plan == [] {
      places := [];
    } else {
      var rest := Chosen(plan[1..], selected);
      places := ChosenInOrder(plan[1..], selected);
      assert Chosen(plan, selected) == (if plan[0].key in selected then [plan[0]] else []) + rest;
      hide Picked;
      PickedFront(rest, plan, (t: PlanTask) => t.key in selected, places);
      assert [] + rest == rest;
      places := if plan[0].key in selected then [0] + Later(places) else Later(places);
    }
  }

  /** A task waits for the numbers of its own dependencies, one for each and in their order. */
  lemma {:induction false} NumbersOf(ds: seq<string>, ids: map<string, nat>)
    requires forall d :: d in ds ==> d in ids
    ensures |Ids(ds, ids)| == |ds| && forall i :: 0 <= i < |ds| ==> Ids(ds, ids)[i] == ids[ds[i]]
    decreases |ds|
  {
    if ds != [] {
      NumbersOf(ds[1..], ids);
      assert Ids(ds, ids) == [ids[ds[0]]] + Ids(ds[1..], ids);
    }
  }

  // ------------------------------------------------------------------ decisions

  lemma SomethingOrNothing(ks: seq<string>)
    ensures ks == [] || ks[0] in ks
  {}

  /** Declining closes what is named, or everything open; only an epic without tasks is rejected as a whole. */
  lemma DeclinedAreClosed(e: Epic, only: Option<seq<string>>)
    ensures var r := Rejecting(e, only);
            match only
            case Some(ks) =>
              && r.(declined := e.declined) == e
              && forall k :: k in OpenKeys(r) <==> k in OpenKeys(e) && k !in ks
            case None =>
              if e.tasks == map[] then r == e.(status := Rejected)
              else r.(declined := e.declined) == e && OpenKeys(r) == []
  {
    if only.None? && e.tasks != map[] {
      var r := Rejecting(e, only);
      assert r.declined == e.declined + OpenKeys(e) && r.tasks == e.tasks && PlanOf(r) == PlanOf(e);
      assert forall k :: k in OpenKeys(r) ==> k in OpenKeys(e) && k !in r.declined;
      SomethingOrNothing(OpenKeys(r));
    }
  }

  /** Planning again awaits exactly the new planning task, and what was declined is open again. */
  lemma ReplannedIsOpen(e: Epic, t: nat)
    ensures var r := Replanning(e, t);
            && (forall tid :: Awaited(r, tid) <==> tid == t)
            && PlanOf(r) == PlanOf(e) && r.tasks == e.tasks
            && forall k :: k in OpenKeys(r) <==> k in KeyList(PlanOf(e)) && k !in e.tasks
  {}

  /** What was accepted is no longer open, and everything else is as open as before. */
  lemma AcceptedAreClosed(e: Epic, created: map<string, nat>)
    ensures var r := e.(tasks := e.tasks + created, status := Accepted);
            forall k :: k in OpenKeys(r) <==> k in OpenKeys(e) && k !in created
  {}

  /** A plan put in place by hand is the plan; it ends planning, and changes no other status. */
  lemma ReplacedPlan(e: Epic, plan: seq<PlanTask>)
    ensures var r := Replaced(e, plan);
            && PlanOf(r) == plan && r.tasks == e.tasks && r.declined == e.declined
            && (forall tid :: !Awaited(r, tid))
            && (e.status in {Planning, PlanFailed} ==> r.status == Proposed)
            && (e.status !in {Planning, PlanFailed} ==> r.status == e.status)
  {}

  /** Only the end of the awaited planning task changes an epic in planning. */
  lemma PlanningEnds(e: Epic, tid: nat, proposal: Option<seq<PlanTask>>)
    ensures var r := SyncPlanning(e, tid, proposal);
            && (!Awaited(e, tid) ==> r == e)
            && (Awaited(e, tid) ==>
                  && r.status == (if proposal.Some? then Proposed else PlanFailed)
                  && r == e.(status := r.status, plan := r.plan) && (proposal.None? ==> r.plan == e.plan))
  {
    hide KeepAccepted;
  }

  // ------------------------------------------------------------------- waiting

  /** Finished, with a successful run. */
  predicate IsDone(tasks: map<nat, Task>, landing: nat -> Landing, d: nat) {
    d in tasks && tasks[d].status == Succeeded && landing(d) != NoSuccessfulRun
  }

  lemma {:induction false} ScanStops(
    tasks: map<nat, Task>, landing: nat -> Landing, ds: seq<nat>, unmerged: seq<nat>, mode: Mode, i: nat)
    requires i < |ds| && !IsDone(tasks, landing, ds[i])
    requires forall j :: 0 <= j < i ==> IsDone(tasks, landing, ds[j])
    ensures var s := ScanDependencies(tasks, landing, ds, unmerged, mode);
            && (s == Unknown(ds[i]) <==> ds[i] !in tasks)
            && (s == NoRun(ds[i]) <==> ds[i] in tasks && tasks[ds[i]].status == Succeeded)
            && (s == BlockedBy(ds[i]) <==> ds[i] in tasks && tasks[ds[i]].status in {Failed, Cancelled})
            && (s == WaitingFor(ds[i]) <==> ds[i] in tasks && !IsTerminal(tasks[ds[i]].status))
    decreases |ds|
  {
    if i > 0 {
      assert IsDone(tasks, landing, ds[0]);
      forall j | 0 <= j < i - 1 ensures IsDone(tasks, landing, ds[1..][j]) {
        assert ds[1..][j] == ds[j + 1];
      }
      var more := if landing(ds[0]) == Pending then unmerged + [ds[0]] else unmerged;
      ScanStops(tasks, landing, ds[1..], more, mode, i - 1);
    }
  }

  /** The first dependency that is not done is the one reported, and for the reason it has. */
  lemma FirstObstacle(tasks: map<nat, Task>, landing: nat -> Landing, t: Task, mode: Mode, i: nat)
    requires i < |t.dependsOn| && !IsDone(tasks, landing, t.dependsOn[i])
    requires forall j :: 0 <= j < i ==> IsDone(tasks, landing, t.dependsOn[j])
    ensures var s, d := DependencyState(tasks, landing, t, mode), t.dependsOn[i];
            && (s == Unknown(d) <==> d !in tasks)
            && (s == NoRun(d) <==> d in tasks && tasks[d].status == Succeeded)
            && (s == BlockedBy(d) <==> d in tasks && tasks[d].status in {Failed, Cancelled})
            && (s == WaitingFor(d) <==> d in tasks && !IsTerminal(tasks[d].status))
  {
    ScanStops(tasks, landing, t.dependsOn, [], mode, i);
  }

  lemma {:induction false} ScanEnds(
    tasks: map<nat, Task>, landing: nat -> Landing, ds: seq<nat>, unmerged: seq<nat>, mode: Mode)
    returns (left: seq<nat>, places: seq<nat>)
    requires forall j :: 0 <= j < |ds| ==> IsDone(tasks, landing, ds[j])
    ensures Picked(left, ds, d => landing(d) == Pending, places)
    ensures ScanDependencies(tasks, landing, ds, unmerged, mode)
         == ScanDependencies(tasks, landing, [], unmerged + left, mode)
    decreases |ds|
  {
    if ds == [] {
      left, places := [], [];
      assert unmerged + [] == unmerged;
    } else {
      assert IsDone(tasks, landing, ds[0]);
      forall j | 0 <= j < |ds| - 1 ensures IsDone(tasks, landing, ds[1..][j]) {
        assert ds[1..][j] == ds[j + 1];
      }
      var more := if landing(ds[0]) == Pending then unmerged + [ds[0]] else unmerged;
      assert ScanDependencies(tasks, landing, ds, unmerged, mode)
          == ScanDependencies(tasks, landing, ds[1..], more, mode);
      hide ScanDependencies, IsDone, Picked;
      left, places := ScanEnds(tasks, landing, ds[1..], more, mode);
      PickedFront(left, ds, d => landing(d) == Pending, places);
      if landing(ds[0]) == Pending {
        Associative(unmerged, [ds[0]], left);
        left, places := [ds[0]] + left, [0] + Later(places);
      } else {
        places := Later(places);
      }
    }
  }

  /** When every dependency is done, it depends on how many are not merged: none, one under stacking, or more. */
  lemma NoObstacle(tasks: map<nat, Task>, landing: nat -> Landing, t: Task, mode: Mode)
    requires forall j :: 0 <= j < |t.dependsOn| ==> IsDone(tasks, landing, t.dependsOn[j])
    ensures var s, ds := DependencyState(tasks, landing, t, mode), t.dependsOn;
            && (s == Ready(None) <==> forall i :: 0 <= i < |ds| ==> landing(ds[i]) == Landed)
            && (forall b :: s == Ready(Some(b)) <==> mode == Stacked && OnlyPending(landing, ds, b))
            && (s.Ready? || s.WaitingMerge?)
  {
    var ds := t.dependsOn;
    var left, places := ScanEnds(tasks, landing, ds, [], mode);
    assert [] + left == left;
    forall i | 0 <= i < |ds| ensures landing(ds[i]) == Landed || landing(ds[i]) == Pending {
      assert IsDone(tasks, landing, ds[i]);
    }
    NonePending(landing, ds, left, places);
    forall b: nat ensures left == [b] <==> OnlyPending(landing, ds, b) {
      OnePending(landing, ds, left, places, b);
    }
    hide IsDone, Picked;
  }

  /** Exactly one place holds a dependency that is not merged yet, and it is `b`. */
  predicate OnlyPending(landing: nat -> Landing, ds: seq<nat>, b: nat) {
    exists i :: 0 <= i < |ds| && ds[i] == b && forall j :: 0 <= j < |ds| ==> (landing(ds[j]) == Pending <==> j == i)
  }

  lemma NonePending(landing: nat -> Landing, ds: seq<nat>, left: seq<nat>, places: seq<nat>)
    requires Picked(left, ds, d => landing(d) == Pending, places)
    ensures left == [] <==> forall i :: 0 <= i < |ds| ==> landing(ds[i]) != Pending
  {
    if places != [] {
      assert places[0] in places;
    }
  }

  lemma FirstTwo(places: seq<nat>, n: nat)
    requires Rising(places, n)
    ensures |places| > 1 ==> places[0] < places[1]
  {}

  lemma OnePending(landing: nat -> Landing, ds: seq<nat>, left: seq<nat>, places: seq<nat>, b: nat)
    requires Picked(left, ds, d => landing(d) == Pending, places)
    ensures left == [b] <==> OnlyPending(landing, ds, b)
  {
    FirstTwo(places, |ds|);
    if left == [b] {
      var i := places[0];
      forall j: nat | j < |ds| ensures landing(ds[j]) == Pending <==> j == i {
        assert j in places <==> j == i;
      }
    }
    if i :| 0 <= i < |ds| && ds[i] == b && forall j :: 0 <= j < |ds| ==> (landing(ds[j]) == Pending <==> j == i) {
      assert i in places;
      assert forall k :: 0 <= k < |places| ==> places[k] in places && places[k] == i;
      assert places != [];
    }
  }
}
