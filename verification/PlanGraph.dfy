/** Dependency order of plan tasks, and what a plan must satisfy. */
module PlanGraph {
  import opened Text

  datatype PlanTask = PlanTask(
    key: string,
    title: string,
    acceptance: seq<string>,
    checks: seq<string>,
    commands: seq<seq<string>>,
    dependsOn: seq<string>,
    workflow: Option<string>,
    scope: seq<string>)

  function Keys(tasks: seq<PlanTask>): set<string> {
    set i | 0 <= i < |tasks| :: tasks[i].key
  }

  function KeyList(tasks: seq<PlanTask>): (ks: seq<string>)
    ensures |ks| == |tasks| && forall i :: 0 <= i < |tasks| ==> ks[i] == tasks[i].key
  {
    if tasks == [] then [] else [tasks[0].key] + KeyList(tasks[1..])
  }

  ghost predicate UniqueKeys(tasks: seq<PlanTask>) {
    forall i, j :: 0 <= i < j < |tasks| ==> tasks[i].key != tasks[j].key
  }

  // ------------------------------------------------------------------- sorting

  datatype Topo = Ordered(order: seq<string>) | Stuck(keys: seq<string>)

  /** All dependencies are outside the plan or already placed. */
  predicate Ready(t: PlanTask, keys: set<string>, done: seq<string>) {
    forall d :: d in t.dependsOn ==> d !in keys || d in done
  }

  /** One sweep over the tasks still left. */
  function Sweep(left: seq<PlanTask>, keys: set<string>, done: seq<string>): (r: (seq<string>, seq<PlanTask>))
    ensures |r.1| <= |left|
    decreases |left|
  {
    if left == [] then (done, [])
    else if Ready(left[0], keys, done) then Sweep(left[1..], keys, done + [left[0].key])
    else
      var r := Sweep(left[1..], keys, done);
      (r.0, [left[0]] + r.1)
  }

  function Sort(left: seq<PlanTask>, keys: set<string>, done: seq<string>): Topo
    decreases |left|
  {
    if left == [] then Ordered(done)
    else
      var r := Sweep(left, keys, done);
      if |r.1| == |left| then Stuck(KeyList(r.1)) else Sort(r.1, keys, r.0)
  }

  function Order(tasks: seq<PlanTask>): Topo {
    Sort(tasks, Keys(tasks), [])
  }

  method TopoOrder(tasks: seq<PlanTask>) returns (r: Topo)
    ensures r == Order(tasks)
  {
    hide Ready;
    var keys := Keys(tasks);
    var done: seq<string> := [];
    var left := tasks;
    while left != []
      invariant Order(tasks) == Sort(left, keys, done)
      decreases |left|
    {
      var before := |left|;
      var next: seq<PlanTask> := [];
      ghost var start := done;
      var i := 0;
      assert left[0..] == left && [] + Sweep(left, keys, done).1 == Sweep(left, keys, done).1;
      while i < |left|
        invariant 0 <= i <= |left|
        invariant |next| <= i
        invariant Sweep(left, keys, start) == (Sweep(left[i..], keys, done).0, next + Sweep(left[i..], keys, done).1)
      {
        assert left[i..][0] == left[i] && left[i..][1..] == left[i + 1..];
        if Ready(left[i], keys, done) {
          done := done + [left[i].key];
        } else {
          assert next + ([left[i]] + Sweep(left[i + 1..], keys, done).1) ==
                 (next + [left[i]]) + Sweep(left[i + 1..], keys, done).1;
          next := next + [left[i]];
        }
        i := i + 1;
      }
      assert next + [] == next;
      left := next;
      if |left| == before {
        return Stuck(KeyList(left));
      }
    }
    return Ordered(done);
  }

  // ----------------------------------------------------- what an order promises

  /** Every dependency inside the plan stands earlier. */
  ghost predicate DependenciesFirst(tasks: seq<PlanTask>, keys: set<string>, order: seq<string>) {
    forall t, i, d :: t in tasks && 0 <= i < |order| && order[i] == t.key && d in t.dependsOn && d in keys
      ==> d in order[..i]
  }

  lemma KeyListCons(t: PlanTask, rest: seq<PlanTask>)
    ensures multiset(KeyList([t] + rest)) == multiset{t.key} + multiset(KeyList(rest))
  {
    assert ([t] + rest)[1..] == rest;
    assert KeyList([t] + rest) == [t.key] + KeyList(rest);
  }

  /** A sweep places keys behind those already placed and loses none. */
  lemma {:induction false} SweepPlaces(left: seq<PlanTask>, keys: set<string>, done: seq<string>)
    ensures done <= Sweep(left, keys, done).0
    ensures multiset(Sweep(left, keys, done).0) + multiset(KeyList(Sweep(left, keys, done).1)) ==
            multiset(done) + multiset(KeyList(left))
    decreases |left|
  {
    hide Ready, KeyList;
    if left != [] {
      var t, rest := left[0], left[1..];
      assert left == [t] + rest;
      KeyListCons(t, rest);
      if Ready(t, keys, done) {
        SweepPlaces(rest, keys, done + [t.key]);
      } else {
        SweepPlaces(rest, keys, done);
        var r := Sweep(rest, keys, done);
        KeyListCons(t, r.1);
        var one, placed, waits := multiset{t.key}, multiset(r.0), multiset(KeyList(r.1));
        assert placed + (one + waits) == one + (placed + waits);
        assert Sweep(left, keys, done) == (r.0, [t] + r.1);
      }
    }
  }

  lemma {:induction false} SweepLeaves(left: seq<PlanTask>, keys: set<string>, done: seq<string>)
    ensures forall t :: t in Sweep(left, keys, done).1 ==> t in left
    decreases |left|
  {
    hide Ready;
    if left != [] {
      if Ready(left[0], keys, done) {
        SweepLeaves(left[1..], keys, done + [left[0].key]);
      } else {
        SweepLeaves(left[1..], keys, done);
      }
    }
  }

  /** The key at place `i` belongs to a task that was ready when it was placed. */
  ghost predicate WasReady(tasks: seq<PlanTask>, keys: set<string>, order: seq<string>, i: nat)
    requires i < |order|
  {
    exists t :: t in tasks && t.key == order[i] && Ready(t, keys, order[..i])
  }

  ghost predicate PlacedReady(tasks: seq<PlanTask>, keys: set<string>, order: seq<string>, from: nat) {
    forall i :: from <= i < |order| ==> WasReady(tasks, keys, order, i)
  }

  lemma WasReadyInMore(
    some: seq<PlanTask>, tasks: seq<PlanTask>, keys: set<string>, part: seq<string>, order: seq<string>, i: nat)
    requires forall t :: t in some ==> t in tasks
    requires part <= order && i < |part| && WasReady(some, keys, part, i)
    ensures WasReady(tasks, keys, order, i)
  {
    hide Ready;
    var t :| t in some && t.key == part[i] && Ready(t, keys, part[..i]);
    assert part[..i] == order[..i] && t in tasks;
  }

  lemma {:induction false} SweepReady(left: seq<PlanTask>, keys: set<string>, done: seq<string>)
    ensures PlacedReady(left, keys, Sweep(left, keys, done).0, |done|)
    decreases |left|
  {
    hide Ready, WasReady;
    if left != [] {
      var o := Sweep(left, keys, done).0;
      if Ready(left[0], keys, done) {
        var d1 := done + [left[0].key];
        SweepPlaces(left[1..], keys, d1);
        SweepReady(left[1..], keys, d1);
        NowReady(left, keys, done, o);
      } else {
        SweepReady(left[1..], keys, done);
      }
      forall i | |done| <= i < |o| ensures WasReady(left, keys, o, i) {
        if WasReady(left[1..], keys, o, i) { WasReadyInMore(left[1..], left, keys, o, o, i); }
      }
    }
  }

  lemma NowReady(left: seq<PlanTask>, keys: set<string>, done: seq<string>, order: seq<string>)
    requires left != [] && Ready(left[0], keys, done) && done + [left[0].key] <= order
    ensures WasReady(left, keys, order, |done|)
  {
    hide Ready;
    assert order[..|done|] == done && order[|done|] == (done + [left[0].key])[|done|];
    assert left[0] in left;
  }

  lemma {:induction false} SortPlaces(left: seq<PlanTask>, keys: set<string>, done: seq<string>)
    requires Sort(left, keys, done).Ordered?
    ensures var o := Sort(left, keys, done).order;
            && done <= o && multiset(o) == multiset(done) + multiset(KeyList(left))
            && PlacedReady(left, keys, o, |done|)
    decreases |left|
  {
    hide Ready, WasReady, Sweep;
    if left != [] {
      var r := Sweep(left, keys, done);
      SweepPlaces(left, keys, done);
      SweepLeaves(left, keys, done);
      SweepReady(left, keys, done);
      SortPlaces(r.1, keys, r.0);
      var o := Sort(left, keys, done).order;
      forall i | |done| <= i < |o| ensures WasReady(left, keys, o, i) {
        if i < |r.0| {
          WasReadyInMore(left, left, keys, r.0, o, i);
        } else {
          WasReadyInMore(r.1, left, keys, o, o, i);
        }
      }
    }
  }

  lemma SameKeySameTask(tasks: seq<PlanTask>, s: PlanTask, t: PlanTask)
    requires UniqueKeys(tasks) && s in tasks && t in tasks && s.key == t.key
    ensures s == t
  {}

  /** A successful result is a permutation of the plan with every dependency earlier. */
  lemma OrderIsTopological(tasks: seq<PlanTask>)
    requires UniqueKeys(tasks) && Order(tasks).Ordered?
    ensures var o := Order(tasks).order;
            multiset(o) == multiset(KeyList(tasks)) && DependenciesFirst(tasks, Keys(tasks), o)
  {
    hide Sort, Keys;
    var o := Order(tasks).order;
    SortPlaces(tasks, Keys(tasks), []);
    forall t, i, d | t in tasks && 0 <= i < |o| && o[i] == t.key && d in t.dependsOn && d in Keys(tasks)
      ensures d in o[..i]
    {
      assert WasReady(tasks, Keys(tasks), o, i);
      var s :| s in tasks && s.key == o[i] && Ready(s, Keys(tasks), o[..i]);
      SameKeySameTask(tasks, s, t);
    }
  }

  /** A task with key `k` waits for one of `ks`. */
  ghost predicate WaitsIn(tasks: seq<PlanTask>, k: string, ks: seq<string>) {
    exists d :: d in ks && DependsOn(tasks, k, d)
  }

  ghost predicate DependsOn(tasks: seq<PlanTask>, a: string, b: string) {
    b in Keys(tasks) && exists t :: t in tasks && t.key == a && b in t.dependsOn
  }

  /** Each listed task waits for another listed one. */
  ghost predicate Knot(tasks: seq<PlanTask>, ks: seq<string>) {
    ks != [] && forall k :: k in ks ==> WaitsIn(tasks, k, ks)
  }

  lemma {:induction false} StuckSweep(left: seq<PlanTask>, keys: set<string>, done: seq<string>)
    requires |Sweep(left, keys, done).1| == |left|
    ensures Sweep(left, keys, done) == (done, left)
    ensures forall t :: t in left ==> !Ready(t, keys, done)
    decreases |left|
  {
    hide Ready;
    if left != [] && !Ready(left[0], keys, done) {
      StuckSweep(left[1..], keys, done);
      assert left == [left[0]] + left[1..];
    }
  }

  /** Keys of the plan are either placed or still waiting. */
  lemma PlacedOrLeft(tasks: seq<PlanTask>, left: seq<PlanTask>, done: seq<string>, d: string)
    requires multiset(done) + multiset(KeyList(left)) == multiset(KeyList(tasks))
    requires d in Keys(tasks) && d !in done
    ensures d in KeyList(left)
  {
    var j :| 0 <= j < |tasks| && tasks[j].key == d;
    assert KeyList(tasks)[j] == d;
    assert d in multiset(KeyList(tasks));
    assert d !in multiset(done);
  }

  lemma StuckWaits(tasks: seq<PlanTask>, left: seq<PlanTask>, done: seq<string>, i: nat)
    requires i < |left| && left[i] in tasks && !Ready(left[i], Keys(tasks), done)
    requires multiset(done) + multiset(KeyList(left)) == multiset(KeyList(tasks))
    ensures WaitsIn(tasks, left[i].key, KeyList(left))
  {
    hide Keys;
    var t := left[i];
    var d :| d in t.dependsOn && d in Keys(tasks) && d !in done;
    PlacedOrLeft(tasks, left, done, d);
    assert DependsOn(tasks, t.key, d);
  }

  lemma {:induction false} SortStuck(tasks: seq<PlanTask>, left: seq<PlanTask>, done: seq<string>)
    requires Sort(left, Keys(tasks), done).Stuck?
    requires forall t :: t in left ==> t in tasks
    requires multiset(done) + multiset(KeyList(left)) == multiset(KeyList(tasks))
    ensures Knot(tasks, Sort(left, Keys(tasks), done).keys)
    decreases |left|
  {
    hide Ready, Sweep, Keys, WaitsIn;
    var keys := Keys(tasks);
    var r := Sweep(left, keys, done);
    SweepPlaces(left, keys, done);
    SweepLeaves(left, keys, done);
    if |r.1| == |left| {
      StuckSweep(left, keys, done);
      var ks := KeyList(left);
      forall k | k in ks ensures WaitsIn(tasks, k, ks) {
        var i :| 0 <= i < |ks| && ks[i] == k;
        StuckWaits(tasks, left, done, i);
      }
    } else {
      SortStuck(tasks, r.1, r.0);
    }
  }

  /** A failed result names a non-empty knot. */
  lemma StuckIsKnot(tasks: seq<PlanTask>)
    requires Order(tasks).Stuck?
    ensures Knot(tasks, Order(tasks).keys)
  {
    SortStuck(tasks, tasks, []);
  }

  // ------------------------------------------------------------------- cycles

  ghost predicate Chained(tasks: seq<PlanTask>, path: seq<string>) {
    forall i :: 0 < i < |path| ==> DependsOn(tasks, path[i - 1], path[i])
  }

  ghost predicate IsCycle(tasks: seq<PlanTask>, path: seq<string>) {
    path != [] && Chained(tasks, path) && DependsOn(tasks, path[|path| - 1], path[0])
  }

  /** No task depends on itself, directly or through others. */
  ghost predicate Acyclic(tasks: seq<PlanTask>) {
    forall path :: !IsCycle(tasks, path)
  }

  lemma {:induction false} DistinctFits(path: seq<string>, s: set<string>)
    requires forall i, j :: 0 <= i < j < |path| ==> path[i] != path[j]
    requires forall i :: 0 <= i < |path| ==> path[i] in s
    ensures |path| <= |s|
    decreases |path|
  {
    if path != [] {
      var n := |path| - 1;
      DistinctFits(path[..n], s - {path[n]});
    }
  }

  lemma CloseCycle(tasks: seq<PlanTask>, path: seq<string>, i: nat)
    requires i < |path| && Chained(tasks, path) && DependsOn(tasks, path[|path| - 1], path[i])
    ensures IsCycle(tasks, path[i..])
  {
    hide DependsOn;
    var cycle := path[i..];
    forall k | 0 < k < |cycle| ensures DependsOn(tasks, cycle[k - 1], cycle[k]) {
      assert cycle[k - 1] == path[i + k - 1] && cycle[k] == path[(i + k - 1) + 1];
    }
  }

  /** Following dependencies inside a knot must come back to a task already visited. */
  lemma {:induction false} WalkFindsCycle(tasks: seq<PlanTask>, ks: seq<string>, path: seq<string>)
    returns (cycle: seq<string>)
    requires Knot(tasks, ks) && path != [] && Chained(tasks, path)
    requires forall i :: 0 <= i < |path| ==> path[i] in ks
    requires forall i, j :: 0 <= i < j < |path| ==> path[i] != path[j]
    ensures IsCycle(tasks, cycle)
    decreases |ks| - |path|
  {
    hide DependsOn, IsCycle;
    var last := path[|path| - 1];
    assert WaitsIn(tasks, last, ks);
    var d :| d in ks && DependsOn(tasks, last, d);
    if d in path {
      var i :| 0 <= i < |path| && path[i] == d;
      CloseCycle(tasks, path, i);
      cycle := path[i..];
    } else {
      LongerWalk(tasks, ks, path, d);
      cycle := WalkFindsCycle(tasks, ks, path + [d]);
    }
  }

  lemma LongerWalk(tasks: seq<PlanTask>, ks: seq<string>, path: seq<string>, d: string)
    requires path != [] && Chained(tasks, path) && DependsOn(tasks, path[|path| - 1], d)
    requires d in ks && d !in path
    requires forall i :: 0 <= i < |path| ==> path[i] in ks
    requires forall i, j :: 0 <= i < j < |path| ==> path[i] != path[j]
    ensures Chained(tasks, path + [d]) && |path| < |ks|
    ensures forall i :: 0 <= i < |path + [d]| ==> (path + [d])[i] in ks
    ensures forall i, j :: 0 <= i < j < |path + [d]| ==> (path + [d])[i] != (path + [d])[j]
  {
    hide DependsOn;
    var longer := path + [d];
    DistinctFits(longer, set k | k in ks);
    SetOfSeq(ks);
  }

  lemma {:induction false} SetOfSeq(ks: seq<string>)
    ensures |set k | k in ks| <= |ks|
    decreases |ks|
  {
    if ks != [] {
      SetOfSeq(ks[1..]);
      assert (set k | k in ks) == {ks[0]} + (set k | k in ks[1..]);
    }
  }

  /** Along a chain positions in a valid order go down. */
  lemma {:induction false} ChainDescends(tasks: seq<PlanTask>, order: seq<string>, path: seq<string>, n: nat)
    returns (p: nat, q: nat)
    requires DependenciesFirst(tasks, Keys(tasks), order) && Chained(tasks, path)
    requires forall k :: k in Keys(tasks) ==> k in order
    requires forall i, j :: 0 <= i < j < |order| ==> order[i] != order[j]
    requires n < |path| && path[0] in order
    ensures p < |order| && q < |order| && order[p] == path[0] && order[q] == path[n]
    ensures q <= p && (n > 0 ==> q < p)
    decreases n
  {
    if n == 0 {
      p :| 0 <= p < |order| && order[p] == path[0];
      q := p;
    } else {
      var m;
      p, m := ChainDescends(tasks, order, path, n - 1);
      assert DependsOn(tasks, path[n - 1], path[n]);
      var t :| t in tasks && t.key == path[n - 1] && path[n] in t.dependsOn;
      assert path[n] in order[..m];
      q :| 0 <= q < m && order[..m][q] == path[n];
    }
  }

  lemma KeysListed(tasks: seq<PlanTask>, k: string)
    ensures k in Keys(tasks) <==> k in KeyList(tasks)
  {
    if k in Keys(tasks) {
      var i :| 0 <= i < |tasks| && tasks[i].key == k;
      assert KeyList(tasks)[i] == k;
    }
  }

  lemma KeysInOrder(tasks: seq<PlanTask>, order: seq<string>)
    requires UniqueKeys(tasks) && multiset(order) == multiset(KeyList(tasks))
    ensures forall k :: k in Keys(tasks) <==> k in order
    ensures forall i, j :: 0 <= i < j < |order| ==> order[i] != order[j]
  {
    var ks := KeyList(tasks);
    DistinctCount(ks);
    OnceIsDistinct(order);
    hide KeyList;
    forall k ensures k in Keys(tasks) <==> k in order {
      KeysListed(tasks, k);
      assert k in ks <==> k in multiset(ks);
      assert k in order <==> k in multiset(order);
    }
  }

  lemma {:induction false} OnceIsDistinct(ks: seq<string>)
    requires forall k :: multiset(ks)[k] <= 1
    ensures forall i, j :: 0 <= i < j < |ks| ==> ks[i] != ks[j]
    decreases |ks|
  {
    if ks != [] {
      assert ks == [ks[0]] + ks[1..];
      var rest := multiset(ks[1..]);
      assert multiset(ks) == multiset{ks[0]} + rest;
      forall k ensures rest[k] <= 1 {
        assert multiset(ks)[k] <= 1;
      }
      OnceIsDistinct(ks[1..]);
      assert multiset(ks)[ks[0]] == 1 + rest[ks[0]];
      assert ks[0] !in ks[1..];
      forall i, j | 0 <= i < j < |ks| ensures ks[i] != ks[j] {
        assert ks[j] == ks[1..][j - 1];
        if i > 0 { assert ks[i] == ks[1..][i - 1]; }
      }
    }
  }

  lemma {:induction false} DistinctCount(ks: seq<string>)
    requires forall i, j :: 0 <= i < j < |ks| ==> ks[i] != ks[j]
    ensures forall k :: multiset(ks)[k] <= 1
    decreases |ks|
  {
    if ks != [] {
      DistinctCount(ks[1..]);
      assert ks == [ks[0]] + ks[1..];
      assert ks[0] !in ks[1..];
    }
  }

  /** Sorting succeeds exactly on plans without a dependency cycle. */
  lemma OrderedIffAcyclic(tasks: seq<PlanTask>)
    requires UniqueKeys(tasks)
    ensures Order(tasks).Ordered? <==> Acyclic(tasks)
  {
    hide Order, Keys, DependsOn, IsCycle, WaitsIn, DependenciesFirst, KeyList;
    if Order(tasks).Ordered? {
      OrderIsTopological(tasks);
      var order := Order(tasks).order;
      KeysInOrder(tasks, order);
      forall path ensures !IsCycle(tasks, path) {
        NoReturn(tasks, order, path);
      }
    } else {
      StuckIsKnot(tasks);
      var ks := Order(tasks).keys;
      assert Chained(tasks, [ks[0]]);
      var cycle := WalkFindsCycle(tasks, ks, [ks[0]]);
    }
  }

  /** Where an order exists, no chain of dependencies returns to its start. */
  lemma NoReturn(tasks: seq<PlanTask>, order: seq<string>, path: seq<string>)
    requires DependenciesFirst(tasks, Keys(tasks), order)
    requires forall k :: k in Keys(tasks) ==> k in order
    requires forall i, j :: 0 <= i < j < |order| ==> order[i] != order[j]
    ensures !IsCycle(tasks, path)
  {
    hide DependsOn, DependenciesFirst;
    if IsCycle(tasks, path) {
      var closed := path + [path[0]];
      assert path[0] in Keys(tasks) by { DependedIsKey(tasks, path[|path| - 1], path[0]); }
      forall i | 0 < i < |closed| ensures DependsOn(tasks, closed[i - 1], closed[i]) {
        if i < |path| { assert closed[i - 1] == path[i - 1] && closed[i] == path[i]; }
      }
      var p, q := ChainDescends(tasks, order, closed, |path|);
      assert false;
    }
  }

  lemma DependedIsKey(tasks: seq<PlanTask>, a: string, b: string)
    requires DependsOn(tasks, a, b)
    ensures b in Keys(tasks)
  {}

  /** Leaving tasks out creates no cycle. */
  lemma SubsetStaysAcyclic(tasks: seq<PlanTask>, some: seq<PlanTask>)
    requires Acyclic(tasks) && forall t :: t in some ==> t in tasks
    ensures Acyclic(some)
  {
    forall path ensures !IsCycle(some, path) {
      if IsCycle(some, path) {
        forall a, b | DependsOn(some, a, b) ensures DependsOn(tasks, a, b) {
          var t :| t in some && t.key == a && b in t.dependsOn;
          var i :| 0 <= i < |some| && some[i].key == b;
          assert some[i] in tasks;
        }
        assert IsCycle(tasks, path);
      }
    }
  }

  // ---------------------------------------------------------------- stability

  /** The plan already lists every dependency first. */
  ghost predicate AlreadyOrdered(tasks: seq<PlanTask>) {
    DependenciesFirst(tasks, Keys(tasks), KeyList(tasks))
  }

  lemma {:induction false} SweepKeepsOrder(tasks: seq<PlanTask>, n: nat)
    requires AlreadyOrdered(tasks) && n <= |tasks|
    ensures Sweep(tasks[n..], Keys(tasks), KeyList(tasks)[..n]) == (KeyList(tasks), [])
    decreases |tasks| - n
  {
    var keys, ks := Keys(tasks), KeyList(tasks);
    if n < |tasks| {
      var t := tasks[n];
      assert tasks[n..][0] == t && tasks[n..][1..] == tasks[n + 1..];
      assert ks[n] == t.key && t in tasks;
      assert Ready(t, keys, ks[..n]);
      assert ks[..n] + [t.key] == ks[..n + 1];
      SweepKeepsOrder(tasks, n + 1);
    } else {
      assert ks[..n] == ks;
    }
  }

  /** A plan that is in dependency order is left in plan order. */
  lemma ValidOrderIsKept(tasks: seq<PlanTask>)
    requires AlreadyOrdered(tasks)
    ensures Order(tasks) == Ordered(KeyList(tasks))
  {
    SweepKeepsOrder(tasks, 0);
    assert tasks[0..] == tasks && KeyList(tasks)[..0] == [];
    assert Sweep(tasks, Keys(tasks), []) == (KeyList(tasks), []);
    hide Sweep;
    assert Sort([], Keys(tasks), KeyList(tasks)) == Ordered(KeyList(tasks));
  }

  // --------------------------------------------------------------- validation

  const NAMED_CHECKS := ["tests", "lint", "security"]

  datatype PlanRules = PlanRules(
    maxTasks: nat, workflows: seq<string>, existingKeys: seq<string>, isGlob: string -> bool)

  datatype PlanError =
    | NoTasks | TooMany | BadKey(key: string) | DuplicateKey(key: string) | EmptyTitle(key: string)
    | NoAcceptance(key: string) | UnknownWorkflow(key: string) | UnknownCheck(key: string)
    | BadCommand(key: string) | BadScope(key: string)
    | UnknownDependency(key: string, on: string) | SelfDependency(key: string) | DependencyCycle(keys: seq<string>)

  predicate ValidKey(k: string) {
    0 < |k| <= 16 && forall i :: 0 <= i < |k| ==> IsAlphanumeric(k[i]) || k[i] == '-' || k[i] == '_'
  }

  predicate Contains(s: string, part: string) {
    part <= s || (s != [] && Contains(s[1..], part))
  }

  /** A valid key is made of valid ones, and is no longer than sixteen characters. */
  lemma ValidKeyIff(c: char, a: string, b: string)
    ensures !ValidKey("")
    ensures ValidKey([c]) <==> 'a' <= c <= 'z' || 'A' <= c <= 'Z' || '0' <= c <= '9' || c == '-' || c == '_'
    ensures a != [] && b != [] ==> (ValidKey(a + b) <==> ValidKey(a) && ValidKey(b) && |a| + |b| <= 16)
  {
    assert forall i :: 0 <= i < |[c]| ==> [c][i] == c;
    assert [c][0] == c;
    if ValidKey(a + b) {
      assert forall i :: 0 <= i < |a| ==> a[i] == (a + b)[i];
      assert forall i :: 0 <= i < |b| ==> b[i] == (a + b)[|a| + i];
    }
  }

  lemma {:induction false} ContainsIff(s: string, part: string)
    ensures Contains(s, part) <==> exists i: nat :: i <= |s| && part <= s[i..]
    decreases |s|
  {
    assert s[0..] == s;
    if s != [] {
      ContainsIff(s[1..], part);
      assert forall i: nat :: i < |s| ==> s[1..][i..] == s[i + 1..];
      if exists i: nat :: i <= |s| && part <= s[i..] {
        var i: nat :| i <= |s| && part <= s[i..];
        if i > 0 {
          assert s[1..][i - 1..] == s[i..];
        }
      }
    }
  }

  predicate BadArgv(argv: seq<string>) {
    argv == [] || IsBlank(argv[0]) || exists a :: a in argv && Contains(a, "{{")
  }

  predicate BadGlob(g: string, rules: PlanRules) {
    !rules.isGlob(g) || StartsWith(g, "/") || Contains(g, "..")
  }

  /** What one task must satisfy on its own. */
  predicate TaskOk(t: PlanTask, rules: PlanRules) {
    && ValidKey(t.key)
    && t.key !in rules.existingKeys
    && !IsBlank(t.title)
    && (exists a :: a in t.acceptance && !IsBlank(a))
    && (t.workflow.Some? ==> t.workflow.value in rules.workflows)
    && (forall c :: c in t.checks ==> c in NAMED_CHECKS)
    && (forall c :: c in t.commands ==> !BadArgv(c))
    && (forall g :: g in t.scope ==> !BadGlob(g, rules))
  }

  predicate DependenciesOk(t: PlanTask, keys: set<string>, rules: PlanRules) {
    forall d :: d in t.dependsOn ==> (d in keys || d in rules.existingKeys) && d != t.key
  }

  /** What a plan must satisfy to be taken. */
  ghost predicate PlanOk(tasks: seq<PlanTask>, rules: PlanRules) {
    && 0 < |tasks| <= rules.maxTasks
    && UniqueKeys(tasks)
    && (forall t :: t in tasks ==> TaskOk(t, rules))
    && (forall t :: t in tasks ==> DependenciesOk(t, Keys(tasks), rules))
    && Acyclic(tasks)
  }

  /** What is wrong with one task on its own. */
  predicate TaskFault(t: PlanTask, duplicate: bool, rules: PlanRules, e: PlanError) {
    match e
    case BadKey(k) => k == t.key && !ValidKey(k)
    case DuplicateKey(k) => k == t.key && (duplicate || k in rules.existingKeys)
    case EmptyTitle(k) => k == t.key && IsBlank(t.title)
    case NoAcceptance(k) => k == t.key && forall a :: a in t.acceptance ==> IsBlank(a)
    case UnknownWorkflow(k) => k == t.key && t.workflow.Some? && t.workflow.value !in rules.workflows
    case UnknownCheck(k) => k == t.key && exists c :: c in t.checks && c !in NAMED_CHECKS
    case BadCommand(k) => k == t.key && exists c :: c in t.commands && BadArgv(c)
    case BadScope(k) => k == t.key && exists g :: g in t.scope && BadGlob(g, rules)
    case _ => false
  }

  predicate DependencyFault(t: PlanTask, keys: set<string>, rules: PlanRules, e: PlanError) {
    match e
    case UnknownDependency(k, d) => k == t.key && d in t.dependsOn && d !in keys && d !in rules.existingKeys
    case SelfDependency(k) => k == t.key && k in t.dependsOn
    case _ => false
  }

  /** What is wrong with a plan before its dependencies are followed; a key is a duplicate where it comes again. */
  ghost predicate Fault(tasks: seq<PlanTask>, rules: PlanRules, e: PlanError) {
    || (e.NoTasks? && tasks == [])
    || (e.TooMany? && |tasks| > rules.maxTasks)
    || (exists i :: 0 <= i < |tasks| && TaskFault(tasks[i], tasks[i].key in Keys(tasks[..i]), rules, e))
    || (exists i :: 0 <= i < |tasks| && DependencyFault(tasks[i], Keys(tasks), rules, e))
  }

  method CheckTask(t: PlanTask, duplicate: bool, rules: PlanRules) returns (errs: seq<PlanError>)
    ensures errs == [] <==> TaskOk(t, rules) && !duplicate
    ensures forall e :: e in errs <==> TaskFault(t, duplicate, rules, e)
  {
    hide IsBlank, ValidKey, BadArgv, BadGlob;
    errs := [];
    if !ValidKey(t.key) { errs := errs + [BadKey(t.key)]; }
    if duplicate || t.key in rules.existingKeys { errs := errs + [DuplicateKey(t.key)]; }
    if IsBlank(t.title) { errs := errs + [EmptyTitle(t.key)]; }
    if forall a :: a in t.acceptance ==> IsBlank(a) { errs := errs + [NoAcceptance(t.key)]; }
    if t.workflow.Some? && t.workflow.value !in rules.workflows { errs := errs + [UnknownWorkflow(t.key)]; }
    ghost var e0 := errs;
    var i := 0;
    while i < |t.checks|
      invariant 0 <= i <= |t.checks|
      invariant forall e :: e in errs <==>
                  e in e0 || (e == UnknownCheck(t.key) && exists k :: 0 <= k < i && t.checks[k] !in NAMED_CHECKS)
    {
      if t.checks[i] !in NAMED_CHECKS { errs := errs + [UnknownCheck(t.key)]; }
      i := i + 1;
    }
    ghost var e1 := errs;
    i := 0;
    while i < |t.commands|
      invariant 0 <= i <= |t.commands|
      invariant forall e :: e in errs <==>
                  e in e1 || (e == BadCommand(t.key) && exists k :: 0 <= k < i && BadArgv(t.commands[k]))
    {
      if BadArgv(t.commands[i]) { errs := errs + [BadCommand(t.key)]; }
      i := i + 1;
    }
    ghost var e2 := errs;
    i := 0;
    while i < |t.scope|
      invariant 0 <= i <= |t.scope|
      invariant forall e :: e in errs <==>
                  e in e2 || (e == BadScope(t.key) && exists k :: 0 <= k < i && BadGlob(t.scope[k], rules))
    {
      if BadGlob(t.scope[i], rules) { errs := errs + [BadScope(t.key)]; }
      i := i + 1;
    }
    FaultlessTask(t, duplicate, rules, errs);
  }

  method CheckDependencies(t: PlanTask, keys: set<string>, rules: PlanRules) returns (errs: seq<PlanError>)
    ensures errs == [] <==> DependenciesOk(t, keys, rules)
    ensures forall e :: e in errs <==> DependencyFault(t, keys, rules, e)
  {
    errs := [];
    var i := 0;
    assert forall e :: !DependencyFault(t.(dependsOn := t.dependsOn[..0]), keys, rules, e);
    hide DependencyFault;
    while i < |t.dependsOn|
      invariant 0 <= i <= |t.dependsOn|
      invariant forall e :: e in errs <==> DependencyFault(t.(dependsOn := t.dependsOn[..i]), keys, rules, e)
    {
      var d := t.dependsOn[i];
      forall e { OneMoreDependency(t, keys, rules, i, e); }
      if d !in keys && d !in rules.existingKeys { errs := errs + [UnknownDependency(t.key, d)]; }
      if d == t.key { errs := errs + [SelfDependency(t.key)]; }
      i := i + 1;
    }
    assert t.(dependsOn := t.dependsOn[..i]) == t;
    FaultlessDependencies(t, keys, rules, errs);
  }

  lemma FaultlessTask(t: PlanTask, duplicate: bool, rules: PlanRules, errs: seq<PlanError>)
    requires forall e :: e in errs <==> TaskFault(t, duplicate, rules, e)
    ensures errs == [] <==> TaskOk(t, rules) && !duplicate
  {
    var k := t.key;
    hide ValidKey, BadArgv, BadGlob, IsBlank;
    assert errs == [] || errs[0] in errs;
    assert errs == [] ==>
        && !TaskFault(t, duplicate, rules, BadKey(k)) && !TaskFault(t, duplicate, rules, DuplicateKey(k))
        && !TaskFault(t, duplicate, rules, EmptyTitle(k)) && !TaskFault(t, duplicate, rules, NoAcceptance(k))
        && !TaskFault(t, duplicate, rules, UnknownWorkflow(k)) && !TaskFault(t, duplicate, rules, UnknownCheck(k))
        && !TaskFault(t, duplicate, rules, BadCommand(k)) && !TaskFault(t, duplicate, rules, BadScope(k));
  }

  lemma FaultlessDependencies(t: PlanTask, keys: set<string>, rules: PlanRules, errs: seq<PlanError>)
    requires forall e :: e in errs <==> DependencyFault(t, keys, rules, e)
    ensures errs == [] <==> DependenciesOk(t, keys, rules)
  {
    assert errs == [] || errs[0] in errs;
    forall d | d in t.dependsOn && errs == [] ensures (d in keys || d in rules.existingKeys) && d != t.key {
      assert !DependencyFault(t, keys, rules, UnknownDependency(t.key, d));
      assert !DependencyFault(t, keys, rules, SelfDependency(t.key));
    }
  }

  lemma OneMoreDependency(t: PlanTask, keys: set<string>, rules: PlanRules, i: nat, e: PlanError)
    requires i < |t.dependsOn|
    ensures DependencyFault(t.(dependsOn := t.dependsOn[..i + 1]), keys, rules, e) <==>
            var d := t.dependsOn[i];
            || DependencyFault(t.(dependsOn := t.dependsOn[..i]), keys, rules, e)
            || (e == UnknownDependency(t.key, d) && d !in keys && d !in rules.existingKeys)
            || (e == SelfDependency(t.key) && d == t.key)
  {
    assert t.dependsOn[..i + 1] == t.dependsOn[..i] + [t.dependsOn[i]];
  }

  lemma FaultlessPlan(tasks: seq<PlanTask>, rules: PlanRules, errs: seq<PlanError>)
    requires forall e :: e in errs <==> Fault(tasks, rules, e)
    ensures errs == [] <==>
            && 0 < |tasks| <= rules.maxTasks && UniqueKeys(tasks)
            && (forall t :: t in tasks ==> TaskOk(t, rules))
            && (forall t :: t in tasks ==> DependenciesOk(t, Keys(tasks), rules))
  {
    hide TaskFault, DependencyFault, TaskOk, DependenciesOk, Keys, UniqueKeys;
    assert errs == [] || errs[0] in errs;
    assert errs == [] ==> !Fault(tasks, rules, NoTasks) && !Fault(tasks, rules, TooMany);
    forall i | 0 <= i < |tasks|
      ensures (forall e :: !TaskFault(tasks[i], tasks[i].key in Keys(tasks[..i]), rules, e)) <==>
              TaskOk(tasks[i], rules) && tasks[i].key !in Keys(tasks[..i])
      ensures (forall e :: !DependencyFault(tasks[i], Keys(tasks), rules, e)) <==>
              DependenciesOk(tasks[i], Keys(tasks), rules)
    {
      NoTaskFault(tasks[i], tasks[i].key in Keys(tasks[..i]), rules);
      NoDependencyFault(tasks[i], Keys(tasks), rules);
    }
    forall i, e | 0 <= i < |tasks| && errs == []
      ensures !TaskFault(tasks[i], tasks[i].key in Keys(tasks[..i]), rules, e)
      ensures !DependencyFault(tasks[i], Keys(tasks), rules, e)
    {
      assert !Fault(tasks, rules, e);
    }
    NewKeysAreUnique(tasks);
  }

  lemma NoTaskFault(t: PlanTask, duplicate: bool, rules: PlanRules)
    ensures (forall e :: !TaskFault(t, duplicate, rules, e)) <==> TaskOk(t, rules) && !duplicate
  {
    hide TaskFault, TaskOk;
    if forall e :: !TaskFault(t, duplicate, rules, e) {
      FaultlessTask(t, duplicate, rules, []);
    }
    if TaskOk(t, rules) && !duplicate {
      WellFormedTask(t, rules);
    }
  }

  lemma WellFormedTask(t: PlanTask, rules: PlanRules)
    requires TaskOk(t, rules)
    ensures forall e :: !TaskFault(t, false, rules, e)
  {
    hide ValidKey, BadArgv, BadGlob, IsBlank;
  }

  lemma NoDependencyFault(t: PlanTask, keys: set<string>, rules: PlanRules)
    ensures (forall e :: !DependencyFault(t, keys, rules, e)) <==> DependenciesOk(t, keys, rules)
  {
    if forall e :: !DependencyFault(t, keys, rules, e) {
      FaultlessDependencies(t, keys, rules, []);
    }
  }

  lemma NewKeysAreUnique(tasks: seq<PlanTask>)
    ensures UniqueKeys(tasks) <==> forall i :: 0 <= i < |tasks| ==> tasks[i].key !in Keys(tasks[..i])
  {
    if forall i :: 0 <= i < |tasks| ==> tasks[i].key !in Keys(tasks[..i]) {
      forall i, j | 0 <= i < j < |tasks| ensures tasks[i].key != tasks[j].key {
        assert tasks[..j][i] == tasks[i];
      }
    }
  }

  /** A plan is refused with every error found, and taken exactly when there is none. */
  method ValidatePlan(tasks: seq<PlanTask>, rules: PlanRules) returns (errs: seq<PlanError>)
    ensures errs == [] <==> PlanOk(tasks, rules)
    ensures (exists e :: Fault(tasks, rules, e)) ==> forall e :: e in errs <==> Fault(tasks, rules, e)
    ensures (forall e :: !Fault(tasks, rules, e)) ==>
              errs == match Order(tasks) case Ordered(_) => [] case Stuck(ks) => [DependencyCycle(ks)]
  {
    hide TaskOk, DependenciesOk, Order, Acyclic, TaskFault, DependencyFault;
    errs := [];
    if tasks == [] { errs := errs + [NoTasks]; }
    if |tasks| > rules.maxTasks { errs := errs + [TooMany]; }
    ghost var e0 := errs;
    assert forall e :: e in e0 <==> (e.NoTasks? && tasks == []) || (e.TooMany? && |tasks| > rules.maxTasks);
    var keys: set<string> := {};
    var i := 0;
    while i < |tasks|
      invariant 0 <= i <= |tasks|
      invariant keys == Keys(tasks[..i])
      invariant forall e :: e in errs <==>
                  e in e0 || exists k :: 0 <= k < i && TaskFault(tasks[k], tasks[k].key in Keys(tasks[..k]), rules, e)
    {
      var more := CheckTask(tasks[i], tasks[i].key in keys, rules);
      assert tasks[..i + 1] == tasks[..i] + [tasks[i]];
      KeysSnoc(tasks[..i], tasks[i]);
      errs := errs + more;
      keys := keys + {tasks[i].key};
      i := i + 1;
    }
    assert tasks[..i] == tasks;
    ghost var e1 := errs;
    i := 0;
    while i < |tasks|
      invariant 0 <= i <= |tasks|
      invariant forall e :: e in errs <==>
                  e in e1 || exists k :: 0 <= k < i && DependencyFault(tasks[k], keys, rules, e)
    {
      var more := CheckDependencies(tasks[i], keys, rules);
      errs := errs + more;
      i := i + 1;
    }
    assert forall e :: e in errs <==> Fault(tasks, rules, e);
    FaultlessPlan(tasks, rules, errs);
    assert errs != [] ==> errs[0] in errs;
    if errs == [] {
      var r := TopoOrder(tasks);
      OrderedIffAcyclic(tasks);
      if r.Stuck? { errs := errs + [DependencyCycle(r.keys)]; }
    }
  }

  lemma UniqueSnoc(tasks: seq<PlanTask>, t: PlanTask)
    ensures UniqueKeys(tasks + [t]) <==> UniqueKeys(tasks) && t.key !in Keys(tasks)
  {
    var all := tasks + [t];
    if UniqueKeys(all) {
      assert all[|tasks|] == t;
      assert forall i :: 0 <= i < |tasks| ==> all[i] == tasks[i];
      forall i, j | 0 <= i < j < |tasks| ensures tasks[i].key != tasks[j].key {
        assert all[i].key != all[j].key;
      }
      forall i | 0 <= i < |tasks| ensures tasks[i].key != t.key {
        assert all[i].key != all[|tasks|].key;
      }
    }
  }

  lemma KeysSnoc(tasks: seq<PlanTask>, t: PlanTask)
    ensures Keys(tasks + [t]) == Keys(tasks) + {t.key}
  {
    var all := tasks + [t];
    forall k ensures k in Keys(all) <==> k in Keys(tasks) + {t.key} {
      if k in Keys(tasks) {
        var i :| 0 <= i < |tasks| && tasks[i].key == k;
        assert all[i].key == k;
      }
      assert all[|tasks|].key == t.key;
    }
  }

  /** After validation, ordering any selection of the plan cannot fail. */
  lemma SelectionCanBeOrdered(tasks: seq<PlanTask>, rules: PlanRules, chosen: seq<PlanTask>)
    requires PlanOk(tasks, rules)
    requires UniqueKeys(chosen) && forall t :: t in chosen ==> t in tasks
    ensures Order(chosen).Ordered?
  {
    SubsetStaysAcyclic(tasks, chosen);
    OrderedIffAcyclic(chosen);
  }
}
