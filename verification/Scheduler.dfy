/**
 * Several schedulers over one store: claiming tasks under the queue lock, starting runs under
 * their own locks, and the shared budget of agent slots. Schedulers act on lists that may be
 * stale, and anybody may change a status at any time.
 */
module Scheduling {
  import opened Text
  import Epics
  import RunModel

  // -------------------------------------------------------------------- slots

  /** The semaphore for parallel agents; each method is one critical section of its mutex. */
  class Slots {
    const cap: nat
    var used: nat
    ghost var guards: set<nat>
    ghost var issued: nat

    ghost predicate Valid()
      reads this
    {
      && cap >= 1 && used == |guards| && used <= cap
      && forall g :: g in guards ==> g < issued
    }

    constructor (cap: nat)
      ensures Valid() && used == 0 && guards == {} && this.cap == if cap > 1 then cap else 1
    {
      this.cap := if cap > 1 then cap else 1;
      used, guards, issued := 0, {}, 0;
    }

    /** One look at the counter: cancelled, a slot, or wait and look again. */
    method TryAcquire(cancelled: bool) returns (got: bool, ghost guard: nat)
      requires Valid()
      modifies this
      ensures Valid() && got == (!cancelled && old(used) < cap)
      ensures got ==> guard !in old(guards) && guards == old(guards) + {guard} && used == old(used) + 1
      ensures !got ==> guards == old(guards) && used == old(used)
    {
      guard := issued;
      got := !cancelled && used < cap;
      if got {
        used := used + 1;
        guards := guards + {guard};
        issued := issued + 1;
      }
    }

    /** Dropping a live guard never takes the counter below zero. */
    method Drop(ghost guard: nat)
      requires Valid() && guard in guards
      modifies this
      ensures Valid() && guards == old(guards) - {guard} && used == old(used) - 1
    {
      used := used - 1;
      guards := guards - {guard};
    }
  }

  // ------------------------------------------------------------------- worlds

  datatype Task = Task(status: Epics.TaskStatus, variants: nat, runs: seq<nat>)

  datatype Run = Run(task: nat, variant: nat, status: RunModel.RunStatus)

  /** Where a scheduler is with the task it is claiming: holding the lock, or creating its runs. */
  datatype Claim = Idle | Claiming(task: nat) | Creating(task: nat, made: seq<nat>)

  datatype Thread = Waiting | Driving | Done

  datatype Scheduler = Scheduler(seen: map<nat, Task>, claim: Claim, active: map<nat, Thread>, cap: nat)

  datatype World = World(
    tasks: map<nat, Task>,
    runs: map<nat, Run>,
    nextRun: nat,
    queue: Option<nat>,
    locks: map<nat, nat>,
    schedulers: map<nat, Scheduler>)

  datatype Label =
    | ListTasks(s: nat)
    | LockQueue(s: nat, t: nat)
    | Recheck(s: nat)
    | SaveRun(s: nat)
    | CannotCreate(s: nat)
    | SaveTask(s: nat)
    | Start(s: nat, r: nat)
    | LockRun(s: nat, r: nat)
    | Leave(s: nat, r: nat)
    | Reap(s: nat, r: nat)
    | Die(s: nat)
    | SetTaskStatus(t: nat, taskStatus: Epics.TaskStatus)
    | SetRunStatus(r: nat, runStatus: RunModel.RunStatus)

  predicate Claimable(t: Task) {
    t.status.Queued? && t.runs == []
  }

  /** One run per variant, and at least one. */
  function Wanted(t: Task): nat {
    if t.variants > 1 then t.variants else 1
  }

  predicate Is(w: World, s: nat) {
    s in w.schedulers
  }

  predicate Enabled(w: World, l: Label) {
    match l
    case ListTasks(s) => Is(w, s) && w.schedulers[s].claim.Idle?
    // On the strength of a list that may be stale by now.
    case LockQueue(s, t) =>
      && Is(w, s) && w.schedulers[s].claim.Idle? && w.queue == None
      && t in w.schedulers[s].seen && Claimable(w.schedulers[s].seen[t]) && t in w.tasks
    case Recheck(s) => Is(w, s) && w.schedulers[s].claim.Claiming? && w.schedulers[s].claim.task in w.tasks
    case SaveRun(s) =>
      && Is(w, s) && w.schedulers[s].claim.Creating? && w.schedulers[s].claim.task in w.tasks
      && |w.schedulers[s].claim.made| < Wanted(w.tasks[w.schedulers[s].claim.task])
    case CannotCreate(s) =>
      Is(w, s) && w.schedulers[s].claim.Creating? && w.schedulers[s].claim.made == []
        && w.schedulers[s].claim.task in w.tasks
    case SaveTask(s) =>
      && Is(w, s) && w.schedulers[s].claim.Creating? && w.schedulers[s].claim.task in w.tasks
      && |w.schedulers[s].claim.made| == Wanted(w.tasks[w.schedulers[s].claim.task])
    case Start(s, r) => Is(w, s) && r !in w.schedulers[s].active && |w.schedulers[s].active| < w.schedulers[s].cap
    case LockRun(s, r) =>
      Is(w, s) && r in w.schedulers[s].active && w.schedulers[s].active[r].Waiting? && r !in w.locks
    case Leave(s, r) => Is(w, s) && r in w.schedulers[s].active && !w.schedulers[s].active[r].Done?
    case Reap(s, r) => Is(w, s) && r in w.schedulers[s].active && w.schedulers[s].active[r].Done?
    // A scheduler's process may die at any time but while it creates runs.
    case Die(s) => Is(w, s) && (w.schedulers[s].claim.Creating? ==> w.schedulers[s].claim.made == [])
    case SetTaskStatus(t, _) => t in w.tasks
    case SetRunStatus(r, _) => r in w.runs
  }

  function Claims(w: World, s: nat, claim: Claim): World
    requires Is(w, s)
  {
    w.(schedulers := w.schedulers[s := w.schedulers[s].(claim := claim)])
  }

  function Threads(w: World, s: nat, active: map<nat, Thread>): World
    requires Is(w, s)
  {
    w.(schedulers := w.schedulers[s := w.schedulers[s].(active := active)])
  }

  /** The locks a scheduler's threads do not hold. */
  function LocksWithout(locks: map<nat, nat>, s: nat): map<nat, nat> {
    map r | r in locks && locks[r] != s :: locks[r]
  }

  function Apply(w: World, l: Label): World
    requires Enabled(w, l)
  {
    match l
    case ListTasks(s) => w.(schedulers := w.schedulers[s := w.schedulers[s].(seen := w.tasks)])
    case LockQueue(s, t) => Claims(w, s, Claiming(t)).(queue := Some(s))
    case Recheck(s) =>
      var t := w.schedulers[s].claim.task;
      if Claimable(w.tasks[t]) then Claims(w, s, Creating(t, [])) else Claims(w, s, Idle).(queue := None)
    case SaveRun(s) =>
      var c := w.schedulers[s].claim;
      Claims(w, s, c.(made := c.made + [w.nextRun])).(
        runs := w.runs[w.nextRun := Run(c.task, |c.made|, RunModel.RunStatus.Pending)],
        nextRun := w.nextRun + 1)
    case CannotCreate(s) =>
      var t := w.schedulers[s].claim.task;
      Claims(w, s, Idle).(tasks := w.tasks[t := w.tasks[t].(status := Epics.Failed)], queue := None)
    case SaveTask(s) =>
      var c := w.schedulers[s].claim;
      var task := w.tasks[c.task];
      Claims(w, s, Idle).(
        tasks := w.tasks[c.task := task.(status := Epics.Running, runs := task.runs + c.made)],
        queue := None)
    case Start(s, r) => Threads(w, s, w.schedulers[s].active[r := Waiting])
    case LockRun(s, r) => Threads(w, s, w.schedulers[s].active[r := Driving]).(locks := w.locks[r := s])
    // The end of a drive, or of a thread that found the run locked.
    case Leave(s, r) =>
      Threads(w, s, w.schedulers[s].active[r := Done]).(
        locks := if w.schedulers[s].active[r].Driving? then w.locks - {r} else w.locks)
    case Reap(s, r) => Threads(w, s, w.schedulers[s].active - {r})
    case Die(s) =>
      w.(schedulers := w.schedulers - {s},
         queue := if w.queue == Some(s) then None else w.queue,
         locks := LocksWithout(w.locks, s))
    case SetTaskStatus(t, status) => w.(tasks := w.tasks[t := w.tasks[t].(status := status)])
    case SetRunStatus(r, status) => w.(runs := w.runs[r := w.runs[r].(status := status)])
  }

  // ---------------------------------------------------------------- invariants

  /** A scheduler is past idle exactly when it holds the queue lock. */
  predicate QueueInv(w: World) {
    && (w.queue.Some? ==> w.queue.value in w.schedulers)
    && forall s :: s in w.schedulers ==> (w.schedulers[s].claim.Idle? <==> w.queue != Some(s))
  }

  /** The runs a task has: those recorded with it, or those being created for it. */
  function Batch(w: World, t: nat): seq<nat>
    requires QueueInv(w) && t in w.tasks
  {
    if w.queue.Some? && w.schedulers[w.queue.value].claim.Creating? && w.schedulers[w.queue.value].claim.task == t
    then w.schedulers[w.queue.value].claim.made
    else w.tasks[t].runs
  }

  /** Every run is in its task's batch, at its variant. */
  predicate RunsInv(w: World)
    requires QueueInv(w)
  {
    && (forall r :: r in w.runs ==>
          && r < w.nextRun && w.runs[r].task in w.tasks
          && w.runs[r].variant < |Batch(w, w.runs[r].task)| && Batch(w, w.runs[r].task)[w.runs[r].variant] == r)
    && (forall s :: s in w.schedulers && w.schedulers[s].claim.Creating? ==>
          && w.schedulers[s].claim.task in w.tasks && w.tasks[w.schedulers[s].claim.task].runs == []
          && |w.schedulers[s].claim.made| <= Wanted(w.tasks[w.schedulers[s].claim.task]))
    && (forall t :: t in w.tasks ==> |w.tasks[t].runs| <= Wanted(w.tasks[t]))
  }

  predicate Drives(w: World, s: nat, r: nat) {
    s in w.schedulers && r in w.schedulers[s].active && w.schedulers[s].active[r].Driving?
  }

  predicate Holds(w: World, s: nat, r: nat) {
    r in w.locks && w.locks[r] == s
  }

  /** A thread drives a run exactly when its scheduler holds the run's lock. */
  ghost predicate LocksInv(w: World) {
    forall s, r :: Drives(w, s, r) <==> Holds(w, s, r)
  }

  /** What a scheduler has made so far are runs of the task it claims. */
  predicate MadeInv(w: World) {
    forall s, i :: s in w.schedulers && w.schedulers[s].claim.Creating? && 0 <= i < |w.schedulers[s].claim.made| ==>
      w.schedulers[s].claim.made[i] in w.runs
      && w.runs[w.schedulers[s].claim.made[i]].task == w.schedulers[s].claim.task
  }

  predicate CapInv(w: World) {
    forall s :: s in w.schedulers ==> |w.schedulers[s].active| <= w.schedulers[s].cap
  }

  ghost predicate Inv(w: World) {
    QueueInv(w) && RunsInv(w) && MadeInv(w) && LocksInv(w) && CapInv(w)
  }

  /** A store with tasks but no runs yet, and schedulers that have not begun. */
  predicate Init(w: World) {
    && w.runs == map[] && w.queue == None && w.locks == map[]
    && (forall t :: t in w.tasks ==> w.tasks[t].runs == [])
    && (forall s :: s in w.schedulers ==> w.schedulers[s].claim.Idle? && w.schedulers[s].active == map[])
  }

  // -------------------------------------------------------------- preservation

  /** Labels about threads and their locks; all others are about claims, tasks and runs. */
  predicate Threading(l: Label) {
    l.Start? || l.LockRun? || l.Leave? || l.Reap?
  }

  /** Everybody's claim and every run's place are as they were; statuses may differ. */
  predicate SameClaims(w: World, v: World) {
    && v.nextRun == w.nextRun && v.queue == w.queue
    && v.schedulers.Keys == w.schedulers.Keys
    && (forall s :: s in w.schedulers ==> v.schedulers[s].claim == w.schedulers[s].claim)
    && v.tasks.Keys == w.tasks.Keys
    && (forall t :: t in w.tasks ==> v.tasks[t].runs == w.tasks[t].runs && v.tasks[t].variants == w.tasks[t].variants)
    && v.runs.Keys == w.runs.Keys
    && (forall r :: r in w.runs ==> v.runs[r].task == w.runs[r].task && v.runs[r].variant == w.runs[r].variant)
  }

  /** Locks and threads are as they were. */
  predicate SameThreads(w: World, v: World) {
    && v.locks == w.locks && v.schedulers.Keys == w.schedulers.Keys
    && forall s :: s in w.schedulers ==>
         v.schedulers[s].active == w.schedulers[s].active && v.schedulers[s].cap == w.schedulers[s].cap
  }

  /** Labels that leave all claims alone. */
  predicate Aside(l: Label) {
    Threading(l) || l.SetTaskStatus? || l.SetRunStatus? || l.ListTasks?
  }

  lemma AsideFrame(w: World, l: Label, v: World)
    requires Aside(l) && Enabled(w, l) && v == Apply(w, l)
    ensures SameClaims(w, v)
  {}

  lemma ClaimingFrame(w: World, l: Label, v: World)
    requires !Threading(l) && !l.Die? && Enabled(w, l) && v == Apply(w, l)
    ensures SameThreads(w, v)
  {
    if l.SetTaskStatus? || l.SetRunStatus? || l.ListTasks? {
    } else {
      ClaimFrame(w, l, v);
      hide Enabled, Apply;
    }
  }

  lemma ClaimFrame(w: World, l: Label, v: World)
    requires !Aside(l) && !l.Die? && Enabled(w, l) && v == Apply(w, l)
    ensures SameThreads(w, v)
  {}

  lemma QueueMoves(w: World, l: Label, v: World)
    requires !Aside(l) && Enabled(w, l) && v == Apply(w, l)
    requires QueueInv(w)
    ensures QueueInv(v)
  {}

  lemma QueueKept(w: World, l: Label, v: World)
    requires Enabled(w, l) && v == Apply(w, l)
    requires QueueInv(w)
    ensures QueueInv(v)
  {
    hide Enabled, Apply;
    if Aside(l) {
      AsideFrame(w, l, v);
    } else {
      QueueMoves(w, l, v);
    }
  }

  lemma BatchIsTheSame(w: World, v: World, t: nat)
    requires QueueInv(w) && QueueInv(v) && SameClaims(w, v) && t in w.tasks
    ensures Batch(v, t) == Batch(w, t) && Wanted(v.tasks[t]) == Wanted(w.tasks[t])
  {}

  lemma BatchesAreTheSame(w: World, v: World)
    requires QueueInv(w) && RunsInv(w) && QueueInv(v) && SameClaims(w, v)
    ensures RunsInv(v)
  {
    forall t | t in w.tasks ensures Batch(v, t) == Batch(w, t) && Wanted(v.tasks[t]) == Wanted(w.tasks[t]) {
      BatchIsTheSame(w, v, t);
    }
    hide Batch, Wanted;
  }

  lemma LockQueueKeepsRuns(w: World, l: Label, v: World)
    requires l.LockQueue? && Enabled(w, l) && v == Apply(w, l)
    requires QueueInv(w) && RunsInv(w) && QueueInv(v)
    ensures RunsInv(v)
  {}

  lemma RecheckKeepsRuns(w: World, l: Label, v: World)
    requires l.Recheck? && Enabled(w, l) && v == Apply(w, l)
    requires QueueInv(w) && RunsInv(w) && QueueInv(v)
    ensures RunsInv(v)
  {}

  lemma CannotCreateKeepsRuns(w: World, l: Label, v: World)
    requires l.CannotCreate? && Enabled(w, l) && v == Apply(w, l)
    requires QueueInv(w) && RunsInv(w) && QueueInv(v)
    ensures RunsInv(v)
  {}

  lemma SaveRunKeepsRuns(w: World, l: Label, v: World)
    requires l.SaveRun? && Enabled(w, l) && v == Apply(w, l)
    requires QueueInv(w) && RunsInv(w) && QueueInv(v)
    ensures RunsInv(v)
  {}

  lemma SaveTaskFrame(w: World, l: Label, v: World)
    requires l.SaveTask? && Enabled(w, l) && v == Apply(w, l)
    requires QueueInv(w)
    ensures l.s in w.schedulers && w.schedulers[l.s].claim.Creating? && w.queue == Some(l.s)
    ensures var c := w.schedulers[l.s].claim;
            && c.task in w.tasks && |c.made| == Wanted(w.tasks[c.task])
            && v.queue == None && v.runs == w.runs && v.nextRun == w.nextRun
            && (forall s :: s in v.schedulers ==> v.schedulers[s].claim.Idle?)
            && var task := w.tasks[c.task];
               v.tasks == w.tasks[c.task := task.(status := Epics.Running, runs := task.runs + c.made)]
  {}

  lemma SaveTaskKeepsBatch(w: World, l: Label, v: World, t: nat)
    requires l.SaveTask? && Enabled(w, l) && v == Apply(w, l)
    requires QueueInv(w) && RunsInv(w) && QueueInv(v) && t in w.tasks
    ensures t in v.tasks && Batch(v, t) == Batch(w, t) && Wanted(v.tasks[t]) == Wanted(w.tasks[t])
    ensures |v.tasks[t].runs| <= Wanted(v.tasks[t])
  {
    SaveTaskFrame(w, l, v);
    hide Enabled, Apply;
    var c := w.schedulers[l.s].claim;
    assert w.tasks[c.task].runs == [] && [] + c.made == c.made;
  }

  lemma SaveTaskKeepsRuns(w: World, l: Label, v: World)
    requires l.SaveTask? && Enabled(w, l) && v == Apply(w, l)
    requires QueueInv(w) && RunsInv(w) && QueueInv(v)
    ensures RunsInv(v)
  {
    SaveTaskFrame(w, l, v);
    forall t | t in w.tasks
      ensures Batch(v, t) == Batch(w, t) && Wanted(v.tasks[t]) == Wanted(w.tasks[t])
      ensures |v.tasks[t].runs| <= Wanted(v.tasks[t])
    {
      SaveTaskKeepsBatch(w, l, v, t);
    }
    assert v.tasks.Keys == w.tasks.Keys;
    hide Enabled, Apply, Batch, Wanted, QueueInv;
  }

  lemma DieKeepsRuns(w: World, l: Label, v: World)
    requires l.Die? && Enabled(w, l) && v == Apply(w, l)
    requires QueueInv(w) && RunsInv(w) && QueueInv(v)
    ensures RunsInv(v)
  {}

  lemma RunsKept(w: World, l: Label, v: World)
    requires Enabled(w, l) && v == Apply(w, l)
    requires QueueInv(w) && RunsInv(w)
    ensures QueueInv(v) && RunsInv(v)
  {
    hide Enabled, Apply, QueueInv, RunsInv, SameClaims;
    QueueKept(w, l, v);
    match l {
      case LockQueue(_, _) => LockQueueKeepsRuns(w, l, v);
      case Recheck(_) => RecheckKeepsRuns(w, l, v);
      case CannotCreate(_) => CannotCreateKeepsRuns(w, l, v);
      case SaveRun(_) => SaveRunKeepsRuns(w, l, v);
      case SaveTask(_) => SaveTaskKeepsRuns(w, l, v);
      case Die(_) => DieKeepsRuns(w, l, v);
      case _ =>
        AsideFrame(w, l, v);
        BatchesAreTheSame(w, v);
    }
  }

  lemma MadeKept(w: World, l: Label, v: World)
    requires Enabled(w, l) && v == Apply(w, l)
    requires QueueInv(w) && RunsInv(w) && MadeInv(w)
    ensures MadeInv(v)
  {
    hide Batch, Wanted;
    if Aside(l) {
      AsideFrame(w, l, v);
      hide Enabled, Apply, QueueInv, RunsInv;
    }
  }

  lemma StartFrame(w: World, l: Label, v: World)
    requires l.Start? && Enabled(w, l) && v == Apply(w, l)
    ensures l.s in w.schedulers && l.r !in w.schedulers[l.s].active
            && |w.schedulers[l.s].active| < w.schedulers[l.s].cap
    ensures v == Threads(w, l.s, w.schedulers[l.s].active[l.r := Waiting])
  {}

  lemma LockRunFrame(w: World, l: Label, v: World)
    requires l.LockRun? && Enabled(w, l) && v == Apply(w, l)
    ensures l.s in w.schedulers && l.r in w.schedulers[l.s].active && w.schedulers[l.s].active[l.r].Waiting?
            && l.r !in w.locks
    ensures v == Threads(w, l.s, w.schedulers[l.s].active[l.r := Driving]).(locks := w.locks[l.r := l.s])
  {}

  lemma LeaveFrame(w: World, l: Label, v: World)
    requires l.Leave? && Enabled(w, l) && v == Apply(w, l)
    ensures l.s in w.schedulers && l.r in w.schedulers[l.s].active && !w.schedulers[l.s].active[l.r].Done?
    ensures v == Threads(w, l.s, w.schedulers[l.s].active[l.r := Done]).(
                   locks := if w.schedulers[l.s].active[l.r].Driving? then w.locks - {l.r} else w.locks)
  {}

  lemma ReapFrame(w: World, l: Label, v: World)
    requires l.Reap? && Enabled(w, l) && v == Apply(w, l)
    ensures l.s in w.schedulers && l.r in w.schedulers[l.s].active && w.schedulers[l.s].active[l.r].Done?
    ensures v == Threads(w, l.s, w.schedulers[l.s].active - {l.r})
  {}

  lemma ThreadsKeepLocks(w: World, l: Label, v: World)
    requires Threading(l) && Enabled(w, l) && v == Apply(w, l)
    requires LocksInv(w)
    ensures LocksInv(v)
  {
    hide Enabled, Apply;
    if l.Start? {
      StartFrame(w, l, v);
    } else if l.LockRun? {
      LockRunFrame(w, l, v);
    } else if l.Leave? {
      LeaveFrame(w, l, v);
    } else {
      ReapFrame(w, l, v);
    }
    forall s, r ensures Drives(v, s, r) <==> Holds(v, s, r) {
      assert Drives(w, s, r) <==> Holds(w, s, r);
      assert Drives(w, l.s, r) <==> Holds(w, l.s, r);
    }
  }

  lemma DieKeepsLocks(w: World, l: Label, v: World)
    requires l.Die? && Enabled(w, l) && v == Apply(w, l)
    requires LocksInv(w)
    ensures LocksInv(v)
  {
    assert v.schedulers == w.schedulers - {l.s} && v.locks == LocksWithout(w.locks, l.s);
    hide Enabled, Apply;
    forall s, r ensures Drives(v, s, r) <==> Holds(v, s, r) {
      assert Drives(w, s, r) <==> Holds(w, s, r);
    }
  }

  lemma LocksKept(w: World, l: Label, v: World)
    requires Enabled(w, l) && v == Apply(w, l)
    requires LocksInv(w)
    ensures LocksInv(v)
  {
    hide Enabled, Apply;
    if Threading(l) {
      hide LocksInv;
      ThreadsKeepLocks(w, l, v);
    } else if l.Die? {
      hide LocksInv;
      DieKeepsLocks(w, l, v);
    } else {
      ClaimingFrame(w, l, v);
      forall s, r ensures Drives(v, s, r) <==> Holds(v, s, r) {
        assert Drives(w, s, r) <==> Holds(w, s, r);
      }
    }
  }

  lemma ActiveSize(active: map<nat, Thread>, r: nat, t: Thread)
    ensures |active[r := t]| == if r in active then |active| else |active| + 1
    ensures |active - {r}| <= |active|
  {
    assert active[r := t].Keys == active.Keys + {r};
    assert (active - {r}).Keys == active.Keys - {r};
    assert |active.Keys| == |active| && |active[r := t].Keys| == |active[r := t]|
           && |(active - {r}).Keys| == |active - {r}|;
  }

  lemma OneThreadMoves(w: World, s: nat, active: map<nat, Thread>, v: World)
    requires CapInv(w) && s in w.schedulers && v.schedulers == Threads(w, s, active).schedulers
    requires |active| <= |w.schedulers[s].active| || |active| <= w.schedulers[s].cap
    ensures CapInv(v)
  {}

  lemma ThreadsKeepCap(w: World, l: Label, v: World)
    requires Threading(l) && Enabled(w, l) && v == Apply(w, l)
    requires CapInv(w)
    ensures CapInv(v)
  {
    var active := w.schedulers[l.s].active;
    hide Enabled, Apply, CapInv;
    if l.Start? {
      StartFrame(w, l, v);
      ActiveSize(active, l.r, Waiting);
      OneThreadMoves(w, l.s, active[l.r := Waiting], v);
    } else if l.LockRun? {
      LockRunFrame(w, l, v);
      ActiveSize(active, l.r, Driving);
      OneThreadMoves(w, l.s, active[l.r := Driving], v);
    } else if l.Leave? {
      LeaveFrame(w, l, v);
      ActiveSize(active, l.r, Done);
      OneThreadMoves(w, l.s, active[l.r := Done], v);
    } else {
      ReapFrame(w, l, v);
      ActiveSize(active, l.r, Done);
      OneThreadMoves(w, l.s, active - {l.r}, v);
    }
  }

  lemma DeathFrame(w: World, l: Label, v: World)
    requires l.Die? && Enabled(w, l) && v == Apply(w, l)
    ensures forall s :: s in v.schedulers ==> s in w.schedulers && v.schedulers[s] == w.schedulers[s]
  {}

  lemma CapKept(w: World, l: Label, v: World)
    requires Enabled(w, l) && v == Apply(w, l)
    requires CapInv(w)
    ensures CapInv(v)
  {
    hide Enabled, Apply;
    if Threading(l) {
      hide CapInv;
      ThreadsKeepCap(w, l, v);
    } else if l.Die? {
      DeathFrame(w, l, v);
    } else {
      ClaimingFrame(w, l, v);
    }
  }

  // ---------------------------------------------------------------- executions

  predicate StepAt(path: seq<World>, labels: seq<Label>, i: nat)
    requires i < |labels| && |path| == |labels| + 1
  {
    Enabled(path[i], labels[i]) && path[i + 1] == Apply(path[i], labels[i])
  }

  ghost predicate Execution(path: seq<World>, labels: seq<Label>) {
    && |path| == |labels| + 1
    && Init(path[0])
    && forall i: nat :: i < |labels| ==> StepAt(path, labels, i)
  }

  lemma {:induction false} AlwaysInv(path: seq<World>, labels: seq<Label>, i: nat)
    requires Execution(path, labels) && i < |path|
    ensures Inv(path[i])
  {
    if i == 0 {
      hide Enabled, Apply;
    } else {
      hide Enabled, Apply, QueueInv, RunsInv, MadeInv, LocksInv, CapInv;
      AlwaysInv(path, labels, i - 1);
      assert StepAt(path, labels, i - 1);
      RunsKept(path[i - 1], labels[i - 1], path[i]);
      MadeKept(path[i - 1], labels[i - 1], path[i]);
      LocksKept(path[i - 1], labels[i - 1], path[i]);
      CapKept(path[i - 1], labels[i - 1], path[i]);
    }
  }

  /** However many schedulers tick, and however stale their lists, no variant of a task gets two runs. */
  lemma OneRunPerVariant(path: seq<World>, labels: seq<Label>, i: nat, a: nat, b: nat)
    requires Execution(path, labels) && i < |path|
    requires a in path[i].runs && b in path[i].runs
    requires path[i].runs[a].task == path[i].runs[b].task && path[i].runs[a].variant == path[i].runs[b].variant
    ensures a == b
  {
    AlwaysInv(path, labels, i);
    hide Enabled, Apply, LocksInv, CapInv, Init;
  }

  /** And a task never has more runs than variants. */
  lemma VariantsAreBounded(path: seq<World>, labels: seq<Label>, i: nat, r: nat)
    requires Execution(path, labels) && i < |path| && r in path[i].runs
    ensures path[i].runs[r].task in path[i].tasks
    ensures path[i].runs[r].variant < Wanted(path[i].tasks[path[i].runs[r].task])
  {
    AlwaysInv(path, labels, i);
    hide Enabled, Apply, LocksInv, CapInv, Init;
  }

  /** Runs made for a task are its runs, each at its place. */
  predicate InOrder(w: World, t: nat, made: seq<nat>) {
    forall i :: 0 <= i < |made| ==> made[i] in w.runs && w.runs[made[i]].task == t && w.runs[made[i]].variant == i
  }

  /** A task has no runs yet, or all of them: one per variant, in order. */
  predicate Complete(w: World, t: nat)
    requires t in w.tasks
  {
    w.tasks[t].runs == [] || (|w.tasks[t].runs| == Wanted(w.tasks[t]) && InOrder(w, t, w.tasks[t].runs))
  }

  predicate OrderInv(w: World) {
    && (forall t :: t in w.tasks ==> Complete(w, t))
    && (forall s :: s in w.schedulers && w.schedulers[s].claim.Creating? ==>
          InOrder(w, w.schedulers[s].claim.task, w.schedulers[s].claim.made))
  }

  lemma SaveRunKeepsOrder(w: World, l: Label, v: World)
    requires l.SaveRun? && Enabled(w, l) && v == Apply(w, l)
    requires QueueInv(w) && RunsInv(w) && OrderInv(w)
    ensures OrderInv(v)
  {
    assert w.nextRun !in w.runs;
    assert v.tasks == w.tasks && forall r :: r in w.runs ==> r in v.runs && v.runs[r] == w.runs[r];
    forall t | t in v.tasks ensures Complete(v, t) {
      assert Complete(w, t);
    }
  }

  lemma SaveTaskKeepsOrder(w: World, l: Label, v: World)
    requires l.SaveTask? && Enabled(w, l) && v == Apply(w, l)
    requires QueueInv(w) && RunsInv(w) && OrderInv(w)
    ensures OrderInv(v)
  {
    var c := w.schedulers[l.s].claim;
    assert w.tasks[c.task].runs == [] && [] + c.made == c.made;
    assert v.runs == w.runs;
    forall t | t in v.tasks ensures Complete(v, t) {
      assert t != c.task ==> Complete(w, t);
    }
  }

  lemma OrderKept(w: World, l: Label, v: World)
    requires Enabled(w, l) && v == Apply(w, l)
    requires QueueInv(w) && RunsInv(w) && OrderInv(w)
    ensures OrderInv(v)
  {
    if l.SaveRun? {
      hide QueueInv, RunsInv, OrderInv;
      SaveRunKeepsOrder(w, l, v);
    } else if l.SaveTask? {
      hide QueueInv, RunsInv, OrderInv;
      SaveTaskKeepsOrder(w, l, v);
    } else {
      hide QueueInv, RunsInv, Wanted, InOrder;
      if Aside(l) {
        AsideFrame(w, l, v);
        OrderIsTheSame(w, v);
      } else {
        OthersKeepOrder(w, l, v);
      }
    }
  }

  lemma OrderIsTheSame(w: World, v: World)
    requires SameClaims(w, v) && OrderInv(w)
    ensures OrderInv(v)
  {
    forall t | t in v.tasks ensures Complete(v, t) {
      assert Complete(w, t);
    }
  }

  lemma OthersKeepOrder(w: World, l: Label, v: World)
    requires !Aside(l) && !l.SaveRun? && !l.SaveTask? && Enabled(w, l) && v == Apply(w, l)
    requires OrderInv(w)
    ensures OrderInv(v)
  {
    assert v.runs == w.runs && v.tasks.Keys == w.tasks.Keys;
    forall t | t in v.tasks ensures Complete(v, t) {
      assert Complete(w, t) && v.tasks[t].runs == w.tasks[t].runs && v.tasks[t].variants == w.tasks[t].variants;
    }
  }

  lemma {:induction false} AlwaysInOrder(path: seq<World>, labels: seq<Label>, i: nat)
    requires Execution(path, labels) && i < |path|
    ensures OrderInv(path[i])
  {
    if i > 0 {
      AlwaysInOrder(path, labels, i - 1);
      AlwaysInv(path, labels, i - 1);
      assert StepAt(path, labels, i - 1);
      hide Enabled, Apply, QueueInv, RunsInv, MadeInv, LocksInv, CapInv, OrderInv;
      OrderKept(path[i - 1], labels[i - 1], path[i]);
    } else {
      hide Enabled, Apply;
    }
  }

  /** A claimed task has exactly one run for each of its variants, recorded in their order. */
  lemma ClaimedIsComplete(path: seq<World>, labels: seq<Label>, i: nat, t: nat)
    requires Execution(path, labels) && i < |path| && t in path[i].tasks && path[i].tasks[t].runs != []
    ensures var w, task := path[i], path[i].tasks[t];
            && |task.runs| == (if task.variants > 1 then task.variants else 1)
            && forall v :: 0 <= v < |task.runs| ==>
                 task.runs[v] in w.runs && w.runs[task.runs[v]].task == t && w.runs[task.runs[v]].variant == v
  {
    AlwaysInOrder(path, labels, i);
    hide Execution;
    assert Complete(path[i], t);
  }

  /** What a step may do to a task: being claimed or refused is final for the queue, anything else is from outside. */
  lemma TaskMoves(w: World, l: Label, v: World, t: nat)
    requires Enabled(w, l) && v == Apply(w, l) && t in w.tasks
    ensures t in v.tasks && v.tasks[t].variants == w.tasks[t].variants
    ensures v.tasks[t].status != w.tasks[t].status ==>
              || (l.SaveTask? && v.tasks[t].status.Running?)
              || (l.CannotCreate? && v.tasks[t].status.Failed?)
              || l == SetTaskStatus(t, v.tasks[t].status)
    ensures v.tasks[t].runs != w.tasks[t].runs ==> l.SaveTask? && !Claimable(v.tasks[t])
    ensures l.SaveTask? && t == w.schedulers[l.s].claim.task ==> v.tasks[t].status.Running?
    ensures l.CannotCreate? && t == w.schedulers[l.s].claim.task ==> v.tasks[t].status.Failed?
  {}

  /** A claim is given up exactly when the task, looked at again under the lock, is no longer there to be claimed. */
  lemma RecheckIff(w: World, l: Label, v: World)
    requires l.Recheck? && Enabled(w, l) && v == Apply(w, l)
    ensures var t := w.tasks[w.schedulers[l.s].claim.task];
            && (v.schedulers[l.s].claim.Creating? <==> t.status.Queued? && t.runs == [])
            && (v.schedulers[l.s].claim.Creating? ==> v.queue == w.queue && v.schedulers[l.s].claim.made == [])
            && (!v.schedulers[l.s].claim.Creating? ==> v.queue == None && v.schedulers[l.s].claim.Idle?)
  {}

  /** No run is ever driven by two schedulers. */
  lemma OneDriver(path: seq<World>, labels: seq<Label>, i: nat, s: nat, t: nat, r: nat)
    requires Execution(path, labels) && i < |path|
    requires Drives(path[i], s, r) && Drives(path[i], t, r)
    ensures s == t
  {
    var w := path[i];
    AlwaysInv(path, labels, i);
    hide Enabled, Apply, QueueInv, RunsInv, CapInv, Init;
    assert Holds(w, s, r) && Holds(w, t, r);
  }

  /** A scheduler never has more active runs than it may. */
  lemma ParallelRunsAreBounded(path: seq<World>, labels: seq<Label>, i: nat, s: nat)
    requires Execution(path, labels) && i < |path| && s in path[i].schedulers
    ensures |path[i].schedulers[s].active| <= path[i].schedulers[s].cap
  {
    AlwaysInv(path, labels, i);
    hide Enabled, Apply, QueueInv, RunsInv, LocksInv, Init;
  }

  // ------------------------------------------- why no crash while creating runs

  /** What the death of a scheduler's process leaves, at whatever point. */
  function Gone(w: World, s: nat): World {
    w.(schedulers := w.schedulers - {s},
       queue := if w.queue == Some(s) then None else w.queue,
       locks := LocksWithout(w.locks, s))
  }

  lemma GoneKeepsQueue(w: World, s: nat)
    requires QueueInv(w) && s in w.schedulers
    ensures QueueInv(Gone(w, s))
  {}

  /** A run made for a claim that is gone belongs to no batch. */
  lemma OrphanBreaksRuns(w: World, s: nat)
    requires QueueInv(w) && RunsInv(w) && MadeInv(w) && s in w.schedulers
    requires w.schedulers[s].claim.Creating? && w.schedulers[s].claim.made != []
    ensures QueueInv(Gone(w, s)) && !RunsInv(Gone(w, s))
  {
    GoneKeepsQueue(w, s);
    var r := w.schedulers[s].claim.made[0];
    assert r in Gone(w, s).runs && Batch(Gone(w, s), w.runs[r].task) == [];
  }

  lemma DeathKeepsRuns(w: World, s: nat)
    requires QueueInv(w) && RunsInv(w) && s in w.schedulers
    requires w.schedulers[s].claim.Creating? ==> w.schedulers[s].claim.made == []
    ensures QueueInv(Gone(w, s)) && RunsInv(Gone(w, s))
  {
    assert Enabled(w, Die(s)) && Gone(w, s) == Apply(w, Die(s));
    GoneKeepsQueue(w, s);
    DieKeepsRuns(w, Die(s), Gone(w, s));
  }

  /**
   * Exactly when the death of a scheduler's process leaves every run in its task's batch: unless it
   * has saved some of the runs of a task and not yet the task.
   */
  lemma DeathIsHarmlessIff(w: World, s: nat)
    requires Inv(w) && s in w.schedulers
    ensures QueueInv(Gone(w, s))
    ensures RunsInv(Gone(w, s)) <==> !(w.schedulers[s].claim.Creating? && w.schedulers[s].claim.made != [])
  {
    hide RunsInv, QueueInv, MadeInv, LocksInv, CapInv;
    if w.schedulers[s].claim.Creating? && w.schedulers[s].claim.made != [] {
      OrphanBreaksRuns(w, s);
    } else {
      DeathKeepsRuns(w, s);
    }
  }

  const ONE_TASK := map[0 := Task(Epics.Queued, 1, [])]

  const FRESH := Scheduler(ONE_TASK, Idle, map[], 1)

  const TWO_SCHEDULERS := World(ONE_TASK, map[], 0, None, map[], map[0 := FRESH, 1 := FRESH])

  /** These labels are possible one after the other, and lead there. */
  predicate Leads(w: World, labels: seq<Label>, v: World)
    decreases |labels|
  {
    if labels == [] then v == w
    else Enabled(w, labels[0]) && Leads(Apply(w, labels[0]), labels[1..], v)
  }

  /** A scheduler locks the queue, re-checks the task and saves its one run. */
  function CreatingLabels(s: nat): seq<Label> {
    [LockQueue(s, 0), Recheck(s), SaveRun(s)]
  }

  lemma Creates(w: World, s: nat) returns (v: World)
    requires s in w.schedulers && w.schedulers[s] == FRESH && w.queue == None && w.tasks == ONE_TASK
    ensures Leads(w, CreatingLabels(s), v)
    ensures v == World(
              w.tasks,
              w.runs[w.nextRun := Run(0, 0, RunModel.RunStatus.Pending)],
              w.nextRun + 1,
              Some(s),
              w.locks,
              w.schedulers[s := FRESH.(claim := Creating(0, [w.nextRun]))])
  {
    var a := Apply(w, LockQueue(s, 0));
    var b := Apply(a, Recheck(s));
    v := Apply(b, SaveRun(s));
    assert [] + [w.nextRun] == [w.nextRun];
    assert v.schedulers == w.schedulers[s := FRESH.(claim := Creating(0, [w.nextRun]))];
    var labels := CreatingLabels(s);
    assert labels[1..] == [Recheck(s), SaveRun(s)] && labels[1..][1..] == [SaveRun(s)];
    assert Leads(v, [], v);
    assert Leads(b, [SaveRun(s)], v);
    assert Leads(a, [Recheck(s), SaveRun(s)], v);
  }

  /**
   * A crash between the first saved run and the task's own save leaves the task looking unclaimed:
   * the next scheduler makes the run of the same variant again.
   */
  lemma CrashWhileCreatingDuplicates() returns (first: World, second: World)
    ensures Init(TWO_SCHEDULERS)
    ensures Leads(TWO_SCHEDULERS, CreatingLabels(0), first) && Leads(Gone(first, 0), CreatingLabels(1), second)
    ensures second.runs == map[0 := Run(0, 0, RunModel.RunStatus.Pending), 1 := Run(0, 0, RunModel.RunStatus.Pending)]
  {
    hide Leads, Enabled, Apply;
    first := Creates(TWO_SCHEDULERS, 0);
    var left := Gone(first, 0);
    assert left.schedulers == map[1 := FRESH];
    second := Creates(left, 1);
  }

  // ------------------------------------------------------------- starting runs

  /** The last part of a tick: pending runs start in order until the scheduler is full. */
  method StartPending(active: set<nat>, pending: seq<nat>, cap: nat) returns (now: set<nat>, started: seq<nat>)
    requires |active| <= cap
    requires forall i :: 0 <= i < |pending| ==> pending[i] !in active
    requires forall i, j :: 0 <= i < j < |pending| ==> pending[i] != pending[j]
    ensures started <= pending && |now| <= cap
    ensures forall r :: r in now <==> r in active || r in started
    ensures |now| == |active| + |started|
    ensures |started| < |pending| ==> |now| == cap
  {
    now := active;
    var i := 0;
    while i < |pending|
      invariant 0 <= i <= |pending|
      invariant forall r :: r in now <==> r in active || r in pending[..i]
      invariant |now| == |active| + i <= cap
    {
      if |now| >= cap {
        break;
      }
      var r := pending[i];
      assert pending[..i + 1] == pending[..i] + [r];
      assert forall j :: 0 <= j < i ==> pending[j] != r;
      assert r !in now;
      now := now + {r};
      i := i + 1;
    }
    started := pending[..i];
  }

  // --------------------------------------------------------------- task status

  /** A task's status, recomputed from those of its runs. */
  function TaskStatus(runs: seq<RunModel.RunStatus>): Epics.TaskStatus {
    if exists i :: 0 <= i < |runs| && runs[i].AwaitingApproval? then Epics.AwaitingApproval
    else if exists i :: 0 <= i < |runs| && (runs[i].Pending? || runs[i].Preparing? || runs[i].Running?)
    then Epics.Running
    else if exists i :: 0 <= i < |runs| && (runs[i].Blocked? || runs[i].NeedsHuman?) then Epics.Blocked
    else if exists i :: 0 <= i < |runs| && runs[i].Succeeded? then Epics.Succeeded
    else if forall i :: 0 <= i < |runs| ==> runs[i].Cancelled? then Epics.Cancelled
    else Epics.Failed
  }

  predicate Has(runs: seq<RunModel.RunStatus>, s: RunModel.RunStatus) {
    exists i :: 0 <= i < |runs| && runs[i] == s
  }

  /** The most pressing of its runs' statuses decides a task's: each status, and exactly when. */
  lemma TaskStatusIff(runs: seq<RunModel.RunStatus>)
    ensures var r := TaskStatus(runs);
            var busy := Has(runs, RunModel.RunStatus.Pending) || Has(runs, RunModel.RunStatus.Preparing)
                        || Has(runs, RunModel.RunStatus.Running);
            var stuck := Has(runs, RunModel.RunStatus.Blocked) || Has(runs, RunModel.RunStatus.NeedsHuman);
            && (r.AwaitingApproval? <==> Has(runs, RunModel.RunStatus.AwaitingApproval))
            && (r.Running? <==> busy && !Has(runs, RunModel.RunStatus.AwaitingApproval))
            && (r.Blocked? <==> stuck && !busy && !Has(runs, RunModel.RunStatus.AwaitingApproval))
            && (r.Failed? <==>
                  && Has(runs, RunModel.RunStatus.Failed) && !Has(runs, RunModel.RunStatus.Succeeded)
                  && !busy && !stuck && !Has(runs, RunModel.RunStatus.AwaitingApproval))
            && (r.Cancelled? <==> forall i :: 0 <= i < |runs| ==> runs[i].Cancelled?)
  {}

  /** A task is over exactly when all its runs are, and is never queued again by its runs. */
  lemma TaskIsOverIff(runs: seq<RunModel.RunStatus>)
    ensures Epics.IsTerminal(TaskStatus(runs)) <==> forall i :: 0 <= i < |runs| ==> runs[i].IsTerminal()
    ensures !TaskStatus(runs).Queued?
    ensures runs != [] ==>
              (TaskStatus(runs).Succeeded? <==>
                 (forall i :: 0 <= i < |runs| ==> runs[i].IsTerminal())
                 && exists i :: 0 <= i < |runs| && runs[i].Succeeded?)
  {}
}
